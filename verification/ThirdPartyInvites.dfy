/** A room in which a third-party invite unseats the top user (synapse/event_auth.py): Alice has all the power,
    Bob has none, and Bob places a third-party invite and then uses it on Alice. Every event passes the
    checks against the auth events it claims as well as those against the room's state.
 */
module ThirdPartyInvites {
  import opened Events
  import opened EventAuth
  import opened Histories
  import opened Wrappers

  // ---------------------------------------------------------------------------------------------
  // Histories whose events pass both checks

  ghost function ById(h: seq<Event>): map<string, Event> {
    if h == [] then map[] else ById(Front(h))[Last(h).id := Last(h)]
  }

  /** Every event after the first claims acceptable auth events among those before it. */
  ghost predicate ClaimsPass(h: seq<Event>)
    decreases |h|
  {
    |h| <= 1 || (ClaimsPass(Front(h)) && ClaimsAcceptable(Last(h), ById(Front(h))))
  }

  /** Ids told apart by their lengths. */
  predicate Numbered(h: seq<Event>) {
    forall i :: 0 <= i < |h| ==> |h[i].id| == i + 1
  }

  lemma {:induction false} Listed(h: seq<Event>, i: nat)
    requires Numbered(h) && i < |h|
    ensures h[i].id in ById(h) && ById(h)[h[i].id] == h[i]
    decreases |h|
  {
    if i < |h| - 1 { Listed(Front(h), i); }
  }

  ghost predicate Passes(h: seq<Event>) {
    ValidHistory(h) && Numbered(h) && ClaimsPass(h)
  }

  lemma {:induction false} Extended(h: seq<Event>, e: Event)
    requires Passes(h) && Accepts(RoomState(h), e) && ClaimsAcceptable(e, ById(h))
    requires e.prevs == [Last(h).id] && e.version == h[0].version && e.roomId == h[0].roomId && |e.id| == |h| + 1
    ensures Passes(h + [e]) && RoomState(h + [e]) == Update(RoomState(h), e)
  {
    assert Front(h + [e]) == h && Last(h + [e]) == e;
  }

  // ---------------------------------------------------------------------------------------------
  // The room

  const ALICE := "@a:x"
  const BOB := "@b:x"
  const BLANK := Content(None, None, {}, None, None, Levels(map[], map[], map[], map[]), None, true, true, None)

  function ExampleEvent(id: string, etype: EventType, key: string, sender: string, content: Content,
                        prevs: seq<string>, authIds: seq<string>): Event
  {
    Event(id, etype, Some(key), sender, "!r:x", content, None, None, prevs, authIds, 0, false, false, false,
          RoomVersion(false, false, true, false, true, true, false))
  }

  const CREATED := ExampleEvent("$", Create, "", ALICE, BLANK.(creator := Some(ALICE)), [], [])
  const ALICE_JOINED := ExampleEvent("$1", Member, ALICE, ALICE, BLANK.(membership := Some(Join)), ["$"], ["$"])
  const BOB_INVITED := ExampleEvent("$22", Member, BOB, ALICE, BLANK.(membership := Some(Invite)), ["$1"], ["$", "$1"])
  const BOB_JOINED := ExampleEvent("$333", Member, BOB, BOB, BLANK.(membership := Some(Join)), ["$22"], ["$", "$22"])
  const LEVELS_SET :=
    ExampleEvent("$4444", PowerLevels, "", ALICE,
                 BLANK.(levels := Levels(map[], map[ALICE := 100], map[], map[])), ["$333"], ["$", "$1"])
  const TOKEN_PLACED :=
    ExampleEvent("$55555", ThirdPartyInvite, "t", BOB, BLANK.(publicKeys := {"k"}), ["$4444"],
                 ["$", "$4444", "$333"])
  const ALICE_INVITED :=
    ExampleEvent("$666666", Member, ALICE, BOB,
                 BLANK.(membership := Some(Invite), thirdPartyInvite := Some(Signed("t", Some(ALICE), Some({"k"})))),
                 ["$55555"], ["$", "$4444", "$333", "$1", "$55555"])

  lemma ExampleIds()
    ensures DomainOf(ALICE) == Some("x") && DomainOf(BOB) == Some("x") && DomainOf("!r:x") == Some("x")
    ensures IsUserId(ALICE) && ALICE != BOB
  {
    assert ALICE[2] == ':';
  }

  predicate Knows(found: map<string, Event>, e: Event) {
    e.id in found && found[e.id] == e
  }

  // ---------------------------------------------------------------------------------------------
  // The claims

  lemma OneClaim(e: Event, found: map<string, Event>, a: Event)
    requires e.authIds == [a.id] && Knows(found, a) && a.etype == Create && a.stateKey == Some("")
    requires AuthTypes(e).Some? && ClaimUsable(e, a.id, found, AuthTypes(e).value)
    ensures ClaimsAcceptable(e, found)
  {
    assert KeyOf(found[e.authIds[0]]) == (Create, "");
  }

  lemma TwoClaims(e: Event, found: map<string, Event>, a: Event, b: Event)
    requires e.authIds == [a.id, b.id] && Knows(found, a) && Knows(found, b)
    requires a.stateKey == Some("") && a.etype == Create && b.stateKey.Some? && b.etype != Create
    requires AuthTypes(e).Some?
    requires ClaimUsable(e, a.id, found, AuthTypes(e).value) && ClaimUsable(e, b.id, found, AuthTypes(e).value)
    ensures ClaimsAcceptable(e, found)
  {
    assert KeyOf(found[e.authIds[0]]) == (Create, "");
  }

  lemma FirstClaims(found: map<string, Event>)
    requires Knows(found, CREATED)
    ensures ClaimsAcceptable(ALICE_JOINED, found)
  {
    OneClaim(ALICE_JOINED, found, CREATED);
  }

  lemma AliceClaims(found: map<string, Event>)
    requires Knows(found, CREATED) && Knows(found, ALICE_JOINED)
    ensures ClaimsAcceptable(BOB_INVITED, found) && ClaimsAcceptable(LEVELS_SET, found)
  {
    TwoClaims(BOB_INVITED, found, CREATED, ALICE_JOINED);
    TwoClaims(LEVELS_SET, found, CREATED, ALICE_JOINED);
  }

  lemma BobClaims(found: map<string, Event>)
    requires Knows(found, CREATED) && Knows(found, BOB_INVITED)
    ensures ClaimsAcceptable(BOB_JOINED, found)
  {
    TwoClaims(BOB_JOINED, found, CREATED, BOB_INVITED);
  }

  lemma TokenClaims(found: map<string, Event>)
    requires Knows(found, CREATED) && Knows(found, LEVELS_SET) && Knows(found, BOB_JOINED)
    ensures ClaimsAcceptable(TOKEN_PLACED, found)
  {
    var ids := TOKEN_PLACED.authIds;
    assert ids[0] == CREATED.id && ids[1] == LEVELS_SET.id && ids[2] == BOB_JOINED.id;
    assert KeyOf(found[ids[0]]) == (Create, "") && KeyOf(found[ids[1]]) == (PowerLevels, "");
    assert KeyOf(found[ids[2]]) == (Member, BOB);
  }

  lemma InviteClaims(found: map<string, Event>)
    requires Knows(found, CREATED) && Knows(found, LEVELS_SET) && Knows(found, BOB_JOINED)
    requires Knows(found, ALICE_JOINED) && Knows(found, TOKEN_PLACED)
    ensures ClaimsAcceptable(ALICE_INVITED, found)
  {
    ExampleIds();
    var ids := ALICE_INVITED.authIds;
    assert ids[0] == CREATED.id && ids[1] == LEVELS_SET.id && ids[2] == BOB_JOINED.id;
    assert ids[3] == ALICE_JOINED.id && ids[4] == TOKEN_PLACED.id;
    assert KeyOf(found[ids[0]]) == (Create, "") && KeyOf(found[ids[1]]) == (PowerLevels, "");
    assert KeyOf(found[ids[2]]) == (Member, BOB) && KeyOf(found[ids[3]]) == (Member, ALICE);
    assert KeyOf(found[ids[4]]) == (ThirdPartyInvite, "t");
  }

  // ---------------------------------------------------------------------------------------------
  // The history

  lemma RoomOfAlice() returns (h: seq<Event>)
    ensures Passes(h) && h == [CREATED, ALICE_JOINED]
    ensures RoomState(h) == map[(Create, "") := CREATED, (Member, ALICE) := ALICE_JOINED]
  {
    ExampleIds();
    h := [CREATED];
    assert Front(h) == [] && RoomState([]) == map[];
    assert RoomState(h) == map[(Create, "") := CREATED];
    assert IsCreatorJoin(ALICE_JOINED, RoomState(h));
    Listed(h, 0);
    FirstClaims(ById(h));
    Extended(h, ALICE_JOINED);
    h := h + [ALICE_JOINED];
  }

  lemma InviteOfBob(s: State)
    requires s == map[(Create, "") := CREATED, (Member, ALICE) := ALICE_JOINED]
    ensures Accepts(s, BOB_INVITED)
  {
    ExampleIds();
    assert CheckInvite(BOB_INVITED, BOB, s) == Allow;
  }

  lemma JoinOfBob(s: State)
    requires s == map[(Create, "") := CREATED, (Member, ALICE) := ALICE_JOINED, (Member, BOB) := BOB_INVITED]
    ensures Accepts(s, BOB_JOINED)
  {
    ExampleIds();
    assert CheckJoin(BOB_JOINED, BOB, s) == Allow;
  }

  lemma RoomWithBobInvited() returns (h: seq<Event>)
    ensures Passes(h) && h == [CREATED, ALICE_JOINED, BOB_INVITED]
    ensures RoomState(h) == map[(Create, "") := CREATED, (Member, ALICE) := ALICE_JOINED, (Member, BOB) := BOB_INVITED]
  {
    h := RoomOfAlice();
    ExampleIds();
    InviteOfBob(RoomState(h));
    Listed(h, 0);
    Listed(h, 1);
    AliceClaims(ById(h));
    Extended(h, BOB_INVITED);
    h := h + [BOB_INVITED];
  }

  lemma RoomOfTwo() returns (h: seq<Event>)
    ensures Passes(h) && h == [CREATED, ALICE_JOINED, BOB_INVITED, BOB_JOINED]
    ensures RoomState(h) == map[(Create, "") := CREATED, (Member, ALICE) := ALICE_JOINED, (Member, BOB) := BOB_JOINED]
  {
    h := RoomWithBobInvited();
    JoinOfBob(RoomState(h));
    Listed(h, 0);
    Listed(h, 2);
    BobClaims(ById(h));
    Extended(h, BOB_JOINED);
    h := h + [BOB_JOINED];
  }

  lemma LevelsAccepted(s: State)
    requires s == map[(Create, "") := CREATED, (Member, ALICE) := ALICE_JOINED, (Member, BOB) := BOB_JOINED]
    ensures Accepts(s, LEVELS_SET) && PowerRoom(Update(s, LEVELS_SET))
  {
    ExampleIds();
    assert UserLevel(s, ALICE) == 100;
    assert CheckPowerLevels(LEVELS_SET, s) == Allow;
  }

  predicate PowerRoom(s: State) {
    IsJoined(s, ALICE) && IsJoined(s, BOB) && Get(s, (PowerLevels, "")) == Some(LEVELS_SET)
  }

  lemma RoomWithLevels() returns (h: seq<Event>)
    ensures Passes(h) && h == [CREATED, ALICE_JOINED, BOB_INVITED, BOB_JOINED, LEVELS_SET]
    ensures PowerRoom(RoomState(h))
  {
    h := RoomOfTwo();
    LevelsAccepted(RoomState(h));
    Listed(h, 0);
    Listed(h, 1);
    AliceClaims(ById(h));
    Extended(h, LEVELS_SET);
    h := h + [LEVELS_SET];
  }

  lemma TokenAccepted(s: State)
    requires PowerRoom(s)
    ensures Accepts(s, TOKEN_PLACED) && TokenRoom(Update(s, TOKEN_PLACED))
  {
    ExampleIds();
    assert UserLevel(s, BOB) == 0 && NamedLevel(s, InviteLevel, 0) == 0;
  }

  predicate TokenRoom(s: State) {
    PowerRoom(s) && Get(s, (ThirdPartyInvite, "t")) == Some(TOKEN_PLACED)
  }

  lemma RoomWithToken() returns (h: seq<Event>)
    ensures Passes(h) && h == [CREATED, ALICE_JOINED, BOB_INVITED, BOB_JOINED, LEVELS_SET, TOKEN_PLACED]
    ensures TokenRoom(RoomState(h))
  {
    h := RoomWithLevels();
    TokenAccepted(RoomState(h));
    Listed(h, 0);
    Listed(h, 3);
    Listed(h, 4);
    TokenClaims(ById(h));
    Extended(h, TOKEN_PLACED);
    h := h + [TOKEN_PLACED];
  }

  lemma AliceMayBeInvited(s: State)
    requires TokenRoom(s)
    ensures AtCeiling(s, ALICE) && UserLevel(s, BOB) < UserLevel(s, ALICE)
    ensures Accepts(s, ALICE_INVITED) && MembershipOf(Update(s, ALICE_INVITED), ALICE) == Some(Invite)
  {
    ExampleIds();
    assert "k" in {"k"} * {"k"};
    assert ThirdPartyInviteVerified(ALICE_INVITED, s);
    InviteAccepted(s, ALICE_INVITED, ALICE);
  }

  /** Bob, with no power, turns the joined, all-powerful Alice into an invitee. */
  lemma TopUserUnseated() returns (h: seq<Event>, e: Event, u: string)
    ensures ValidHistory(h) && ValidHistory(h + [e]) && ClaimsPass(h + [e])
    ensures AtCeiling(RoomState(h), u) && IsJoined(RoomState(h), u)
    ensures e.sender != u && UserLevel(RoomState(h), e.sender) < UserLevel(RoomState(h), u)
    ensures MembershipOf(RoomState(h + [e]), u) == Some(Invite)
  {
    h := RoomWithToken();
    e, u := ALICE_INVITED, ALICE;
    AliceMayBeInvited(RoomState(h));
    Listed(h, 0);
    Listed(h, 1);
    Listed(h, 3);
    Listed(h, 4);
    Listed(h, 5);
    InviteClaims(ById(h));
    Extended(h, e);
  }
}
