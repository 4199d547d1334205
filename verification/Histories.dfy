/** What the authorisation rules guarantee over whole room histories. A history is linear: every
    event's only previous event is the one before it, and it is checked against the state built from
    all earlier events.
 */
module Histories {
  import opened Events
  import opened EventAuth
  import opened Wrappers

  // ---------------------------------------------------------------------------------------------
  // Runs of accepted events

  function StateAfter(s: State, es: seq<Event>): State {
    if es == [] then s else Update(StateAfter(s, Front(es)), Last(es))
  }

  /** An event that follows another is accepted in state `s`; a create event has no previous event. */
  ghost predicate Accepts(s: State, e: Event) {
    e.etype != Create && CheckAgainstState(e, s) == Allow
  }

  function Front(es: seq<Event>): seq<Event>
    requires es != []
  {
    es[..|es| - 1]
  }

  function Last(es: seq<Event>): Event
    requires es != []
  {
    es[|es| - 1]
  }

  /** Every event of the run is accepted in the state left by the events before it. */
  ghost predicate AcceptedRun(s: State, es: seq<Event>)
    decreases |es|
  {
    es == [] || (AcceptedRun(s, Front(es)) && Accepts(StateAfter(s, Front(es)), Last(es)))
  }

  // ---------------------------------------------------------------------------------------------
  // The room ceiling

  predicate HasLevels(s: State) {
    (PowerLevels, "") in s
  }

  function LevelsOf(s: State): Levels
    requires HasLevels(s)
  {
    s[(PowerLevels, "")].content.levels
  }

  /** No user, listed or not, has a level above `c`, and `c` is not negative. */
  ghost predicate Bounded(levels: Levels, c: int) {
    && 0 <= c
    && (UsersDefault in levels.named ==> levels.named[UsersDefault] <= c)
    && (forall u :: u in levels.users ==> levels.users[u] <= c)
  }

  /** The least bound: the maximum of 0, the default level and every listed user's level. */
  ghost predicate IsCeiling(levels: Levels, c: int) {
    && Bounded(levels, c)
    && (|| c == 0
        || (UsersDefault in levels.named && levels.named[UsersDefault] == c)
        || (exists u :: u in levels.users && levels.users[u] == c))
  }

  lemma CeilingExists(levels: Levels, users: set<string>) returns (c: int)
    requires users <= levels.users.Keys
    ensures IsCeiling(levels.(users := map u | u in users :: levels.users[u]), c)
    decreases |users|
  {
    if users == {} {
      c := if UsersDefault in levels.named && levels.named[UsersDefault] > 0 then levels.named[UsersDefault] else 0;
    } else {
      var u :| u in users;
      var rest := users - {u};
      var d := CeilingExists(levels, rest);
      c := if levels.users[u] > d then levels.users[u] else d;
      var all := map v | v in users :: levels.users[v];
      var some := map v | v in rest :: levels.users[v];
      assert forall v :: v in all ==> v == u || (v in some && some[v] == all[v]);
      if c == d && d != 0 && !(UsersDefault in levels.named && levels.named[UsersDefault] == d) {
        var w :| w in some && some[w] == d;
        assert w in all && all[w] == c;
      } else if c != d {
        assert u in all && all[u] == c;
      }
    }
  }

  lemma CeilingDefined(levels: Levels)
    ensures exists c :: IsCeiling(levels, c)
  {
    var c := CeilingExists(levels, levels.users.Keys);
    assert (map u | u in levels.users.Keys :: levels.users[u]) == levels.users;
    assert levels.(users := levels.users) == levels;
  }

  ghost function Ceiling(levels: Levels): (c: int)
    ensures IsCeiling(levels, c)
  {
    CeilingDefined(levels);
    var c :| IsCeiling(levels, c);
    c
  }

  lemma UserLevelBounded(levels: Levels, c: int, u: string)
    requires Bounded(levels, c)
    ensures UserLevelIn(levels, u) <= c
  {
  }

  /** What acceptance of a new power-levels event says about the one it replaces. */
  lemma AcceptedLevels(s: State, e: Event)
    requires HasLevels(s) && Accepts(s, e)
    requires e.etype == PowerLevels && e.stateKey == Some("")
    ensures LevelChangeAllowed(LevelsOf(s), e.content.levels, e.version, e.sender, UserLevel(s, e.sender))
  {
  }

  lemma OtherEventsKeepLevels(s: State, e: Event)
    requires HasLevels(s) && !(e.etype == PowerLevels && e.stateKey == Some(""))
    ensures HasLevels(Update(s, e)) && LevelsOf(Update(s, e)) == LevelsOf(s)
  {
  }

  lemma LevelChangeKeepsBound(before: Levels, after: Levels, version: RoomVersion, sender: string, c: int)
    requires LevelChangeAllowed(before, after, version, sender, UserLevelIn(before, sender))
    requires Bounded(before, c)
    ensures Bounded(after, c)
  {
    var level := UserLevelIn(before, sender);
    UserLevelBounded(before, c, sender);
    assert SlotChecked(before, after, version, NamedSlot(UsersDefault));
    forall u | u in after.users ensures after.users[u] <= c {
      assert SlotChecked(before, after, version, UserSlot(u));
    }
  }

  lemma StepKeepsBound(s: State, e: Event, c: int)
    requires HasLevels(s) && Accepts(s, e) && Bounded(LevelsOf(s), c)
    ensures HasLevels(Update(s, e)) && Bounded(LevelsOf(Update(s, e)), c)
  {
    if e.etype == PowerLevels && e.stateKey == Some("") {
      AcceptedLevels(s, e);
      LevelChangeKeepsBound(LevelsOf(s), e.content.levels, e.version, e.sender, c);
    } else {
      OtherEventsKeepLevels(s, e);
    }
  }

  /** Once the room has a power-levels event its ceiling never rises, so no user's level ever
      exceeds the ceiling at any earlier point. */
  lemma {:induction false} CeilingNeverRises(s: State, es: seq<Event>)
    requires HasLevels(s) && AcceptedRun(s, es)
    ensures HasLevels(StateAfter(s, es))
    ensures Ceiling(LevelsOf(StateAfter(s, es))) <= Ceiling(LevelsOf(s))
    ensures forall u :: UserLevel(StateAfter(s, es), u) <= Ceiling(LevelsOf(s))
    decreases |es|
  {
    RunKeepsBound(s, es, Ceiling(LevelsOf(s)));
    forall u ensures UserLevel(StateAfter(s, es), u) <= Ceiling(LevelsOf(s)) {
      UserLevelBounded(LevelsOf(StateAfter(s, es)), Ceiling(LevelsOf(s)), u);
    }
  }

  lemma {:induction false} RunKeepsBound(s: State, es: seq<Event>, c: int)
    requires HasLevels(s) && AcceptedRun(s, es) && Bounded(LevelsOf(s), c)
    ensures HasLevels(StateAfter(s, es)) && Bounded(LevelsOf(StateAfter(s, es)), c)
    decreases |es|
  {
    if es != [] {
      RunKeepsBound(s, Front(es), c);
      StepKeepsBound(StateAfter(s, Front(es)), Last(es), c);
    }
  }

  // ---------------------------------------------------------------------------------------------
  // A user at the ceiling cannot be dislodged by others

  /** The user is listed with the ceiling as their level. */
  ghost predicate AtCeiling(s: State, u: string) {
    HasLevels(s) && u in LevelsOf(s).users && Bounded(LevelsOf(s), LevelsOf(s).users[u])
  }

  predicate IsThirdPartyInviteOf(e: Event, u: string) {
    && e.etype == Member && e.stateKey == Some(u)
    && e.content.membership == Some(Invite) && e.content.thirdPartyInvite.Some?
  }

  predicate SentByOthers(es: seq<Event>, u: string)
    decreases |es|
  {
    es == [] || (SentByOthers(Front(es), u) && Last(es).sender != u)
  }

  lemma StepKeepsTop(s: State, e: Event, u: string)
    requires AtCeiling(s, u) && Accepts(s, e) && e.sender != u
    ensures AtCeiling(Update(s, e), u) && LevelsOf(Update(s, e)).users[u] == LevelsOf(s).users[u]
  {
    var top := LevelsOf(s).users[u];
    StepKeepsBound(s, e, top);
    if e.etype == PowerLevels && e.stateKey == Some("") {
      AcceptedLevels(s, e);
      UserLevelBounded(LevelsOf(s), top, e.sender);
      assert SlotChecked(LevelsOf(s), e.content.levels, e.version, UserSlot(u));
    }
  }

  lemma StepKeepsTopJoined(s: State, e: Event, u: string)
    requires AtCeiling(s, u) && IsJoined(s, u) && Accepts(s, e) && e.sender != u
    ensures IsJoined(Update(s, e), u) <==> !IsThirdPartyInviteOf(e, u)
  {
    if e.etype == Member && e.stateKey == Some(u) {
      UserLevelBounded(LevelsOf(s), LevelsOf(s).users[u], e.sender);
      assert CheckMembership(e, s) == Allow;
    }
  }

  /** The user is joined in the first state of the run and after each of its events. */
  ghost predicate JoinedThroughout(s: State, es: seq<Event>, u: string)
    decreases |es|
  {
    IsJoined(StateAfter(s, es), u) && (es == [] || JoinedThroughout(s, Front(es), u))
  }

  predicate NoThirdPartyInviteOf(es: seq<Event>, u: string)
    decreases |es|
  {
    es == [] || (NoThirdPartyInviteOf(Front(es), u) && !IsThirdPartyInviteOf(Last(es), u))
  }

  lemma {:induction false} TopUserKeepsLevel(s: State, es: seq<Event>, u: string)
    requires AtCeiling(s, u) && AcceptedRun(s, es) && SentByOthers(es, u)
    ensures AtCeiling(StateAfter(s, es), u)
    ensures LevelsOf(StateAfter(s, es)).users[u] == LevelsOf(s).users[u]
    decreases |es|
  {
    if es != [] {
      TopUserKeepsLevel(s, Front(es), u);
      StepKeepsTop(StateAfter(s, Front(es)), Last(es), u);
    }
  }

  /** While only others send, a joined user at the ceiling keeps their level, stays at the ceiling,
      and stays joined throughout exactly if no third-party invite for them is accepted. */
  lemma {:induction false} TopUserSecure(s: State, es: seq<Event>, u: string)
    requires AtCeiling(s, u) && IsJoined(s, u)
    requires AcceptedRun(s, es) && SentByOthers(es, u)
    ensures AtCeiling(StateAfter(s, es), u)
    ensures LevelsOf(StateAfter(s, es)).users[u] == LevelsOf(s).users[u]
    ensures JoinedThroughout(s, es, u) <==> NoThirdPartyInviteOf(es, u)
    decreases |es|
  {
    TopUserKeepsLevel(s, es, u);
    if es != [] {
      var front, last := Front(es), Last(es);
      TopUserSecure(s, front, u);
      if JoinedThroughout(s, front, u) {
        StepKeepsTopJoined(StateAfter(s, front), last, u);
      }
    }
  }

  /** A verified third-party invite is accepted whatever the target's membership, short of a ban. */
  lemma InviteAccepted(s: State, e: Event, u: string)
    requires IsThirdPartyInviteOf(e, u) && ThirdPartyInviteVerified(e, s) && MembershipOf(s, u) != Some(Ban)
    requires DomainOf(e.roomId).Some? && DomainOf(e.sender) == DomainOf(e.roomId) == DomainOf(u)
    ensures Accepts(s, e)
  {
    assert CheckInvite(e, u, s) == Allow;
  }

  // ---------------------------------------------------------------------------------------------
  // Histories from the creation of the room

  function RoomState(h: seq<Event>): State {
    StateAfter(map[], h)
  }

  /** A create event that passes its rule, then accepted events of the same room, each following the
      one before it and carrying an id of its own. */
  ghost predicate ValidHistory(h: seq<Event>)
    decreases |h|
  {
    && h != []
    && if |h| == 1 then h[0].etype == Create && CheckCreate(h[0]) == Allow
       else
         && ValidHistory(Front(h))
         && Last(h).prevs == [Last(Front(h)).id]
         && Last(h).version == h[0].version
         && Last(h).roomId == h[0].roomId
         && (forall i :: 0 <= i < |h| - 1 ==> h[i].id != Last(h).id)
         && Accepts(RoomState(Front(h)), Last(h))
  }

  lemma {:induction false} PrefixValid(h: seq<Event>, k: nat)
    requires ValidHistory(h) && 0 < k <= |h|
    ensures ValidHistory(h[..k])
    decreases |h|
  {
    if k == |h| {
      assert h[..k] == h;
    } else {
      PrefixValid(Front(h), k);
      assert Front(h)[..k] == h[..k];
    }
  }

  lemma {:induction false} HistoryStep(h: seq<Event>, k: nat)
    requires ValidHistory(h) && 0 < k < |h|
    ensures ValidHistory(h[..k]) && Accepts(RoomState(h[..k]), h[k])
    ensures h[k].prevs == [h[k - 1].id] && h[k].version == h[0].version
    ensures h[k].roomId == h[0].roomId
    ensures RoomState(h[..k + 1]) == Update(RoomState(h[..k]), h[k])
    ensures h[0].id != h[k].id
  {
    var p := h[..k + 1];
    PrefixValid(h, k + 1);
    assert Front(p) == h[..k] && Last(p) == h[k];
    assert Last(h[..k]) == h[k - 1] && p[0] == h[0];
  }

  lemma {:induction false} CreateEntry(h: seq<Event>)
    requires ValidHistory(h)
    ensures (Create, "") in RoomState(h) ==> RoomState(h)[(Create, "")] == h[0]
    ensures h[0].etype == Create
    decreases |h|
  {
    assert |h| == 1 ==> Front(h) == [] && RoomState(Front(h)) == map[];
    if |h| > 1 { CreateEntry(Front(h)); }
  }

  /** Only the second event of a history can be the creator's first join. */
  lemma {:induction false} CreatorJoinsOnlyFirst(h: seq<Event>, k: nat)
    requires ValidHistory(h) && 0 < k < |h|
    requires IsCreatorJoin(h[k], RoomState(h[..k]))
    ensures k == 1 && h[k].stateKey == CreatorOf(h[0], h[0].version)
  {
    HistoryStep(h, k);
    CreateEntry(h[..k]);
  }

  lemma {:induction false} StateAtCreation(h: seq<Event>)
    requires ValidHistory(h)
    ensures RoomState(h[..1]) == Update(map[], h[0]) && h[0].etype == Create
  {
    CreateEntry(h);
    assert Front(h[..1]) == [] && RoomState([]) == map[];
  }

  // ---------------------------------------------------------------------------------------------
  // Leaving a ban

  /** The event at index `k` lifts the ban of `u`: another, joined user with the power to ban and to
      kick, and strictly above `u`, records that `u` has left. */
  ghost predicate LiftsBan(h: seq<Event>, k: nat, u: string)
    requires k < |h|
  {
    var e, s := h[k], RoomState(h[..k]);
    && IsUnban(e, s, u)
  }

  predicate IsUnban(e: Event, s: State, u: string) {
    && e.etype == Member && e.stateKey == Some(u) && e.content.membership == Some(Leave)
    && e.sender != u && IsJoined(s, e.sender)
    && UserLevel(s, e.sender) >= NamedLevel(s, BanLevel, 50)
    && UserLevel(s, e.sender) >= NamedLevel(s, KickLevel, 50)
    && UserLevel(s, e.sender) > UserLevel(s, u)
  }

  lemma BanExit(s: State, e: Event, u: string)
    requires Accepts(s, e) && !IsCreatorJoin(e, s)
    requires MembershipOf(s, u) == Some(Ban) && MembershipOf(Update(s, e), u) != Some(Ban)
    ensures IsUnban(e, s, u)
  {
    assert e.etype == Member && e.stateKey == Some(u);
    assert CheckMembership(e, s) == Allow;
  }

  lemma {:induction false} BanExitLifts(h: seq<Event>, k: nat, u: string)
    requires ValidHistory(h) && 0 < k < |h|
    requires MembershipOf(RoomState(h[..k]), u) == Some(Ban)
    requires MembershipOf(RoomState(h[..k + 1]), u) != Some(Ban)
    ensures LiftsBan(h, k, u)
  {
    var s, e := RoomState(h[..k]), h[k];
    HistoryStep(h, k);
    if IsCreatorJoin(e, s) {
      CreatorJoinsOnlyFirst(h, k);
      StateAtCreation(h);
    }
    BanExit(s, e, u);
  }

  lemma {:induction false} LastBanned(h: seq<Event>, i: nat, j: nat, u: string) returns (k: nat)
    requires i <= j <= |h|
    requires MembershipOf(RoomState(h[..i]), u) == Some(Ban) && MembershipOf(RoomState(h[..j]), u) != Some(Ban)
    ensures i <= k < j
    ensures MembershipOf(RoomState(h[..k]), u) == Some(Ban) && MembershipOf(RoomState(h[..k + 1]), u) != Some(Ban)
    decreases j
  {
    k := j - 1;
    if MembershipOf(RoomState(h[..k]), u) != Some(Ban) { k := LastBanned(h, i, k, u); }
  }

  /** Between a state where a user is banned and any later state where they are not, in particular one
      where they are joined, invited or knocking, somebody with the power to do so lifted the ban. */
  lemma {:induction false} BanNeedsLifting(h: seq<Event>, i: nat, j: nat, u: string)
    requires ValidHistory(h) && 0 < i <= j <= |h|
    requires MembershipOf(RoomState(h[..i]), u) == Some(Ban)
    requires MembershipOf(RoomState(h[..j]), u) != Some(Ban)
    ensures exists k :: i <= k < j && LiftsBan(h, k, u)
  {
    var k := LastBanned(h, i, j, u);
    BanExitLifts(h, k, u);
  }

  // ---------------------------------------------------------------------------------------------
  // Where members come from

  predicate ClosedRule(version: RoomVersion, rule: JoinRule) {
    rule != PublicRule && !RestrictedJoins(version, rule)
  }

  /** No accepted join-rules event opens the room to people who have not been invited. */
  ghost predicate NeverOpened(h: seq<Event>) {
    forall i :: 0 <= i < |h| ==>
      h[i].etype == JoinRules && h[i].stateKey == Some("") && h[i].content.joinRule.Some? ==>
        ClosedRule(h[i].version, h[i].content.joinRule.value)
  }

  ghost predicate HasJoinedBy(h: seq<Event>, k: nat, u: string)
    requires k <= |h|
  {
    exists j :: 0 <= j <= k && IsJoined(RoomState(h[..j]), u)
  }

  predicate IsInviteOf(e: Event, u: string) {
    e.etype == Member && e.stateKey == Some(u) && e.content.membership == Some(Invite)
  }

  /** A chain of accepted invites, latest first, each at an index below `limit` and below the one it
      follows: the first invites `u`, each is sent by a user who had joined by then and whom the next
      one invites, and the chain ends with the room's creator. */
  ghost predicate InviteChain(h: seq<Event>, u: string, chain: seq<nat>, limit: nat)
    requires h != [] && limit <= |h|
    decreases |chain|
  {
    if chain == [] then CreatorOf(h[0], h[0].version) == Some(u)
    else
      && chain[0] < limit
      && IsInviteOf(h[chain[0]], u)
      && HasJoinedBy(h, chain[0], h[chain[0]].sender)
      && InviteChain(h, h[chain[0]].sender, chain[1..], chain[0])
  }

  lemma ChainLimit(h: seq<Event>, u: string, chain: seq<nat>, limit: nat, higher: nat)
    requires h != [] && limit <= higher <= |h| && InviteChain(h, u, chain, limit)
    ensures InviteChain(h, u, chain, higher)
  {
  }

  lemma {:induction false} RuleStaysClosed(h: seq<Event>, k: nat)
    requires ValidHistory(h) && NeverOpened(h) && 0 < k <= |h|
    ensures ClosedRule(h[0].version, JoinRuleOf(RoomState(h[..k])))
    decreases k
  {
    StateAtCreation(h);
    if k > 1 {
      HistoryStep(h, k - 1);
      RuleStaysClosed(h, k - 1);
    }
  }

  lemma JoinEntry(s: State, e: Event, u: string)
    requires Accepts(s, e) && ClosedRule(e.version, JoinRuleOf(s))
    requires !IsJoined(s, u) && IsJoined(Update(s, e), u)
    ensures (IsCreatorJoin(e, s) && e.stateKey == Some(u)) || MembershipOf(s, u) == Some(Invite)
  {
    assert e.etype == Member && e.stateKey == Some(u);
    assert CheckMembership(e, s) == Allow;
  }

  lemma InviteEntry(s: State, e: Event, u: string)
    requires Accepts(s, e)
    requires MembershipOf(s, u) != Some(Invite) && MembershipOf(Update(s, e), u) == Some(Invite)
    ensures IsInviteOf(e, u)
    ensures IsJoined(s, e.sender) || exists t :: (ThirdPartyInvite, t) in s && s[(ThirdPartyInvite, t)].sender == e.sender
  {
    assert e.etype == Member && e.stateKey == Some(u);
    assert CheckMembership(e, s) == Allow;
  }

  lemma TokenNeedsMember(s: State, e: Event)
    requires Accepts(s, e) && e.etype == ThirdPartyInvite
    ensures IsJoined(s, e.sender)
  {
  }

  /** Whoever has a third-party invite in the room's state had joined when it was sent. */
  lemma {:induction false} ThirdPartySenderJoined(h: seq<Event>, k: nat, t: string)
    requires ValidHistory(h) && 0 < k <= |h|
    requires (ThirdPartyInvite, t) in RoomState(h[..k])
    ensures HasJoinedBy(h, k, RoomState(h[..k])[(ThirdPartyInvite, t)].sender)
    decreases k
  {
    StateAtCreation(h);
    if k > 1 {
      HistoryStep(h, k - 1);
      var s, e := RoomState(h[..k - 1]), h[k - 1];
      if e.etype == ThirdPartyInvite && e.stateKey == Some(t) {
        TokenNeedsMember(s, e);
      } else {
        assert Get(Update(s, e), (ThirdPartyInvite, t)) == Get(s, (ThirdPartyInvite, t));
        ThirdPartySenderJoined(h, k - 1, t);
      }
    }
  }

  lemma {:induction false} InviteHasInviter(h: seq<Event>, k: nat, u: string)
    requires ValidHistory(h) && 0 < k < |h|
    requires MembershipOf(RoomState(h[..k]), u) != Some(Invite)
    requires MembershipOf(RoomState(h[..k + 1]), u) == Some(Invite)
    ensures IsInviteOf(h[k], u) && HasJoinedBy(h, k, h[k].sender)
  {
    var s, e := RoomState(h[..k]), h[k];
    HistoryStep(h, k);
    InviteEntry(s, e, u);
    if !IsJoined(s, e.sender) {
      var t :| (ThirdPartyInvite, t) in s && s[(ThirdPartyInvite, t)].sender == e.sender;
      ThirdPartySenderJoined(h, k, t);
    }
  }

  /** Whoever is invited was invited by an accepted event from somebody who had joined before it. */
  lemma {:induction false} InvitedByMember(h: seq<Event>, k: nat, u: string) returns (i: nat)
    requires ValidHistory(h) && 0 < k <= |h|
    requires MembershipOf(RoomState(h[..k]), u) == Some(Invite)
    ensures i < k && IsInviteOf(h[i], u) && HasJoinedBy(h, i, h[i].sender)
    decreases k
  {
    StateAtCreation(h);
    i := k - 1;
    if MembershipOf(RoomState(h[..i]), u) == Some(Invite) {
      i := InvitedByMember(h, i, u);
    } else {
      InviteHasInviter(h, i, u);
    }
  }

  lemma {:induction false} JoinHasCause(h: seq<Event>, k: nat, u: string)
    requires ValidHistory(h) && NeverOpened(h) && 0 < k < |h|
    requires !IsJoined(RoomState(h[..k]), u) && IsJoined(RoomState(h[..k + 1]), u)
    ensures CreatorOf(h[0], h[0].version) == Some(u) || MembershipOf(RoomState(h[..k]), u) == Some(Invite)
  {
    HistoryStep(h, k);
    RuleStaysClosed(h, k);
    JoinEntry(RoomState(h[..k]), h[k], u);
    if IsCreatorJoin(h[k], RoomState(h[..k])) {
      CreatorJoinsOnlyFirst(h, k);
    }
  }

  /** In a room that is never opened, every member other than the creator owes their place to a chain
      of earlier invites, each sent by somebody who had joined, that leads back to the creator. */
  lemma {:induction false} MembersTraceToCreator(h: seq<Event>, k: nat, u: string) returns (chain: seq<nat>)
    requires ValidHistory(h) && NeverOpened(h) && 0 < k <= |h|
    requires IsJoined(RoomState(h[..k]), u)
    ensures InviteChain(h, u, chain, k)
    decreases k
  {
    StateAtCreation(h);
    var before := k - 1;
    if IsJoined(RoomState(h[..before]), u) {
      chain := MembersTraceToCreator(h, before, u);
      ChainLimit(h, u, chain, before, k);
    } else {
      JoinHasCause(h, before, u);
      if MembershipOf(RoomState(h[..before]), u) == Some(Invite) {
        var i := InvitedByMember(h, before, u);
        var rest := InviterTraces(h, i, before);
        chain := [i] + rest;
      } else {
        chain := [];
      }
    }
  }

  lemma {:induction false} InviterTraces(h: seq<Event>, i: nat, k: nat) returns (chain: seq<nat>)
    requires ValidHistory(h) && NeverOpened(h) && i < k <= |h|
    requires HasJoinedBy(h, i, h[i].sender)
    ensures InviteChain(h, h[i].sender, chain, i)
    decreases k
  {
    var j :| 0 <= j <= i && IsJoined(RoomState(h[..j]), h[i].sender);
    assert h[..0] == [];
    chain := MembersTraceToCreator(h, j, h[i].sender);
    ChainLimit(h, h[i].sender, chain, j, i);
  }
}
