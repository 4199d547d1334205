/** History visibility (synapse/visibility.py): which events a user may see, checked for one user, for
    many users at once, and for a whole server.
 */
module Visibility {
  import opened Events
  import opened Wrappers

  const VISIBILITY_KEY: Key := (HistoryVisibility, "")

  // ---------------------------------------------------------------------------------------------
  // The check for one user

  /** A missing or unknown setting counts as shared. */
  function Normal(v: Option<Visibility>): Visibility {
    if v.None? || v.value.OtherVisibility? then Shared else v.value
  }

  function EffectiveVisibility(s: State): Visibility {
    if VISIBILITY_KEY in s then Normal(s[VISIBILITY_KEY].content.visibility) else Shared
  }

  function Strictness(v: Visibility): nat {
    match v
    case WorldReadable => 0
    case Shared => 1
    case Invited => 2
    case Joined => 3
    case OtherVisibility(_) => 1
  }

  function PreviousVisibility(e: Event): Visibility {
    if e.prevContent.Some? then Normal(e.prevContent.value.visibility) else Shared
  }

  predicate IsLax(v: Visibility, peeking: bool) {
    (v == Shared && !peeking) || v == WorldReadable
  }

  /** Whether the event may be seen whatever the user's membership. A change of the setting is judged by
      the laxer of the old and the new one. */
  predicate VisibleToAll(e: Event, vis: Visibility, peeking: bool) {
    IsLax(if e.etype == HistoryVisibility && Strictness(PreviousVisibility(e)) < Strictness(vis)
          then PreviousVisibility(e) else vis, peeking)
  }

  function KnownMembership(m: Option<Membership>): Membership {
    if m.None? || m.value.OtherMembership? then Leave else m.value
  }

  function Distance(m: Membership): nat {
    match m
    case Join => 0
    case Invite => 1
    case Knock => 2
    case Leave => 3
    case Ban => 4
    case OtherMembership(_) => 3
  }

  function PreviousMembership(e: Event): Membership {
    if e.prevContent.Some? then KnownMembership(e.prevContent.value.membership) else Leave
  }

  predicate IsOwnMembership(e: Event, user: string) {
    e.etype == Member && e.stateKey == Some(user)
  }

  /** The user's own leaving of a room they were in or invited to. */
  predicate IsOwnLeave(e: Event, user: string) {
    && IsOwnMembership(e, user)
    && KnownMembership(e.content.membership) == Leave
    && (PreviousMembership(e) == Join || PreviousMembership(e) == Invite)
  }

  /** The membership that decides: at the user's own membership events the one nearest to joined of the
      old and the new, otherwise the one in the state. */
  function DecidingMembership(user: string, e: Event, s: State): Option<Membership> {
    if IsOwnMembership(e, user) then
      var now := KnownMembership(e.content.membership);
      Some(if Distance(PreviousMembership(e)) < Distance(now) then PreviousMembership(e) else now)
    else MembershipOf(s, user)
  }

  datatype MembershipSight = MembershipSight(allowed: bool, joined: bool)

  function SightByMembership(user: string, e: Event, vis: Visibility, s: State, peeking: bool): MembershipSight {
    if IsOwnLeave(e, user) then MembershipSight(true, false)
    else
      var m := DecidingMembership(user, e, s);
      if m == Some(Join) then MembershipSight(true, true)
      else
        match vis
        case Joined => MembershipSight(false, false)
        case Invited => MembershipSight(m == Some(Invite), false)
        case Shared => MembershipSight(!peeking, false)
        case _ => MembershipSight(true, false)
  }

  /** How a request looks at events: whether they are to be sent to a client, whether the users are
      peeking, how long the room keeps messages, and the current time. */
  datatype Request = Request(toClient: bool, peeking: bool, maxLifetime: Option<int>, now: int)

  predicate Withheld(e: Event, r: Request, senderIgnored: bool) {
    || e.etype == Dummy
    || (e.stateKey.None? && senderIgnored)
    || e.etype == Aliases
    || (e.stateKey.None? && r.maxLifetime.Some? && e.timestamp < r.now - r.maxLifetime.value)
  }

  datatype Sight = Hidden | Pruned | Whole | StateMissing

  function CheckClient(user: string, e: Event, r: Request, alwaysInclude: set<string>, senderIgnored: bool,
                       state: Option<State>, senderErased: bool): Sight
  {
    if r.toClient && Withheld(e, r, senderIgnored) then Hidden
    else if e.id in alwaysInclude then Whole
    else if e.outlier then if IsOwnMembership(e, user) then Whole else Hidden
    else if state.None? then StateMissing
    else
      var vis := EffectiveVisibility(state.value);
      if !senderErased && VisibleToAll(e, vis, r.peeking) then Whole
      else
        var sight := SightByMembership(user, e, vis, state.value, r.peeking);
        if !sight.allowed then Hidden
        else if senderErased && !sight.joined then Pruned
        else Whole
  }

  /** The state at an event, fetched for the check of one user: the visibility setting and the user's own
      membership. */
  function StateForUser(user: string, e: Event, prev: State): State {
    Restrict(Update(prev, e), {VISIBILITY_KEY, (Member, user)})
  }

  /** The check for one user on one event, which first drops soft-failed events. */
  function SightOf(user: string, e: Event, r: Request, ignoredBy: set<string>, prev: State): Sight {
    if e.softFailed then Hidden
    else CheckClient(user, e, r, {}, user in ignoredBy, Some(StateForUser(user, e, prev)), false)
  }

  // ---------------------------------------------------------------------------------------------
  // Many users at once

  /** The state before the event restricted to some keys, plus the event itself. */
  function FetchedState(prev: State, keys: set<Key>, e: Event): State {
    Update(Restrict(prev, keys), e)
  }

  /** The users among the given ones for whom the event is visible. */
  method FilterForClients(users: set<string>, e: Event, r: Request, ignoredBy: set<string>, prev: State)
    returns (allowed: set<string>)
    ensures allowed == set u | u in users && SightOf(u, e, r, ignoredBy, prev) != Hidden
  {
    if e.softFailed || users == {} { return {}; }
    allowed := users;
    if r.toClient { allowed := WithoutWithheld(users, e, r, ignoredBy); }
    ghost var candidates := allowed;
    if e.outlier {
      if e.etype == Member && e.stateKey.Some? && e.stateKey.value in allowed {
        allowed := {e.stateKey.value};
      } else {
        allowed := {};
      }
    } else {
      allowed := FilterByState(allowed, e, r, prev);
    }
    forall u | u in users ensures u in allowed <==> SightOf(u, e, r, ignoredBy, prev) != Hidden {
      VisibleIff(u, e, r, ignoredBy, prev);
      assert u in candidates <==> !(r.toClient && Withheld(e, r, u in ignoredBy));
    }
  }

  /** The two-stage part: the visibility setting alone is fetched first, and the memberships of the
      users only if it does not decide. */
  method FilterByState(users: set<string>, e: Event, r: Request, prev: State) returns (allowed: set<string>)
    ensures allowed == set u | u in users && VisibleInState(u, e, r.peeking, StateForUser(u, e, prev))
  {
    var vis := EffectiveVisibility(FetchedState(prev, {VISIBILITY_KEY}, e));
    forall u: string ensures EffectiveVisibility(StateForUser(u, e, prev)) == vis { SameVisibility(u, e, prev); }
    if VisibleToAll(e, vis, r.peeking) { return users; }
    var keys := {VISIBILITY_KEY} + set u | u in users :: (Member, u);
    var state := FetchedState(prev, keys, e);
    allowed := set u | u in users && SightByMembership(u, e, vis, state, r.peeking).allowed;
    forall u | u in users ensures u in allowed <==> VisibleInState(u, e, r.peeking, StateForUser(u, e, prev)) {
      SameSight(u, e, prev, keys, vis, r.peeking);
    }
  }

  predicate VisibleInState(u: string, e: Event, peeking: bool, s: State) {
    VisibleToAll(e, EffectiveVisibility(s), peeking) || SightByMembership(u, e, EffectiveVisibility(s), s, peeking).allowed
  }

  lemma VisibleIff(u: string, e: Event, r: Request, ignoredBy: set<string>, prev: State)
    ensures SightOf(u, e, r, ignoredBy, prev) != Hidden
            <==> && !e.softFailed
                 && !(r.toClient && Withheld(e, r, u in ignoredBy))
                 && if e.outlier then IsOwnMembership(e, u)
                    else VisibleInState(u, e, r.peeking, StateForUser(u, e, prev))
  {
  }

  method WithoutWithheld(users: set<string>, e: Event, r: Request, ignoredBy: set<string>) returns (kept: set<string>)
    ensures kept == set u | u in users && !Withheld(e, r, u in ignoredBy)
  {
    kept := users;
    var rest := users;
    while rest != {}
      invariant rest <= users
      invariant kept == set u | u in users && (u in rest || !Withheld(e, r, u in ignoredBy))
      decreases |rest|
    {
      var u :| u in rest;
      rest := rest - {u};
      if Withheld(e, r, u in ignoredBy) { kept := kept - {u}; }
    }
  }

  /** The first, narrow fetch finds the same visibility setting as the fetch for a single user. */
  lemma SameVisibility(u: string, e: Event, prev: State)
    ensures EffectiveVisibility(StateForUser(u, e, prev)) == EffectiveVisibility(FetchedState(prev, {VISIBILITY_KEY}, e))
  {
  }

  lemma SameSight(u: string, e: Event, prev: State, keys: set<Key>, vis: Visibility, peeking: bool)
    requires (Member, u) in keys
    ensures SightByMembership(u, e, vis, FetchedState(prev, keys, e), peeking)
            == SightByMembership(u, e, vis, StateForUser(u, e, prev), peeking)
  {
    SameMembership(u, e, prev, keys);
  }

  /** The second fetch finds the same membership as the fetch for a single user. */
  lemma SameMembership(u: string, e: Event, prev: State, keys: set<Key>)
    requires (Member, u) in keys
    ensures MembershipOf(FetchedState(prev, keys, e), u) == MembershipOf(StateForUser(u, e, prev), u)
  {
  }

  // ---------------------------------------------------------------------------------------------
  // The check for a server

  /** The setting as the server check reads it: an unknown setting is taken as it is, and an event whose
      state is not known counts as shared. */
  function ServerVisibility(state: Option<State>): Visibility {
    if state.Some? && VISIBILITY_KEY in state.value && state.value[VISIBILITY_KEY].content.visibility.Some?
    then state.value[VISIBILITY_KEY].content.visibility.value
    else Shared
  }

  function MembersOn(server: string, s: State): set<string> {
    set k | k in s && k.0 == Member && DomainOf(k.1) == Some(server) :: k.1
  }

  predicate Qualifies(s: State, vis: Visibility, member: string) {
    MembershipOf(s, member) == Some(Join) || (MembershipOf(s, member) == Some(Invite) && vis == Invited)
  }

  predicate VisibleToServer(server: string, state: Option<State>) {
    var vis := ServerVisibility(state);
    (vis != Invited && vis != Joined)
    || (state.Some? && exists m :: m in MembersOn(server, state.value) && Qualifies(state.value, vis, m))
  }

  /** What a server filter is asked: for which server, on which, whether to send pruned copies of what is
      filtered out, the senders that count as erased and the rooms that count as partially stated. */
  datatype ServerRequest = ServerRequest(
    server: string, localServer: string, redact: bool, erased: set<string>, partial: Option<set<string>>)

  function StateAt(e: Event, states: map<string, State>): Option<State> {
    if !e.outlier && e.id in states then Some(states[e.id]) else None
  }

  predicate SentWhole(e: Event, q: ServerRequest, states: map<string, State>) {
    && VisibleToServer(q.server, StateAt(e, states))
    && !(q.partial.Some? && DomainOf(e.sender) != Some(q.localServer) && e.roomId in q.partial.value)
    && e.sender !in q.erased
  }

  datatype Sent = Sent(event: Event, pruned: bool)

  function ServerOutput(events: seq<Event>, q: ServerRequest, states: map<string, State>): seq<Sent> {
    if events == [] then []
    else
      var e := events[|events| - 1];
      ServerOutput(events[..|events| - 1], q, states)
      + if SentWhole(e, q, states) then [Sent(e, false)] else if q.redact then [Sent(e, true)] else []
  }

  /** The server may see the event, by what the state at the event holds: an open or unset setting, or else a
      member of the server's own who is joined, or invited where that is enough. Without a state to go by
      the event is taken to be open. */
  ghost predicate OpenToServer(server: string, e: Event, states: map<string, State>) {
    || e.outlier || e.id !in states
    || var s := states[e.id];
       || (HistoryVisibility, "") !in s
       || s[(HistoryVisibility, "")].content.visibility !in {Some(Invited), Some(Joined)}
       || exists u :: && (Member, u) in s && DomainOf(u) == Some(server)
                      && (|| s[(Member, u)].content.membership == Some(Join)
                          || (s[(Member, u)].content.membership == Some(Invite)
                              && s[(HistoryVisibility, "")].content.visibility == Some(Invited)))
  }

  /** The event is not for the server: it may not see it, it is another server's in a room whose state is
      partial, or its sender has been erased. */
  ghost predicate KeptBack(e: Event, q: ServerRequest, states: map<string, State>) {
    || !OpenToServer(q.server, e, states)
    || (q.partial.Some? && e.roomId in q.partial.value && DomainOf(e.sender) != Some(q.localServer))
    || e.sender in q.erased
  }

  lemma OpenIff(server: string, e: Event, states: map<string, State>)
    ensures OpenToServer(server, e, states) <==> VisibleToServer(server, StateAt(e, states))
  {
    if !e.outlier && e.id in states {
      var s := states[e.id];
      forall u: string ensures u in MembersOn(server, s) <==> (Member, u) in s && DomainOf(u) == Some(server) {
        if (Member, u) in s && DomainOf(u) == Some(server) {
          var k: Key := (Member, u);
          assert k in s && k.0 == Member && k.1 == u;
        }
      }
    }
  }

  lemma SentWholeIff(e: Event, q: ServerRequest, states: map<string, State>)
    ensures SentWhole(e, q, states) <==> !KeptBack(e, q, states)
  {
    OpenIff(q.server, e, states);
  }

  /** Every event is answered in its place, pruned exactly if it is kept back. */
  ghost predicate AnswersInPlace(out: seq<Sent>, events: seq<Event>, q: ServerRequest, states: map<string, State>) {
    && |out| == |events|
    && forall i :: 0 <= i < |out| ==> out[i].event == events[i] && (out[i].pruned <==> KeptBack(events[i], q, states))
  }

  /** The output is exactly the events not kept back, whole and in their order: `at` says where each was. */
  ghost predicate AnswersWithout(out: seq<Sent>, events: seq<Event>, q: ServerRequest, states: map<string, State>,
                                 at: seq<nat>)
  {
    && |at| == |out|
    && (forall i :: 0 <= i < |at| ==> at[i] < |events| && out[i] == Sent(events[at[i]], false))
    && (forall i, j :: 0 <= i < j < |at| ==> at[i] < at[j])
    && (forall k: nat :: k < |events| ==> (k in at <==> !KeptBack(events[k], q, states)))
  }

  lemma {:induction false} OutputInPlace(events: seq<Event>, q: ServerRequest, states: map<string, State>)
    requires q.redact
    ensures AnswersInPlace(ServerOutput(events, q, states), events, q, states)
    decreases |events|
  {
    if events != [] {
      var front, last := events[..|events| - 1], events[|events| - 1];
      OutputInPlace(front, q, states);
      SentWholeIff(last, q, states);
    }
  }

  lemma OneMoreKeptBack(out: seq<Sent>, front: seq<Event>, last: Event, q: ServerRequest, states: map<string, State>,
                        at: seq<nat>)
    requires AnswersWithout(out, front, q, states, at) && KeptBack(last, q, states)
    ensures AnswersWithout(out, front + [last], q, states, at)
  {
    var events := front + [last];
    forall k: nat | k < |events| ensures k in at <==> !KeptBack(events[k], q, states) {
      if k == |front| { assert k !in at; } else { assert events[k] == front[k]; }
    }
  }

  lemma OneMoreSent(out: seq<Sent>, front: seq<Event>, last: Event, q: ServerRequest, states: map<string, State>,
                    at: seq<nat>)
    requires AnswersWithout(out, front, q, states, at) && !KeptBack(last, q, states)
    ensures AnswersWithout(out + [Sent(last, false)], front + [last], q, states, at + [|front|])
  {
    var events, more, all := front + [last], out + [Sent(last, false)], at + [|front|];
    forall i | 0 <= i < |all| ensures all[i] < |events| && more[i] == Sent(events[all[i]], false) {
      if i < |at| { assert events[at[i]] == front[at[i]]; }
    }
    forall k: nat | k < |events| ensures k in all <==> !KeptBack(events[k], q, states) {
      if k == |front| { assert all[|at|] == k; } else { assert events[k] == front[k] && (k in all <==> k in at); }
    }
  }

  lemma {:induction false} OutputWithout(events: seq<Event>, q: ServerRequest, states: map<string, State>)
    returns (at: seq<nat>)
    requires !q.redact
    ensures AnswersWithout(ServerOutput(events, q, states), events, q, states, at)
    decreases |events|
  {
    at := [];
    if events != [] {
      var front, last := events[..|events| - 1], events[|events| - 1];
      var before := OutputWithout(front, q, states);
      var out := ServerOutput(front, q, states);
      assert events == front + [last];
      SentWholeIff(last, q, states);
      if KeptBack(last, q, states) {
        at := before;
        OneMoreKeptBack(out, front, last, q, states, at);
        assert out + [] == out;
      } else {
        at := before + [|front|];
        OneMoreSent(out, front, last, q, states, before);
      }
    }
  }

  /** What the output says about every event of the list. */
  ghost predicate Answers(out: seq<Sent>, events: seq<Event>, q: ServerRequest, states: map<string, State>) {
    if q.redact then AnswersInPlace(out, events, q, states)
    else exists at :: AnswersWithout(out, events, q, states, at)
  }

  lemma OutputAnswers(events: seq<Event>, q: ServerRequest, states: map<string, State>)
    ensures Answers(ServerOutput(events, q, states), events, q, states)
  {
    if q.redact { OutputInPlace(events, q, states); } else { var at := OutputWithout(events, q, states); }
  }

  method CheckEventIsVisible(vis: Visibility, server: string, s: State) returns (visible: bool)
    ensures visible <==> (vis != Invited && vis != Joined) || exists m :: m in MembersOn(server, s) && Qualifies(s, vis, m)
  {
    if vis != Invited && vis != Joined { return true; }
    var rest := MembersOn(server, s);
    while rest != {}
      invariant rest <= MembersOn(server, s)
      invariant forall m :: m in MembersOn(server, s) && m !in rest ==> !Qualifies(s, vis, m)
      decreases |rest|
    {
      var m :| m in rest;
      rest := rest - {m};
      if MembershipOf(s, m) == Some(Join) { return true; }
      if MembershipOf(s, m) == Some(Invite) && vis == Invited { return true; }
    }
    return false;
  }

  /** Filters a list of events for a server: in order, each event whole if the server may see it, else
      pruned or left out as asked. Fails if a sender has no domain to compare. */
  method FilterForServer(events: seq<Event>, q: ServerRequest, states: map<string, State>) returns (out: Option<seq<Sent>>)
    ensures out.None? <==> q.partial.Some? && exists e :: e in events && DomainOf(e.sender).None?
    ensures out.Some? ==> out.value == ServerOutput(events, q, states)
    ensures out.Some? ==> Answers(out.value, events, q, states)
  {
    var sent: seq<Sent> := [];
    for i := 0 to |events|
      invariant sent == ServerOutput(events[..i], q, states)
      invariant q.partial.Some? ==> forall j :: 0 <= j < i ==> DomainOf(events[j].sender).Some?
    {
      var e := events[i];
      assert events[..i + 1][..i] == events[..i];
      if q.partial.Some? && DomainOf(e.sender).None? {
        assert e in events;
        return None;
      }
      var state := StateAt(e, states);
      var visible := CheckEventIsVisible(ServerVisibility(state), q.server, if state.Some? then state.value else map[]);
      if q.partial.Some? && DomainOf(e.sender) != Some(q.localServer) && e.roomId in q.partial.value { visible := false; }
      if visible && e.sender !in q.erased {
        sent := sent + [Sent(e, false)];
      } else if q.redact {
        sent := sent + [Sent(e, true)];
      }
    }
    assert events[..|events|] == events;
    OutputAnswers(events, q, states);
    return Some(sent);
  }

  // ---------------------------------------------------------------------------------------------
  // What its users may see is sent to their server

  /** A state at an event holds the event itself if it is a state event. */
  predicate HoldsEvent(s: State, e: Event) {
    e.stateKey.Some? ==> Get(s, (e.etype, e.stateKey.value)) == Some(e)
  }

  ghost predicate ClientSees(user: string, e: Event, r: Request, senderIgnored: bool, senderErased: bool, s: State) {
    CheckClient(user, e, r, {}, senderIgnored, Some(s), senderErased) != Hidden
  }

  ghost predicate ServerSees(server: string, e: Event, s: State) {
    VisibleToServer(server, if e.outlier then None else Some(s))
  }

  /** Whatever a user of the server may see, whole or pruned, is visible to the server, for every event
      but the user's own membership events and changes of the visibility setting. */
  lemma ServerSeesWhatUsersSee(server: string, user: string, e: Event, r: Request, ignored: bool, erased: bool, s: State)
    requires DomainOf(user) == Some(server) && !IsOwnMembership(e, user) && e.etype != HistoryVisibility
    requires ClientSees(user, e, r, ignored, erased, s)
    ensures ServerSees(server, e, s)
  {
    MemberIsOnServer(server, user, s);
  }

  lemma MemberIsOnServer(server: string, user: string, s: State)
    requires DomainOf(user) == Some(server)
    ensures MembershipOf(s, user).Some? ==> user in MembersOn(server, s)
  {
    if (Member, user) in s {
      var k := (Member, user);
      assert k in s && k.0 == Member && DomainOf(k.1) == Some(server);
    }
  }

  /** The user's own change away from being joined, or from being invited to anything but joined. */
  predicate IsStepAway(e: Event, user: string) {
    && IsOwnMembership(e, user)
    && var now := KnownMembership(e.content.membership);
    && now != Join
    && (PreviousMembership(e) == Join || (PreviousMembership(e) == Invite && now != Invite))
  }

  /** A change of the visibility setting away from one that is open to all. */
  predicate IsClosing(e: Event, peeking: bool) {
    && e.etype == HistoryVisibility
    && IsLax(PreviousVisibility(e), peeking)
    && (e.stateKey == Some("") ==> e.content.visibility == Some(Invited) || e.content.visibility == Some(Joined))
  }

  /** The inputs on which the server check can hide an event that the client check shows. */
  ghost predicate CanDiverge(user: string, e: Event, r: Request, ignored: bool, erased: bool) {
    && !e.outlier
    && !(r.toClient && Withheld(e, r, ignored))
    && (IsStepAway(e, user) || (IsClosing(e, r.peeking) && !erased))
  }

  lemma AgreeUnlessDivergent(server: string, user: string, e: Event, r: Request, ignored: bool, erased: bool, s: State)
    requires DomainOf(user) == Some(server) && HoldsEvent(s, e)
    requires !CanDiverge(user, e, r, ignored, erased) && ClientSees(user, e, r, ignored, erased, s)
    ensures ServerSees(server, e, s)
  {
    MemberIsOnServer(server, user, s);
  }

  /** A room whose setting is strict and that holds nothing else but the event. */
  function StrictState(e: Event, vis: Visibility): State {
    var setting := e.(etype := HistoryVisibility, stateKey := Some(""), content := e.content.(visibility := Some(vis)));
    Update(map[VISIBILITY_KEY := setting], e)
  }

  /** A state there can be at an event: every entry under its own key, the event itself among them. */
  ghost predicate IsStateAt(s: State, e: Event) {
    WellKeyed(s) && HoldsEvent(s, e)
  }

  lemma StepAwayDiverges(server: string, user: string, e: Event, r: Request, ignored: bool, erased: bool)
    returns (s: State)
    requires !e.outlier && !(r.toClient && Withheld(e, r, ignored)) && IsStepAway(e, user)
    ensures IsStateAt(s, e) && ClientSees(user, e, r, ignored, erased, s) && !ServerSees(server, e, s)
  {
    var vis := if PreviousMembership(e) == Join then Joined else Invited;
    s := StrictState(e, vis);
    assert forall m :: m in MembersOn(server, s) ==> m == user;
    assert !Qualifies(s, vis, user);
  }

  lemma ClosingDiverges(server: string, user: string, e: Event, r: Request, ignored: bool) returns (s: State)
    requires !e.outlier && !(r.toClient && Withheld(e, r, ignored)) && IsClosing(e, r.peeking)
    ensures IsStateAt(s, e) && ClientSees(user, e, r, ignored, false, s) && !ServerSees(server, e, s)
  {
    s := StrictState(e, Joined);
    assert MembersOn(server, s) == {};
    assert VisibleToAll(e, EffectiveVisibility(s), r.peeking);
  }

  /** In every state at the event, what the user may see is visible to their server, exactly if the event
      is not one on which the two checks can diverge. */
  lemma ServerCoversUserIff(server: string, user: string, e: Event, r: Request, ignored: bool, erased: bool)
    requires DomainOf(user) == Some(server)
    ensures (forall s :: IsStateAt(s, e) && ClientSees(user, e, r, ignored, erased, s) ==> ServerSees(server, e, s))
            <==> !CanDiverge(user, e, r, ignored, erased)
  {
    if CanDiverge(user, e, r, ignored, erased) {
      if IsStepAway(e, user) {
        var s := StepAwayDiverges(server, user, e, r, ignored, erased);
      } else {
        var s := ClosingDiverges(server, user, e, r, ignored);
      }
    } else {
      forall s | IsStateAt(s, e) && ClientSees(user, e, r, ignored, erased, s) ensures ServerSees(server, e, s) {
        AgreeUnlessDivergent(server, user, e, r, ignored, erased, s);
      }
    }
  }

  /** With no senders erased and no rooms partially stated, the server filter sends whole every event of
      the list that the server may see. */
  lemma {:induction false} VisibleEventsSentWhole(events: seq<Event>, q: ServerRequest, states: map<string, State>, e: Event)
    requires q.erased == {} && q.partial.None? && e in events
    ensures VisibleToServer(q.server, StateAt(e, states)) <==> Sent(e, false) in ServerOutput(events, q, states)
    decreases |events|
  {
    var front, last := events[..|events| - 1], events[|events| - 1];
    OutputIsSentWhole(front, q, states, e);
    if e in front {
      VisibleEventsSentWhole(front, q, states, e);
    } else {
      assert e == last;
    }
  }

  /** Whatever some user of the server may see, whole or pruned, the filter sends to the server whole, for
      every event of the list on which the two checks cannot diverge. */
  lemma UsersSightIsSentWhole(events: seq<Event>, q: ServerRequest, states: map<string, State>, e: Event,
                              user: string, r: Request, ignored: bool, erased: bool)
    requires q.erased == {} && q.partial.None? && e in events && DomainOf(user) == Some(q.server)
    requires StateAt(e, states).Some? ==> HoldsEvent(StateAt(e, states).value, e)
    requires !CanDiverge(user, e, r, ignored, erased)
    requires CheckClient(user, e, r, {}, ignored, StateAt(e, states), erased) in {Whole, Pruned}
    ensures Sent(e, false) in ServerOutput(events, q, states)
  {
    if StateAt(e, states).Some? { AgreeUnlessDivergent(q.server, user, e, r, ignored, erased, StateAt(e, states).value); }
    VisibleEventsSentWhole(events, q, states, e);
  }

  lemma {:induction false} OutputIsSentWhole(events: seq<Event>, q: ServerRequest, states: map<string, State>, e: Event)
    ensures Sent(e, false) in ServerOutput(events, q, states) ==> SentWhole(e, q, states)
    decreases |events|
  {
    if events != [] { OutputIsSentWhole(events[..|events| - 1], q, states, e); }
  }
}
