/** What the notifier guarantees over every interleaving of registrations, announcements, expiry and
    waiting clients. The code between two awaits is one step; looking a user's stream up and
    registering a new one is taken as one step.
 */
module NotifierRuns {
  import opened Tokens
  import opened Notifier
  import opened Wrappers

  datatype Step =
    | Register(sid: Sid, user: string, rooms: set<string>, token: Token, now: int)
    | Persisted(entry: Entry)
    | Release(upTo: Position, now: int)
    | NewEvent(advance: Advance, users: set<string>, rooms: set<string>, now: int)
    | Expire(now: int)
    | Arrive(w: Wid, sid: Sid, from: Token)
    | Listen(w: Wid)
    | Wake(w: Wid)
    | Read(w: Wid)
    | Again(w: Wid)
    | Depart(w: Wid)

  predicate InPhase(v: View, w: Wid) {
    w in v.waiters && v.waiters[w].sid in v.streams
  }

  predicate Enabled(v: View, s: Step) {
    match s
    case Register(sid, user, _, _, _) => user !in v.users && sid !in v.streams
    case Arrive(w, sid, _) => w !in v.waiters && sid in v.streams
    case Listen(w) => InPhase(v, w) && v.waiters[w].phase.Ready?
    case Wake(w) =>
      InPhase(v, w) && v.waiters[w].phase.Asleep?
      && v.waiters[w].phase.deferred < v.streams[v.waiters[w].sid].generation
    case Read(w) => InPhase(v, w) && v.waiters[w].phase.Awake?
    case Again(w) => InPhase(v, w) && v.waiters[w].phase.Reading?
    case _ => true
  }

  function WithPhase(v: View, w: Wid, p: Phase): View
    requires w in v.waiters
  {
    v.(waiters := v.waiters[w := v.waiters[w].(phase := p)])
  }

  /** Listening from a token: at once if the stream was last notified at another token. */
  function AfterListen(s: Stream, token: Token): Phase {
    if s.lastNotified != token then Awake(token) else Asleep(token, s.generation)
  }

  function Do(v: View, s: Step): View
    requires Enabled(v, s)
  {
    match s
    case Register(sid, user, rooms, token, now) => AfterRegister(v, sid, Stream(user, rooms, token, token, now, 0))
    case Persisted(e) => v.(pending := v.pending + [e])
    case Release(upTo, now) => AfterPending(v, upTo, now)
    case NewEvent(a, users, rooms, now) => AfterNewEvent(v, a, users, rooms, now)
    case Expire(now) => AfterExpiry(v, now)
    case Arrive(w, sid, from) => v.(waiters := v.waiters[w := Waiter(sid, Ready(from))])
    case Listen(w) => WithPhase(v, w, AfterListen(v.streams[v.waiters[w].sid], v.waiters[w].phase.token))
    case Wake(w) => WithPhase(v, w, Awake(v.waiters[w].phase.token))
    case Read(w) => WithPhase(v, w, Reading(v.waiters[w].phase.token, v.streams[v.waiters[w].sid].current))
    case Again(w) => WithPhase(v, w, Ready(v.waiters[w].phase.upTo))
    case Depart(w) => v.(waiters := v.waiters - {w})
  }

  ghost predicate ValidRun(v: View, steps: seq<Step>)
    decreases |steps|
  {
    steps == [] || (Enabled(v, steps[0]) && ValidRun(Do(v, steps[0]), steps[1..]))
  }

  ghost function After(v: View, steps: seq<Step>): View
    requires ValidRun(v, steps)
    decreases |steps|
  {
    if steps == [] then v else After(Do(v, steps[0]), steps[1..])
  }

  // ---------------------------------------------------------------------------------------------
  // The indexes

  lemma RegisterKeepsExact(v: View, sid: Sid, s: Stream)
    requires Exact(v) && sid !in v.streams && s.user !in v.users
    ensures Exact(AfterRegister(v, sid, s))
  {
    var u := AfterRegister(v, sid, s);
    assert !Registered(v, sid);
    assert forall n, t :: IsStreamOf(u.users, n, t) ==> (n == s.user && t == sid) || IsStreamOf(v.users, n, t);
    forall r, t ensures t in RoomStreams(u.rooms, r) <==> Registered(u, t) && r in u.streams[t].rooms {
      assert t in RoomStreams(v.rooms, r) <==> Registered(v, t) && r in v.streams[t].rooms;
      assert t != sid ==> (Registered(u, t) <==> Registered(v, t));
    }
  }

  lemma JoinKeepsExact(v: View, user: string, room: string)
    requires Exact(v)
    ensures Exact(AfterJoin(v, user, room))
  {
    var u := AfterJoin(v, user, room);
    if user in v.users {
      var sid := v.users[user];
      assert IsStreamOf(v.users, user, sid);
      forall r, t ensures t in RoomStreams(u.rooms, r) <==> Registered(u, t) && r in u.streams[t].rooms {
        assert t in RoomStreams(v.rooms, r) <==> Registered(v, t) && r in v.streams[t].rooms;
        assert Registered(u, t) <==> Registered(v, t);
      }
    }
  }

  lemma {:induction false} JoinsKeepExact(v: View, released: seq<Entry>)
    requires Exact(v)
    ensures Exact(AfterJoins(v, released))
    decreases |released|
  {
    if released != [] {
      var front, e := released[..|released| - 1], released[|released| - 1];
      JoinsKeepExact(v, front);
      if JoinerOf(e).Some? { JoinKeepsExact(AfterJoins(v, front), JoinerOf(e).value, e.room); }
    }
  }

  lemma NewEventKeepsExact(v: View, a: Advance, users: set<string>, rooms: set<string>, now: int)
    requires Exact(v)
    ensures Exact(AfterNewEvent(v, a, users, rooms, now))
  {
    var u := AfterNewEvent(v, a, users, rooms, now);
    assert forall sid :: Registered(u, sid) <==> Registered(v, sid);
  }

  /** With exact indexes, expiry takes exactly the expired streams out of both. */
  lemma ExpiryTakesUser(v: View, now: int, n: string, sid: Sid)
    requires Exact(v)
    ensures IsStreamOf(AfterExpiry(v, now).users, n, sid)
            <==> IsStreamOf(v.users, n, sid) && sid !in ExpiredStreams(v, now)
  {
    var gone := ExpiredStreams(v, now);
    ExpiredAreRegistered(v, now);
    if IsStreamOf(v.users, n, sid) {
      assert n in UsersOf(v, gone) <==> sid in gone by {
        if g :| g in gone && g in v.streams && v.streams[g].user == n { assert Registered(v, g); }
      }
    }
  }

  lemma ExpiryTakesRoom(v: View, now: int, r: string, sid: Sid)
    requires Exact(v)
    ensures sid in RoomStreams(AfterExpiry(v, now).rooms, r)
            <==> sid in RoomStreams(v.rooms, r) && sid !in ExpiredStreams(v, now)
  {
    var gone := ExpiredStreams(v, now);
    assert RoomStreams(AfterExpiry(v, now).rooms, r) == RoomStreams(v.rooms, r) - HoldersOf(v, gone, r);
    if sid in RoomStreams(v.rooms, r) { assert sid in HoldersOf(v, gone, r) <==> sid in gone; }
  }

  lemma ExpiryKeepsExact(v: View, now: int)
    requires Exact(v)
    ensures Exact(AfterExpiry(v, now))
    ensures forall sid :: Registered(AfterExpiry(v, now), sid) <==> Registered(v, sid) && sid !in ExpiredStreams(v, now)
  {
    var u, gone := AfterExpiry(v, now), ExpiredStreams(v, now);
    forall n, sid ensures IsStreamOf(u.users, n, sid) <==> IsStreamOf(v.users, n, sid) && sid !in gone {
      ExpiryTakesUser(v, now, n, sid);
    }
    assert forall sid :: Registered(u, sid) <==> Registered(v, sid) && sid !in gone;
    forall r, sid ensures sid in RoomStreams(u.rooms, r) <==> Registered(u, sid) && r in u.streams[sid].rooms {
      assert sid in RoomStreams(v.rooms, r) <==> Registered(v, sid) && r in v.streams[sid].rooms;
      ExpiryTakesRoom(v, now, r, sid);
    }
  }

  lemma StepKeepsExact(v: View, s: Step)
    requires Exact(v) && Enabled(v, s)
    ensures Exact(Do(v, s))
  {
    match s
    case Register(sid, user, rooms, token, now) => RegisterKeepsExact(v, sid, Stream(user, rooms, token, token, now, 0));
    case Release(upTo, now) =>
      var released := Released(v.pending, upTo);
      var u := v.(pending := Kept(v.pending, upTo));
      SameIndexesExact(v, u);
      JoinsKeepExact(u, released);
      NewEventKeepsExact(AfterJoins(u, released), RoomAdvance(upTo), ExtraUsersOf(released), RoomsOf(released), now);
    case NewEvent(a, users, rooms, now) => NewEventKeepsExact(v, a, users, rooms, now);
    case Expire(now) => ExpiryKeepsExact(v, now);
    case _ => SameIndexesExact(v, Do(v, s));
  }

  lemma SameIndexesExact(v: View, u: View)
    requires Exact(v) && u.streams == v.streams && u.users == v.users && u.rooms == v.rooms
    ensures Exact(u)
  {
    assert forall sid :: Registered(u, sid) <==> Registered(v, sid);
  }

  /** Registering a stream for a user who already has one, as two racing requests could if the lookup
      and the registration were separate steps, keeps the indexes exact only if the stream it displaces
      is in no room. */
  lemma SecondRegistrationExactIff(v: View, sid: Sid, s: Stream)
    requires Exact(v) && sid !in v.streams
    ensures Exact(AfterRegister(v, sid, s))
            <==> s.user !in v.users || (v.users[s.user] in v.streams && v.streams[v.users[s.user]].rooms == {})
  {
    var u := AfterRegister(v, sid, s);
    if s.user !in v.users {
      RegisterKeepsExact(v, sid, s);
    } else {
      var displaced := v.users[s.user];
      assert IsStreamOf(v.users, s.user, displaced);
      assert forall n, t :: IsStreamOf(u.users, n, t) ==> (n == s.user && t == sid) || IsStreamOf(v.users, n, t);
      if r :| r in v.streams[displaced].rooms {
        assert displaced in RoomStreams(v.rooms, r);
        assert displaced in RoomStreams(u.rooms, r) && !Registered(u, displaced);
      } else {
        forall r, t ensures t in RoomStreams(u.rooms, r) <==> Registered(u, t) && r in u.streams[t].rooms {
          assert t in RoomStreams(v.rooms, r) <==> Registered(v, t) && r in v.streams[t].rooms;
          assert t != sid && t != displaced ==> (Registered(u, t) <==> Registered(v, t));
        }
      }
    }
  }

  // ---------------------------------------------------------------------------------------------
  // Streams only move forward

  /** A later state of a stream: its token has not gone back, and it has changed only if a deferred
      was fired meanwhile. */
  ghost predicate Grew(s: Stream, t: Stream) {
    && TokenLeq(s.current, t.current)
    && s.generation <= t.generation
    && (s.generation == t.generation ==> s.current == t.current && s.lastNotified == t.lastNotified)
    && (s.current == s.lastNotified ==> t.current == t.lastNotified)
  }

  predicate SameButRooms(s: Stream, t: Stream) {
    t == s.(rooms := t.rooms)
  }

  /** What a notification leaves of a stream: the advanced token, noted as notified at that time, and the next
      deferred; its user and rooms stay. */
  lemma NotificationLeaves(s: Stream, a: Advance, now: int)
    ensures Notified(s, a, now).lastNotifiedMs == now
    ensures Notified(s, a, now).lastNotified == Notified(s, a, now).current == Advanced(s.current, a)
    ensures Notified(s, a, now).generation == s.generation + 1
    ensures Notified(s, a, now).user == s.user && Notified(s, a, now).rooms == s.rooms
  {
  }

  lemma NotifiedGrew(s: Stream, a: Advance, now: int)
    ensures Grew(s, Notified(s, a, now))
  {
    AdvanceOnlyAdvances(s.current, a);
  }

  lemma GrewTransitive(s: Stream, t: Stream, u: Stream)
    requires Grew(s, t) && Grew(t, u)
    ensures Grew(s, u)
  {
    TokenTransitive(s.current, t.current, u.current);
  }

  lemma SameGrew(s: Stream, t: Stream)
    requires SameButRooms(s, t)
    ensures Grew(s, t)
  {
  }

  lemma {:induction false} JoinsChangeOnlyRooms(v: View, released: seq<Entry>, sid: Sid)
    requires sid in v.streams
    ensures sid in AfterJoins(v, released).streams && SameButRooms(v.streams[sid], AfterJoins(v, released).streams[sid])
    ensures AfterJoins(v, released).users == v.users && AfterJoins(v, released).waiters == v.waiters
    decreases |released|
  {
    if released != [] { JoinsChangeOnlyRooms(v, released[..|released| - 1], sid); }
  }

  lemma NewEventGrows(v: View, a: Advance, users: set<string>, rooms: set<string>, now: int, sid: Sid)
    requires sid in v.streams
    ensures sid in AfterNewEvent(v, a, users, rooms, now).streams
    ensures Grew(v.streams[sid], AfterNewEvent(v, a, users, rooms, now).streams[sid])
  {
    NotifiedGrew(v.streams[sid], a, now);
    SameGrew(v.streams[sid], v.streams[sid]);
  }

  lemma ReleaseGrows(v: View, upTo: Position, now: int, sid: Sid)
    requires sid in v.streams
    ensures sid in AfterPending(v, upTo, now).streams && Grew(v.streams[sid], AfterPending(v, upTo, now).streams[sid])
  {
    var released := Released(v.pending, upTo);
    var kept := v.(pending := Kept(v.pending, upTo));
    var u := AfterJoins(kept, released);
    JoinsChangeOnlyRooms(kept, released, sid);
    SameGrew(v.streams[sid], u.streams[sid]);
    if released != [] {
      NewEventGrows(u, RoomAdvance(upTo), ExtraUsersOf(released), RoomsOf(released), now, sid);
      GrewTransitive(v.streams[sid], u.streams[sid], AfterPending(v, upTo, now).streams[sid]);
    }
  }

  lemma StepGrows(v: View, s: Step, sid: Sid)
    requires Enabled(v, s) && sid in v.streams
    ensures sid in Do(v, s).streams && Grew(v.streams[sid], Do(v, s).streams[sid])
  {
    SameGrew(v.streams[sid], v.streams[sid]);
    match s
    case Release(upTo, now) => ReleaseGrows(v, upTo, now, sid);
    case NewEvent(a, users, rooms, now) => NewEventGrows(v, a, users, rooms, now, sid);
    case _ =>
  }

  lemma {:induction false} RunGrows(v: View, steps: seq<Step>, sid: Sid)
    requires ValidRun(v, steps) && sid in v.streams
    ensures sid in After(v, steps).streams && Grew(v.streams[sid], After(v, steps).streams[sid])
    decreases |steps|
  {
    SameGrew(v.streams[sid], v.streams[sid]);
    if steps != [] {
      var u := Do(v, steps[0]);
      StepGrows(v, steps[0], sid);
      RunGrows(u, steps[1..], sid);
      GrewTransitive(v.streams[sid], u.streams[sid], After(v, steps).streams[sid]);
    }
  }

  // ---------------------------------------------------------------------------------------------
  // No lost wake-up

  /** Notifications are the only thing that moves a stream's token. */
  ghost predicate InSync(v: View) {
    forall sid :: sid in v.streams ==> v.streams[sid].current == v.streams[sid].lastNotified
  }

  /** Whoever sleeps on a deferred that has not fired sleeps on the current one, from the token the
      stream was last notified at; and whoever has read a token has not read ahead of the stream. */
  ghost predicate WaiterOk(v: View, w: Wid)
    requires w in v.waiters
  {
    && v.waiters[w].sid in v.streams
    && var s := v.streams[v.waiters[w].sid];
    && match v.waiters[w].phase {
         case Asleep(token, d) => d <= s.generation && (d == s.generation ==> token == s.lastNotified)
         case Reading(_, upTo) => TokenLeq(upTo, s.current)
         case _ => true
       }
  }

  ghost predicate Good(v: View) {
    Exact(v) && InSync(v) && forall w :: w in v.waiters ==> WaiterOk(v, w)
  }

  lemma GrowthKeepsWaiter(v: View, u: View, w: Wid)
    requires w in v.waiters && WaiterOk(v, w)
    requires w in u.waiters && u.waiters[w] == v.waiters[w] && v.waiters[w].sid in u.streams
    requires Grew(v.streams[v.waiters[w].sid], u.streams[v.waiters[w].sid])
    ensures WaiterOk(u, w)
  {
    var sid := v.waiters[w].sid;
    if v.waiters[w].phase.Reading? {
      TokenTransitive(v.waiters[w].phase.upTo, v.streams[sid].current, u.streams[sid].current);
    }
  }

  lemma TokenReflexive(t: Token)
    ensures TokenLeq(t, t)
  {
  }

  lemma {:induction false} JoinsKeepStreams(v: View, released: seq<Entry>)
    ensures AfterJoins(v, released).streams.Keys == v.streams.Keys && AfterJoins(v, released).waiters == v.waiters
    decreases |released|
  {
    if released != [] { JoinsKeepStreams(v, released[..|released| - 1]); }
  }

  lemma StepStreams(v: View, s: Step)
    requires Enabled(v, s)
    ensures forall sid :: sid in Do(v, s).streams ==>
              sid in v.streams || (s.Register? && s.sid == sid && Do(v, s).streams[sid].lastNotified == Do(v, s).streams[sid].current)
    ensures s.Register? || s.Persisted? || s.Release? || s.NewEvent? || s.Expire? ==> Do(v, s).waiters == v.waiters
  {
    if s.Release? {
      JoinsKeepStreams(v.(pending := Kept(v.pending, s.upTo)), Released(v.pending, s.upTo));
    }
  }

  lemma StepKeepsSync(v: View, s: Step)
    requires InSync(v) && Enabled(v, s)
    ensures InSync(Do(v, s))
  {
    StepStreams(v, s);
    forall sid | sid in Do(v, s).streams
      ensures Do(v, s).streams[sid].current == Do(v, s).streams[sid].lastNotified
    {
      if sid in v.streams { StepGrows(v, s, sid); }
    }
  }

  lemma {:induction false} StepKeepsWaiters(v: View, s: Step)
    requires Good(v) && Enabled(v, s)
    ensures forall w :: w in Do(v, s).waiters ==> WaiterOk(Do(v, s), w)
  {
    var u := Do(v, s);
    StepStreams(v, s);
    forall w | w in u.waiters ensures WaiterOk(u, w) {
      if w in v.waiters {
        var sid := v.waiters[w].sid;
        assert WaiterOk(v, w);
        StepGrows(v, s, sid);
        if u.waiters[w] == v.waiters[w] {
          GrowthKeepsWaiter(v, u, w);
        } else {
          TokenReflexive(v.streams[sid].current);
        }
      }
    }
  }

  lemma {:induction false} RunKeepsGood(v: View, steps: seq<Step>)
    requires Good(v) && ValidRun(v, steps)
    ensures Good(After(v, steps))
    decreases |steps|
  {
    if steps != [] {
      StepKeepsExact(v, steps[0]);
      StepKeepsSync(v, steps[0]);
      StepKeepsWaiters(v, steps[0]);
      RunKeepsGood(Do(v, steps[0]), steps[1..]);
    }
  }

  /** Over every run: a stream that has moved on from a token a client has read stays different from it,
      so a client still asleep from that token has had its deferred fired, and one about to listen from
      that token does not go to sleep. */
  lemma NoLostWakeup(v: View, steps: seq<Step>, sid: Sid, token: Token, w: Wid)
    requires Good(v) && ValidRun(v, steps) && sid in v.streams
    requires TokenLeq(token, v.streams[sid].current) && token != v.streams[sid].current
    ensures Good(After(v, steps)) && sid in After(v, steps).streams
    ensures token != After(v, steps).streams[sid].current
    ensures w in After(v, steps).waiters && After(v, steps).waiters[w].sid == sid ==>
              && (After(v, steps).waiters[w].phase.Asleep? && After(v, steps).waiters[w].phase.token == token ==>
                    Enabled(After(v, steps), Wake(w)))
              && (After(v, steps).waiters[w].phase == Ready(token) ==>
                    Do(After(v, steps), Listen(w)).waiters[w].phase == Awake(token))
  {
    RunKeepsGood(v, steps);
    RunGrows(v, steps, sid);
    var u := After(v, steps);
    TokenNeverReturns(token, v.streams[sid].current, u.streams[sid].current);
    if w in u.waiters && u.waiters[w].sid == sid {
      assert WaiterOk(u, w);
    }
  }

  /** Every client asleep on a deferred that has not fired listens from the stream's current token. */
  lemma SleepersAreCurrent(v: View, steps: seq<Step>, w: Wid)
    requires Good(v) && ValidRun(v, steps)
    requires w in After(v, steps).waiters && After(v, steps).waiters[w].phase.Asleep?
    ensures After(v, steps).waiters[w].sid in After(v, steps).streams
    ensures !Enabled(After(v, steps), Wake(w)) ==>
              var s := After(v, steps).streams[After(v, steps).waiters[w].sid];
              After(v, steps).waiters[w].phase == Asleep(s.current, s.generation)
  {
    RunKeepsGood(v, steps);
    assert WaiterOk(After(v, steps), w);
  }

  // ---------------------------------------------------------------------------------------------
  // Who is told

  predicate Addressed(s: Stream, users: set<string>, rooms: set<string>) {
    s.user in users || exists r :: r in rooms && r in s.rooms
  }

  /** An announcement reaches exactly the registered streams of the users and of the rooms it names. */
  lemma AnnouncementReaches(v: View, a: Advance, users: set<string>, rooms: set<string>, now: int, sid: Sid)
    requires Exact(v) && sid in v.streams
    ensures AfterNewEvent(v, a, users, rooms, now).streams[sid]
            == if Registered(v, sid) && Addressed(v.streams[sid], users, rooms)
               then Notified(v.streams[sid], a, now) else v.streams[sid]
  {
    assert Concerned(v, users, rooms, sid) <==> Registered(v, sid) && Addressed(v.streams[sid], users, rooms) by {
      if Registered(v, sid) && Addressed(v.streams[sid], users, rooms) {
        if r :| r in rooms && r in v.streams[sid].rooms { assert sid in RoomStreams(v.rooms, r); }
      }
    }
  }

  /** The entry records that the user has joined the room. */
  predicate RecordsJoin(f: Entry, user: string, room: string) {
    && f.etype == "m.room.member" && f.membership == Some("join")
    && f.stateKey == Some(user) && user != "" && f.room == room
  }

  /** The rooms that entries record a user's joining of. */
  function RoomsJoined(released: seq<Entry>, user: string): set<string> {
    set f | f in released && RecordsJoin(f, user, f.room) :: f.room
  }

  lemma RoomsJoinedSnoc(front: seq<Entry>, last: Entry, user: string)
    ensures RoomsJoined(front + [last], user)
            == RoomsJoined(front, user) + if RecordsJoin(last, user, last.room) then {last.room} else {}
  {
    assert forall f :: f in front + [last] <==> f in front || f == last;
  }

  lemma {:induction false} JoinsAddRooms(v: View, released: seq<Entry>, sid: Sid)
    requires Exact(v) && Registered(v, sid)
    ensures sid in AfterJoins(v, released).streams
    ensures AfterJoins(v, released).streams[sid].rooms
            == v.streams[sid].rooms + RoomsJoined(released, v.streams[sid].user)
    decreases |released|
  {
    if released != [] {
      var front, last := released[..|released| - 1], released[|released| - 1];
      var u, user := AfterJoins(v, front), v.streams[sid].user;
      JoinsAddRooms(v, front, sid);
      JoinsChangeOnlyRooms(v, front, sid);
      JoinsKeepExact(v, front);
      assert released == front + [last];
      RoomsJoinedSnoc(front, last, user);
      assert u.users[user] == sid;
      if JoinerOf(last).Some? { JoinTouchesOne(u, JoinerOf(last).value, last.room, sid); }
    }
  }

  lemma JoinTouchesOne(v: View, user: string, room: string, sid: Sid)
    requires Exact(v) && Registered(v, sid)
    ensures sid in AfterJoin(v, user, room).streams
    ensures AfterJoin(v, user, room).streams[sid].rooms
            == v.streams[sid].rooms + if user == v.streams[sid].user then {room} else {}
  {
    if user in v.users { assert IsStreamOf(v.users, user, v.users[user]); }
  }

  /** An entry concerns the stream: it is in one of its rooms, also one that is joined in the same release, or
      names its user. */
  ghost predicate ConcernedBy(v: View, released: seq<Entry>, sid: Sid, e: Entry)
    requires sid in v.streams
  {
    || e.room in v.streams[sid].rooms
    || (exists f :: f in released && RecordsJoin(f, v.streams[sid].user, e.room))
    || v.streams[sid].user in e.extraUsers
  }

  /** A release gives a registered stream exactly the rooms that released entries record its user's joining
      of, and wakes it, once, exactly if some released entry concerns it. */
  lemma ReleaseExact(v: View, upTo: Position, now: int, sid: Sid)
    requires Exact(v) && Registered(v, sid)
    ensures sid in AfterPending(v, upTo, now).streams
    ensures AfterPending(v, upTo, now).streams[sid].rooms
            == v.streams[sid].rooms + RoomsJoined(Released(v.pending, upTo), v.streams[sid].user)
    ensures AfterPending(v, upTo, now).streams[sid].generation
            == v.streams[sid].generation
               + if exists e :: e in Released(v.pending, upTo) && ConcernedBy(v, Released(v.pending, upTo), sid, e) then 1 else 0
    ensures (exists e :: e in Released(v.pending, upTo) && ConcernedBy(v, Released(v.pending, upTo), sid, e)) ==>
              AfterPending(v, upTo, now).streams[sid].current.room == Merge(v.streams[sid].current.room, upTo)
  {
    var released := Released(v.pending, upTo);
    var kept := v.(pending := Kept(v.pending, upTo));
    var u := AfterJoins(kept, released);
    SameIndexesExact(v, kept);
    assert Registered(kept, sid);
    JoinsAddRooms(kept, released, sid);
    JoinsChangeOnlyRooms(kept, released, sid);
    JoinsKeepExact(kept, released);
    assert Registered(u, sid);
    if released != [] {
      AnnouncementReaches(u, RoomAdvance(upTo), ExtraUsersOf(released), RoomsOf(released), now, sid);
      AddressedIffConcerned(v, u, released, sid);
    }
  }

  lemma AddressedIffConcerned(v: View, u: View, released: seq<Entry>, sid: Sid)
    requires sid in v.streams && sid in u.streams && u.streams[sid].user == v.streams[sid].user
    requires u.streams[sid].rooms == v.streams[sid].rooms + RoomsJoined(released, v.streams[sid].user)
    ensures Addressed(u.streams[sid], ExtraUsersOf(released), RoomsOf(released))
            <==> exists e :: e in released && ConcernedBy(v, released, sid, e)
  {
    if e :| e in released && ConcernedBy(v, released, sid, e) {
      if f :| f in released && RecordsJoin(f, v.streams[sid].user, e.room) {
        assert e.room in RoomsJoined(released, v.streams[sid].user);
      }
      assert e.room in RoomsOf(released);
    }
    if Addressed(u.streams[sid], ExtraUsersOf(released), RoomsOf(released)) {
      if u.streams[sid].user in ExtraUsersOf(released) {
        var e :| e in released && u.streams[sid].user in e.extraUsers;
        assert ConcernedBy(v, released, sid, e);
      } else {
        var r :| r in RoomsOf(released) && r in u.streams[sid].rooms;
        var e :| e in released && e.room == r;
        assert ConcernedBy(v, released, sid, e);
      }
    }
  }

  /** Releasing a pending entry wakes every registered stream in its room, including those of users whose
      joining of the room is released in the same call, and those of its extra users; their tokens then
      cover the entry. */
  lemma ReleaseWakesRoom(v: View, upTo: Position, now: int, e: Entry, sid: Sid)
    requires Exact(v) && Registered(v, sid) && e in Released(v.pending, upTo)
    requires || e.room in v.streams[sid].rooms
             || v.streams[sid].user in e.extraUsers
             || exists f :: && f in Released(v.pending, upTo) && f.etype == "m.room.member" && f.membership == Some("join")
                            && f.stateKey == Some(v.streams[sid].user) && v.streams[sid].user != "" && f.room == e.room
    ensures sid in AfterPending(v, upTo, now).streams
    ensures AfterPending(v, upTo, now).streams[sid].generation == v.streams[sid].generation + 1
    ensures !PersistedAfter(e.pos, AfterPending(v, upTo, now).streams[sid].current.room)
  {
    ReleaseExact(v, upTo, now, sid);
    assert ConcernedBy(v, Released(v.pending, upTo), sid, e);
    ReleasedIff(v.pending, upTo, e);
    AfterMergeIffAfterBoth(e.pos, v.streams[sid].current.room, upTo);
  }

  /** Released are exactly the pending entries that the position covers. */
  lemma {:induction false} ReleasedIff(pending: seq<Entry>, upTo: Position, e: Entry)
    ensures e in Released(pending, upTo) <==> e in pending && !PersistedAfter(e.pos, upTo)
    decreases |pending|
  {
    if pending != [] {
      ReleasedIff(pending[..|pending| - 1], upTo, e);
      assert e in pending <==> e in pending[..|pending| - 1] || e == pending[|pending| - 1];
    }
  }

  // ---------------------------------------------------------------------------------------------
  // Each pending entry is released once, by the first call that covers it

  predicate Covers(s: Step, e: Entry) {
    s.Release? && !PersistedAfter(e.pos, s.upTo)
  }

  predicate CoveredIn(e: Entry, steps: seq<Step>)
    decreases |steps|
  {
    steps != [] && (Covers(steps[0], e) || CoveredIn(e, steps[1..]))
  }

  /** The entries of `pending` that no call among the steps covers, in order. */
  function NeverCovered(pending: seq<Entry>, steps: seq<Step>): seq<Entry> {
    if pending == [] then []
    else
      var front, e := pending[..|pending| - 1], pending[|pending| - 1];
      NeverCovered(front, steps) + if CoveredIn(e, steps) then [] else [e]
  }

  /** The entries persisted during the steps that no call after their arrival covers, in order. */
  function NewAndUncovered(steps: seq<Step>): seq<Entry> {
    if steps == [] then []
    else
      (if steps[0].Persisted? && !CoveredIn(steps[0].entry, steps[1..]) then [steps[0].entry] else [])
      + NewAndUncovered(steps[1..])
  }

  lemma {:induction false} JoinsKeepPending(v: View, released: seq<Entry>)
    ensures AfterJoins(v, released).pending == v.pending
    decreases |released|
  {
    if released != [] { JoinsKeepPending(v, released[..|released| - 1]); }
  }

  lemma {:induction false} KeptThenUncovered(pending: seq<Entry>, steps: seq<Step>)
    requires steps != [] && steps[0].Release?
    ensures NeverCovered(Kept(pending, steps[0].upTo), steps[1..]) == NeverCovered(pending, steps)
    decreases |pending|
  {
    if pending != [] {
      var front, e := pending[..|pending| - 1], pending[|pending| - 1];
      KeptThenUncovered(front, steps);
      var k := Kept(front, steps[0].upTo);
      assert (k + [e])[..|k|] == k && k + [] == k;
      assert (k + [e])[|k|] == e;
      assert CoveredIn(e, steps) <==> Covers(steps[0], e) || CoveredIn(e, steps[1..]);
    }
  }

  lemma UncoveredSnoc(pending: seq<Entry>, e: Entry, steps: seq<Step>)
    ensures NeverCovered(pending + [e], steps) == NeverCovered(pending, steps) + if CoveredIn(e, steps) then [] else [e]
  {
    assert (pending + [e])[..|pending|] == pending;
  }

  lemma Regrouped(a: seq<Entry>, b: seq<Entry>, c: seq<Entry>)
    ensures (a + b) + c == a + (b + c)
  {
  }

  lemma {:induction false} PersistedThenUncovered(pending: seq<Entry>, steps: seq<Step>)
    requires steps != [] && steps[0].Persisted?
    ensures NeverCovered(pending + [steps[0].entry], steps[1..]) + NewAndUncovered(steps[1..])
            == NeverCovered(pending, steps) + NewAndUncovered(steps)
  {
    var e, rest := steps[0].entry, steps[1..];
    var kept: seq<Entry> := if CoveredIn(e, rest) then [] else [e];
    OtherStepsCoverNothing(pending, steps);
    UncoveredSnoc(pending, e, rest);
    assert NewAndUncovered(steps) == kept + NewAndUncovered(rest);
    Regrouped(NeverCovered(pending, rest), kept, NewAndUncovered(rest));
  }

  lemma {:induction false} OtherStepsCoverNothing(pending: seq<Entry>, steps: seq<Step>)
    requires steps != [] && !steps[0].Release?
    ensures NeverCovered(pending, steps) == NeverCovered(pending, steps[1..])
    decreases |pending|
  {
    if pending != [] { OtherStepsCoverNothing(pending[..|pending| - 1], steps); }
  }

  lemma StepPending(v: View, s: Step)
    requires Enabled(v, s)
    ensures s.Persisted? ==> Do(v, s).pending == v.pending + [s.entry]
    ensures s.Release? ==> Do(v, s).pending == Kept(v.pending, s.upTo)
    ensures !s.Persisted? && !s.Release? ==> Do(v, s).pending == v.pending
  {
    if s.Release? {
      JoinsKeepPending(v.(pending := Kept(v.pending, s.upTo)), Released(v.pending, s.upTo));
    }
  }

  /** After every run, what is pending is exactly what no call since its arrival has covered, in order of
      arrival; so a call releases exactly what it is the first to cover. */
  lemma {:induction false} PendingIsUncovered(v: View, steps: seq<Step>)
    requires ValidRun(v, steps)
    ensures After(v, steps).pending == NeverCovered(v.pending, steps) + NewAndUncovered(steps)
    decreases |steps|
  {
    if steps == [] {
      NothingCovered(v.pending);
    } else {
      var s, rest := steps[0], steps[1..];
      PendingIsUncovered(Do(v, s), rest);
      StepPending(v, s);
      UncoveredStep(v.pending, Do(v, s).pending, steps);
    }
  }

  lemma UncoveredStep(before: seq<Entry>, after: seq<Entry>, steps: seq<Step>)
    requires steps != []
    requires steps[0].Persisted? ==> after == before + [steps[0].entry]
    requires steps[0].Release? ==> after == Kept(before, steps[0].upTo)
    requires !steps[0].Persisted? && !steps[0].Release? ==> after == before
    ensures NeverCovered(after, steps[1..]) + NewAndUncovered(steps[1..]) == NeverCovered(before, steps) + NewAndUncovered(steps)
  {
    if steps[0].Persisted? {
      PersistedThenUncovered(before, steps);
    } else {
      NothingNew(steps);
      if steps[0].Release? { KeptThenUncovered(before, steps); } else { OtherStepsCoverNothing(before, steps); }
    }
  }

  lemma NothingNew(steps: seq<Step>)
    requires steps != [] && !steps[0].Persisted?
    ensures NewAndUncovered(steps) == NewAndUncovered(steps[1..])
  {
  }

  lemma {:induction false} NothingCovered(pending: seq<Entry>)
    ensures NeverCovered(pending, []) == pending
    decreases |pending|
  {
    if pending != [] { NothingCovered(pending[..|pending| - 1]); }
  }

  /** A call splits what is pending into what it releases and what stays: nothing is lost or repeated. */
  lemma {:induction false} ReleaseSplits(pending: seq<Entry>, upTo: Position)
    ensures multiset(Kept(pending, upTo)) + multiset(Released(pending, upTo)) == multiset(pending)
    decreases |pending|
  {
    if pending != [] {
      var front, e := pending[..|pending| - 1], pending[|pending| - 1];
      ReleaseSplits(front, upTo);
      assert pending == front + [e];
      if PersistedAfter(e.pos, upTo) {
        assert Kept(pending, upTo) == Kept(front, upTo) + [e];
        assert Released(pending, upTo) == Released(front, upTo);
      } else {
        assert Kept(pending, upTo) == Kept(front, upTo);
        assert Released(pending, upTo) == Released(front, upTo) + [e];
      }
    }
  }

  // ---------------------------------------------------------------------------------------------
  // Streams that have been taken out of the indexes

  /** Expiry takes out a registered stream exactly if nobody sleeps on its current deferred and it has
      not been notified for the expiry period. */
  lemma ExpiryExact(v: View, now: int, sid: Sid)
    requires Exact(v) && Registered(v, sid)
    ensures Registered(AfterExpiry(v, now), sid)
            <==> HasListener(v, sid) || v.streams[sid].lastNotifiedMs >= now - 600000
  {
    var u := v.streams[sid].user;
    ExpiryKeepsExact(v, now);
    assert IsStreamOf(v.users, u, sid);
    if sid in ExpiredStreams(v, now) {
      var n :| n in v.users && v.users[n] == sid && !HasListener(v, v.users[n])
               && v.streams[v.users[n]].lastNotifiedMs < now - UNUSED_STREAM_EXPIRY_MS;
    }
  }

  lemma StepKeepsOrphan(v: View, s: Step, sid: Sid)
    requires Exact(v) && Enabled(v, s) && sid in v.streams && !Registered(v, sid)
    ensures sid in Do(v, s).streams && !Registered(Do(v, s), sid)
    ensures Do(v, s).streams[sid].generation == v.streams[sid].generation
  {
    match s
    case Release(upTo, now) =>
      var released := Released(v.pending, upTo);
      var kept := v.(pending := Kept(v.pending, upTo));
      SameIndexesExact(v, kept);
      JoinsChangeOnlyRooms(kept, released, sid);
      JoinsKeepExact(kept, released);
      AnnouncementReaches(AfterJoins(kept, released), RoomAdvance(upTo), ExtraUsersOf(released), RoomsOf(released), now, sid);
    case NewEvent(a, users, rooms, now) => AnnouncementReaches(v, a, users, rooms, now, sid);
    case Expire(now) => ExpiryKeepsExact(v, now);
    case _ =>
  }

  /** A client asleep on a stream that has been taken out of the indexes is never woken, whatever
      happens: being registered is what waking a sleeper depends on. */
  lemma {:induction false} OrphanNeverWoken(v: View, steps: seq<Step>, sid: Sid)
    requires Exact(v) && ValidRun(v, steps) && sid in v.streams && !Registered(v, sid)
    ensures sid in After(v, steps).streams && !Registered(After(v, steps), sid)
    ensures After(v, steps).streams[sid].generation == v.streams[sid].generation
    decreases |steps|
  {
    if steps != [] {
      StepKeepsOrphan(v, steps[0], sid);
      StepKeepsExact(v, steps[0]);
      OrphanNeverWoken(Do(v, steps[0]), steps[1..], sid);
    }
  }

  /** After every run, an announcement wakes a client that sleeps on exactly if it addresses the stream the
      client sleeps on and that stream is registered at that point. */
  lemma WokenIffRegistered(v: View, steps: seq<Step>, w: Wid, a: Advance, users: set<string>, rooms: set<string>,
                           now: int)
    requires Good(v) && ValidRun(v, steps)
    requires w in After(v, steps).waiters && After(v, steps).waiters[w].phase.Asleep?
    requires !Enabled(After(v, steps), Wake(w))
    ensures After(v, steps).waiters[w].sid in After(v, steps).streams
    ensures Enabled(Do(After(v, steps), NewEvent(a, users, rooms, now)), Wake(w))
            <==> && Registered(After(v, steps), After(v, steps).waiters[w].sid)
                 && Addressed(After(v, steps).streams[After(v, steps).waiters[w].sid], users, rooms)
  {
    RunKeepsGood(v, steps);
    SleepersAreCurrent(v, steps, w);
    var u := After(v, steps);
    AnnouncementReaches(u, a, users, rooms, now, u.waiters[w].sid);
  }

  const NOTHING := View(map[], map[], map[], [], map[])

  lemma {:induction false} OneStepMore(v: View, steps: seq<Step>, s: Step)
    requires ValidRun(v, steps) && Enabled(After(v, steps), s)
    ensures ValidRun(v, steps + [s]) && After(v, steps + [s]) == Do(After(v, steps), s)
    decreases |steps|
  {
    if steps == [] {
      assert steps + [s] == [s] && [s][1..] == [];
    } else {
      OneStepMore(Do(v, steps[0]), steps[1..], s);
      assert (steps + [s])[1..] == steps[1..] + [s];
    }
  }

  /** A client that has come with an old token and runs its callback. */
  lemma BusyReader(user: string, stale: Token, token: Token) returns (steps: seq<Step>)
    requires stale != token
    ensures ValidRun(NOTHING, steps)
    ensures After(NOTHING, steps).streams == map[0 := Stream(user, {}, token, token, 0, 0)]
    ensures After(NOTHING, steps).users == map[user := 0]
    ensures After(NOTHING, steps).waiters == map[0 := Waiter(0, Reading(stale, token))]
  {
    steps := [];
    OneStepMore(NOTHING, steps, Register(0, user, {}, token, 0));
    steps := steps + [Register(0, user, {}, token, 0)];
    OneStepMore(NOTHING, steps, Arrive(0, 0, stale));
    steps := steps + [Arrive(0, 0, stale)];
    OneStepMore(NOTHING, steps, Listen(0));
    steps := steps + [Listen(0)];
    OneStepMore(NOTHING, steps, Read(0));
    steps := steps + [Read(0)];
  }

  lemma BusyReaderExpires(v: View, user: string, now: int)
    requires 0 in v.streams && v.users == map[user := 0] && v.streams[0].user == user && !HasListener(v, 0)
    requires v.streams[0].lastNotifiedMs < now - UNUSED_STREAM_EXPIRY_MS
    ensures user !in AfterExpiry(v, now).users
  {
    assert 0 in ExpiredStreams(v, now) by { assert user in v.users && v.users[user] == 0; }
    assert user in UsersOf(v, ExpiredStreams(v, now));
  }

  lemma BackToSleep(steps: seq<Step>, token: Token) returns (longer: seq<Step>)
    requires ValidRun(NOTHING, steps)
    requires var v := After(NOTHING, steps);
             && 0 in v.streams && v.streams[0].lastNotified == token && v.streams[0].generation == 0
             && 0 in v.waiters && v.waiters[0].sid == 0
             && v.waiters[0].phase.Reading? && v.waiters[0].phase.upTo == token
    ensures ValidRun(NOTHING, longer)
    ensures After(NOTHING, longer) == WithPhase(After(NOTHING, steps), 0, Asleep(token, 0))
  {
    OneStepMore(NOTHING, steps, Again(0));
    longer := steps + [Again(0)];
    OneStepMore(NOTHING, longer, Listen(0));
    longer := longer + [Listen(0)];
  }

  /** Such a client can come to sleep on a stream that is not registered: if the stream expires while the
      callback runs, nothing sends the client to a new one. No announcement to its user wakes it. */
  lemma AsleepOnOrphan(user: string, stale: Token, token: Token) returns (steps: seq<Step>)
    requires stale != token
    ensures ValidRun(NOTHING, steps) && Good(After(NOTHING, steps))
    ensures var v := After(NOTHING, steps);
            && 0 in v.streams && v.streams[0].user == user && !Registered(v, 0) && v.streams[0].generation == 0
            && 0 in v.waiters && v.waiters[0] == Waiter(0, Asleep(token, 0))
  {
    steps := BusyReader(user, stale, token);
    var late := UNUSED_STREAM_EXPIRY_MS + 1;
    BusyReaderExpires(After(NOTHING, steps), user, late);
    OneStepMore(NOTHING, steps, Expire(late));
    steps := BackToSleep(steps + [Expire(late)], token);
    NothingIsGood();
    RunKeepsGood(NOTHING, steps);
  }

  lemma NothingIsGood()
    ensures Good(NOTHING)
  {
  }
}
