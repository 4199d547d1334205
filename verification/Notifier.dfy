/** The notifier (synapse/notifier.py): one stream per connected user, indexed by user and by room; room
    events that wait until all earlier ones are persisted; and clients that sleep until their stream
    is told of something new.
 */
module Notifier {
  import opened Wrappers
  import opened Tokens

  type Sid = nat
  type Wid = nat

  const UNUSED_STREAM_EXPIRY_MS: int := 10 * 60 * 1000

  /** A user's stream. Its deferreds are numbered: `generation` is the one to be fired next, and every
      smaller one has been fired. */
  datatype Stream = Stream(
    user: string, rooms: set<string>, current: Token, lastNotified: Token, lastNotifiedMs: int, generation: nat)

  /** A client waiting on a stream: about to listen from a token, asleep on a deferred, woken from the
      sleep it began with a token, or running its callback up to the token it has just read. */
  datatype Phase =
    | Ready(token: Token)
    | Asleep(token: Token, deferred: nat)
    | Awake(token: Token)
    | Reading(token: Token, upTo: Token)

  datatype Waiter = Waiter(sid: Sid, phase: Phase)

  /** A room event that has been persisted but perhaps not yet announced. */
  datatype Entry = Entry(
    pos: EventPosition, extraUsers: set<string>, room: string,
    etype: string, stateKey: Option<string>, membership: Option<string>)

  /** The user whose joining of the room the event records, if any. */
  function JoinerOf(e: Entry): Option<string> {
    if e.etype == "m.room.member" && e.membership == Some("join") && e.stateKey != Some("") then e.stateKey else None
  }

  datatype View = View(
    streams: map<Sid, Stream>,
    users: map<string, Sid>,
    rooms: map<string, set<Sid>>,
    pending: seq<Entry>,
    waiters: map<Wid, Waiter>)

  function RoomStreams(rooms: map<string, set<Sid>>, room: string): set<Sid> {
    if room in rooms then rooms[room] else {}
  }

  // ---------------------------------------------------------------------------------------------
  // The operations as functions of the notifier's state

  function Notified(s: Stream, a: Advance, now: int): Stream {
    s.(current := Advanced(s.current, a), lastNotified := Advanced(s.current, a),
       lastNotifiedMs := now, generation := s.generation + 1)
  }

  function NotifyAll(streams: map<Sid, Stream>, sids: set<Sid>, a: Advance, now: int): map<Sid, Stream> {
    map sid | sid in streams :: if sid in sids then Notified(streams[sid], a, now) else streams[sid]
  }

  /** The stream belongs to one of the users or is indexed under one of the rooms. */
  predicate Concerned(v: View, users: set<string>, rooms: set<string>, sid: Sid) {
    || (exists u :: u in users && IsStreamOf(v.users, u, sid))
    || (exists r :: r in rooms && sid in RoomStreams(v.rooms, r))
  }

  predicate IsStreamOf(users: map<string, Sid>, u: string, sid: Sid) {
    u in users && users[u] == sid
  }

  function AfterNewEvent(v: View, a: Advance, users: set<string>, rooms: set<string>, now: int): View {
    v.(streams := NotifyAll(v.streams, (set sid | sid in v.streams && Concerned(v, users, rooms, sid)), a, now))
  }

  function AfterJoin(v: View, user: string, room: string): View {
    if user in v.users && v.users[user] in v.streams then
      var sid := v.users[user];
      v.(rooms := v.rooms[room := RoomStreams(v.rooms, room) + {sid}],
         streams := v.streams[sid := v.streams[sid].(rooms := v.streams[sid].rooms + {room})])
    else v
  }

  function Kept(pending: seq<Entry>, upTo: Position): seq<Entry> {
    if pending == [] then []
    else
      var front, e := pending[..|pending| - 1], pending[|pending| - 1];
      Kept(front, upTo) + if PersistedAfter(e.pos, upTo) then [e] else []
  }

  function Released(pending: seq<Entry>, upTo: Position): seq<Entry> {
    if pending == [] then []
    else
      var front, e := pending[..|pending| - 1], pending[|pending| - 1];
      Released(front, upTo) + if PersistedAfter(e.pos, upTo) then [] else [e]
  }

  function AfterJoins(v: View, released: seq<Entry>): View {
    if released == [] then v
    else
      var u, e := AfterJoins(v, released[..|released| - 1]), released[|released| - 1];
      if JoinerOf(e).Some? then AfterJoin(u, JoinerOf(e).value, e.room) else u
  }

  function RoomsOf(entries: seq<Entry>): set<string> {
    set e | e in entries :: e.room
  }

  function ExtraUsersOf(entries: seq<Entry>): set<string> {
    set e, u | e in entries && u in e.extraUsers :: u
  }

  function AfterPending(v: View, upTo: Position, now: int): View {
    var released := Released(v.pending, upTo);
    var u := AfterJoins(v.(pending := Kept(v.pending, upTo)), released);
    if released == [] then u
    else AfterNewEvent(u, RoomAdvance(upTo), ExtraUsersOf(released), RoomsOf(released), now)
  }

  function AfterRegister(v: View, sid: Sid, s: Stream): View {
    v.(streams := v.streams[sid := s],
       users := v.users[s.user := sid],
       rooms := WithStream(v.rooms, s.rooms, sid))
  }

  function WithStream(rooms: map<string, set<Sid>>, under: set<string>, sid: Sid): map<string, set<Sid>> {
    map r | r in rooms.Keys + under :: if r in under then RoomStreams(rooms, r) + {sid} else rooms[r]
  }

  function WithoutStream(rooms: map<string, set<Sid>>, under: set<string>, sid: Sid): map<string, set<Sid>> {
    map r | r in rooms :: rooms[r] - if r in under then {sid} else {}
  }

  /** A client sleeps on the deferred that the stream will fire next. */
  predicate HasListener(v: View, sid: Sid)
    requires sid in v.streams
  {
    exists w :: w in v.waiters && v.waiters[w].sid == sid && v.waiters[w].phase.Asleep?
                && v.waiters[w].phase.deferred == v.streams[sid].generation
  }

  function ExpiredStreams(v: View, now: int): set<Sid> {
    set u | u in v.users && v.users[u] in v.streams && !HasListener(v, v.users[u])
            && v.streams[v.users[u]].lastNotifiedMs < now - UNUSED_STREAM_EXPIRY_MS :: v.users[u]
  }

  function AfterRemove(v: View, sid: Sid): View
    requires sid in v.streams
  {
    v.(users := v.users - {v.streams[sid].user},
       rooms := WithoutStream(v.rooms, v.streams[sid].rooms, sid))
  }

  /** State with a set of streams taken out of the index by user and out of their own rooms. */
  function WithoutAll(v: View, sids: set<Sid>): View {
    v.(users := v.users - UsersOf(v, sids),
       rooms := map r | r in v.rooms :: v.rooms[r] - HoldersOf(v, sids, r))
  }

  function UsersOf(v: View, sids: set<Sid>): set<string> {
    set sid | sid in sids && sid in v.streams :: v.streams[sid].user
  }

  function HoldersOf(v: View, sids: set<Sid>, room: string): set<Sid> {
    set sid | sid in sids && sid in v.streams && room in v.streams[sid].rooms
  }

  function AfterExpiry(v: View, now: int): View {
    WithoutAll(v, ExpiredStreams(v, now))
  }

  // ---------------------------------------------------------------------------------------------
  // What every operation keeps

  predicate Registered(v: View, sid: Sid) {
    sid in v.streams && IsStreamOf(v.users, v.streams[sid].user, sid)
  }

  /** The two indexes are exact inverses over registered streams: each user is mapped to a stream of
      theirs, and a room lists exactly the registered streams that hold it among their rooms. */
  ghost predicate Exact(v: View) {
    && (forall u, sid :: IsStreamOf(v.users, u, sid) ==> sid in v.streams && v.streams[sid].user == u)
    && (forall r, sid :: sid in RoomStreams(v.rooms, r) <==> Registered(v, sid) && r in v.streams[sid].rooms)
  }

  /** Both indexes name existing streams only. */
  ghost predicate SidsKnown(v: View) {
    && (forall u, sid :: IsStreamOf(v.users, u, sid) ==> sid in v.streams)
    && (forall r, sid :: sid in RoomStreams(v.rooms, r) ==> sid in v.streams)
  }

  // ---------------------------------------------------------------------------------------------
  // The notifier as an object

  class NotifierObject {
    var streams: map<Sid, Stream>
    var users: map<string, Sid>
    var rooms: map<string, set<Sid>>
    var pending: seq<Entry>
    var waiters: map<Wid, Waiter>

    function Now(): View
      reads this
    {
      View(streams, users, rooms, pending, waiters)
    }

    constructor ()
      ensures Now() == View(map[], map[], map[], [], map[])
    {
      streams, users, rooms, pending, waiters := map[], map[], map[], [], map[];
    }

    /** Tells one stream of something new: its token advances and everyone asleep on it is woken. */
    method Notify(sid: Sid, a: Advance, now: int)
      requires sid in streams
      modifies this`streams
      ensures streams == old(streams)[sid := Notified(old(streams)[sid], a, now)]
    {
      var s := streams[sid];
      s := s.(current := Advanced(s.current, a));
      s := s.(lastNotified := s.current, lastNotifiedMs := now);
      streams := streams[sid := s.(generation := s.generation + 1)];
    }

    /** Tells every stream of the given users, and every stream indexed under the given rooms, once. */
    method OnNewEvent(a: Advance, toUsers: set<string>, toRooms: set<string>, now: int)
      requires SidsKnown(Now())
      modifies this`streams
      ensures Now() == AfterNewEvent(old(Now()), a, toUsers, toRooms, now)
    {
      var sids := AddStreamsOfUsers({}, toUsers);
      sids := AddStreamsOfRooms(sids, toRooms);
      assert sids == set sid | sid in streams && Concerned(Now(), toUsers, toRooms, sid);
      NotifyStreams(sids, a, now);
    }

    method NotifyStreams(sids: set<Sid>, a: Advance, now: int)
      requires sids <= streams.Keys
      modifies this`streams
      ensures streams == NotifyAll(old(streams), sids, a, now)
    {
      var rest := sids;
      while rest != {}
        invariant rest <= sids && streams.Keys == old(streams).Keys
        invariant forall sid :: sid in streams ==>
                    streams[sid] == if sid in sids && sid !in rest then Notified(old(streams)[sid], a, now)
                                    else old(streams)[sid]
        decreases |rest|
      {
        var sid :| sid in rest;
        rest := rest - {sid};
        Notify(sid, a, now);
      }
      assert streams == NotifyAll(old(streams), sids, a, now);
    }

    method AddStreamsOfUsers(start: set<Sid>, toUsers: set<string>) returns (sids: set<Sid>)
      ensures forall sid :: sid in sids <==> sid in start || exists u :: u in toUsers && IsStreamOf(users, u, sid)
    {
      sids := start;
      var rest := toUsers;
      while rest != {}
        invariant rest <= toUsers
        invariant forall sid :: sid in sids <==>
                                  sid in start || exists u :: u in toUsers && u !in rest && IsStreamOf(users, u, sid)
        decreases |rest|
      {
        var u :| u in rest;
        var before := sids;
        if u in users { sids := sids + {users[u]}; }
        assert forall sid :: sid in sids <==> sid in before || IsStreamOf(users, u, sid);
        rest := rest - {u};
      }
    }

    method AddStreamsOfRooms(start: set<Sid>, toRooms: set<string>) returns (sids: set<Sid>)
      ensures forall sid :: sid in sids <==> sid in start || exists r :: r in toRooms && sid in RoomStreams(rooms, r)
    {
      sids := start;
      var rest := toRooms;
      while rest != {}
        invariant rest <= toRooms
        invariant forall sid :: sid in sids <==>
                                  sid in start || exists r :: r in toRooms && r !in rest && sid in RoomStreams(rooms, r)
        decreases |rest|
      {
        var r :| r in rest;
        sids := sids + RoomStreams(rooms, r);
        rest := rest - {r};
      }
    }

    /** Indexes the stream of a user who joined a room under that room. */
    method UserJoinedRoom(user: string, room: string)
      requires SidsKnown(Now())
      modifies this`streams, this`rooms
      ensures Now() == AfterJoin(old(Now()), user, room)
    {
      if user in users {
        var sid := users[user];
        assert IsStreamOf(users, user, sid);
        rooms := rooms[room := RoomStreams(rooms, room) + {sid}];
        streams := streams[sid := streams[sid].(rooms := streams[sid].rooms + {room})];
      }
    }

    /** Releases the pending entries that the position covers, in order, and tells their rooms and extra
        users once; the others stay pending in order. */
    method NotifyPendingNewRoomEvents(upTo: Position, now: int)
      requires SidsKnown(Now())
      modifies this
      ensures Now() == AfterPending(old(Now()), upTo, now)
    {
      var toUsers, toRooms := ReleasePending(upTo);
      if toUsers != {} || toRooms != {} {
        OnNewEvent(RoomAdvance(upTo), toUsers, toRooms, now);
      } else {
        ReleasedRooms(Released(old(pending), upTo));
      }
    }

    method ReleasePending(upTo: Position) returns (toUsers: set<string>, toRooms: set<string>)
      requires SidsKnown(Now())
      modifies this
      ensures Now() == AfterJoins(old(Now()).(pending := Kept(old(pending), upTo)), Released(old(pending), upTo))
      ensures SidsKnown(Now())
      ensures toUsers == ExtraUsersOf(Released(old(pending), upTo)) && toRooms == RoomsOf(Released(old(pending), upTo))
    {
      var entries := pending;
      pending := [];
      toUsers, toRooms := {}, {};
      ghost var start := Now();
      ghost var released: seq<Entry> := [];
      for i := 0 to |entries|
        invariant pending == Kept(entries[..i], upTo) && released == Released(entries[..i], upTo)
        invariant Now().(pending := []) == AfterJoins(start, released)
        invariant toUsers == ExtraUsersOf(released) && toRooms == RoomsOf(released)
        invariant SidsKnown(Now())
      {
        var e := entries[i];
        assert entries[..i + 1][..i] == entries[..i];
        if PersistedAfter(e.pos, upTo) {
          pending := pending + [e];
        } else {
          if JoinerOf(e).Some? {
            JoinKeepsSids(Now(), JoinerOf(e).value, e.room);
            JoinIgnoresPending(Now(), JoinerOf(e).value, e.room, []);
            UserJoinedRoom(JoinerOf(e).value, e.room);
          }
          toUsers := toUsers + e.extraUsers;
          toRooms := toRooms + {e.room};
          ReleasedAdd(released, e);
          released := released + [e];
        }
      }
      assert entries[..|entries|] == entries;
      JoinsIgnorePending(start, released, pending);
    }

    /** Adds a stream to the index by user and under each of its rooms. */
    method RegisterWithKeys(sid: Sid, s: Stream)
      modifies this`streams, this`users, this`rooms
      ensures Now() == AfterRegister(old(Now()), sid, s)
    {
      streams := streams[sid := s];
      users := users[s.user := sid];
      rooms := IndexUnder(rooms, s.rooms, sid);
    }

    /** Takes a stream out of both indexes. */
    method Remove(sid: Sid)
      requires sid in streams
      modifies this`users, this`rooms
      ensures Now() == AfterRemove(old(Now()), sid)
    {
      UnindexUnder(streams[sid].rooms, sid);
      users := users - {streams[sid].user};
    }

    method UnindexUnder(under: set<string>, sid: Sid)
      modifies this`rooms
      ensures rooms == WithoutStream(old(rooms), under, sid)
    {
      var rest := under;
      while rest != {}
        invariant rest <= under && rooms.Keys == old(rooms).Keys
        invariant forall r :: r in rooms ==>
                    rooms[r] == old(rooms)[r] - if r in under && r !in rest then {sid} else {}
        decreases |rest|
      {
        var r :| r in rest;
        rest := rest - {r};
        if r in rooms { rooms := rooms[r := rooms[r] - {sid}]; }
      }
    }

    /** Takes out every registered stream that nobody listens to and that has long not been notified. */
    method RemoveExpiredStreams(now: int)
      modifies this`users, this`rooms
      ensures Now() == AfterExpiry(old(Now()), now)
    {
      RemoveAll(ExpiredStreams(Now(), now));
    }

    method RemoveAll(sids: set<Sid>)
      requires sids <= streams.Keys
      modifies this`users, this`rooms
      ensures Now() == WithoutAll(old(Now()), sids)
    {
      var rest := sids;
      ghost var start, gone := Now(), {};
      WithoutNone(start);
      while rest != {}
        invariant gone + rest == sids
        invariant Now() == WithoutAll(start, gone)
        decreases |rest|
      {
        var sid :| sid in rest;
        rest := rest - {sid};
        WithoutOneMore(start, gone, sid);
        Remove(sid);
        gone := gone + {sid};
      }
      assert gone == sids;
    }
  }

  function AddedTo(rooms: map<string, set<Sid>>, r: string, sid: Sid): map<string, set<Sid>> {
    rooms[r := RoomStreams(rooms, r) + {sid}]
  }

  /** The room index with a stream added under each of some rooms. */
  method IndexUnder(start: map<string, set<Sid>>, under: set<string>, sid: Sid) returns (rooms: map<string, set<Sid>>)
    ensures rooms == WithStream(start, under, sid)
  {
    rooms := start;
    var rest := under;
    while rest != {}
      invariant rest <= under && IndexedSoFar(start, under, rest, sid, rooms)
      decreases rest
    {
      var r :| r in rest;
      IndexedOneMore(start, under, rest, sid, rooms, r);
      rooms := AddedTo(rooms, r, sid);
      rest := rest - {r};
    }
    IndexedAll(start, under, sid, rooms);
  }

  predicate IndexedSoFar(start: map<string, set<Sid>>, under: set<string>, rest: set<string>, sid: Sid,
                         rooms: map<string, set<Sid>>)
  {
    && rooms.Keys == start.Keys + (under - rest)
    && forall r :: r in rooms ==>
                     RoomStreams(rooms, r)
                     == if r in under && r !in rest then RoomStreams(start, r) + {sid} else RoomStreams(start, r)
  }

  lemma IndexedOneMore(start: map<string, set<Sid>>, under: set<string>, rest: set<string>, sid: Sid,
                       rooms: map<string, set<Sid>>, r: string)
    requires IndexedSoFar(start, under, rest, sid, rooms) && r in rest && rest <= under
    ensures IndexedSoFar(start, under, rest - {r}, sid, AddedTo(rooms, r, sid))
  {
    var more, left := AddedTo(rooms, r, sid), rest - {r};
    assert more.Keys == start.Keys + (under - left);
    assert RoomStreams(rooms, r) == RoomStreams(start, r);
    forall q | q in more
      ensures RoomStreams(more, q)
              == if q in under && q !in left then RoomStreams(start, q) + {sid} else RoomStreams(start, q)
    {
      if q != r { assert RoomStreams(more, q) == RoomStreams(rooms, q); }
    }
  }

  lemma IndexedAll(start: map<string, set<Sid>>, under: set<string>, sid: Sid, rooms: map<string, set<Sid>>)
    requires IndexedSoFar(start, under, {}, sid, rooms)
    ensures rooms == WithStream(start, under, sid)
  {
    assert rooms.Keys == start.Keys + under;
    forall r | r in rooms ensures rooms[r] == WithStream(start, under, sid)[r] {
      assert RoomStreams(rooms, r) == rooms[r];
    }
  }

  lemma WithoutNone(v: View)
    ensures WithoutAll(v, {}) == v
  {
    assert UsersOf(v, {}) == {} && WithoutAll(v, {}).users == v.users;
    forall r | r in v.rooms ensures WithoutAll(v, {}).rooms[r] == v.rooms[r] { assert HoldersOf(v, {}, r) == {}; }
    assert WithoutAll(v, {}).rooms == v.rooms;
  }

  lemma ExpiredAreRegistered(v: View, now: int)
    requires Exact(v)
    ensures forall sid :: sid in ExpiredStreams(v, now) ==> Registered(v, sid)
  {
    forall sid | sid in ExpiredStreams(v, now) ensures Registered(v, sid) {
      var u :| u in v.users && v.users[u] == sid;
      assert IsStreamOf(v.users, u, sid);
    }
  }

  lemma WithoutOneMore(v: View, gone: set<Sid>, sid: Sid)
    requires sid in v.streams
    ensures AfterRemove(WithoutAll(v, gone), sid) == WithoutAll(v, gone + {sid})
  {
    var a, b := AfterRemove(WithoutAll(v, gone), sid), WithoutAll(v, gone + {sid});
    assert UsersOf(v, gone + {sid}) == UsersOf(v, gone) + {v.streams[sid].user};
    assert a.users == b.users;
    forall r | r in v.rooms ensures a.rooms[r] == b.rooms[r] {
      assert HoldersOf(v, gone + {sid}, r) == HoldersOf(v, gone, r) + if r in v.streams[sid].rooms then {sid} else {};
    }
    assert a.rooms == b.rooms;
  }

  lemma JoinKeepsSids(v: View, user: string, room: string)
    requires SidsKnown(v)
    ensures SidsKnown(AfterJoin(v, user, room))
  {
    var u := AfterJoin(v, user, room);
    forall r, sid | sid in RoomStreams(u.rooms, r) ensures sid in u.streams {
      assert sid in RoomStreams(v.rooms, r) || IsStreamOf(v.users, user, sid);
    }
  }

  lemma JoinIgnoresPending(v: View, user: string, room: string, pending: seq<Entry>)
    ensures AfterJoin(v.(pending := pending), user, room) == AfterJoin(v, user, room).(pending := pending)
  {
  }

  lemma ReleasedRooms(released: seq<Entry>)
    ensures RoomsOf(released) == {} <==> released == []
  {
    if released != [] { assert released[0] in released && released[0].room in RoomsOf(released); }
  }

  lemma ReleasedAdd(released: seq<Entry>, e: Entry)
    ensures ExtraUsersOf(released + [e]) == ExtraUsersOf(released) + e.extraUsers
    ensures RoomsOf(released + [e]) == RoomsOf(released) + {e.room}
    ensures (released + [e])[..|released|] == released
  {
    assert forall x :: x in released + [e] <==> x in released || x == e;
  }

  lemma {:induction false} JoinsIgnorePending(v: View, released: seq<Entry>, pending: seq<Entry>)
    ensures AfterJoins(v.(pending := pending), released) == AfterJoins(v, released).(pending := pending)
    decreases |released|
  {
    if released != [] { JoinsIgnorePending(v, released[..|released| - 1], pending); }
  }
}
