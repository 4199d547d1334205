/** The application-service scheduler (synapse/appservice/scheduler.py): queues per service, one sender
    per service that cuts them into transactions, and a recoverer that resends while a service is down.
    The code between two awaits is one step.
 */
module Scheduler {
  type Id = string
  type Item = string

  const MAX_PER_TRANSACTION: nat := 100
  const MAX_BACKOFF: nat := 9

  datatype DeviceLists = DeviceLists(changed: set<string>, left: set<string>)

  const NO_DEVICES := DeviceLists({}, {})

  /** What one transaction carries, and also what one call enqueues. */
  datatype Batch = Batch(events: seq<Item>, ephemeral: seq<Item>, toDevice: seq<Item>, devices: DeviceLists)

  predicate IsEmpty(b: Batch) {
    b.events == [] && b.ephemeral == [] && b.toDevice == [] && b.devices == NO_DEVICES
  }

  // ---------------------------------------------------------------------------------------------
  // Queues

  datatype Queues = Queues(
    events: map<Id, seq<Item>>,
    ephemeral: map<Id, seq<Item>>,
    toDevice: map<Id, seq<Item>>,
    devices: map<Id, seq<DeviceLists>>,
    inFlight: set<Id>)

  function QueueOf<T>(q: map<Id, seq<T>>, id: Id): seq<T> {
    if id in q then q[id] else []
  }

  function Extended<T>(q: map<Id, seq<T>>, id: Id, more: seq<T>): map<Id, seq<T>> {
    if more == [] then q else q[id := QueueOf(q, id) + more]
  }

  function Least(n: nat, m: nat): nat {
    if n < m then n else m
  }

  function Head(s: seq<Item>): seq<Item> {
    s[..Least(|s|, MAX_PER_TRANSACTION)]
  }

  function Rest(s: seq<Item>): seq<Item> {
    s[Least(|s|, MAX_PER_TRANSACTION)..]
  }

  function Cut(q: map<Id, seq<Item>>, id: Id): map<Id, seq<Item>> {
    if id in q then q[id := Rest(q[id])] else q
  }

  /** Consolidating summaries in order: a later summary overrides an earlier one. */
  function Consolidated(summaries: seq<DeviceLists>): DeviceLists {
    if summaries == [] then NO_DEVICES
    else
      var d, x := Consolidated(summaries[..|summaries| - 1]), summaries[|summaries| - 1];
      DeviceLists(d.changed + x.changed - x.left, d.left - x.changed + x.left)
  }

  predicate Mentions(d: DeviceLists, u: string) {
    u in d.changed || u in d.left
  }

  /** A user ends up where the last summary that mentions them puts them. */
  lemma {:induction false} LatestMentionWins(summaries: seq<DeviceLists>, u: string, i: nat)
    requires i < |summaries| && Mentions(summaries[i], u)
    requires forall j :: i < j < |summaries| ==> !Mentions(summaries[j], u)
    ensures u in Consolidated(summaries).left <==> u in summaries[i].left
    ensures u in Consolidated(summaries).changed <==> u !in summaries[i].left
    decreases |summaries|
  {
    if i < |summaries| - 1 { LatestMentionWins(summaries[..|summaries| - 1], u, i); }
  }

  lemma {:induction false} UnmentionedStayOut(summaries: seq<DeviceLists>, u: string)
    requires forall j :: 0 <= j < |summaries| ==> !Mentions(summaries[j], u)
    ensures !Mentions(Consolidated(summaries), u)
    decreases |summaries|
  {
    if summaries != [] { UnmentionedStayOut(summaries[..|summaries| - 1], u); }
  }

  function AfterEnqueue(q: Queues, id: Id, data: Batch): Queues {
    q.(events := Extended(q.events, id, data.events),
       ephemeral := Extended(q.ephemeral, id, data.ephemeral),
       toDevice := Extended(q.toDevice, id, data.toDevice),
       devices := Extended(q.devices, id, if data.devices == NO_DEVICES then [] else [data.devices]),
       inFlight := if IsEmpty(data) then q.inFlight else q.inFlight + {id})
  }

  function NextBatch(q: Queues, id: Id): Batch {
    Batch(Head(QueueOf(q.events, id)), Head(QueueOf(q.ephemeral, id)), Head(QueueOf(q.toDevice, id)),
          Consolidated(QueueOf(q.devices, id)))
  }

  /** Queues after the sender of `id` has cut a batch: the device-list queue is emptied for every
      service, and a sender that finds nothing to send is no longer in flight. */
  function AfterTake(q: Queues, id: Id): Queues {
    q.(events := Cut(q.events, id),
       ephemeral := Cut(q.ephemeral, id),
       toDevice := Cut(q.toDevice, id),
       devices := map[],
       inFlight := if IsEmpty(NextBatch(q, id)) then q.inFlight - {id} else q.inFlight)
  }

  class ServiceQueuer {
    var events: map<Id, seq<Item>>
    var ephemeral: map<Id, seq<Item>>
    var toDevice: map<Id, seq<Item>>
    var devices: map<Id, seq<DeviceLists>>
    var inFlight: set<Id>

    function View(): Queues
      reads this
    {
      Queues(events, ephemeral, toDevice, devices, inFlight)
    }

    constructor ()
      ensures View() == Queues(map[], map[], map[], map[], {})
    {
      events, ephemeral, toDevice, devices, inFlight := map[], map[], map[], map[], {};
    }

    /** Appends to the queues of one service; `started` tells that a sender was started for it, which
        happens exactly if there is something to send and none was in flight. */
    method Enqueue(id: Id, data: Batch) returns (started: bool)
      modifies this
      ensures View() == AfterEnqueue(old(View()), id, data)
      ensures started <==> !IsEmpty(data) && id !in old(inFlight)
    {
      started := false;
      if data.events == [] && data.ephemeral == [] && data.toDevice == [] && data.devices == NO_DEVICES {
        return;
      }
      events := Extended(events, id, data.events);
      ephemeral := Extended(ephemeral, id, data.ephemeral);
      toDevice := Extended(toDevice, id, data.toDevice);
      devices := Extended(devices, id, if data.devices == NO_DEVICES then [] else [data.devices]);
      if id in inFlight { return; }
      inFlight := inFlight + {id};
      started := true;
    }

    /** One turn of the sender's loop up to its first await. */
    method TakeBatch(id: Id) returns (batch: Batch)
      modifies this
      ensures batch == NextBatch(old(View()), id)
      ensures View() == AfterTake(old(View()), id)
    {
      var cut := Head(QueueOf(events, id));
      if id in events { events := events[id := Rest(events[id])]; }
      var cutEphemeral := Head(QueueOf(ephemeral, id));
      if id in ephemeral { ephemeral := ephemeral[id := Rest(ephemeral[id])]; }
      var cutToDevice := Head(QueueOf(toDevice, id));
      if id in toDevice { toDevice := toDevice[id := Rest(toDevice[id])]; }
      var pending := QueueOf(devices, id);
      var summary := NO_DEVICES;
      for i := 0 to |pending|
        invariant summary == Consolidated(pending[..i])
      {
        assert pending[..i + 1][..i] == pending[..i];
        summary := DeviceLists(summary.changed + pending[i].changed, summary.left - pending[i].changed);
        summary := DeviceLists(summary.changed - pending[i].left, summary.left + pending[i].left);
      }
      assert pending[..|pending|] == pending;
      devices := map[];
      batch := Batch(cut, cutEphemeral, cutToDevice, summary);
      if IsEmpty(batch) { inFlight := inFlight - {id}; }
    }
  }

  // ---------------------------------------------------------------------------------------------
  // One service: its sender, its recoverer and its stored transactions

  datatype Sender =
    | Idle
    | Looping
    | Holding(batch: Batch)
    | Decided(batch: Batch, sawUp: bool)
    | Pushing(txn: nat)
    | Pushed(txn: nat)

  datatype Recoverer =
    | NoRecoverer
    | Waiting(backoff: nat)
    | Trying(backoff: nat)
    | Resending(txn: nat, backoff: nat)
    | Resent(txn: nat, backoff: nat)

  /** Transactions are numbered in order of creation; `created` holds the persistent events of each,
      `acked` the ones the service acknowledged and `completed` the ones deleted from the store. */
  datatype Service = Service(
    sender: Sender,
    recoverer: Recoverer,
    up: bool,
    created: seq<seq<Item>>,
    acked: set<nat>,
    completed: set<nat>)

  const NEW_SERVICE := Service(Idle, NoRecoverer, true, [], {}, {})

  datatype Move =
    | ReadState | CreateTxn | PushOk | PushFail | CompletePushed
    | TimerFires | FetchOldest | ResendOk | ResendFail | CompleteResent

  predicate CanMove(s: Service, m: Move) {
    match m
    case ReadState => s.sender.Holding?
    case CreateTxn => s.sender.Decided?
    case PushOk => s.sender.Pushing?
    case PushFail => s.sender.Pushing?
    case CompletePushed => s.sender.Pushed?
    case TimerFires => s.recoverer.Waiting?
    case FetchOldest => s.recoverer.Trying?
    case ResendOk => s.recoverer.Resending?
    case ResendFail => s.recoverer.Resending?
    case CompleteResent => s.recoverer.Resent?
  }

  predicate Unsent(s: Service, n: nat) {
    n < |s.created| && n !in s.completed
  }

  predicate NothingUnsent(s: Service) {
    forall n: nat :: n < |s.created| ==> !Unsent(s, n)
  }

  /** The oldest transaction still in the store. */
  function Oldest(s: Service, from: nat): (n: nat)
    requires exists m: nat :: from <= m && Unsent(s, m)
    ensures from <= n && Unsent(s, n) && forall m: nat :: from <= m < n ==> !Unsent(s, m)
    decreases |s.created| - from
  {
    if Unsent(s, from) then from else Oldest(s, from + 1)
  }

  /** A failed push marks the service down and a recoverer starts, both in the step of the failure; the
      recoverer marks the service up in the step in which it finds nothing unsent. */
  function AfterMove(s: Service, m: Move): Service
    requires CanMove(s, m)
  {
    match m
    case ReadState => s.(sender := Decided(s.sender.batch, s.up))
    case CreateTxn =>
      if !s.sender.sawUp && s.sender.batch.events == [] then s.(sender := Looping)
      else s.(created := s.created + [s.sender.batch.events],
              sender := if s.sender.sawUp then Pushing(|s.created|) else Looping)
    case PushOk => s.(acked := s.acked + {s.sender.txn}, sender := Pushed(s.sender.txn))
    case PushFail =>
      s.(up := false, sender := Looping, recoverer := if s.recoverer.NoRecoverer? then Waiting(1) else s.recoverer)
    case CompletePushed => s.(completed := s.completed + {s.sender.txn}, sender := Looping)
    case TimerFires => s.(recoverer := Trying(s.recoverer.backoff))
    case FetchOldest =>
      if NothingUnsent(s) then s.(recoverer := NoRecoverer, up := true)
      else
        assert exists n: nat :: 0 <= n && Unsent(s, n);
        s.(recoverer := Resending(Oldest(s, 0), s.recoverer.backoff))
    case ResendOk =>
      s.(acked := s.acked + {s.recoverer.txn}, recoverer := Resent(s.recoverer.txn, s.recoverer.backoff))
    case ResendFail => s.(recoverer := Waiting(Least(s.recoverer.backoff + 1, MAX_BACKOFF)))
    case CompleteResent => s.(completed := s.completed + {s.recoverer.txn}, recoverer := Trying(1))
  }

  // ---------------------------------------------------------------------------------------------
  // Ordering

  /** Completed transactions were acknowledged and form a prefix of the creation order. */
  ghost predicate CompletedInOrder(s: Service) {
    && s.completed <= s.acked
    && (forall n :: n in s.completed ==> n < |s.created|)
    && (forall n, m: nat :: n in s.completed && m < n ==> m in s.completed)
  }

  /** While a service is up, nothing is unsent except the transaction its sender is pushing. */
  ghost predicate NothingForgotten(s: Service) {
    s.up ==> forall n: nat :: Unsent(s, n) ==> s.sender == Pushing(n) || s.sender == Pushed(n)
  }

  predicate IsNext(s: Service, n: nat) {
    Unsent(s, n) && forall m: nat :: m < n ==> m in s.completed
  }

  ghost predicate Consistent(s: Service) {
    && CompletedInOrder(s)
    && NothingForgotten(s)
    && (s.up <==> s.recoverer.NoRecoverer?)
    && (s.sender.Decided? && s.sender.sawUp ==> s.up)
    && (s.sender.Pushing? ==> s.up && IsNext(s, s.sender.txn))
    && (s.sender.Pushed? ==> s.up && IsNext(s, s.sender.txn) && s.sender.txn in s.acked)
    && (s.recoverer.Resending? ==> IsNext(s, s.recoverer.txn))
    && (s.recoverer.Resent? ==> IsNext(s, s.recoverer.txn) && s.recoverer.txn in s.acked)
    && (!s.recoverer.NoRecoverer? ==> 1 <= s.recoverer.backoff <= MAX_BACKOFF)
  }

  /** The sender stores a transaction without pushing it because it read the service as down, but the
      recoverer has since found nothing unsent and marked the service up. */
  predicate IsStale(s: Service, m: Move) {
    m == CreateTxn && s.sender.Decided? && !s.sender.sawUp && s.sender.batch.events != [] && s.up
  }

  lemma MoveKeepsConsistent(s: Service, m: Move)
    requires Consistent(s) && CanMove(s, m) && !IsStale(s, m)
    ensures Consistent(AfterMove(s, m))
  {
    match m
    case ReadState =>
    case CreateTxn =>
      if s.up {
        forall n: nat | n < |s.created| ensures n in s.completed { assert !Unsent(s, n); }
      }
    case PushOk =>
    case PushFail =>
    case CompletePushed =>
    case TimerFires =>
    case FetchOldest =>
      if !NothingUnsent(s) {
        assert exists n: nat :: 0 <= n && Unsent(s, n);
        forall n: nat | n < Oldest(s, 0) ensures n in s.completed { assert !Unsent(s, n); }
      } else {
        forall n: nat ensures !Unsent(AfterMove(s, m), n) { assert !Unsent(s, n); }
      }
    case ResendOk =>
    case ResendFail =>
    case CompleteResent =>
  }

  lemma StaleMoveForgets(s: Service, m: Move)
    requires Consistent(s) && CanMove(s, m) && IsStale(s, m)
    ensures !NothingForgotten(AfterMove(s, m))
  {
    assert Unsent(AfterMove(s, m), |s.created|);
  }

  // ---------------------------------------------------------------------------------------------
  // Order, stale readings or not

  /** What every move keeps: completed transactions were acknowledged; the service is up exactly while it
      has no recoverer; only then is something pushed; and what is resent is the oldest unsent. */
  ghost predicate Sound(s: Service) {
    && s.completed <= s.acked && (forall n :: n in s.completed ==> n < |s.created|)
    && (s.up <==> s.recoverer.NoRecoverer?)
    && (s.sender.Decided? && s.sender.sawUp ==> s.up)
    && (s.sender.Pushing? ==> s.up && Unsent(s, s.sender.txn))
    && (s.sender.Pushed? ==> s.up && Unsent(s, s.sender.txn) && s.sender.txn in s.acked)
    && (s.recoverer.Resending? ==> IsNext(s, s.recoverer.txn))
    && (s.recoverer.Resent? ==> IsNext(s, s.recoverer.txn) && s.recoverer.txn in s.acked)
  }

  lemma MoveKeepsSound(s: Service, m: Move)
    requires Sound(s) && CanMove(s, m)
    ensures Sound(AfterMove(s, m))
  {
    if m == FetchOldest && !NothingUnsent(s) {
      assert exists n: nat :: 0 <= n && Unsent(s, n);
      forall n: nat | n < Oldest(s, 0) ensures n in s.completed { assert !Unsent(s, n); }
    }
  }

  /** A pushed transaction is completed while an older one is unsent. */
  predicate Overtakes(s: Service, m: Move) {
    m == CompletePushed && s.sender.Pushed? && exists n: nat :: n < s.sender.txn && Unsent(s, n)
  }

  /** Order is lost by overtaking and by nothing else; resending never loses it. */
  lemma MoveKeepsOrderIff(s: Service, m: Move)
    requires Sound(s) && CompletedInOrder(s) && CanMove(s, m)
    ensures CompletedInOrder(AfterMove(s, m)) <==> !Overtakes(s, m)
  {
    if m == CompletePushed {
      var txn := s.sender.txn;
      if n: nat :| n < txn && Unsent(s, n) {
        assert txn in AfterMove(s, m).completed && n !in AfterMove(s, m).completed;
      } else {
        forall n: nat | n < txn ensures n in s.completed { assert !Unsent(s, n); }
      }
    }
  }

  /** In a service that has forgotten nothing there is nothing to overtake. */
  lemma NothingToOvertake(s: Service, m: Move)
    requires Consistent(s)
    ensures Sound(s) && !Overtakes(s, m)
  {
  }

  // ---------------------------------------------------------------------------------------------
  // All services together

  /** `offered` records, for each service, every persistent event ever enqueued for it. */
  datatype World = World(queues: Queues, services: map<Id, Service>, offered: map<Id, seq<Item>>)

  datatype Action =
    | Offer(id: Id, data: Batch)
    | Take(id: Id)
    | Act(id: Id, move: Move)

  predicate Possible(w: World, a: Action) {
    && a.id in w.services
    && (a.Take? ==> w.services[a.id].sender.Looping?)
    && (a.Act? ==> CanMove(w.services[a.id], a.move))
  }

  predicate StartsSender(w: World, a: Action) {
    a.Offer? && !IsEmpty(a.data) && a.id !in w.queues.inFlight
  }

  function ServiceAfter(w: World, a: Action): Service
    requires Possible(w, a)
  {
    var s := w.services[a.id];
    match a
    case Offer(id, data) => if StartsSender(w, a) then s.(sender := Looping) else s
    case Take(id) =>
      var batch := NextBatch(w.queues, id);
      s.(sender := if IsEmpty(batch) then Idle else Holding(batch))
    case Act(id, move) => AfterMove(s, move)
  }

  function After(w: World, a: Action): World
    requires Possible(w, a)
  {
    World(
      match a {
        case Offer(id, data) => AfterEnqueue(w.queues, id, data)
        case Take(id) => AfterTake(w.queues, id)
        case Act(_, _) => w.queues
      },
      w.services[a.id := ServiceAfter(w, a)],
      if a.Offer? then Extended(w.offered, a.id, a.data.events) else w.offered)
  }

  ghost predicate ValidRun(w: World, acts: seq<Action>)
    decreases |acts|
  {
    acts == [] || (Possible(w, acts[0]) && ValidRun(After(w, acts[0]), acts[1..]))
  }

  ghost function WorldAfter(w: World, acts: seq<Action>): World
    requires ValidRun(w, acts)
    decreases |acts|
  {
    if acts == [] then w else WorldAfter(After(w, acts[0]), acts[1..])
  }

  /** No queues, no senders, no transactions. */
  ghost predicate IsFresh(w: World) {
    && w.queues == Queues(map[], map[], map[], map[], {})
    && w.offered == map[]
    && (forall id :: id in w.services ==> w.services[id] == NEW_SERVICE)
  }

  // ---------------------------------------------------------------------------------------------
  // Conservation

  function Flatten(txns: seq<seq<Item>>): seq<Item> {
    if txns == [] then [] else Flatten(txns[..|txns| - 1]) + txns[|txns| - 1]
  }

  function InHand(s: Service): seq<Item> {
    if s.sender.Holding? || s.sender.Decided? then s.sender.batch.events else []
  }

  /** A sender is recorded as in flight exactly while it runs. */
  predicate FlightExact(w: World, id: Id)
    requires id in w.services
  {
    id in w.queues.inFlight <==> !w.services[id].sender.Idle?
  }

  /** Everything offered is, in order, in a transaction, in the sender's hand, or still queued. */
  predicate Conserved(w: World, id: Id)
    requires id in w.services
  {
    QueueOf(w.offered, id)
    == Flatten(w.services[id].created) + InHand(w.services[id]) + QueueOf(w.queues.events, id)
  }

  predicate WithinLimit(s: Service) {
    |InHand(s)| <= MAX_PER_TRANSACTION
    && forall i :: 0 <= i < |s.created| ==> |s.created[i]| <= MAX_PER_TRANSACTION
  }

  ghost predicate WorldOk(w: World) {
    forall id :: id in w.services ==> FlightExact(w, id) && Conserved(w, id) && WithinLimit(w.services[id])
  }

  lemma FlattenAppend(txns: seq<seq<Item>>, txn: seq<Item>)
    ensures Flatten(txns + [txn]) == Flatten(txns) + txn
  {
    assert (txns + [txn])[..|txns|] == txns;
  }

  lemma CutConserves(q: map<Id, seq<Item>>, id: Id)
    ensures QueueOf(q, id) == Head(QueueOf(q, id)) + QueueOf(Cut(q, id), id)
    ensures |Head(QueueOf(q, id))| <= MAX_PER_TRANSACTION
  {
  }

  lemma ExtendedQueue(q: map<Id, seq<Item>>, id: Id, items: seq<Item>)
    ensures QueueOf(Extended(q, id, items), id) == QueueOf(q, id) + items
  {
  }

  lemma OfferedService(w: World, id: Id, data: Batch)
    requires id in w.services && FlightExact(w, id)
    ensures InHand(After(w, Offer(id, data)).services[id]) == InHand(w.services[id])
    ensures After(w, Offer(id, data)).services[id].created == w.services[id].created
  {
  }

  lemma OfferConserves(w: World, id: Id, data: Batch)
    requires id in w.services && FlightExact(w, id) && Conserved(w, id)
    ensures Conserved(After(w, Offer(id, data)), id)
    ensures InHand(After(w, Offer(id, data)).services[id]) == InHand(w.services[id])
    ensures After(w, Offer(id, data)).services[id].created == w.services[id].created
  {
    var v, s := After(w, Offer(id, data)), w.services[id];
    OfferedService(w, id, data);
    ExtendedQueue(w.offered, id, data.events);
    ExtendedQueue(w.queues.events, id, data.events);
    AddedLast(Flatten(s.created) + InHand(s), QueueOf(w.queues.events, id), data.events);
  }

  lemma AddedLast(a: seq<Item>, b: seq<Item>, c: seq<Item>)
    ensures (a + b) + c == a + (b + c)
  {
  }

  lemma TakeConserves(w: World, id: Id)
    requires Possible(w, Take(id)) && Conserved(w, id) && WithinLimit(w.services[id])
    ensures Conserved(After(w, Take(id)), id) && WithinLimit(After(w, Take(id)).services[id])
  {
    CutConserves(w.queues.events, id);
    assert InHand(w.services[id]) == [];
  }

  lemma MoveConserves(s: Service, m: Move)
    requires CanMove(s, m) && WithinLimit(s)
    ensures Flatten(AfterMove(s, m).created) + InHand(AfterMove(s, m)) == Flatten(s.created) + InHand(s)
    ensures WithinLimit(AfterMove(s, m))
  {
    if m.CreateTxn? { FlattenAppend(s.created, s.sender.batch.events); }
  }

  lemma {:induction false} StepConserves(w: World, a: Action)
    requires Possible(w, a) && FlightExact(w, a.id) && Conserved(w, a.id) && WithinLimit(w.services[a.id])
    ensures Conserved(After(w, a), a.id) && WithinLimit(After(w, a).services[a.id])
  {
    match a
    case Offer(id, data) => OfferConserves(w, id, data);
    case Take(id) => TakeConserves(w, id);
    case Act(id, move) => MoveConserves(w.services[id], move);
  }

  lemma StepKeepsFlight(w: World, a: Action)
    requires Possible(w, a) && FlightExact(w, a.id)
    ensures FlightExact(After(w, a), a.id)
  {
  }

  /** A step of one service leaves the events of the others alone. */
  lemma OthersUntouched(w: World, a: Action, id: Id)
    requires Possible(w, a) && id in w.services && id != a.id
    ensures After(w, a).services[id] == w.services[id]
    ensures QueueOf(After(w, a).queues.events, id) == QueueOf(w.queues.events, id)
    ensures QueueOf(After(w, a).queues.ephemeral, id) == QueueOf(w.queues.ephemeral, id)
    ensures QueueOf(After(w, a).queues.toDevice, id) == QueueOf(w.queues.toDevice, id)
    ensures FlightExact(After(w, a), id) <==> FlightExact(w, id)
    ensures Conserved(After(w, a), id) <==> Conserved(w, id)
  {
  }

  lemma {:induction false} StepKeepsOk(w: World, a: Action)
    requires WorldOk(w) && Possible(w, a)
    ensures WorldOk(After(w, a))
  {
    var v := After(w, a);
    forall id | id in v.services
      ensures FlightExact(v, id) && Conserved(v, id) && WithinLimit(v.services[id])
    {
      if id == a.id {
        StepConserves(w, a);
        StepKeepsFlight(w, a);
      } else {
        OthersUntouched(w, a, id);
      }
    }
  }

  /** Over every interleaving of enqueues and steps of senders and recoverers: each service's offered
      events are, in order and each once, those of its transactions, then those in its sender's hand,
      then those queued; no transaction exceeds the limit; and no second sender is ever started. */
  lemma {:induction false} EventsConserved(w: World, acts: seq<Action>)
    requires WorldOk(w) && ValidRun(w, acts)
    ensures WorldOk(WorldAfter(w, acts))
    ensures forall a :: Possible(WorldAfter(w, acts), a) && StartsSender(WorldAfter(w, acts), a) ==>
                          WorldAfter(w, acts).services[a.id].sender.Idle?
    decreases |acts|
  {
    if acts == [] {
      forall a | Possible(w, a) && StartsSender(w, a) ensures w.services[a.id].sender.Idle? {
        assert FlightExact(w, a.id);
      }
    } else {
      StepKeepsOk(w, acts[0]);
      EventsConserved(After(w, acts[0]), acts[1..]);
    }
  }

  lemma FreshOk(w: World)
    requires IsFresh(w)
    ensures WorldOk(w) && forall id :: id in w.services ==> Consistent(w.services[id])
  {
  }

  // ---------------------------------------------------------------------------------------------
  // Ordering over runs

  ghost predicate NeverStale(w: World, acts: seq<Action>, id: Id)
    requires ValidRun(w, acts)
    decreases |acts|
  {
    acts == []
    || (&& !(acts[0].Act? && acts[0].id == id && IsStale(w.services[id], acts[0].move))
        && NeverStale(After(w, acts[0]), acts[1..], id))
  }

  /** In every state of the run, while the service is up nothing is unsent but what is being pushed. */
  ghost predicate NeverForgets(w: World, acts: seq<Action>, id: Id)
    requires ValidRun(w, acts) && id in w.services
    decreases |acts|
  {
    NothingForgotten(w.services[id]) && (acts == [] || NeverForgets(After(w, acts[0]), acts[1..], id))
  }

  lemma {:induction false} StepKeepsConsistent(w: World, a: Action, id: Id)
    requires WorldOk(w) && Possible(w, a) && id in w.services && Consistent(w.services[id])
    requires !(a.Act? && a.id == id && IsStale(w.services[id], a.move))
    ensures Consistent(After(w, a).services[id])
  {
    if a.id == id {
      assert FlightExact(w, id);
      if a.Act? { MoveKeepsConsistent(w.services[id], a.move); }
    }
  }

  /** In every run, a service that is up has nothing unsent but what is being pushed, in every state,
      exactly if no sender ever stores a transaction on a stale reading of the service's state. Then
      also completed transactions were acknowledged and form a prefix of the creation order. */
  lemma {:induction false} OrderKeptUnlessStale(w: World, acts: seq<Action>, id: Id)
    requires WorldOk(w) && ValidRun(w, acts) && id in w.services && Consistent(w.services[id])
    ensures NeverForgets(w, acts, id) <==> NeverStale(w, acts, id)
    ensures id in WorldAfter(w, acts).services
    ensures NeverStale(w, acts, id) ==> Consistent(WorldAfter(w, acts).services[id])
    decreases |acts|
  {
    if acts != [] {
      var a := acts[0];
      StepKeepsOk(w, a);
      if a.Act? && a.id == id && IsStale(w.services[id], a.move) {
        StaleMoveForgets(w.services[id], a.move);
        ServicesKept(After(w, a), acts[1..]);
      } else {
        StepKeepsConsistent(w, a, id);
        OrderKeptUnlessStale(After(w, a), acts[1..], id);
      }
    }
  }

  ghost predicate NeverOvertakes(w: World, acts: seq<Action>, id: Id)
    requires ValidRun(w, acts) && id in w.services
    decreases |acts|
  {
    acts == []
    || (&& !(acts[0].Act? && acts[0].id == id && Overtakes(w.services[id], acts[0].move))
        && NeverOvertakes(After(w, acts[0]), acts[1..], id))
  }

  /** In every state of the run completed transactions form a prefix of the creation order. */
  ghost predicate AlwaysInOrder(w: World, acts: seq<Action>, id: Id)
    requires ValidRun(w, acts) && id in w.services
    decreases |acts|
  {
    CompletedInOrder(w.services[id]) && (acts == [] || AlwaysInOrder(After(w, acts[0]), acts[1..], id))
  }

  lemma {:induction false} StepKeepsOrderIff(w: World, a: Action, id: Id)
    requires WorldOk(w) && Possible(w, a) && id in w.services
    requires Sound(w.services[id]) && CompletedInOrder(w.services[id])
    ensures Sound(After(w, a).services[id])
    ensures CompletedInOrder(After(w, a).services[id])
            <==> !(a.Act? && a.id == id && Overtakes(w.services[id], a.move))
  {
    if a.Act? && a.id == id {
      MoveKeepsSound(w.services[id], a.move);
      MoveKeepsOrderIff(w.services[id], a.move);
    }
  }

  /** Over every run, stale readings or not: transactions are completed in the order of their creation, in
      every state, exactly if no pushed transaction is ever completed while an older one is unsent. */
  lemma {:induction false} OrderKeptIff(w: World, acts: seq<Action>, id: Id)
    requires WorldOk(w) && ValidRun(w, acts) && id in w.services
    requires Sound(w.services[id]) && CompletedInOrder(w.services[id])
    ensures AlwaysInOrder(w, acts, id) <==> NeverOvertakes(w, acts, id)
    decreases |acts|
  {
    if acts != [] {
      StepKeepsOk(w, acts[0]);
      StepKeepsOrderIff(w, acts[0], id);
      if CompletedInOrder(After(w, acts[0]).services[id]) { OrderKeptIff(After(w, acts[0]), acts[1..], id); }
    }
  }

  lemma {:induction false} ServicesKept(w: World, acts: seq<Action>)
    requires ValidRun(w, acts)
    ensures WorldAfter(w, acts).services.Keys == w.services.Keys
    decreases |acts|
  {
    if acts != [] { ServicesKept(After(w, acts[0]), acts[1..]); }
  }

  // ---------------------------------------------------------------------------------------------
  // Stale readings happen, and then transactions complete out of order

  /** A run of a fresh world after which one service is in state `s` and has nothing queued. */
  ghost predicate Reaches(w: World, acts: seq<Action>, id: Id, s: Service) {
    && IsFresh(w) && WorldOk(w) && ValidRun(w, acts)
    && var v := WorldAfter(w, acts);
    && id in v.services && v.services[id] == s && FlightExact(v, id)
    && QueueOf(v.queues.events, id) == [] && QueueOf(v.queues.ephemeral, id) == []
    && QueueOf(v.queues.toDevice, id) == [] && QueueOf(v.queues.devices, id) == []
  }

  lemma {:induction false} RunAppend(w: World, acts: seq<Action>, a: Action)
    requires ValidRun(w, acts) && Possible(WorldAfter(w, acts), a)
    ensures ValidRun(w, acts + [a])
    ensures WorldAfter(w, acts + [a]) == After(WorldAfter(w, acts), a)
    decreases |acts|
  {
    if acts == [] {
      assert (acts + [a])[0] == a && (acts + [a])[1..] == [];
      assert ValidRun(After(w, a), []);
    } else {
      RunAppend(After(w, acts[0]), acts[1..], a);
      assert (acts + [a])[0] == acts[0] && (acts + [a])[1..] == acts[1..] + [a];
    }
  }

  lemma ReachByMove(w: World, acts: seq<Action>, id: Id, s: Service, m: Move)
    returns (longer: seq<Action>, next: Service)
    requires Reaches(w, acts, id, s) && CanMove(s, m)
    ensures next == AfterMove(s, m) && Reaches(w, longer, id, next)
  {
    RunAppend(w, acts, Act(id, m));
    StepKeepsFlight(WorldAfter(w, acts), Act(id, m));
    longer, next := acts + [Act(id, m)], AfterMove(s, m);
  }

  /** Offering one event to a service without a busy sender puts it in the sender's hand. */
  lemma ReachByEvent(w: World, acts: seq<Action>, id: Id, s: Service, x: Item)
    returns (longer: seq<Action>, next: Service)
    requires Reaches(w, acts, id, s) && (s.sender.Idle? || s.sender.Looping?)
    ensures next == s.(sender := Holding(Batch([x], [], [], NO_DEVICES))) && Reaches(w, longer, id, next)
  {
    var v := WorldAfter(w, acts);
    var offer := Offer(id, Batch([x], [], [], NO_DEVICES));
    RunAppend(w, acts, offer);
    var u := After(v, offer);
    assert u.services[id] == s.(sender := Looping);
    assert NextBatch(u.queues, id) == Batch([x], [], [], NO_DEVICES);
    StepKeepsFlight(v, offer);
    RunAppend(w, acts + [offer], Take(id));
    StepKeepsFlight(u, Take(id));
    longer, next := acts + [offer] + [Take(id)], After(u, Take(id)).services[id];
  }

  /** A script for one service: an event is offered and taken, or the service makes a move. */
  datatype Cue = Feed(x: Item) | Do(move: Move)

  predicate CanPlay(s: Service, c: Cue) {
    match c
    case Feed(_) => s.sender.Idle? || s.sender.Looping?
    case Do(m) => CanMove(s, m)
  }

  function Play(s: Service, c: Cue): Service
    requires CanPlay(s, c)
  {
    match c
    case Feed(x) => s.(sender := Holding(Batch([x], [], [], NO_DEVICES)))
    case Do(m) => AfterMove(s, m)
  }

  ghost predicate Plays(s: Service, cues: seq<Cue>, end: Service)
    decreases |cues|
  {
    if cues == [] then s == end else CanPlay(s, cues[0]) && Plays(Play(s, cues[0]), cues[1..], end)
  }

  lemma {:induction false} PlaysOn(s: Service, cues: seq<Cue>, mid: Service, c: Cue) returns (longer: seq<Cue>, end: Service)
    requires Plays(s, cues, mid) && CanPlay(mid, c)
    ensures end == Play(mid, c) && Plays(s, longer, end)
    ensures longer == cues + [c]
    decreases |cues|
  {
    longer, end := cues + [c], Play(mid, c);
    if cues == [] {
      assert longer[1..] == [];
    } else {
      var rest, e := PlaysOn(Play(s, cues[0]), cues[1..], mid, c);
      assert longer[0] == cues[0] && longer[1..] == rest;
    }
  }

  lemma {:induction false} PlayedIsReached(w: World, acts: seq<Action>, id: Id, s: Service, cues: seq<Cue>, end: Service)
    returns (longer: seq<Action>)
    requires Reaches(w, acts, id, s) && Plays(s, cues, end)
    ensures Reaches(w, longer, id, end)
    decreases |cues|
  {
    longer := acts;
    if cues != [] {
      var next;
      match cues[0] {
        case Feed(x) => longer, next := ReachByEvent(w, acts, id, s, x);
        case Do(m) => longer, next := ReachByMove(w, acts, id, s, m);
      }
      longer := PlayedIsReached(w, longer, id, next, cues[1..], end);
    }
  }

  /** The sender reads the service as down; the recoverer resends everything and marks it up; the sender
      has not yet stored its transaction. */
  const STALE := Service(Decided(Batch(["2"], [], [], NO_DEVICES), false), NoRecoverer, true, [["1"]], {0}, {0})

  lemma StaleReadingPlayed() returns (cues: seq<Cue>)
    ensures Plays(NEW_SERVICE, cues, STALE)
  {
    var s := NEW_SERVICE;
    cues := [];
    cues, s := PlaysOn(NEW_SERVICE, cues, s, Feed("1"));
    cues, s := PlaysOn(NEW_SERVICE, cues, s, Do(ReadState));
    cues, s := PlaysOn(NEW_SERVICE, cues, s, Do(CreateTxn));
    cues, s := PlaysOn(NEW_SERVICE, cues, s, Do(PushFail));
    assert s == Service(Looping, Waiting(1), false, [["1"]], {}, {});
    cues, s := PlaysOn(NEW_SERVICE, cues, s, Feed("2"));
    cues, s := PlaysOn(NEW_SERVICE, cues, s, Do(ReadState));
    cues, s := PlaysOn(NEW_SERVICE, cues, s, Do(TimerFires));
    cues := StaleReadingFinish(cues, s);
  }

  lemma StaleReadingFinish(cues: seq<Cue>, mid: Service) returns (longer: seq<Cue>)
    requires Plays(NEW_SERVICE, cues, mid)
    requires mid == Service(Decided(Batch(["2"], [], [], NO_DEVICES), false), Trying(1), false, [["1"]], {}, {})
    ensures Plays(NEW_SERVICE, longer, STALE)
  {
    var s := mid;
    assert Unsent(s, 0);
    longer, s := PlaysOn(NEW_SERVICE, cues, s, Do(FetchOldest));
    assert s.recoverer == Resending(0, 1);
    longer, s := PlaysOn(NEW_SERVICE, longer, s, Do(ResendOk));
    longer, s := PlaysOn(NEW_SERVICE, longer, s, Do(CompleteResent));
    assert NothingUnsent(s);
    longer, s := PlaysOn(NEW_SERVICE, longer, s, Do(FetchOldest));
    assert s == STALE;
  }

  lemma OutOfOrderPlayed() returns (cues: seq<Cue>, end: Service)
    ensures Plays(STALE, cues, end)
    ensures end.up && |end.created| == 3 && end.completed == {0, 2} && end.sender.Looping?
  {
    end := STALE;
    cues := [];
    cues, end := PlaysOn(STALE, cues, end, Do(CreateTxn));
    cues, end := PlaysOn(STALE, cues, end, Feed("3"));
    cues, end := PlaysOn(STALE, cues, end, Do(ReadState));
    cues, end := PlaysOn(STALE, cues, end, Do(CreateTxn));
    cues, end := PlaysOn(STALE, cues, end, Do(PushOk));
    cues, end := PlaysOn(STALE, cues, end, Do(CompletePushed));
  }

  /** Stale readings do happen, and then transactions complete out of order: a fresh world reaches a
      state where a service that is up has completed transactions 0 and 2 and was never sent 1. */
  lemma CompletedOutOfOrder() returns (w: World, acts: seq<Action>, id: Id, s: Service)
    ensures Reaches(w, acts, id, s) && s.up && |s.created| == 3 && s.completed == {0, 2}
    ensures !NothingForgotten(s) && !CompletedInOrder(s)
  {
    id := "as";
    w := NewWorldReached(id);
    var first := StaleReadingPlayed();
    acts := PlayedIsReached(w, [], id, NEW_SERVICE, first, STALE);
    var second;
    second, s := OutOfOrderPlayed();
    acts := PlayedIsReached(w, acts, id, STALE, second, s);
    OutOfOrder(s);
  }

  lemma NewWorldReached(id: Id) returns (w: World)
    ensures Reaches(w, [], id, NEW_SERVICE)
  {
    w := World(Queues(map[], map[], map[], map[], {}), map[id := NEW_SERVICE], map[]);
    FreshOk(w);
  }

  lemma OutOfOrder(s: Service)
    requires s.up && |s.created| == 3 && s.completed == {0, 2} && s.sender.Looping?
    ensures !NothingForgotten(s) && !CompletedInOrder(s)
  {
    assert Unsent(s, 1) && 2 in s.completed && 1 !in s.completed;
  }
}
