/** What becomes of everything that is queued for an application service (synapse/appservice/scheduler.py), kind
    by kind, and how the recoverer backs off.
 */
module SchedulerQueues {
  import opened Scheduler

  // ---------------------------------------------------------------------------------------------
  // One batch

  /** A batch carries the head of each queue under its own kind, at most a hundred items of each, and leaves
      the rest. */
  lemma BatchSplitsQueues(q: Queues, id: Id)
    ensures QueueOf(q.events, id) == NextBatch(q, id).events + QueueOf(AfterTake(q, id).events, id)
    ensures QueueOf(q.ephemeral, id) == NextBatch(q, id).ephemeral + QueueOf(AfterTake(q, id).ephemeral, id)
    ensures QueueOf(q.toDevice, id) == NextBatch(q, id).toDevice + QueueOf(AfterTake(q, id).toDevice, id)
    ensures |NextBatch(q, id).events| <= 100 && |NextBatch(q, id).ephemeral| <= 100 && |NextBatch(q, id).toDevice| <= 100
    ensures QueueOf(AfterTake(q, id).events, id) != [] ==> |NextBatch(q, id).events| == 100
    ensures QueueOf(AfterTake(q, id).ephemeral, id) != [] ==> |NextBatch(q, id).ephemeral| == 100
    ensures QueueOf(AfterTake(q, id).toDevice, id) != [] ==> |NextBatch(q, id).toDevice| == 100
  {
    CutConserves(q.events, id);
    CutConserves(q.ephemeral, id);
    CutConserves(q.toDevice, id);
  }

  /** Its device lists put a user where the last queued summary that mentions them does, and nobody else
      anywhere; no service has summaries queued afterwards. */
  lemma BatchConsolidates(q: Queues, id: Id, u: string, i: nat)
    requires i < |QueueOf(q.devices, id)|
    requires forall j :: i < j < |QueueOf(q.devices, id)| ==> !Mentions(QueueOf(q.devices, id)[j], u)
    ensures u in QueueOf(q.devices, id)[i].left ==>
              u in NextBatch(q, id).devices.left && u !in NextBatch(q, id).devices.changed
    ensures u in QueueOf(q.devices, id)[i].changed && u !in QueueOf(q.devices, id)[i].left ==>
              u in NextBatch(q, id).devices.changed && u !in NextBatch(q, id).devices.left
    ensures forall other :: QueueOf(AfterTake(q, id).devices, other) == []
  {
    if Mentions(QueueOf(q.devices, id)[i], u) { LatestMentionWins(QueueOf(q.devices, id), u, i); }
  }

  lemma BatchMentionsOnlyQueued(q: Queues, id: Id, u: string)
    requires forall j :: 0 <= j < |QueueOf(q.devices, id)| ==> !Mentions(QueueOf(q.devices, id)[j], u)
    ensures u !in NextBatch(q, id).devices.changed && u !in NextBatch(q, id).devices.left
  {
    UnmentionedStayOut(QueueOf(q.devices, id), u);
  }

  /** The sender goes on exactly if the batch carries anything of any kind. */
  lemma FlightEndsWithNothing(q: Queues, id: Id)
    ensures id in AfterTake(q, id).inFlight
            <==> && id in q.inFlight
                 && (|| NextBatch(q, id).events != [] || NextBatch(q, id).ephemeral != [] || NextBatch(q, id).toDevice != []
                     || NextBatch(q, id).devices.changed != {} || NextBatch(q, id).devices.left != {})
  {
  }

  /** A sender is in flight after an offer exactly if one was or anything of any kind was offered. */
  lemma FlightStartsWithAnything(q: Queues, id: Id, data: Batch)
    ensures id in AfterEnqueue(q, id, data).inFlight
            <==> || id in q.inFlight
                 || data.events != [] || data.ephemeral != [] || data.toDevice != []
                 || data.devices.changed != {} || data.devices.left != {}
    ensures QueueOf(AfterEnqueue(q, id, data).devices, id)
            == QueueOf(q.devices, id)
               + if data.devices.changed == {} && data.devices.left == {} then [] else [data.devices]
  {
  }

  // ---------------------------------------------------------------------------------------------
  // Over runs

  datatype Kind = Persistent | Ephemeral | ToDevice

  function Carried(b: Batch, k: Kind): seq<Item> {
    match k
    case Persistent => b.events
    case Ephemeral => b.ephemeral
    case ToDevice => b.toDevice
  }

  function Queued(q: Queues, k: Kind, id: Id): seq<Item> {
    match k
    case Persistent => QueueOf(q.events, id)
    case Ephemeral => QueueOf(q.ephemeral, id)
    case ToDevice => QueueOf(q.toDevice, id)
  }

  /** All that a run offers to a service of one kind, in order. */
  function Offered(acts: seq<Action>, k: Kind, id: Id): seq<Item>
    decreases |acts|
  {
    if acts == [] then []
    else
      (if acts[0].Offer? && acts[0].id == id then Carried(acts[0].data, k) else []) + Offered(acts[1..], k, id)
  }

  /** All that the batches taken in a run carry of one kind, in order. */
  ghost function Taken(w: World, acts: seq<Action>, k: Kind, id: Id): seq<Item>
    requires ValidRun(w, acts)
    decreases |acts|
  {
    if acts == [] then []
    else
      (if acts[0] == Take(id) then Carried(NextBatch(w.queues, id), k) else [])
      + Taken(After(w, acts[0]), acts[1..], k, id)
  }

  lemma {:induction false} StepMoves(w: World, a: Action, k: Kind, id: Id)
    requires Possible(w, a)
    ensures Queued(w.queues, k, id) + (if a.Offer? && a.id == id then Carried(a.data, k) else [])
            == (if a == Take(id) then Carried(NextBatch(w.queues, id), k) else []) + Queued(After(w, a).queues, k, id)
  {
    if a.Take? && a.id == id {
      BatchSplitsQueues(w.queues, id);
    } else if a.Offer? && a.id == id {
      ExtendedQueue(w.queues.events, id, a.data.events);
      ExtendedQueue(w.queues.ephemeral, id, a.data.ephemeral);
      ExtendedQueue(w.queues.toDevice, id, a.data.toDevice);
    }
  }

  lemma Regrouped(a: seq<Item>, b: seq<Item>, c: seq<Item>)
    ensures (a + b) + c == a + (b + c)
  {
  }

  /** Over every run and for every kind: what was queued and what is offered is, in order, what the batches
      taken carry of that kind, followed by what is still queued of it. */
  lemma {:induction false} KindsConserved(w: World, acts: seq<Action>, k: Kind, id: Id)
    requires ValidRun(w, acts)
    ensures Queued(w.queues, k, id) + Offered(acts, k, id)
            == Taken(w, acts, k, id) + Queued(WorldAfter(w, acts).queues, k, id)
    decreases |acts|
  {
    if acts != [] {
      var a, rest, v := acts[0], acts[1..], After(w, acts[0]);
      var offered: seq<Item> := if a.Offer? && a.id == id then Carried(a.data, k) else [];
      var taken: seq<Item> := if a == Take(id) then Carried(NextBatch(w.queues, id), k) else [];
      StepMoves(w, a, k, id);
      KindsConserved(v, rest, k, id);
      Regrouped(Queued(w.queues, k, id), offered, Offered(rest, k, id));
      Regrouped(taken, Queued(v.queues, k, id), Offered(rest, k, id));
      Regrouped(taken, Taken(v, rest, k, id), Queued(WorldAfter(v, rest).queues, k, id));
    }
  }

  // ---------------------------------------------------------------------------------------------
  // Storing a batch

  /** A batch without persistent events is dropped if the service was seen down; every other one becomes the
      next transaction, and is pushed at once if the service was seen up. */
  lemma BatchBecomesTransaction(s: Service, m: Move)
    requires m == CreateTxn && CanMove(s, m)
    ensures !s.sender.sawUp && s.sender.batch.events == [] ==> AfterMove(s, m) == s.(sender := Looping)
    ensures s.sender.sawUp || s.sender.batch.events != [] ==>
              && AfterMove(s, m).created == s.created + [s.sender.batch.events]
              && AfterMove(s, m).sender == if s.sender.sawUp then Pushing(|s.created|) else Looping
  {
  }

  // ---------------------------------------------------------------------------------------------
  // Backing off

  /** The recoverer fetches the oldest transaction, fails to resend it, and waits. */
  function AfterFailure(s: Service): Service
    requires s.recoverer.Trying? && !NothingUnsent(s)
  {
    AfterMove(AfterMove(AfterMove(s, FetchOldest), ResendFail), TimerFires)
  }

  ghost function AfterFailures(s: Service, n: nat): (r: Service)
    requires s.recoverer.Trying? && !NothingUnsent(s)
    ensures r.recoverer.Trying? && r == s.(recoverer := r.recoverer)
    decreases n
  {
    if n == 0 then s
    else
      var t := AfterFailure(s);
      assert t == s.(recoverer := t.recoverer);
      assert NothingUnsent(t) ==> NothingUnsent(s) by {
        if NothingUnsent(t) { forall m: nat | m < |s.created| ensures !Unsent(s, m) { assert !Unsent(t, m); } }
      }
      AfterFailures(t, n - 1)
  }

  /** After n failures in a row the counter has gone up by n, as far as 9. */
  lemma {:induction false} BackoffAfterFailures(s: Service, n: nat)
    requires s.recoverer.Trying? && !NothingUnsent(s) && s.recoverer.backoff <= 9
    ensures AfterFailures(s, n).recoverer.backoff
            == if s.recoverer.backoff + n <= 9 then s.recoverer.backoff + n else 9
    decreases n
  {
    if n > 0 {
      var t := AfterFailure(s);
      assert t == s.(recoverer := t.recoverer);
      if NothingUnsent(t) { forall m: nat | m < |s.created| ensures !Unsent(s, m) { assert !Unsent(t, m); } }
      BackoffAfterFailures(t, n - 1);
    }
  }

  /** A failed push and a successful resend set it to 1. */
  lemma BackoffStartsOver(s: Service, m: Move)
    requires CanMove(s, m)
    ensures m == PushFail && s.recoverer.NoRecoverer? ==> AfterMove(s, m).recoverer == Waiting(1)
    ensures m == CompleteResent ==> AfterMove(s, m).recoverer == Trying(1)
  {
  }
}
