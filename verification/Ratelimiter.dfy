/** The rate limiter (synapse/api/ratelimiting.py): a leaky bucket per key that is drained only when
    it is looked at, and forgotten once empty. Times and counts are reals.
 */
module Ratelimiter {
  import opened Wrappers

  type Key = string

  /** What is stored of a bucket: the actions counted since `start`, when it was last known empty, and
      its leak rate. */
  datatype Entry = Entry(count: real, start: real, rate: real)

  type Actions = map<Key, Entry>

  /** A check that records its outcome. */
  datatype Call = Call(key: Key, now: real, rate: real, burst: real, cost: real)

  datatype Outcome = Outcome(allowed: bool, retryAt: real, actions: Actions)

  // ---------------------------------------------------------------------------------------------
  // The limiter as a function of its table

  /** What leaks out of a bucket in some time. */
  function Leaked(rate: real, elapsed: real): real {
    elapsed * rate
  }

  /** What is left of the counted actions at a leak rate; below zero if the bucket has been empty a while. */
  function Performed(entry: Entry, now: real, rate: real): real {
    entry.count - Leaked(rate, now - entry.start)
  }

  predicate Expired(entry: Entry, now: real) {
    Performed(entry, now, entry.rate) <= 0.0
  }

  function Pruned(actions: Actions, now: real): Actions {
    map k | k in actions && !Expired(actions[k], now) :: actions[k]
  }

  function Lookup(actions: Actions, key: Key, now: real): Entry {
    if key in actions then actions[key] else Entry(0.0, now, 0.0)
  }

  /** The bucket as a call sees it: at the rate of the call, and started afresh if it is below empty. */
  function Settled(entry: Entry, now: real, rate: real): Entry {
    if Performed(entry, now, rate) < 0.0 then Entry(0.0, now, rate) else entry.(rate := rate)
  }

  function RetryAt(entry: Entry, now: real, burst: real): real {
    if entry.rate <= 0.0 then -1.0
    else
      var free := entry.start + (entry.count - burst + 1.0) / entry.rate;
      if free < now then now else free
  }

  function Check(actions: Actions, call: Call, update: bool): Outcome {
    var kept := Pruned(actions, call.now);
    var entry := Settled(Lookup(kept, call.key, call.now), call.now, call.rate);
    var allowed := Performed(entry, call.now, call.rate) <= call.burst - call.cost;
    var after := if allowed then entry.(count := entry.count + call.cost) else entry;
    Outcome(allowed, RetryAt(after, call.now, call.burst), if update then kept[call.key := after] else kept)
  }

  class Limiter {
    const rateHz: real
    const burstCount: real
    var actions: Actions

    constructor (rateHz: real, burstCount: real)
      ensures this.rateHz == rateHz && this.burstCount == burstCount && actions == map[]
    {
      this.rateHz, this.burstCount := rateHz, burstCount;
      actions := map[];
    }

    /** Forgets every bucket that has leaked empty, and no other. */
    method Prune(now: real)
      modifies this
      ensures actions == Pruned(old(actions), now)
    {
      var keys := actions.Keys;
      while keys != {}
        invariant keys <= old(actions).Keys
        invariant keys <= actions.Keys
        invariant forall k :: k in old(actions) ==>
                                (k in actions <==> k in keys || !Expired(old(actions)[k], now))
        invariant forall k :: k in actions ==> k in old(actions) && actions[k] == old(actions)[k]
        decreases |keys|
      {
        var k :| k in keys;
        keys := keys - {k};
        if actions[k].count - Leaked(actions[k].rate, now - actions[k].start) > 0.0 {
          continue;
        }
        actions := actions - {k};
      }
    }

    /** Decides one request. A requester exempt from limiting is let through untouched. */
    method CanDoAction(exempt: bool, key: Key, rate: Option<real>, burst: Option<real>, update: bool,
                       cost: real, now: real)
      returns (allowed: bool, retryAt: real)
      modifies this
      ensures exempt ==> allowed && retryAt == -1.0 && actions == old(actions)
      ensures !exempt ==>
                var call := Call(key, now, if rate.Some? then rate.value else rateHz,
                                 if burst.Some? then burst.value else burstCount, cost);
                Outcome(allowed, retryAt, actions) == Check(old(actions), call, update)
    {
      if exempt { return true, -1.0; }
      var rateHz := if rate.Some? then rate.value else this.rateHz;
      var burstCount := if burst.Some? then burst.value else this.burstCount;
      Prune(now);
      var entry := Lookup(actions, key, now);
      var count, start := entry.count, entry.start;
      var performed := count - Leaked(rateHz, now - start);
      if performed < 0.0 {
        performed, count, start := 0.0, 0.0, now;
        EmptyNow(now, rateHz);
      }
      assert Entry(count, start, rateHz) == Settled(entry, now, rateHz);
      assert performed == Performed(Entry(count, start, rateHz), now, rateHz);
      if performed > burstCount - cost {
        allowed := false;
      } else {
        allowed := true;
        count := count + cost;
      }
      if update { actions := actions[key := Entry(count, start, rateHz)]; }
      retryAt := TimeAllowed(Entry(count, start, rateHz), now, burstCount);
    }
  }

  /** When one more action fits into the bucket, not before now. */
  method TimeAllowed(entry: Entry, now: real, burst: real) returns (at: real)
    ensures at == RetryAt(entry, now, burst)
  {
    if entry.rate > 0.0 {
      at := entry.start + (entry.count - burst + 1.0) / entry.rate;
      if at < now { at := now; }
    } else {
      at := -1.0;
    }
  }

  lemma EmptyNow(now: real, rate: real)
    ensures Performed(Entry(0.0, now, rate), now, rate) == 0.0
  {
    assert Leaked(rate, now - now) == 0.0;
  }

  // ---------------------------------------------------------------------------------------------
  // The bucket the documentation describes: every bucket leaks all the time

  function Max(a: real, b: real): real {
    if a < b then b else a
  }

  /** The leak rate of every key: the configured one, unless the callers of a key override it. */
  datatype Rates = Rates(overrides: map<Key, real>, configured: real)

  function RateOf(rates: Rates, k: Key): real {
    if k in rates.overrides then rates.overrides[k] else rates.configured
  }

  function Left(level: real, leaked: real): real {
    Max(0.0, level - leaked)
  }

  /** The level of every bucket at time `clock`. */
  datatype Eager = Eager(levels: map<Key, real>, clock: real)

  function LevelIn(levels: map<Key, real>, k: Key): real {
    if k in levels then levels[k] else 0.0
  }

  function Leak(levels: map<Key, real>, rates: Rates, elapsed: real): map<Key, real> {
    map k | k in levels :: Left(levels[k], Leaked(RateOf(rates, k), elapsed))
  }

  function EagerAllows(e: Eager, rates: Rates, call: Call): bool {
    LevelIn(Leak(e.levels, rates, call.now - e.clock), call.key) + call.cost <= call.burst
  }

  function EagerStep(e: Eager, rates: Rates, call: Call): Eager {
    var levels := Leak(e.levels, rates, call.now - e.clock);
    var level := LevelIn(levels, call.key);
    if level + call.cost <= call.burst
    then Eager(levels[call.key := Max(0.0, level + call.cost)], call.now)
    else Eager(levels, call.now)
  }

  // ---------------------------------------------------------------------------------------------
  // The stored table refines the eager buckets

  /** The level of a stored bucket at time `t`. */
  function EntryLevel(entry: Entry, t: real): real {
    Max(0.0, Performed(entry, t, entry.rate))
  }

  function StoredLevel(actions: Actions, k: Key, t: real): real {
    if k in actions then EntryLevel(actions[k], t) else 0.0
  }

  ghost predicate Represents(actions: Actions, rates: Rates, e: Eager) {
    && (forall k :: k in actions ==> actions[k].rate == RateOf(rates, k))
    && (forall k :: StoredLevel(actions, k, e.clock) == LevelIn(e.levels, k))
  }

  ghost predicate Positive(rates: Rates) {
    forall k :: RateOf(rates, k) > 0.0
  }

  /** Calls in order of time, none before `clock`, each with the rate its key always has. */
  ghost predicate Orderly(calls: seq<Call>, rates: Rates, clock: real)
    decreases |calls|
  {
    calls == []
    || (&& clock <= calls[0].now
        && calls[0].rate == RateOf(rates, calls[0].key)
        && Orderly(calls[1..], rates, calls[0].now))
  }

  lemma LeakSplits(rate: real, s: real, t: real, u: real)
    requires rate > 0.0 && t <= u
    ensures Leaked(rate, u - s) == Leaked(rate, t - s) + Leaked(rate, u - t)
    ensures Leaked(rate, u - t) >= 0.0
    ensures s <= t ==> Leaked(rate, t - s) >= 0.0
  {
    assert (u - s) * rate == (t - s) * rate + (u - t) * rate;
  }

  /** Leaking in two stages, with a clamp in between, is leaking once. */
  lemma LeakTwice(entry: Entry, t: real, u: real)
    requires entry.rate > 0.0 && t <= u
    ensures Leaked(entry.rate, u - t) >= 0.0
    ensures EntryLevel(entry, u) == Left(EntryLevel(entry, t), Leaked(entry.rate, u - t))
  {
    LeakSplits(entry.rate, entry.start, t, u);
    ClampedTwice(entry.count - Leaked(entry.rate, t - entry.start), Leaked(entry.rate, u - t));
  }

  lemma ClampedTwice(level: real, leaked: real)
    requires leaked >= 0.0
    ensures Left(Max(0.0, level), leaked) == Max(0.0, level - leaked)
  {
  }

  lemma LeakAt(levels: map<Key, real>, rates: Rates, elapsed: real, k: Key)
    requires RateOf(rates, k) > 0.0 && elapsed >= 0.0
    ensures Leaked(RateOf(rates, k), elapsed) >= 0.0
    ensures LevelIn(Leak(levels, rates, elapsed), k) == Left(LevelIn(levels, k), Leaked(RateOf(rates, k), elapsed))
  {
  }

  lemma LevelLater(actions: Actions, rates: Rates, e: Eager, k: Key, u: real)
    requires Represents(actions, rates, e) && RateOf(rates, k) > 0.0 && e.clock <= u
    ensures StoredLevel(actions, k, u) == LevelIn(Leak(e.levels, rates, u - e.clock), k)
  {
    var leaked := Leaked(RateOf(rates, k), u - e.clock);
    LeakAt(e.levels, rates, u - e.clock, k);
    calc {
      StoredLevel(actions, k, u);
    == { if k in actions { LeakTwice(actions[k], e.clock, u); } }
      Left(StoredLevel(actions, k, e.clock), leaked);
    == { assert StoredLevel(actions, k, e.clock) == LevelIn(e.levels, k); }
      Left(LevelIn(e.levels, k), leaked);
    }
  }

  /** Forgetting empty buckets changes no level, now or later. */
  lemma PruningUnobservable(actions: Actions, k: Key, now: real, t: real)
    requires k in actions ==> actions[k].rate > 0.0
    requires now <= t
    ensures StoredLevel(Pruned(actions, now), k, t) == StoredLevel(actions, k, t)
  {
    if k in actions && Expired(actions[k], now) {
      LeakTwice(actions[k], now, t);
      assert EntryLevel(actions[k], now) == 0.0;
    }
  }

  /** A recorded call on one key changes no other key's level, now or later. */
  lemma OtherKeysUntouched(actions: Actions, call: Call, k: Key, t: real)
    requires k != call.key && (k in actions ==> actions[k].rate > 0.0) && call.now <= t
    ensures StoredLevel(Check(actions, call, true).actions, k, t) == StoredLevel(actions, k, t)
  {
    PruningUnobservable(actions, k, call.now, t);
  }

  /** The bucket a call works on has the level the table records for it. */
  lemma SettledLevel(actions: Actions, call: Call)
    requires call.rate > 0.0 && (call.key in actions ==> actions[call.key].rate == call.rate)
    ensures var entry := Settled(Lookup(Pruned(actions, call.now), call.key, call.now), call.now, call.rate);
            entry.rate == call.rate
            && Performed(entry, call.now, call.rate) == StoredLevel(actions, call.key, call.now)
  {
    assert Leaked(call.rate, call.now - call.now) == 0.0;
  }

  lemma RaisedLevel(entry: Entry, now: real, cost: real)
    ensures Performed(entry.(count := entry.count + cost), now, entry.rate) == Performed(entry, now, entry.rate) + cost
  {
  }

  /** The called key: the answer compares its level with the burst, and the level rises by the cost. */
  lemma CalledKey(actions: Actions, call: Call)
    requires call.rate > 0.0 && (call.key in actions ==> actions[call.key].rate == call.rate)
    ensures Check(actions, call, true).allowed
            <==> StoredLevel(actions, call.key, call.now) + call.cost <= call.burst
    ensures StoredLevel(Check(actions, call, true).actions, call.key, call.now)
            == if Check(actions, call, true).allowed
               then Max(0.0, StoredLevel(actions, call.key, call.now) + call.cost)
               else StoredLevel(actions, call.key, call.now)
  {
    var entry := Settled(Lookup(Pruned(actions, call.now), call.key, call.now), call.now, call.rate);
    SettledLevel(actions, call);
    RaisedLevel(entry, call.now, call.cost);
    var level := StoredLevel(actions, call.key, call.now);
    var after := Check(actions, call, true).actions[call.key];
    assert after == if level <= call.burst - call.cost then entry.(count := entry.count + call.cost) else entry;
    assert StoredLevel(Check(actions, call, true).actions, call.key, call.now)
        == Max(0.0, Performed(after, call.now, call.rate));
  }

  /** What a call finds of its bucket: the level at the rate of the call, or nothing if the bucket has leaked
      empty at the rate it was stored with. */
  function Found(actions: Actions, call: Call): real {
    if call.key in actions && !Expired(actions[call.key], call.now)
    then EntryLevel(actions[call.key].(rate := call.rate), call.now) else 0.0
  }

  /** Whatever rate the bucket was stored with: the answer compares the level found with the burst, never less
      than empty, and the stored level rises by the cost exactly if the call is allowed. */
  lemma CalledAtAnyRate(actions: Actions, call: Call)
    ensures Check(actions, call, true).allowed <==> Found(actions, call) + call.cost <= call.burst
    ensures StoredLevel(Check(actions, call, true).actions, call.key, call.now)
            == if Check(actions, call, true).allowed then Max(0.0, Found(actions, call) + call.cost) else Found(actions, call)
  {
    var kept := Lookup(Pruned(actions, call.now), call.key, call.now);
    var entry := Settled(kept, call.now, call.rate);
    EmptyNow(call.now, call.rate);
    assert Performed(entry, call.now, call.rate) == Found(actions, call);
    RaisedLevel(entry, call.now, call.cost);
    var after := Check(actions, call, true).actions[call.key];
    assert after == if Check(actions, call, true).allowed then entry.(count := entry.count + call.cost) else entry;
  }

  lemma StepRefines(actions: Actions, rates: Rates, e: Eager, call: Call)
    requires Represents(actions, rates, e)
    requires Positive(rates) && call.rate == RateOf(rates, call.key) && e.clock <= call.now
    ensures Check(actions, call, true).allowed == EagerAllows(e, rates, call)
    ensures Represents(Check(actions, call, true).actions, rates, EagerStep(e, rates, call))
  {
    var after, next := Check(actions, call, true).actions, EagerStep(e, rates, call);
    CalledKey(actions, call);
    LevelLater(actions, rates, e, call.key, call.now);
    forall k ensures StoredLevel(after, k, next.clock) == LevelIn(next.levels, k) {
      if k != call.key {
        OtherKeysUntouched(actions, call, k, call.now);
        LevelLater(actions, rates, e, k, call.now);
      }
    }
  }

  function StoredAnswers(actions: Actions, calls: seq<Call>): seq<bool>
    decreases |calls|
  {
    if calls == [] then []
    else
      var outcome := Check(actions, calls[0], true);
      [outcome.allowed] + StoredAnswers(outcome.actions, calls[1..])
  }

  function EagerAnswers(e: Eager, rates: Rates, calls: seq<Call>): seq<bool>
    decreases |calls|
  {
    if calls == [] then []
    else [EagerAllows(e, rates, calls[0])] + EagerAnswers(EagerStep(e, rates, calls[0]), rates, calls[1..])
  }

  /** Over any run of recorded checks the limiter answers as if every bucket leaked all the time. */
  lemma {:induction false} LimiterRefinesEager(actions: Actions, rates: Rates, e: Eager, calls: seq<Call>)
    requires Represents(actions, rates, e) && Positive(rates) && Orderly(calls, rates, e.clock)
    ensures StoredAnswers(actions, calls) == EagerAnswers(e, rates, calls)
    decreases |calls|
  {
    if calls != [] {
      StepRefines(actions, rates, e, calls[0]);
      LimiterRefinesEager(Check(actions, calls[0], true).actions, rates, EagerStep(e, rates, calls[0]), calls[1..]);
    }
  }

  // ---------------------------------------------------------------------------------------------
  // How much is let through

  /** Every call on the key asks for a non-negative number of actions against the same burst. */
  ghost predicate SameBurst(calls: seq<Call>, key: Key, burst: real)
    decreases |calls|
  {
    calls == []
    || (&& (calls[0].key == key ==> calls[0].burst == burst && calls[0].cost >= 0.0)
        && SameBurst(calls[1..], key, burst))
  }

  /** The actions let through for one key in the window from `s` to `t`. */
  function LetThrough(calls: seq<Call>, answers: seq<bool>, key: Key, s: real, t: real): real
    requires |calls| == |answers|
    decreases |calls|
  {
    if calls == [] then 0.0
    else
      (if answers[0] && calls[0].key == key && s <= calls[0].now <= t then calls[0].cost else 0.0)
      + LetThrough(calls[1..], answers[1..], key, s, t)
  }

  lemma {:induction false} AnswersLength(e: Eager, rates: Rates, calls: seq<Call>)
    ensures |EagerAnswers(e, rates, calls)| == |calls|
    decreases |calls|
  {
    if calls != [] { AnswersLength(EagerStep(e, rates, calls[0]), rates, calls[1..]); }
  }

  lemma {:induction false} NothingAfterWindow(calls: seq<Call>, answers: seq<bool>, rates: Rates, clock: real,
                                              key: Key, s: real, t: real)
    requires |calls| == |answers| && Orderly(calls, rates, clock) && t < clock
    ensures LetThrough(calls, answers, key, s, t) == 0.0
    decreases |calls|
  {
    if calls != [] { NothingAfterWindow(calls[1..], answers[1..], rates, calls[0].now, key, s, t); }
  }

  /** A recorded check keeps the level of its key between zero and the burst. */
  lemma LevelStaysWithinBurst(e: Eager, rates: Rates, call: Call, key: Key, burst: real)
    requires RateOf(rates, key) > 0.0 && e.clock <= call.now
    requires call.key == key ==> call.burst == burst && call.cost >= 0.0
    requires 0.0 <= LevelIn(e.levels, key) <= burst
    ensures 0.0 <= LevelIn(EagerStep(e, rates, call).levels, key) <= burst
    ensures LevelIn(EagerStep(e, rates, call).levels, key)
            >= LevelIn(e.levels, key) - Leaked(RateOf(rates, key), call.now - e.clock)
               + (if call.key == key && EagerAllows(e, rates, call) then call.cost else 0.0)
    ensures call.key == key && EagerAllows(e, rates, call) ==>
              LevelIn(EagerStep(e, rates, call).levels, key) >= call.cost
  {
    LeakAt(e.levels, rates, call.now - e.clock, key);
  }

  /** The table after a run of recorded checks, and the time of its last call. */
  function TableAfter(actions: Actions, calls: seq<Call>): Actions
    decreases |calls|
  {
    if calls == [] then actions else TableAfter(Check(actions, calls[0], true).actions, calls[1..])
  }

  function ClockAfter(clock: real, calls: seq<Call>): real {
    if calls == [] then clock else calls[|calls| - 1].now
  }

  /** The eager buckets a table stands for. */
  ghost function Abstraction(actions: Actions, clock: real): Eager {
    Eager(map k | k in actions :: StoredLevel(actions, k, clock), clock)
  }

  /** Over every run, from any table, the level that the table holds of a key stays between zero and the
      burst, at the time of the last call and ever after. */
  lemma {:induction false} StoredLevelWithinBurst(actions: Actions, rates: Rates, calls: seq<Call>, key: Key, burst: real,
                               clock: real, t: real)
    requires Positive(rates) && Orderly(calls, rates, clock) && SameBurst(calls, key, burst)
    requires forall k :: k in actions ==> actions[k].rate == RateOf(rates, k)
    requires StoredLevel(actions, key, clock) <= burst && ClockAfter(clock, calls) <= t
    ensures 0.0 <= StoredLevel(TableAfter(actions, calls), key, t) <= burst
  {
    RunStaysWithinBurst(actions, rates, Abstraction(actions, clock), calls, key, burst, t);
  }

  lemma {:induction false} RunStaysWithinBurst(actions: Actions, rates: Rates, e: Eager, calls: seq<Call>, key: Key,
                                               burst: real, t: real)
    requires Represents(actions, rates, e) && Positive(rates)
    requires Orderly(calls, rates, e.clock) && SameBurst(calls, key, burst)
    requires 0.0 <= LevelIn(e.levels, key) <= burst && ClockAfter(e.clock, calls) <= t
    ensures StoredLevel(TableAfter(actions, calls), key, t) <= burst
    decreases |calls|
  {
    if calls == [] {
      LevelLater(actions, rates, e, key, t);
      LeakAt(e.levels, rates, t - e.clock, key);
    } else {
      StepRefines(actions, rates, e, calls[0]);
      LevelStaysWithinBurst(e, rates, calls[0], key, burst);
      var next := EagerStep(e, rates, calls[0]);
      assert ClockAfter(next.clock, calls[1..]) == ClockAfter(e.clock, calls);
      RunStaysWithinBurst(Check(actions, calls[0], true).actions, rates, next, calls[1..], key, burst, t);
    }
  }

  /** From a point inside the window on, at most the room left in the bucket and what leaks until the
      end of the window is let through. */
  lemma {:induction false} WindowRemainder(e: Eager, rates: Rates, calls: seq<Call>, key: Key, burst: real,
                                           s: real, t: real)
    requires Positive(rates) && Orderly(calls, rates, e.clock) && SameBurst(calls, key, burst)
    requires 0.0 <= LevelIn(e.levels, key) <= burst && e.clock <= t
    ensures |EagerAnswers(e, rates, calls)| == |calls|
    ensures LetThrough(calls, EagerAnswers(e, rates, calls), key, s, t)
            <= burst - LevelIn(e.levels, key) + Leaked(RateOf(rates, key), t - e.clock)
    decreases |calls|
  {
    AnswersLength(e, rates, calls);
    LeakSplits(RateOf(rates, key), e.clock, t, t);
    if calls != [] {
      var call, next := calls[0], EagerStep(e, rates, calls[0]);
      var answers := EagerAnswers(e, rates, calls);
      assert answers[1..] == EagerAnswers(next, rates, calls[1..]);
      if call.now <= t {
        LevelStaysWithinBurst(e, rates, call, key, burst);
        WindowRemainder(next, rates, calls[1..], key, burst, s, t);
        LeakSplits(RateOf(rates, key), e.clock, call.now, t);
      } else {
        NothingAfterWindow(calls[1..], answers[1..], rates, call.now, key, s, t);
      }
    }
  }

  lemma {:induction false} EagerWindowBound(e: Eager, rates: Rates, calls: seq<Call>, key: Key, burst: real,
                                            s: real, t: real)
    requires Positive(rates) && Orderly(calls, rates, e.clock) && SameBurst(calls, key, burst)
    requires 0.0 <= LevelIn(e.levels, key) <= burst && s <= t
    ensures |EagerAnswers(e, rates, calls)| == |calls|
    ensures LetThrough(calls, EagerAnswers(e, rates, calls), key, s, t) <= burst + Leaked(RateOf(rates, key), t - s)
    decreases |calls|
  {
    AnswersLength(e, rates, calls);
    LeakSplits(RateOf(rates, key), s, t, t);
    if s <= e.clock <= t {
      WindowRemainder(e, rates, calls, key, burst, s, t);
      LeakSplits(RateOf(rates, key), s, e.clock, t);
    } else if t < e.clock {
      NothingAfterWindow(calls, EagerAnswers(e, rates, calls), rates, e.clock, key, s, t);
    } else if calls != [] {
      EagerWindowFirst(e, rates, calls, key, burst, s, t);
    }
  }

  /** The case of a window that opens after the current time. */
  lemma {:induction false} EagerWindowFirst(e: Eager, rates: Rates, calls: seq<Call>, key: Key, burst: real,
                                            s: real, t: real)
    requires calls != [] && Positive(rates) && Orderly(calls, rates, e.clock) && SameBurst(calls, key, burst)
    requires 0.0 <= LevelIn(e.levels, key) <= burst && e.clock < s <= t
    ensures |EagerAnswers(e, rates, calls)| == |calls|
    ensures LetThrough(calls, EagerAnswers(e, rates, calls), key, s, t) <= burst + Leaked(RateOf(rates, key), t - s)
    decreases |calls|, 0
  {
    AnswersLength(e, rates, calls);
    LeakSplits(RateOf(rates, key), s, t, t);
    var call := calls[0];
    if call.now < s {
      LevelStaysWithinBurst(e, rates, call, key, burst);
      EagerWindowBound(EagerStep(e, rates, call), rates, calls[1..], key, burst, s, t);
    } else if call.now <= t {
      LevelStaysWithinBurst(e, rates, call, key, burst);
      WindowRemainder(EagerStep(e, rates, call), rates, calls[1..], key, burst, s, t);
      LeakSplits(RateOf(rates, key), s, call.now, t);
    } else {
      NothingAfterWindow(calls[1..], EagerAnswers(e, rates, calls)[1..], rates, call.now, key, s, t);
    }
  }

  /** In any run of a fresh limiter, with any calls on other keys in between, what is let through for a
      key in a window is at most the burst plus what leaks in the length of the window. */
  lemma WindowBound(rates: Rates, calls: seq<Call>, key: Key, burst: real, clock: real, s: real, t: real)
    requires Positive(rates) && Orderly(calls, rates, clock) && SameBurst(calls, key, burst) && burst >= 0.0 && s <= t
    ensures |StoredAnswers(map[], calls)| == |calls|
    ensures LetThrough(calls, StoredAnswers(map[], calls), key, s, t) <= burst + Leaked(RateOf(rates, key), t - s)
  {
    var empty := Eager(map[], clock);
    LimiterRefinesEager(map[], rates, empty, calls);
    EagerWindowBound(empty, rates, calls, key, burst, s, t);
  }

  // ---------------------------------------------------------------------------------------------
  // When to try again

  /** Whatever the table held, the time returned with an answer is the earliest instant, not before
      now, at which one more action on the key is allowed. */
  lemma {:induction false} RetryTimeExact(actions: Actions, call: Call, t: real)
    requires call.rate > 0.0 && call.burst >= 1.0 && call.now <= t
    ensures call.now <= Check(actions, call, true).retryAt
    ensures Check(Check(actions, call, true).actions, call.(now := t, cost := 1.0), true).allowed
            <==> Check(actions, call, true).retryAt <= t
  {
    var outcome := Check(actions, call, true);
    RecordedEntry(actions, call);
    OneMoreAllowed(outcome.actions, call.key, call.burst, t);
    RetryNotBefore(outcome.actions[call.key], call.now, call.burst, t);
  }

  /** A check that is not recorded answers as a recorded one would and changes no level, now or later. */
  lemma UnrecordedLeavesNoTrace(actions: Actions, call: Call, k: Key, t: real)
    requires (k in actions ==> actions[k].rate > 0.0) && call.now <= t
    ensures Check(actions, call, false).allowed == Check(actions, call, true).allowed
    ensures Check(actions, call, false).retryAt == Check(actions, call, true).retryAt
    ensures StoredLevel(Check(actions, call, false).actions, k, t) == StoredLevel(actions, k, t)
  {
    PruningUnobservable(actions, k, call.now, t);
  }

  /** A bucket that does not leak has no time to try again. */
  lemma NoLeakNoRetry(actions: Actions, call: Call)
    requires call.rate <= 0.0
    ensures Check(actions, call, true).retryAt == -1.0
  {
  }

  lemma RecordedEntry(actions: Actions, call: Call)
    ensures call.key in Check(actions, call, true).actions
    ensures Check(actions, call, true).actions[call.key].rate == call.rate
    ensures Check(actions, call, true).retryAt
            == RetryAt(Check(actions, call, true).actions[call.key], call.now, call.burst)
  {
  }

  lemma OneMoreAllowed(actions: Actions, key: Key, burst: real, t: real)
    requires key in actions && actions[key].rate > 0.0 && burst >= 1.0
    ensures Check(actions, Call(key, t, actions[key].rate, burst, 1.0), true).allowed
            <==> actions[key].start + (actions[key].count - burst + 1.0) / actions[key].rate <= t
  {
    var entry := actions[key];
    CalledKey(actions, Call(key, t, entry.rate, burst, 1.0));
    FreeFrom(entry.start, entry.count - burst + 1.0, entry.rate, t);
    assert StoredLevel(actions, key, t) == Max(0.0, entry.count - Leaked(entry.rate, t - entry.start));
  }

  lemma RetryNotBefore(entry: Entry, now: real, burst: real, t: real)
    requires entry.rate > 0.0 && now <= t
    ensures now <= RetryAt(entry, now, burst)
    ensures RetryAt(entry, now, burst) <= t <==> entry.start + (entry.count - burst + 1.0) / entry.rate <= t
  {
  }

  lemma FreeFrom(start: real, over: real, rate: real, t: real)
    requires rate > 0.0
    ensures start + over / rate <= t <==> over <= Leaked(rate, t - start)
  {
    var wait := over / rate;
    assert wait * rate == over;
    assert (t - start - wait) * rate == (t - start) * rate - over;
    if wait <= t - start {
      assert (t - start - wait) * rate >= 0.0;
    } else {
      assert (t - start - wait) * rate < 0.0;
    }
  }
}
