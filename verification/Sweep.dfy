/** The sweep of the SQLite-to-PostgreSQL porter (synapse/_scripts/synapse_port_db.py): one table is ported
    in two directions, batch by batch, and the port can be stopped and resumed.
 */
module Sweep {
  import opened Porter

  /** The target table and the progress recorded with it: rows with rowids strictly between `backward`
      and `forward` have been ported. */
  datatype Progress = Progress(backward: int, forward: int, rows: seq<Row>)

  const NOT_STARTED := Progress(0, 1, [])

  /** The target holds exactly one converted copy of each row in the swept interval: every row occurs as
      often as it results from the rowids of the interval. */
  ghost predicate Faithful(t: Table, p: Progress) {
    p.backward < p.forward && forall row :: Excess(t, p, row) == 0
  }

  /** How many copies of a row the target has too many, or too few. */
  function Excess(t: Table, p: Progress, row: Row): int {
    Copies(p.rows, row) - CopiesWithin(t, p.backward + 1, p.forward, row)
  }

  ghost predicate Finished(t: Table, p: Progress) {
    forall id :: id in t.rows ==> p.backward < id < p.forward
  }

  function NextForward(t: Table, limit: nat, forward: int): int {
    var fs := Ascending(t.rows.Keys, forward, limit);
    if fs == [] then forward else MaxOf(fs) + 1
  }

  function NextBackward(t: Table, limit: nat, backward: int): int {
    var bs := Descending(t.rows.Keys, backward, limit);
    if bs == [] then backward else MinOf(bs) - 1
  }

  /** The rows a batch inserts: those selected upwards, then those selected downwards, converted. */
  function BatchRows(t: Table, limit: nat, p: Progress): seq<Row> {
    Converted(t, Fetched(t, Ascending(t.rows.Keys, p.forward, limit) + Descending(t.rows.Keys, p.backward, limit)))
  }

  /** One transaction: a batch in each direction is inserted and the progress moved past both. */
  function AfterBatch(t: Table, limit: nat, p: Progress): Progress {
    Progress(NextBackward(t, limit, p.backward), NextForward(t, limit, p.forward), p.rows + BatchRows(t, limit, p))
  }

  lemma {:induction false} ForwardPart(t: Table, limit: nat, forward: int, row: Row)
    ensures forward <= NextForward(t, limit, forward)
    ensures CopiesOf(t, Ascending(t.rows.Keys, forward, limit), row)
            == CopiesWithin(t, forward, NextForward(t, limit, forward), row)
  {
    var fs := Ascending(t.rows.Keys, forward, limit);
    if fs != [] { ForwardBatch(t, forward, limit, MaxOf(fs), row); }
  }

  lemma {:induction false} BackwardPart(t: Table, limit: nat, backward: int, row: Row)
    ensures NextBackward(t, limit, backward) <= backward
    ensures CopiesOf(t, Descending(t.rows.Keys, backward, limit), row)
            == CopiesWithin(t, NextBackward(t, limit, backward) + 1, backward + 1, row)
  {
    var bs := Descending(t.rows.Keys, backward, limit);
    if bs != [] { BackwardBatch(t, backward, limit, MinOf(bs), row); }
  }

  /** A batch inserts exactly the rows of the two strips by which it widens the swept interval. */
  lemma {:induction false} BatchIsTwoStrips(t: Table, limit: nat, p: Progress, row: Row)
    ensures NextBackward(t, limit, p.backward) <= p.backward && p.forward <= NextForward(t, limit, p.forward)
    ensures Copies(BatchRows(t, limit, p), row)
            == CopiesWithin(t, p.forward, NextForward(t, limit, p.forward), row)
               + CopiesWithin(t, NextBackward(t, limit, p.backward) + 1, p.backward + 1, row)
  {
    var fs, bs := Ascending(t.rows.Keys, p.forward, limit), Descending(t.rows.Keys, p.backward, limit);
    ForwardPart(t, limit, p.forward, row);
    BackwardPart(t, limit, p.backward, row);
    FetchedCopies(t, fs + bs, row);
    CopiesOfAppend(t, fs, bs, row);
  }

  lemma {:induction false} BatchKeepsExcess(t: Table, limit: nat, p: Progress, row: Row)
    requires p.backward < p.forward
    ensures AfterBatch(t, limit, p).backward <= p.backward && p.forward <= AfterBatch(t, limit, p).forward
    ensures Excess(t, AfterBatch(t, limit, p), row) == Excess(t, p, row)
  {
    var q := AfterBatch(t, limit, p);
    BatchIsTwoStrips(t, limit, p, row);
    CopiesAppend(p.rows, BatchRows(t, limit, p), row);
    WithinSplits(t, q.backward + 1, p.backward + 1, q.forward, row);
    WithinSplits(t, p.backward + 1, p.forward, q.forward, row);
  }

  /** A batch keeps a faithful target faithful and does not mend an unfaithful one. */
  lemma BatchKeepsFaithful(t: Table, limit: nat, p: Progress)
    requires p.backward < p.forward
    ensures AfterBatch(t, limit, p).backward < AfterBatch(t, limit, p).forward
    ensures Faithful(t, AfterBatch(t, limit, p)) <==> Faithful(t, p)
  {
    BatchKeepsExcess(t, limit, p, []);
    forall row ensures Excess(t, AfterBatch(t, limit, p), row) == Excess(t, p, row) {
      BatchKeepsExcess(t, limit, p, row);
    }
  }

  /** The rowids still to be swept. */
  function Remaining(t: Table, p: Progress): set<int> {
    set id | id in t.rows && (id >= p.forward || id <= p.backward)
  }

  lemma NothingRemains(t: Table, limit: nat, p: Progress)
    requires p.backward < p.forward && limit >= 1
    ensures Ascending(t.rows.Keys, p.forward, limit) == [] && Descending(t.rows.Keys, p.backward, limit) == []
            <==> Remaining(t, p) == {}
    ensures Remaining(t, p) == {} <==> Finished(t, p)
  {
    if id :| id in Remaining(t, p) {
      assert AnyFrom(t.rows.Keys, p.forward) || AnyTo(t.rows.Keys, p.backward);
    } else {
      assert forall id :: id in t.rows ==> id !in Remaining(t, p);
    }
  }

  lemma BatchProgresses(t: Table, limit: nat, p: Progress)
    requires p.backward < p.forward && limit >= 1 && Remaining(t, p) != {}
    ensures Remaining(t, AfterBatch(t, limit, p)) < Remaining(t, p)
  {
    BatchKeepsExcess(t, limit, p, []);
    NothingRemains(t, limit, p);
    var swept := SomeSwept(t, limit, p);
    assert swept in Remaining(t, p) && swept !in Remaining(t, AfterBatch(t, limit, p));
  }

  lemma SomeSwept(t: Table, limit: nat, p: Progress) returns (id: int)
    requires p.backward < p.forward
    requires Ascending(t.rows.Keys, p.forward, limit) != [] || Descending(t.rows.Keys, p.backward, limit) != []
    ensures id in Remaining(t, p)
    ensures NextBackward(t, limit, p.backward) < id < NextForward(t, limit, p.forward)
  {
    var fs, bs := Ascending(t.rows.Keys, p.forward, limit), Descending(t.rows.Keys, p.backward, limit);
    AscendingIsFrom(t.rows.Keys, p.forward, limit);
    DescendingIsTo(t.rows.Keys, p.backward, limit);
    if fs != [] {
      id := MaxOf(fs);
      assert bs != [] ==> MinOf(bs) in bs;
    } else {
      id := MinOf(bs);
    }
  }

  /** The progress after sweeping all that is left, batch by batch. */
  function Swept(t: Table, limit: nat, p: Progress): Progress
    requires limit >= 1 && p.backward < p.forward
    decreases Remaining(t, p)
  {
    if Remaining(t, p) == {} then p
    else
      BatchKeepsExcess(t, limit, p, []);
      BatchProgresses(t, limit, p);
      Swept(t, limit, AfterBatch(t, limit, p))
  }

  /** A sweep reaches every row, and leaves of each row as many copies too many or too few as it found. */
  lemma {:induction false} SweptIsFinished(t: Table, limit: nat, p: Progress, row: Row)
    requires limit >= 1 && p.backward < p.forward
    ensures var q := Swept(t, limit, p);
            q.backward < q.forward && Finished(t, q) && Excess(t, q, row) == Excess(t, p, row)
    decreases Remaining(t, p)
  {
    NothingRemains(t, limit, p);
    if Remaining(t, p) != {} {
      BatchKeepsExcess(t, limit, p, []);
      BatchKeepsExcess(t, limit, p, row);
      BatchProgresses(t, limit, p);
      SweptIsFinished(t, limit, AfterBatch(t, limit, p), row);
    }
  }

  lemma SweptIsFaithful(t: Table, limit: nat, p: Progress)
    requires limit >= 1 && p.backward < p.forward
    ensures Finished(t, Swept(t, limit, p))
    ensures Faithful(t, Swept(t, limit, p)) <==> Faithful(t, p)
  {
    SweptIsFinished(t, limit, p, []);
    forall row ensures Excess(t, Swept(t, limit, p), row) == Excess(t, p, row) { SweptIsFinished(t, limit, p, row); }
  }

  class Target {
    var rows: seq<Row>
    var backward: int
    var forward: int

    function Now(): Progress
      reads this
    {
      Progress(backward, forward, rows)
    }

    constructor (p: Progress)
      ensures Now() == p
    {
      rows, backward, forward := p.rows, p.backward, p.forward;
    }

    /** Prepares a table for a run: a table that is only ever appended to carries on from the progress
        recorded for it, or from the start with whatever it holds; any other is emptied and started
        afresh. */
    method SetUp(appendOnly: bool, recorded: bool)
      modifies this
      ensures appendOnly && recorded ==> Now() == old(Now())
      ensures appendOnly && !recorded ==> Now() == NOT_STARTED.(rows := old(rows))
      ensures !appendOnly ==> Now() == NOT_STARTED
    {
      if appendOnly {
        if !recorded { backward, forward := 0, 1; }
      } else {
        rows := [];
        backward, forward := 0, 1;
      }
    }

    /** Sweeps what is left of a table. `tableSize` is a count of the rows to be swept and of those in the
        target, taken when the table was set up. */
    method HandleTable(t: Table, limit: nat, tableSize: nat)
      requires limit >= 1 && backward < forward
      requires tableSize == 0 ==> Remaining(t, Now()) == {}
      modifies this
      ensures Now() == Swept(t, limit, old(Now()))
    {
      if tableSize == 0 { return; }
      var doForward, doBackward := true, true;
      while true
        invariant backward < forward && Swept(t, limit, Now()) == Swept(t, limit, old(Now()))
        invariant !doForward ==> Ascending(t.rows.Keys, forward, limit) == []
        invariant !doBackward ==> Descending(t.rows.Keys, backward, limit) == []
        decreases Remaining(t, Now())
      {
        NothingRemains(t, limit, Now());
        var fs, bs: seq<int> := [], [];
        if doForward {
          fs := Ascending(t.rows.Keys, forward, limit);
          if fs == [] { doForward := false; }
        }
        if doBackward {
          bs := Descending(t.rows.Keys, backward, limit);
          if bs == [] { doBackward := false; }
        }
        if fs == [] && bs == [] { return; }
        NoMoreOneWay(t, limit, Now());
        BatchKeepsExcess(t, limit, Now(), []);
        BatchProgresses(t, limit, Now());
        Commit(t, limit, fs, bs);
      }
    }

    /** Inserts the rows of a batch and records the progress, in one transaction. */
    method Commit(t: Table, limit: nat, fs: seq<int>, bs: seq<int>)
      requires fs == Ascending(t.rows.Keys, forward, limit) && bs == Descending(t.rows.Keys, backward, limit)
      modifies this
      ensures Now() == AfterBatch(t, limit, old(Now()))
    {
      SelectedExist(t, limit, Now());
      var converted := ConvertSelected(t, fs, bs);
      if fs != [] { forward := MaxOf(fs) + 1; }
      if bs != [] { backward := MinOf(bs) - 1; }
      rows := rows + converted;
    }

    /** The rows of a forward and a backward batch, fetched and converted. */
    method ConvertSelected(t: Table, fs: seq<int>, bs: seq<int>) returns (out: seq<Row>)
      requires Exist(t, fs + bs)
      ensures out == Converted(t, Fetched(t, fs + bs))
    {
      var ids := fs + bs;
      var rows: seq<Row> := [];
      for i := 0 to |ids|
        invariant rows == Fetched(t, ids[..i])
      {
        assert ids[i] in ids;
        FetchedSnoc(t, ids[..i], ids[i]);
        assert ids[..i + 1] == ids[..i] + [ids[i]];
        rows := rows + [t.rows[ids[i]]];
      }
      assert ids[..|ids|] == ids;
      out := ConvertRows(t, rows);
    }
  }

  predicate Exist(t: Table, ids: seq<int>) {
    forall id :: id in ids ==> id in t.rows
  }

  lemma SelectedExist(t: Table, limit: nat, p: Progress)
    ensures Exist(t, Ascending(t.rows.Keys, p.forward, limit) + Descending(t.rows.Keys, p.backward, limit))
  {
    AscendingIsFrom(t.rows.Keys, p.forward, limit);
    DescendingIsTo(t.rows.Keys, p.backward, limit);
  }

  /** A direction in which nothing is left stays so. */
  lemma NoMoreOneWay(t: Table, limit: nat, p: Progress)
    ensures Ascending(t.rows.Keys, p.forward, limit) == [] ==> AfterBatch(t, limit, p).forward == p.forward
    ensures Descending(t.rows.Keys, p.backward, limit) == [] ==> AfterBatch(t, limit, p).backward == p.backward
  {
  }

  // ---------------------------------------------------------------------------------------------
  // A source that grows

  /** The source has only gained rows, and none with a rowid that has been swept. */
  ghost predicate GrownOutside(t: Table, grown: Table, p: Progress) {
    && grown.headers == t.headers && grown.booleans == t.booleans
    && (forall id :: id in t.rows ==> id in grown.rows && grown.rows[id] == t.rows[id])
    && (forall id :: id in grown.rows && id !in t.rows ==> id <= p.backward || p.forward <= id)
  }

  lemma {:induction false} SameConversion(t: Table, grown: Table, row: Row)
    requires grown.headers == t.headers && grown.booleans == t.booleans
    ensures ConvertRow(grown, row) == ConvertRow(t, row)
    decreases |row|
  {
    if row != [] { SameConversion(t, grown, row[..|row| - 1]); }
  }

  lemma {:induction false} SweptUnchanged(t: Table, grown: Table, p: Progress, lo: int, hi: int, row: Row)
    requires GrownOutside(t, grown, p) && p.backward < lo && hi <= p.forward
    ensures CopiesWithin(grown, lo, hi, row) == CopiesWithin(t, lo, hi, row)
    decreases hi - lo
  {
    if lo < hi {
      SweptUnchanged(t, grown, p, lo + 1, hi, row);
      if lo in t.rows { SameConversion(t, grown, t.rows[lo]); }
    }
  }

  /** Growth of the source leaves the target as far off as it was. */
  lemma {:induction false} GrowthKeepsExcess(t: Table, grown: Table, p: Progress, rows: seq<Row>, row: Row)
    requires GrownOutside(t, grown, p)
    ensures Excess(grown, p.(rows := rows), row) == Excess(t, p.(rows := rows), row)
  {
    SweptUnchanged(t, grown, p, p.backward + 1, p.forward, row);
  }

  /** Once every row is swept, any wider range of rowids holds nothing more: of each row the target has as
      many copies as the whole table, converted. */
  lemma FinishedIsWhole(t: Table, p: Progress, lo: int, hi: int, row: Row)
    requires Faithful(t, p) && Finished(t, p) && lo <= p.backward + 1 && p.forward <= hi
    ensures multiset(p.rows)[row] == CopiesWithin(t, lo, hi, row)
  {
    CopiesIsMultiplicity(p.rows, row);
    assert Excess(t, p, row) == 0;
    WithinSplits(t, lo, p.backward + 1, hi, row);
    WithinSplits(t, p.backward + 1, p.forward, hi, row);
    NothingWithin(t, lo, p.backward + 1, row);
    NothingWithin(t, p.forward, hi, row);
  }
}
