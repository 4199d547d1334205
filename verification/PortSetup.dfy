/** Setting up all tables for a run of the porter (synapse/_scripts/synapse_port_db.py). The set-ups of the
    tables run concurrently; the code between two awaits is one step. A table that is not append-only is
    emptied with TRUNCATE ... CASCADE, which in PostgreSQL also empties every table with a foreign key to
    it, and so on; the progress recorded for those other tables is not touched.
 */
module PortSetup {
  import opened Porter
  import opened Sweep
  import opened PortOrder

  datatype Marks = Marks(backward: int, forward: int)

  const START := Marks(0, 1)

  /** How far the set-up of a table has come: not begun, emptied but without a record, found to have no
      record, or finished. */
  datatype Stage = Waiting | Emptied | Unrecorded | Done

  /** The target tables, the progress recorded, and the tables being set up. */
  datatype World = World(rows: map<Name, seq<Row>>, records: map<Name, Marks>, stages: map<Name, Stage>)

  /** Emptying `u` with CASCADE empties `t` too. */
  ghost predicate Cascades(c: Constraints, u: Name, t: Name) {
    t == u || exists chain :: IsChain(c, chain, t, u)
  }

  ghost function Truncated(c: Constraints, rows: map<Name, seq<Row>>, u: Name): map<Name, seq<Row>> {
    map t | t in rows :: if Cascades(c, u, t) then [] else rows[t]
  }

  predicate CanStep(w: World, t: Name) {
    t in w.stages && w.stages[t] != Done
  }

  /** The next step of the set-up of one table. */
  ghost function Step(c: Constraints, appendOnly: set<Name>, w: World, t: Name): World
    requires CanStep(w, t)
  {
    if w.stages[t] != Waiting then
      w.(records := w.records[t := START], stages := w.stages[t := Done])
    else if t in appendOnly then
      w.(stages := w.stages[t := if t in w.records then Done else Unrecorded])
    else
      World(Truncated(c, w.rows, t), w.records - {t}, w.stages[t := Emptied])
  }

  /** Any interleaving: each entry names the table whose set-up moves on. */
  ghost predicate ValidRun(c: Constraints, appendOnly: set<Name>, w: World, steps: seq<Name>)
    decreases |steps|
  {
    steps == []
    || (CanStep(w, steps[0]) && ValidRun(c, appendOnly, Step(c, appendOnly, w, steps[0]), steps[1..]))
  }

  ghost function After(c: Constraints, appendOnly: set<Name>, w: World, steps: seq<Name>): World
    requires ValidRun(c, appendOnly, w, steps)
    decreases |steps|
  {
    if steps == [] then w else After(c, appendOnly, Step(c, appendOnly, w, steps[0]), steps[1..])
  }

  ghost predicate NotBegun(w: World) {
    forall t :: t in w.stages ==> w.stages[t] == Waiting
  }

  ghost predicate Complete(w: World) {
    forall t :: t in w.stages ==> w.stages[t] == Done
  }

  // ---------------------------------------------------------------------------------------------
  // What the steps so far have done to one table

  /** Some table whose set-up has begun is emptied and cascades into `t`. */
  ghost predicate HitBy(c: Constraints, appendOnly: set<Name>, w: World, t: Name, u: Name) {
    u in w.stages && w.stages[u] != Waiting && u !in appendOnly && Cascades(c, u, t)
  }

  ghost predicate Hit(c: Constraints, appendOnly: set<Name>, w: World, t: Name) {
    exists u :: HitBy(c, appendOnly, w, t, u)
  }

  /** Compared with the world before set-up: `t` is empty exactly if it has been hit, and else untouched;
      its record is as its own set-up has left it. */
  ghost predicate Tracks(c: Constraints, appendOnly: set<Name>, start: World, w: World, t: Name) {
    && t in start.rows && t in w.rows && t in w.stages && w.stages.Keys == start.stages.Keys
    && w.rows[t] == (if Hit(c, appendOnly, w, t) then [] else start.rows[t])
    && RecordTracks(appendOnly, start, w, t)
  }

  ghost predicate RecordTracks(appendOnly: set<Name>, start: World, w: World, t: Name)
    requires t in w.stages
  {
    var same := t in w.records <==> t in start.records;
    match w.stages[t]
    case Waiting => same && (t in w.records ==> w.records[t] == start.records[t])
    case Emptied => t !in appendOnly
    case Unrecorded => t in appendOnly && t !in start.records && t !in w.records
    case Done =>
      && t in w.records
      && w.records[t] == if t in appendOnly && t in start.records then start.records[t] else START
  }

  lemma {:induction false} StepTracks(c: Constraints, appendOnly: set<Name>, start: World, w: World, t: Name, s: Name)
    requires Tracks(c, appendOnly, start, w, t) && CanStep(w, s)
    ensures Tracks(c, appendOnly, start, Step(c, appendOnly, w, s), t)
  {
    var next := Step(c, appendOnly, w, s);
    HitsGrow(c, appendOnly, w, t, s);
  }

  lemma {:induction false} HitsGrow(c: Constraints, appendOnly: set<Name>, w: World, t: Name, s: Name)
    requires CanStep(w, s)
    ensures Hit(c, appendOnly, Step(c, appendOnly, w, s), t)
            <==> Hit(c, appendOnly, w, t) || (w.stages[s] == Waiting && s !in appendOnly && Cascades(c, s, t))
  {
    var next := Step(c, appendOnly, w, s);
    if u :| HitBy(c, appendOnly, w, t, u) { assert HitBy(c, appendOnly, next, t, u); }
    if w.stages[s] == Waiting && s !in appendOnly && Cascades(c, s, t) { assert HitBy(c, appendOnly, next, t, s); }
    if u :| HitBy(c, appendOnly, next, t, u) {
      assert (u == s && w.stages[s] == Waiting) || HitBy(c, appendOnly, w, t, u);
    }
  }

  lemma {:induction false} RunTracks(c: Constraints, appendOnly: set<Name>, start: World, w: World, steps: seq<Name>,
                                     t: Name)
    requires Tracks(c, appendOnly, start, w, t) && ValidRun(c, appendOnly, w, steps)
    ensures Tracks(c, appendOnly, start, After(c, appendOnly, w, steps), t)
    decreases |steps|
  {
    if steps != [] {
      StepTracks(c, appendOnly, start, w, t, steps[0]);
      RunTracks(c, appendOnly, start, Step(c, appendOnly, w, steps[0]), steps[1..], t);
    }
  }

  // ---------------------------------------------------------------------------------------------
  // The outcome

  /** Some table being set up is emptied and cascades into `t`. */
  ghost predicate IsEmptied(c: Constraints, appendOnly: set<Name>, tables: set<Name>, t: Name) {
    exists u :: u in tables && u !in appendOnly && Cascades(c, u, t)
  }

  /** What the sweep of a table starts from. */
  function ProgressOf(w: World, t: Name): Progress
    requires t in w.rows
  {
    var marks := if t in w.records then w.records[t] else START;
    Progress(marks.backward, marks.forward, w.rows[t])
  }

  /** However the set-ups interleave, a table that is not append-only starts afresh, and an append-only one
      resumes from its record, with its rows gone if a table that is emptied cascades into it. */
  lemma {:induction false} SetUpOutcome(c: Constraints, appendOnly: set<Name>, w: World, steps: seq<Name>, t: Name)
    requires NotBegun(w) && ValidRun(c, appendOnly, w, steps) && Complete(After(c, appendOnly, w, steps))
    requires t in w.stages && t in w.rows
    ensures t in After(c, appendOnly, w, steps).rows
    ensures ProgressOf(After(c, appendOnly, w, steps), t)
            == if t !in appendOnly then NOT_STARTED
               else if IsEmptied(c, appendOnly, w.stages.Keys, t) then ProgressOf(w, t).(rows := [])
               else ProgressOf(w, t)
  {
    var end := After(c, appendOnly, w, steps);
    assert !Hit(c, appendOnly, w, t);
    RunTracks(c, appendOnly, w, w, steps, t);
    HitAtTheEnd(c, appendOnly, w, end, t);
    if t !in appendOnly { assert Cascades(c, t, t); }
  }

  /** However far the set-ups have come, an append-only table is where it was, with its rows gone if a
      table emptied so far cascades into it. */
  lemma {:induction false} SetUpSoFar(c: Constraints, appendOnly: set<Name>, w: World, steps: seq<Name>, t: Name)
    requires NotBegun(w) && ValidRun(c, appendOnly, w, steps)
    requires t in appendOnly && t in w.stages && t in w.rows
    ensures t in After(c, appendOnly, w, steps).rows
    ensures ProgressOf(After(c, appendOnly, w, steps), t)
            == if Hit(c, appendOnly, After(c, appendOnly, w, steps), t) then ProgressOf(w, t).(rows := [])
               else ProgressOf(w, t)
  {
    assert !Hit(c, appendOnly, w, t);
    RunTracks(c, appendOnly, w, w, steps, t);
  }

  lemma {:induction false} HitAtTheEnd(c: Constraints, appendOnly: set<Name>, w: World, end: World, t: Name)
    requires Complete(end) && end.stages.Keys == w.stages.Keys
    ensures Hit(c, appendOnly, end, t) <==> IsEmptied(c, appendOnly, w.stages.Keys, t)
  {
    if u :| HitBy(c, appendOnly, end, t, u) { assert u in w.stages.Keys; }
    if u :| u in w.stages.Keys && u !in appendOnly && Cascades(c, u, t) { assert HitBy(c, appendOnly, end, t, u); }
  }

  /** However the set-ups of one run interleave: if the record of a table was right before, it is right after
      if and only if the table starts afresh, has no rows, or no emptied table cascades into it; a table
      without a record is right after if and only if it starts afresh, has no rows, or is emptied. */
  lemma SetUpFaithfulIff(c: Constraints, appendOnly: set<Name>, w: World, steps: seq<Name>, t: Name, source: Table)
    requires NotBegun(w) && ValidRun(c, appendOnly, w, steps) && Complete(After(c, appendOnly, w, steps))
    requires t in w.stages && t in w.rows && (t in w.records ==> Faithful(source, ProgressOf(w, t)))
    ensures t in After(c, appendOnly, w, steps).rows
    ensures Faithful(source, ProgressOf(After(c, appendOnly, w, steps), t))
            <==> || t !in appendOnly
                 || w.rows[t] == []
                 || (t in w.records <==> !IsEmptied(c, appendOnly, w.stages.Keys, t))
  {
    SetUpOutcome(c, appendOnly, w, steps, t);
    StartIsFaithful(source, ProgressOf(After(c, appendOnly, w, steps), t).rows);
    if t in w.records { EmptiedIsFaithful(source, ProgressOf(w, t)); }
  }

  /** From the start marks a target is faithful exactly if it is empty. */
  lemma StartIsFaithful(source: Table, rows: seq<Row>)
    ensures Faithful(source, NOT_STARTED.(rows := rows)) <==> rows == []
  {
    if rows != [] {
      var last := rows[|rows| - 1];
      assert Excess(source, NOT_STARTED.(rows := rows), last) > 0;
    }
  }

  /** A faithful target that is emptied under its marks stays faithful exactly if it was empty. */
  lemma EmptiedIsFaithful(source: Table, p: Progress)
    requires Faithful(source, p)
    ensures Faithful(source, p.(rows := [])) <==> p.rows == []
  {
    if p.rows != [] {
      var last := p.rows[|p.rows| - 1];
      assert Excess(source, p, last) == 0 && Copies(p.rows, last) > 0;
      assert Excess(source, p.(rows := []), last) < 0;
    }
  }
}
