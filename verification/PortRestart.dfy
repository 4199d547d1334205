/** A restart of the porter (synapse/_scripts/synapse_port_db.py) that loses what an earlier run has ported:
    an append-only table `a` refers to a table `b` that is emptied by every run.
 */
module PortRestart {
  import opened Wrappers
  import opened Porter
  import opened Sweep
  import opened PortOrder
  import opened PortSetup
  import opened PortSessions

  const ROW: Row := [Integer(7)]
  const SOURCE := Table(map[1 := ROW], ["n"], {})
  const SOURCES: map<Name, Table> := map["a" := SOURCE, "b" := Table(map[], [], {})]
  const REFERENCES: Constraints := map["a" := {"b"}]
  const APPEND_ONLY: set<Name> := {"a"}

  /** Nothing has been ported yet. */
  const EMPTY_SITE :=
    Site(SOURCES, World(map["a" := [], "b" := []], map[], map["a" := Waiting, "b" := Waiting]))

  /** A run that ports the row of `a` and is stopped, and one that is stopped after its set-ups. */
  const FIRST_RUN := Session(SOURCES, ["a", "a", "b", "b"], [("a", 1)])
  const SECOND_RUN := Session(SOURCES, ["a", "b", "b"], [])

  lemma RowConverts()
    ensures ConvertRow(SOURCE, ROW) == Some(ROW)
  {
    ConvertRowMeaning(SOURCE, ROW);
    assert !BooleanAt(SOURCE, 0) && ConvertRow(SOURCE, ROW).Some?;
    assert ConvertRow(SOURCE, ROW).value == ROW;
  }

  lemma {:induction false} BSetUp(w: World)
    requires w.stages == map["a" := Done, "b" := Waiting]
    ensures ValidRun(REFERENCES, APPEND_ONLY, w, ["b", "b"]) && Complete(After(REFERENCES, APPEND_ONLY, w, ["b", "b"]))
  {
    var steps := ["b", "b"];
    var v := Step(REFERENCES, APPEND_ONLY, w, "b");
    var u := Step(REFERENCES, APPEND_ONLY, v, "b");
    assert steps[1..] == ["b"] && steps[1..][1..] == [] && ["b"][1..] == [];
    assert ValidRun(REFERENCES, APPEND_ONLY, u, []);
    assert ValidRun(REFERENCES, APPEND_ONLY, v, ["b"]) && After(REFERENCES, APPEND_ONLY, v, ["b"]) == u;
    assert u.stages == map["a" := Done, "b" := Done];
  }

  lemma {:induction false} SetUpRecorded(w: World)
    requires w.stages == map["a" := Waiting, "b" := Waiting] && "a" in w.records
    ensures ValidRun(REFERENCES, APPEND_ONLY, w, ["a", "b", "b"])
    ensures Complete(After(REFERENCES, APPEND_ONLY, w, ["a", "b", "b"]))
  {
    assert ["a", "b", "b"][1..] == ["b", "b"];
    BSetUp(Step(REFERENCES, APPEND_ONLY, w, "a"));
  }

  lemma {:induction false} SetUpUnrecorded(w: World)
    requires w.stages == map["a" := Waiting, "b" := Waiting] && "a" !in w.records
    ensures ValidRun(REFERENCES, APPEND_ONLY, w, ["a", "a", "b", "b"])
    ensures Complete(After(REFERENCES, APPEND_ONLY, w, ["a", "a", "b", "b"]))
  {
    assert ["a", "a", "b", "b"][1..] == ["a", "b", "b"] && ["a", "b", "b"][1..] == ["b", "b"];
    var v := Step(REFERENCES, APPEND_ONLY, w, "a");
    BSetUp(Step(REFERENCES, APPEND_ONLY, v, "a"));
  }

  /** The first run ports the row. */
  lemma RowPorted(q: Progress)
    requires q == AfterBatch(SOURCE, 1, NOT_STARTED)
    ensures q.rows != [] && q.backward < q.forward
  {
    assert 1 in Remaining(SOURCE, NOT_STARTED) && Remaining(SOURCE, NOT_STARTED) == {1};
    BatchProgresses(SOURCE, 1, NOT_STARTED);
    BatchKeepsExcess(SOURCE, 1, NOT_STARTED, ROW);
    assert 1 !in Remaining(SOURCE, q);
    RowConverts();
    OnlyAt(SOURCE, q.backward + 1, 1, q.forward, ROW);
    assert Excess(SOURCE, NOT_STARTED, ROW) == 0;
  }

  lemma EmptySiteOk()
    ensures SiteOk(EMPTY_SITE) && Right(EMPTY_SITE, "a")
  {
    StartIsFaithful(SOURCE, []);
    assert ProgressOf(EMPTY_SITE.world, "a") == NOT_STARTED && ProgressOf(EMPTY_SITE.world, "b") == NOT_STARTED;
  }

  lemma FirstRunPossible()
    ensures SiteOk(EMPTY_SITE) && CanRun(REFERENCES, APPEND_ONLY, EMPTY_SITE, FIRST_RUN)
    ensures Complete(SetUpEnd(REFERENCES, APPEND_ONLY, EMPTY_SITE, FIRST_RUN))
  {
    EmptySiteOk();
    assert Restarted(EMPTY_SITE.world).stages == map["a" := Waiting, "b" := Waiting];
    SetUpUnrecorded(Restarted(EMPTY_SITE.world));
  }

  /** The batch of the first run, on whatever its set-ups have left. */
  lemma {:induction false} FirstBatch(end: World)
    requires SOURCES.Keys <= end.rows.Keys && ProgressOf(end, "a") == NOT_STARTED
    ensures var w := AfterBatches(SOURCES, end, FIRST_RUN.batches);
            "a" in w.rows && w.rows["a"] != [] && "a" in w.records && w.stages == end.stages
  {
    var batches := FIRST_RUN.batches;
    assert batches[1..] == [] && batches[0] == ("a", 1);
    assert AfterBatches(SOURCES, end, batches) == AfterBatchOn(SOURCES, end, "a", 1);
    RowPorted(AfterBatch(SOURCE, 1, NOT_STARTED));
  }

  lemma FirstRunPorts() returns (s: Site)
    ensures SiteOk(EMPTY_SITE) && CanRun(REFERENCES, APPEND_ONLY, EMPTY_SITE, FIRST_RUN)
    ensures s == AfterSession(REFERENCES, APPEND_ONLY, EMPTY_SITE, FIRST_RUN)
    ensures s.sources == SOURCES && s.world.stages.Keys == {"a", "b"}
    ensures "a" in s.world.rows && s.world.rows["a"] != [] && "a" in s.world.records
  {
    EmptySiteOk();
    FirstRunPossible();
    s := AfterSession(REFERENCES, APPEND_ONLY, EMPTY_SITE, FIRST_RUN);
    RunKeepsKeys(REFERENCES, APPEND_ONLY, Restarted(EMPTY_SITE.world), FIRST_RUN.setup);
    ResumedFrom(REFERENCES, APPEND_ONLY, EMPTY_SITE, FIRST_RUN, "a");
    FirstBatch(SetUpEnd(REFERENCES, APPEND_ONLY, EMPTY_SITE, FIRST_RUN));
  }

  lemma AIsEmptied()
    ensures IsEmptied(REFERENCES, APPEND_ONLY, SOURCES.Keys, "a")
  {
    assert IsChain(REFERENCES, ["a", "b"], "a", "b");
    assert Cascades(REFERENCES, "b", "a") && "b" in SOURCES.Keys;
  }

  lemma SecondRunPossible(s: Site)
    requires SiteOk(s) && s.sources == SOURCES && s.world.stages.Keys == {"a", "b"} && "a" in s.world.records
    ensures CanRun(REFERENCES, APPEND_ONLY, s, SECOND_RUN)
    ensures Complete(SetUpEnd(REFERENCES, APPEND_ONLY, s, SECOND_RUN))
  {
    assert Restarted(s.world).stages == map["a" := Waiting, "b" := Waiting];
    SetUpRecorded(Restarted(s.world));
  }

  /** A second run that empties a table with rows leaves it wrong. */
  lemma {:induction false} SecondRunHurts(c: Constraints, appendOnly: set<Name>, s: Site, x: Session, y: Session, t: Name)
    requires SiteOk(s) && CanRun(c, appendOnly, s, x) && t in s.sources && t in appendOnly && Right(s, t)
    requires Complete(SetUpEnd(c, appendOnly, s, x)) && SiteOk(AfterSession(c, appendOnly, s, x))
    requires CanRun(c, appendOnly, AfterSession(c, appendOnly, s, x), y)
    requires Complete(SetUpEnd(c, appendOnly, AfterSession(c, appendOnly, s, x), y))
    requires IsEmptied(c, appendOnly, s.sources.Keys, t) && AfterSession(c, appendOnly, s, x).world.rows[t] != []
    ensures CanRunAll(c, appendOnly, s, [x, y]) && !Right(AfterAll(c, appendOnly, s, [x, y]), t)
  {
    var next := AfterSession(c, appendOnly, s, x);
    assert [x, y][1..] == [y] && [y][1..] == [];
    SessionKeepsOk(c, appendOnly, next, y);
    assert CanRunAll(c, appendOnly, next, [y]) && AllComplete(c, appendOnly, next, [y]);
    assert !AlwaysEmpty(c, appendOnly, next, [y], t);
    RightIff(c, appendOnly, s, [x, y], t);
  }

  /** From an empty target: a run ports the row of `a` and is stopped; the set-ups of the next one empty `a`
      through `b`, and its record still says that the row has been ported. */
  lemma {:induction false} RestartLosesRows()
    ensures SiteOk(EMPTY_SITE) && Right(EMPTY_SITE, "a")
    ensures CanRunAll(REFERENCES, APPEND_ONLY, EMPTY_SITE, [FIRST_RUN, SECOND_RUN])
    ensures !Right(AfterAll(REFERENCES, APPEND_ONLY, EMPTY_SITE, [FIRST_RUN, SECOND_RUN]), "a")
  {
    EmptySiteOk();
    FirstRunPossible();
    var s := FirstRunPorts();
    SessionKeepsOk(REFERENCES, APPEND_ONLY, EMPTY_SITE, FIRST_RUN);
    SecondRunPossible(s);
    AIsEmptied();
    SecondRunHurts(REFERENCES, APPEND_ONLY, EMPTY_SITE, FIRST_RUN, SECOND_RUN, "a");
  }
}
