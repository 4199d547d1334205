/** Any number of runs of the porter (synapse/_scripts/synapse_port_db.py), each stopped at some point. Every
    run sets all tables up again, from the rows and records the earlier ones have left, and then commits
    batches; it may be stopped during either.
 */
module PortSessions {
  import opened Porter
  import opened Sweep
  import opened PortOrder
  import opened PortSetup

  /** The source tables and the target. */
  datatype Site = Site(sources: map<Name, Table>, world: World)

  /** One run: the source as it is by then, the interleaved set-ups, and the batches committed, each for a
      table and with a limit. */
  datatype Session = Session(sources: map<Name, Table>, setup: seq<Name>, batches: seq<(Name, nat)>)

  ghost predicate SiteOk(s: Site) {
    && s.sources.Keys == s.world.stages.Keys && s.sources.Keys <= s.world.rows.Keys
    && forall t :: t in s.sources ==> ProgressOf(s.world, t).backward < ProgressOf(s.world, t).forward
  }

  /** All set-ups are yet to begin. */
  function Restarted(w: World): World {
    w.(stages := map t | t in w.stages :: Waiting)
  }

  function AfterBatchOn(sources: map<Name, Table>, w: World, t: Name, limit: nat): World
    requires t in sources && t in w.rows
  {
    var q := AfterBatch(sources[t], limit, ProgressOf(w, t));
    w.(rows := w.rows[t := q.rows], records := w.records[t := Marks(q.backward, q.forward)])
  }

  function AfterBatches(sources: map<Name, Table>, w: World, batches: seq<(Name, nat)>): World
    requires sources.Keys <= w.rows.Keys && forall b :: b in batches ==> b.0 in sources
    decreases |batches|
  {
    if batches == [] then w
    else
      assert batches[0] in batches;
      AfterBatches(sources, AfterBatchOn(sources, w, batches[0].0, batches[0].1), batches[1..])
  }

  /** A run from a site. The source of an append-only table has only gained rows that were not swept, that
      of any other table may have changed in any way. Batches follow a complete set-up only. */
  ghost predicate CanRun(c: Constraints, appendOnly: set<Name>, s: Site, x: Session) {
    && x.sources.Keys == s.sources.Keys
    && (forall t :: t in s.sources && t in appendOnly && t in s.world.rows ==>
                      GrownOutside(s.sources[t], x.sources[t], ProgressOf(s.world, t)))
    && ValidRun(c, appendOnly, Restarted(s.world), x.setup)
    && (x.batches == [] || Complete(SetUpEnd(c, appendOnly, s, x)))
    && (forall b :: b in x.batches ==> b.0 in x.sources)
  }

  ghost function SetUpEnd(c: Constraints, appendOnly: set<Name>, s: Site, x: Session): World
    requires ValidRun(c, appendOnly, Restarted(s.world), x.setup)
  {
    After(c, appendOnly, Restarted(s.world), x.setup)
  }

  ghost function AfterSession(c: Constraints, appendOnly: set<Name>, s: Site, x: Session): Site
    requires SiteOk(s) && CanRun(c, appendOnly, s, x)
  {
    RunKeepsKeys(c, appendOnly, Restarted(s.world), x.setup);
    Site(x.sources, AfterBatches(x.sources, SetUpEnd(c, appendOnly, s, x), x.batches))
  }

  lemma {:induction false} RunKeepsKeys(c: Constraints, appendOnly: set<Name>, w: World, steps: seq<Name>)
    requires ValidRun(c, appendOnly, w, steps)
    ensures After(c, appendOnly, w, steps).rows.Keys == w.rows.Keys
    ensures After(c, appendOnly, w, steps).stages.Keys == w.stages.Keys
    decreases |steps|
  {
    if steps != [] { RunKeepsKeys(c, appendOnly, Step(c, appendOnly, w, steps[0]), steps[1..]); }
  }

  // ---------------------------------------------------------------------------------------------
  // What one run does to one table

  /** Batches widen the swept interval and keep how far the target is off. */
  lemma {:induction false} BatchesKeepExcess(sources: map<Name, Table>, w: World, batches: seq<(Name, nat)>, t: Name,
                                             row: Row)
    requires sources.Keys <= w.rows.Keys && (forall b :: b in batches ==> b.0 in sources) && t in sources
    requires ProgressOf(w, t).backward < ProgressOf(w, t).forward
    ensures AfterBatches(sources, w, batches).rows.Keys == w.rows.Keys
    ensures AfterBatches(sources, w, batches).stages == w.stages
    ensures var p, q := ProgressOf(w, t), ProgressOf(AfterBatches(sources, w, batches), t);
            q.backward <= p.backward && p.forward <= q.forward && Excess(sources[t], q, row) == Excess(sources[t], p, row)
    decreases |batches|
  {
    if batches != [] {
      var (u, limit) := batches[0];
      assert batches[0] in batches;
      var next := AfterBatchOn(sources, w, u, limit);
      assert t == u ==> ProgressOf(next, t) == AfterBatch(sources[t], limit, ProgressOf(w, t));
      if t == u { BatchKeepsExcess(sources[t], limit, ProgressOf(w, t), row); }
      BatchesKeepExcess(sources, next, batches[1..], t, row);
    }
  }

  /** The run empties the table through some other. */
  ghost predicate Hits(c: Constraints, appendOnly: set<Name>, s: Site, x: Session, t: Name)
    requires CanRun(c, appendOnly, s, x)
  {
    Hit(c, appendOnly, SetUpEnd(c, appendOnly, s, x), t)
  }

  /** What the run makes of an append-only table before its batches. */
  ghost function Resumed(c: Constraints, appendOnly: set<Name>, s: Site, x: Session, t: Name): Progress
    requires CanRun(c, appendOnly, s, x) && t in s.world.rows
  {
    if Hits(c, appendOnly, s, x, t) then ProgressOf(s.world, t).(rows := []) else ProgressOf(s.world, t)
  }

  lemma {:induction false} ResumedFrom(c: Constraints, appendOnly: set<Name>, s: Site, x: Session, t: Name)
    requires SiteOk(s) && CanRun(c, appendOnly, s, x) && t in s.sources && t in appendOnly
    ensures t in SetUpEnd(c, appendOnly, s, x).rows
    ensures ProgressOf(SetUpEnd(c, appendOnly, s, x), t) == Resumed(c, appendOnly, s, x, t)
  {
    assert ProgressOf(Restarted(s.world), t) == ProgressOf(s.world, t);
    SetUpSoFar(c, appendOnly, Restarted(s.world), x.setup, t);
  }

  /** A run keeps how far an append-only table is off, from what its set-up has made of the table. */
  lemma {:induction false} SessionExcess(c: Constraints, appendOnly: set<Name>, s: Site, x: Session, t: Name, row: Row)
    requires SiteOk(s) && CanRun(c, appendOnly, s, x) && t in s.sources && t in appendOnly
    ensures t in AfterSession(c, appendOnly, s, x).world.rows
    ensures var q := ProgressOf(AfterSession(c, appendOnly, s, x).world, t);
            && q.backward < q.forward
            && Excess(x.sources[t], q, row) == Excess(s.sources[t], Resumed(c, appendOnly, s, x, t), row)
  {
    var p := Resumed(c, appendOnly, s, x, t);
    RunKeepsKeys(c, appendOnly, Restarted(s.world), x.setup);
    ResumedFrom(c, appendOnly, s, x, t);
    GrowthKeepsExcess(s.sources[t], x.sources[t], ProgressOf(s.world, t), p.rows, row);
    BatchesKeepExcess(x.sources, SetUpEnd(c, appendOnly, s, x), x.batches, t, row);
  }

  /** A table that is not append-only is right after every run whose set-up is complete. */
  lemma FreshAfterSession(c: Constraints, appendOnly: set<Name>, s: Site, x: Session, t: Name)
    requires SiteOk(s) && CanRun(c, appendOnly, s, x) && t in s.sources && t !in appendOnly
    requires Complete(SetUpEnd(c, appendOnly, s, x))
    ensures t in AfterSession(c, appendOnly, s, x).world.rows
    ensures Faithful(x.sources[t], ProgressOf(AfterSession(c, appendOnly, s, x).world, t))
  {
    var w, end := Restarted(s.world), SetUpEnd(c, appendOnly, s, x);
    RunKeepsKeys(c, appendOnly, w, x.setup);
    SetUpOutcome(c, appendOnly, w, x.setup, t);
    BatchesKeepExcess(x.sources, end, x.batches, t, []);
    StartIsFaithful(x.sources[t], []);
    forall row ensures Excess(x.sources[t], ProgressOf(AfterSession(c, appendOnly, s, x).world, t), row) == 0 {
      assert Excess(x.sources[t], NOT_STARTED, row) == 0;
      BatchesKeepExcess(x.sources, end, x.batches, t, row);
    }
  }

  lemma {:induction false} SessionKeepsOk(c: Constraints, appendOnly: set<Name>, s: Site, x: Session)
    requires SiteOk(s) && CanRun(c, appendOnly, s, x)
    ensures SiteOk(AfterSession(c, appendOnly, s, x))
  {
    var w, end := Restarted(s.world), SetUpEnd(c, appendOnly, s, x);
    RunKeepsKeys(c, appendOnly, w, x.setup);
    forall t | t in x.sources ensures ProgressOf(end, t).backward < ProgressOf(end, t).forward {
      assert ProgressOf(w, t) == ProgressOf(s.world, t);
      RunKeepsOrder(c, appendOnly, w, x.setup, t);
    }
    BatchesKeepKeys(x.sources, end, x.batches);
    forall t | t in x.sources
      ensures ProgressOf(AfterBatches(x.sources, end, x.batches), t).backward
              < ProgressOf(AfterBatches(x.sources, end, x.batches), t).forward
    {
      BatchesKeepExcess(x.sources, end, x.batches, t, []);
    }
  }

  lemma {:induction false} BatchesKeepKeys(sources: map<Name, Table>, w: World, batches: seq<(Name, nat)>)
    requires sources.Keys <= w.rows.Keys && forall b :: b in batches ==> b.0 in sources
    ensures AfterBatches(sources, w, batches).rows.Keys == w.rows.Keys
    ensures AfterBatches(sources, w, batches).stages == w.stages
    decreases |batches|
  {
    if batches != [] {
      assert batches[0] in batches;
      BatchesKeepKeys(sources, AfterBatchOn(sources, w, batches[0].0, batches[0].1), batches[1..]);
    }
  }

  lemma {:induction false} RunKeepsOrder(c: Constraints, appendOnly: set<Name>, w: World, steps: seq<Name>, t: Name)
    requires ValidRun(c, appendOnly, w, steps) && t in w.rows
    requires ProgressOf(w, t).backward < ProgressOf(w, t).forward
    ensures t in After(c, appendOnly, w, steps).rows
    ensures var q := ProgressOf(After(c, appendOnly, w, steps), t); q.backward < q.forward
    decreases |steps|
  {
    if steps != [] { RunKeepsOrder(c, appendOnly, Step(c, appendOnly, w, steps[0]), steps[1..], t); }
  }

  // ---------------------------------------------------------------------------------------------
  // Any number of runs

  ghost predicate CanRunAll(c: Constraints, appendOnly: set<Name>, s: Site, xs: seq<Session>)
    requires SiteOk(s)
    decreases |xs|
  {
    xs == []
    || (&& CanRun(c, appendOnly, s, xs[0])
        && (SessionKeepsOk(c, appendOnly, s, xs[0]);
            CanRunAll(c, appendOnly, AfterSession(c, appendOnly, s, xs[0]), xs[1..])))
  }

  ghost function AfterAll(c: Constraints, appendOnly: set<Name>, s: Site, xs: seq<Session>): (r: Site)
    requires SiteOk(s) && CanRunAll(c, appendOnly, s, xs)
    ensures SiteOk(r) && r.sources.Keys == s.sources.Keys
    decreases |xs|
  {
    if xs == [] then s
    else
      SessionKeepsOk(c, appendOnly, s, xs[0]);
      AfterAll(c, appendOnly, AfterSession(c, appendOnly, s, xs[0]), xs[1..])
  }

  ghost predicate Right(s: Site, t: Name)
    requires SiteOk(s) && t in s.sources
  {
    Faithful(s.sources[t], ProgressOf(s.world, t))
  }

  /** Emptied, the table would be right: nothing of what has been swept was to be ported. */
  ghost predicate RightEmptied(s: Site, t: Name)
    requires SiteOk(s) && t in s.sources
  {
    Faithful(s.sources[t], ProgressOf(s.world, t).(rows := []))
  }

  lemma EquallyFaithful(t: Table, p: Progress, u: Table, q: Progress)
    requires p.backward < p.forward && q.backward < q.forward
    requires forall row :: Excess(t, p, row) == Excess(u, q, row)
    ensures Faithful(t, p) <==> Faithful(u, q)
  {
    if Faithful(u, q) { forall row ensures Excess(t, p, row) == 0 { assert Excess(u, q, row) == 0; } }
  }

  /** One run leaves an append-only table right if and only if it was, or, if the run empties the table,
      nothing of what had been swept was to be ported. */
  lemma {:induction false} SessionRight(c: Constraints, appendOnly: set<Name>, s: Site, x: Session, t: Name)
    requires SiteOk(s) && CanRun(c, appendOnly, s, x) && t in s.sources && t in appendOnly
    ensures SiteOk(AfterSession(c, appendOnly, s, x))
    ensures Right(AfterSession(c, appendOnly, s, x), t)
            <==> if Hits(c, appendOnly, s, x, t) then RightEmptied(s, t) else Right(s, t)
  {
    SessionKeepsOk(c, appendOnly, s, x);
    var p, q := Resumed(c, appendOnly, s, x, t), ProgressOf(AfterSession(c, appendOnly, s, x).world, t);
    forall row ensures Excess(s.sources[t], p, row) == Excess(x.sources[t], q, row) {
      SessionExcess(c, appendOnly, s, x, t, row);
    }
    EquallyFaithful(s.sources[t], p, x.sources[t], q);
  }

  ghost predicate EverHit(c: Constraints, appendOnly: set<Name>, s: Site, xs: seq<Session>, t: Name)
    requires SiteOk(s) && CanRunAll(c, appendOnly, s, xs)
    decreases |xs|
  {
    xs != []
    && (|| Hits(c, appendOnly, s, xs[0], t)
        || (SessionKeepsOk(c, appendOnly, s, xs[0]);
            EverHit(c, appendOnly, AfterSession(c, appendOnly, s, xs[0]), xs[1..], t)))
  }

  /** When the last of the runs that empty the table began, nothing that had been swept was to be ported. */
  ghost predicate RightAtLastHit(c: Constraints, appendOnly: set<Name>, s: Site, xs: seq<Session>, t: Name)
    requires SiteOk(s) && CanRunAll(c, appendOnly, s, xs) && t in s.sources
    decreases |xs|
  {
    xs != []
    && (SessionKeepsOk(c, appendOnly, s, xs[0]);
        var next := AfterSession(c, appendOnly, s, xs[0]);
        if EverHit(c, appendOnly, next, xs[1..], t) then RightAtLastHit(c, appendOnly, next, xs[1..], t)
        else RightEmptied(s, t))
  }

  /** From any site and over any runs: an append-only table ends right if and only if nothing swept was to be
      ported when it was last emptied, or, if it never was, it was right from the beginning. */
  lemma {:induction false} RightIffAtLastHit(c: Constraints, appendOnly: set<Name>, s: Site, xs: seq<Session>, t: Name)
    requires SiteOk(s) && CanRunAll(c, appendOnly, s, xs) && t in s.sources && t in appendOnly
    ensures Right(AfterAll(c, appendOnly, s, xs), t)
            <==> if EverHit(c, appendOnly, s, xs, t) then RightAtLastHit(c, appendOnly, s, xs, t) else Right(s, t)
    decreases |xs|
  {
    if xs != [] {
      SessionKeepsOk(c, appendOnly, s, xs[0]);
      SessionRight(c, appendOnly, s, xs[0], t);
      RightIffAtLastHit(c, appendOnly, AfterSession(c, appendOnly, s, xs[0]), xs[1..], t);
    }
  }

  // ---------------------------------------------------------------------------------------------
  // From a right record

  /** Every run that empties the table finds it without rows. */
  ghost predicate NeverHurt(c: Constraints, appendOnly: set<Name>, s: Site, xs: seq<Session>, t: Name)
    requires SiteOk(s) && CanRunAll(c, appendOnly, s, xs) && t in s.sources
    decreases |xs|
  {
    xs == []
    || (&& (Hits(c, appendOnly, s, xs[0], t) ==> s.world.rows[t] == [])
        && (SessionKeepsOk(c, appendOnly, s, xs[0]);
            NeverHurt(c, appendOnly, AfterSession(c, appendOnly, s, xs[0]), xs[1..], t)))
  }

  lemma {:induction false} LackAfter(c: Constraints, appendOnly: set<Name>, s: Site, x: Session, t: Name, row: Row)
    requires SiteOk(s) && CanRun(c, appendOnly, s, x) && t in s.sources && t in appendOnly
    requires Excess(s.sources[t], ProgressOf(s.world, t), row) < 0
    ensures SiteOk(AfterSession(c, appendOnly, s, x))
    ensures Excess(x.sources[t], ProgressOf(AfterSession(c, appendOnly, s, x).world, t), row) < 0
  {
    SessionKeepsOk(c, appendOnly, s, x);
    SessionExcess(c, appendOnly, s, x, t, row);
  }

  /** Rows that are missing stay missing. */
  lemma {:induction false} LackStays(c: Constraints, appendOnly: set<Name>, s: Site, xs: seq<Session>, t: Name, row: Row)
    requires SiteOk(s) && CanRunAll(c, appendOnly, s, xs) && t in s.sources && t in appendOnly
    requires Excess(s.sources[t], ProgressOf(s.world, t), row) < 0
    ensures !Right(AfterAll(c, appendOnly, s, xs), t)
    decreases |xs|
  {
    if xs == [] {
      assert Excess(s.sources[t], ProgressOf(s.world, t), row) != 0;
    } else {
      LackAfter(c, appendOnly, s, xs[0], t, row);
      LackStays(c, appendOnly, AfterSession(c, appendOnly, s, xs[0]), xs[1..], t, row);
    }
  }

  /** Over any number of runs, each stopped during its set-ups or its batches: an append-only table whose
      record was right ends right if and only if every run that empties it finds it without rows. */
  lemma {:induction false} RightIffNeverHurt(c: Constraints, appendOnly: set<Name>, s: Site, xs: seq<Session>, t: Name)
    requires SiteOk(s) && CanRunAll(c, appendOnly, s, xs) && t in s.sources && t in appendOnly && Right(s, t)
    ensures Right(AfterAll(c, appendOnly, s, xs), t) <==> NeverHurt(c, appendOnly, s, xs, t)
    decreases |xs|
  {
    if xs != [] {
      var next := AfterSession(c, appendOnly, s, xs[0]);
      SessionRight(c, appendOnly, s, xs[0], t);
      EmptiedIsFaithful(s.sources[t], ProgressOf(s.world, t));
      if Right(next, t) {
        RightIffNeverHurt(c, appendOnly, next, xs[1..], t);
      } else {
        var row := LackingAfter(c, appendOnly, s, xs[0], t);
        LackStays(c, appendOnly, next, xs[1..], t, row);
      }
    }
  }

  lemma LackingAfter(c: Constraints, appendOnly: set<Name>, s: Site, x: Session, t: Name) returns (row: Row)
    requires SiteOk(s) && CanRun(c, appendOnly, s, x) && t in s.sources && t in appendOnly && Right(s, t)
    requires Hits(c, appendOnly, s, x, t) && s.world.rows[t] != []
    ensures t in AfterSession(c, appendOnly, s, x).world.rows
    ensures Excess(x.sources[t], ProgressOf(AfterSession(c, appendOnly, s, x).world, t), row) < 0
  {
    var p := ProgressOf(s.world, t);
    row := p.rows[|p.rows| - 1];
    assert Excess(s.sources[t], p, row) == 0 && Copies(p.rows, row) > 0;
    SessionExcess(c, appendOnly, s, x, t, row);
  }

  // ---------------------------------------------------------------------------------------------
  // Runs that complete their set-ups

  ghost predicate AllComplete(c: Constraints, appendOnly: set<Name>, s: Site, xs: seq<Session>)
    requires SiteOk(s) && CanRunAll(c, appendOnly, s, xs)
    decreases |xs|
  {
    xs == []
    || (&& Complete(SetUpEnd(c, appendOnly, s, xs[0]))
        && (SessionKeepsOk(c, appendOnly, s, xs[0]);
            AllComplete(c, appendOnly, AfterSession(c, appendOnly, s, xs[0]), xs[1..])))
  }

  /** The table has no rows at the beginning of each run. */
  ghost predicate AlwaysEmpty(c: Constraints, appendOnly: set<Name>, s: Site, xs: seq<Session>, t: Name)
    requires SiteOk(s) && CanRunAll(c, appendOnly, s, xs) && t in s.sources
    decreases |xs|
  {
    xs == []
    || (&& s.world.rows[t] == []
        && (SessionKeepsOk(c, appendOnly, s, xs[0]);
            AlwaysEmpty(c, appendOnly, AfterSession(c, appendOnly, s, xs[0]), xs[1..], t)))
  }

  lemma {:induction false} HitsIffEmptied(c: Constraints, appendOnly: set<Name>, s: Site, x: Session, t: Name)
    requires SiteOk(s) && CanRun(c, appendOnly, s, x) && Complete(SetUpEnd(c, appendOnly, s, x))
    ensures Hits(c, appendOnly, s, x, t) <==> IsEmptied(c, appendOnly, s.sources.Keys, t)
  {
    RunKeepsKeys(c, appendOnly, Restarted(s.world), x.setup);
    HitAtTheEnd(c, appendOnly, Restarted(s.world), SetUpEnd(c, appendOnly, s, x), t);
    assert Restarted(s.world).stages.Keys == s.sources.Keys;
  }

  lemma {:induction false} HurtIff(c: Constraints, appendOnly: set<Name>, s: Site, xs: seq<Session>, t: Name)
    requires SiteOk(s) && CanRunAll(c, appendOnly, s, xs) && AllComplete(c, appendOnly, s, xs) && t in s.sources
    ensures NeverHurt(c, appendOnly, s, xs, t)
            <==> !IsEmptied(c, appendOnly, s.sources.Keys, t) || AlwaysEmpty(c, appendOnly, s, xs, t)
    decreases |xs|
  {
    if xs != [] {
      SessionKeepsOk(c, appendOnly, s, xs[0]);
      HitsIffEmptied(c, appendOnly, s, xs[0], t);
      HurtIff(c, appendOnly, AfterSession(c, appendOnly, s, xs[0]), xs[1..], t);
    }
  }

  lemma {:induction false} AfreshStaysRight(c: Constraints, appendOnly: set<Name>, s: Site, xs: seq<Session>, t: Name)
    requires SiteOk(s) && CanRunAll(c, appendOnly, s, xs) && AllComplete(c, appendOnly, s, xs)
    requires t in s.sources && t !in appendOnly && Right(s, t)
    ensures Right(AfterAll(c, appendOnly, s, xs), t)
    decreases |xs|
  {
    if xs != [] {
      SessionKeepsOk(c, appendOnly, s, xs[0]);
      FreshAfterSession(c, appendOnly, s, xs[0], t);
      AfreshStaysRight(c, appendOnly, AfterSession(c, appendOnly, s, xs[0]), xs[1..], t);
    }
  }

  /** Over any number of runs that complete their set-ups and are stopped at any batch, a table whose record
      was right ends right if and only if it is not append-only, no emptied table cascades into it, or it
      has no rows at the beginning of each run. */
  lemma {:induction false} RightIff(c: Constraints, appendOnly: set<Name>, s: Site, xs: seq<Session>, t: Name)
    requires SiteOk(s) && CanRunAll(c, appendOnly, s, xs) && AllComplete(c, appendOnly, s, xs)
    requires t in s.sources && Right(s, t)
    ensures Right(AfterAll(c, appendOnly, s, xs), t)
            <==> || t !in appendOnly
                 || !IsEmptied(c, appendOnly, s.sources.Keys, t)
                 || AlwaysEmpty(c, appendOnly, s, xs, t)
  {
    if t in appendOnly {
      RightIffNeverHurt(c, appendOnly, s, xs, t);
      HurtIff(c, appendOnly, s, xs, t);
    } else {
      AfreshStaysRight(c, appendOnly, s, xs, t);
    }
  }
}
