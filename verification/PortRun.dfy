/** A run of the porter that is not stopped (synapse/_scripts/synapse_port_db.py): after the set-ups the tables
    are swept round by round, each after all tables it refers to.
 */
module PortRun {
  import opened Porter
  import opened Sweep
  import opened PortOrder
  import opened PortSetup
  import opened PortSessions

  /** What a run needs to know of the tables: the source, how far each has been ported, and the count of its
      rows taken when it was set up, which is zero only if nothing is left to be swept. */
  ghost predicate Known(sources: map<Name, Table>, start: map<Name, Progress>, sizes: map<Name, nat>) {
    && start.Keys == sources.Keys && sizes.Keys == sources.Keys
    && forall t :: t in sources ==>
                     start[t].backward < start[t].forward && (sizes[t] == 0 ==> Remaining(sources[t], start[t]) == {})
  }

  method HandleOne(source: Table, limit: nat, size: nat, p: Progress) returns (q: Progress)
    requires limit >= 1 && p.backward < p.forward && (size == 0 ==> Remaining(source, p) == {})
    ensures q == Swept(source, limit, p)
  {
    var target := new Target(p);
    target.HandleTable(source, limit, size);
    q := target.Now();
  }

  /** The tables in `done` have been swept, the others are where they were. */
  ghost predicate SweptSoFar(sources: map<Name, Table>, limit: nat, start: map<Name, Progress>,
                             now: map<Name, Progress>, done: set<Name>)
    requires limit >= 1
  {
    && start.Keys == sources.Keys && now.Keys == sources.Keys
    && forall t :: t in sources ==>
                     start[t].backward < start[t].forward
                     && now[t] == if t in done then Swept(sources[t], limit, start[t]) else start[t]
  }

  /** Sweeps the tables of one round. */
  method HandleRound(sources: map<Name, Table>, limit: nat, sizes: map<Name, nat>, ghost start: map<Name, Progress>,
                     before: map<Name, Progress>, next: set<Name>, ghost done: set<Name>)
    returns (after: map<Name, Progress>)
    requires limit >= 1 && Known(sources, start, sizes) && SweptSoFar(sources, limit, start, before, done)
    requires next <= sources.Keys && next !! done
    ensures SweptSoFar(sources, limit, start, after, done + next)
  {
    after := before;
    var rest := next;
    while rest != {}
      invariant rest <= next && SweptSoFar(sources, limit, start, after, done + (next - rest))
      decreases rest
    {
      var t :| t in rest;
      var q := HandleOne(sources[t], limit, sizes[t], after[t]);
      after := after[t := q];
      rest := rest - {t};
    }
    assert next - rest == next;
  }

  /** Sweeps every table once, in rounds, none before all tables it refers to. */
  method Run(sources: map<Name, Table>, c: Constraints, limit: nat, start: map<Name, Progress>, sizes: map<Name, nat>)
    returns (rounds: seq<set<Name>>, end: map<Name, Progress>)
    requires limit >= 1 && Known(sources, start, sizes)
    requires Acyclic(sources.Keys, c) && Closed(sources.Keys, c)
    ensures IsPortOrder(rounds, c, sources.Keys) && AreRounds(rounds, sources.Keys, c)
    ensures end.Keys == sources.Keys
    ensures forall t :: t in sources ==> end[t] == Swept(sources[t], limit, start[t])
  {
    var left := sources.Keys;
    var ported: set<Name> := {};
    rounds, end := [], start;
    NothingPorted(sources.Keys, c);
    while left != {}
      invariant InProgress(sources.Keys, c, left, ported, rounds)
      invariant SweptSoFar(sources, limit, start, end, ported)
      decreases left
    {
      var next := Ready(left, ported, c);
      SomethingReady(sources.Keys, c, left, ported);
      TurnKeepsProgress(sources.Keys, c, left, ported, rounds, next);
      RoundTaken(sources.Keys, c, left, ported);
      end := HandleRound(sources, limit, sizes, start, end, next, ported);
      left, ported, rounds := left - next, ported + next, rounds + [next];
    }
    assert ported == sources.Keys;
  }

  /** After any number of stopped runs, the last one going on to sweep all that is left: every row of every
      table has been swept, and a table whose record was right at the very beginning is ported faithfully
      if and only if it is not append-only, no emptied table cascades into it, or it had no rows at the
      beginning of each run. */
  lemma WholePort(c: Constraints, appendOnly: set<Name>, s: Site, xs: seq<Session>, limit: nat, t: Name)
    requires SiteOk(s) && CanRunAll(c, appendOnly, s, xs) && AllComplete(c, appendOnly, s, xs)
    requires limit >= 1 && t in s.sources && Right(s, t)
    ensures var last := AfterAll(c, appendOnly, s, xs);
            var q := Swept(last.sources[t], limit, ProgressOf(last.world, t));
            && Finished(last.sources[t], q)
            && (Faithful(last.sources[t], q)
                <==> || t !in appendOnly
                     || !IsEmptied(c, appendOnly, s.sources.Keys, t)
                     || AlwaysEmpty(c, appendOnly, s, xs, t))
  {
    var last := AfterAll(c, appendOnly, s, xs);
    RightIff(c, appendOnly, s, xs, t);
    SweptIsFaithful(last.sources[t], limit, ProgressOf(last.world, t));
  }
}
