/** The order in which the porter handles tables (synapse/_scripts/synapse_port_db.py): round by round,
    each round taking every table whose foreign keys lead only to tables of earlier rounds.
 */
module PortOrder {

  type Name = string

  /** The tables each table has foreign keys to, itself excepted. */
  type Constraints = map<Name, set<Name>>

  function Needs(c: Constraints, t: Name): set<Name> {
    if t in c then c[t] else {}
  }

  /** The tables left that need only tables already ported. */
  function Ready(left: set<Name>, ported: set<Name>, c: Constraints): set<Name> {
    set t | t in left && Needs(c, t) <= ported
  }

  /** The tables left after so many rounds. */
  function LeftAfter(tables: set<Name>, c: Constraints, rounds: nat): set<Name> {
    if rounds == 0 then tables
    else
      var left := LeftAfter(tables, c, rounds - 1);
      left - Ready(left, tables - left, c)
  }

  ghost predicate Finishes(tables: set<Name>, c: Constraints) {
    exists n :: LeftAfter(tables, c, n) == {}
  }

  /** A chain of foreign keys from `t` to `u`, of at least one step. */
  predicate IsChain(c: Constraints, chain: seq<Name>, t: Name, u: Name) {
    |chain| >= 2 && chain[0] == t && chain[|chain| - 1] == u && IsWalk(c, chain)
  }

  predicate IsWalk(c: Constraints, walk: seq<Name>) {
    forall i :: 0 <= i < |walk| - 1 ==> walk[i + 1] in Needs(c, walk[i])
  }

  /** No table leads back to itself. */
  ghost predicate Acyclic(tables: set<Name>, c: Constraints) {
    forall t, chain :: t in tables ==> !IsChain(c, chain, t, t)
  }

  /** Foreign keys of the tables lead to tables that are ported too. */
  ghost predicate Closed(tables: set<Name>, c: Constraints) {
    forall t, d :: t in tables && d in Needs(c, t) ==> d in tables
  }

  lemma {:induction false} LeftShrinks(tables: set<Name>, c: Constraints, n: nat)
    ensures LeftAfter(tables, c, n) <= tables
    decreases n
  {
    if n > 0 { LeftShrinks(tables, c, n - 1); }
  }

  lemma {:induction false} LeftMonotone(tables: set<Name>, c: Constraints, n: nat, m: nat)
    requires n <= m
    ensures LeftAfter(tables, c, m) <= LeftAfter(tables, c, n)
    decreases m
  {
    if n < m { LeftMonotone(tables, c, n, m - 1); }
  }

  /** The round in which a table is ported. */
  function RoundOf(tables: set<Name>, c: Constraints, t: Name, n: nat): (r: nat)
    requires t in tables && t !in LeftAfter(tables, c, n)
    ensures r < n && t in LeftAfter(tables, c, r) && t !in LeftAfter(tables, c, r + 1)
    decreases n
  {
    if t in LeftAfter(tables, c, n - 1) then n - 1 else RoundOf(tables, c, t, n - 1)
  }

  /** What a ported table needs was ported in an earlier round. */
  lemma {:induction false} NeededEarlier(tables: set<Name>, c: Constraints, n: nat, t: Name, d: Name)
    requires LeftAfter(tables, c, n) == {} && t in tables && d in Needs(c, t)
    ensures d in tables && RoundOf(tables, c, d, n) < RoundOf(tables, c, t, n)
  {
    var r := RoundOf(tables, c, t, n);
    var left := LeftAfter(tables, c, r);
    assert t in Ready(left, tables - left, c);
    assert d in tables - left;
    var q := RoundOf(tables, c, d, n);
    if r <= q { LeftMonotone(tables, c, r, q); }
  }

  lemma PartIsWalk(c: Constraints, walk: seq<Name>, i: nat)
    requires IsWalk(c, walk) && i <= |walk|
    ensures IsWalk(c, walk[i..])
  {
    forall k | 0 <= k < |walk[i..]| - 1 ensures walk[i..][k + 1] in Needs(c, walk[i..][k]) {
      assert walk[(i + k) + 1] in Needs(c, walk[i + k]);
    }
  }

  /** Along a chain of foreign keys the rounds go down. */
  lemma {:induction false} RoundsFall(tables: set<Name>, c: Constraints, n: nat, walk: seq<Name>)
    requires LeftAfter(tables, c, n) == {} && |walk| >= 2 && walk[0] in tables && IsWalk(c, walk)
    ensures walk[|walk| - 1] in tables
    ensures RoundOf(tables, c, walk[|walk| - 1], n) < RoundOf(tables, c, walk[0], n)
    decreases |walk|
  {
    assert walk[0 + 1] in Needs(c, walk[0]);
    NeededEarlier(tables, c, n, walk[0], walk[1]);
    if |walk| > 2 {
      PartIsWalk(c, walk, 1);
      RoundsFall(tables, c, n, walk[1..]);
    }
  }

  /** Prolongs a walk that can always go on within a finite set, of which `unseen` is what it has not
      passed, until it meets itself. */
  lemma {:induction false} WalkMeetsItself(c: Constraints, within: set<Name>, walk: seq<Name>, unseen: set<Name>)
    returns (t: Name, cycle: seq<Name>)
    requires walk != [] && IsWalk(c, walk) && walk[|walk| - 1] in within
    requires forall u :: u in within ==> u in walk || u in unseen
    requires forall u :: u in within ==> !(Needs(c, u) !! within)
    ensures t in within && IsChain(c, cycle, t, t)
    decreases unseen
  {
    t :| t in Needs(c, walk[|walk| - 1]) && t in within;
    var longer := walk + [t];
    assert IsWalk(c, longer);
    if i :| 0 <= i < |walk| && walk[i] == t {
      cycle := longer[i..];
      PartIsWalk(c, longer, i);
    } else {
      assert t in unseen;
      t, cycle := WalkMeetsItself(c, within, longer, unseen - {t});
    }
  }

  /** Without a cycle, some table that is left needs nothing that is left. */
  lemma SomethingReady(tables: set<Name>, c: Constraints, left: set<Name>, ported: set<Name>)
    requires Acyclic(tables, c) && Closed(tables, c) && left != {} && Splits(tables, ported, left)
    ensures Ready(left, ported, c) != {}
  {
    if t :| t in left && Needs(c, t) !! left {
      forall d | d in Needs(c, t) ensures d in ported { assert d in tables; }
      assert t in Ready(left, ported, c);
    } else {
      var start :| start in left;
      var t, cycle := WalkMeetsItself(c, left, [start], left);
    }
  }

  lemma RoundShrinks(tables: set<Name>, c: Constraints, n: nat)
    requires Acyclic(tables, c) && Closed(tables, c) && LeftAfter(tables, c, n) != {}
    ensures LeftAfter(tables, c, n + 1) < LeftAfter(tables, c, n)
  {
    var left := LeftAfter(tables, c, n);
    LeftShrinks(tables, c, n);
    SomethingReady(tables, c, left, tables - left);
    var t :| t in Ready(left, tables - left, c);
    assert t in left && t !in LeftAfter(tables, c, n + 1);
  }

  lemma {:induction false} RoundsEnd(tables: set<Name>, c: Constraints, n: nat, left: set<Name>)
    requires Acyclic(tables, c) && Closed(tables, c) && left == LeftAfter(tables, c, n)
    ensures Finishes(tables, c)
    decreases left
  {
    if left != {} {
      RoundShrinks(tables, c, n);
      RoundsEnd(tables, c, n + 1, LeftAfter(tables, c, n + 1));
    }
  }

  /** The loop comes to an end exactly if the foreign keys are acyclic and stay within the tables. */
  lemma FinishesIffAcyclic(tables: set<Name>, c: Constraints)
    ensures Finishes(tables, c) <==> Acyclic(tables, c) && Closed(tables, c)
  {
    if n :| LeftAfter(tables, c, n) == {} {
      forall t, d | t in tables && d in Needs(c, t) ensures d in tables { NeededEarlier(tables, c, n, t, d); }
      forall t, chain | t in tables ensures !IsChain(c, chain, t, t) {
        if IsChain(c, chain, t, t) { RoundsFall(tables, c, n, chain); }
      }
    }
    if Acyclic(tables, c) && Closed(tables, c) { RoundsEnd(tables, c, 0, tables); }
  }

  /** Otherwise the loop never ends: from some round on nothing is taken and something is left. */
  lemma HangsUnlessAcyclic(tables: set<Name>, c: Constraints)
    requires !(Acyclic(tables, c) && Closed(tables, c))
    ensures exists n :: LeftAfter(tables, c, n) != {} && IdleFrom(tables, c, n)
  {
    FinishesIffAcyclic(tables, c);
    var n := IdleRound(tables, c, 0, tables);
    forall m | n <= m ensures LeftAfter(tables, c, m) == LeftAfter(tables, c, n) { StuckForever(tables, c, n, m); }
    assert IdleFrom(tables, c, n);
  }

  ghost predicate IdleFrom(tables: set<Name>, c: Constraints, n: nat) {
    forall m :: n <= m ==> LeftAfter(tables, c, m) == LeftAfter(tables, c, n)
  }

  lemma {:induction false} IdleRound(tables: set<Name>, c: Constraints, from: nat, left: set<Name>) returns (n: nat)
    requires left == LeftAfter(tables, c, from)
    ensures LeftAfter(tables, c, n) == LeftAfter(tables, c, n + 1)
    decreases left
  {
    var next := LeftAfter(tables, c, from + 1);
    assert next <= left;
    if next == left { n := from; } else { n := IdleRound(tables, c, from + 1, next); }
  }

  lemma {:induction false} StuckForever(tables: set<Name>, c: Constraints, n: nat, m: nat)
    requires n <= m && LeftAfter(tables, c, n) == LeftAfter(tables, c, n + 1)
    ensures LeftAfter(tables, c, m) == LeftAfter(tables, c, n)
    decreases m
  {
    if n < m { StuckForever(tables, c, n, m - 1); }
  }

  /** The tables taken in each round. */
  ghost predicate IsPortOrder(rounds: seq<set<Name>>, c: Constraints, ported: set<Name>) {
    && (forall t :: t in ported <==> exists i :: 0 <= i < |rounds| && t in rounds[i])
    && (forall i, j :: 0 <= i < j < |rounds| ==> rounds[i] !! rounds[j])
    && (forall i, t, d :: 0 <= i < |rounds| && t in rounds[i] && d in Needs(c, t) ==> InEarlierRound(rounds, i, d))
  }

  ghost predicate InEarlierRound(rounds: seq<set<Name>>, i: nat, d: Name)
    requires i <= |rounds|
  {
    exists j :: 0 <= j < i && d in rounds[j]
  }

  lemma OneMoreRound(rounds: seq<set<Name>>, c: Constraints, ported: set<Name>, left: set<Name>)
    requires IsPortOrder(rounds, c, ported) && Splits(ported + left, ported, left)
    ensures IsPortOrder(rounds + [Ready(left, ported, c)], c, ported + Ready(left, ported, c))
  {
    var next := Ready(left, ported, c);
    var longer := rounds + [next];
    forall t ensures t in ported + next <==> exists i :: 0 <= i < |longer| && t in longer[i] {
      if t in ported {
        var i :| 0 <= i < |rounds| && t in rounds[i];
        assert longer[i] == rounds[i];
      } else if t in next {
        assert longer[|rounds|] == next;
      }
    }
    forall i, j | 0 <= i < j < |longer| ensures longer[i] !! longer[j] {
      assert rounds[i] <= ported by { forall t | t in rounds[i] ensures t in ported { } }
    }
    forall i, t, d | 0 <= i < |longer| && t in longer[i] && d in Needs(c, t) ensures InEarlierRound(longer, i, d) {
      if i < |rounds| {
        assert InEarlierRound(rounds, i, d);
        var j :| 0 <= j < i && d in rounds[j];
        assert d in longer[j];
      } else {
        assert d in ported;
        var j :| 0 <= j < |rounds| && d in rounds[j];
        assert d in longer[j];
      }
    }
  }

  predicate Splits(tables: set<Name>, ported: set<Name>, left: set<Name>) {
    ported !! left && ported + left == tables
  }

  /** Each entry is what one round takes, and no round takes nothing. */
  predicate AreRounds(rounds: seq<set<Name>>, tables: set<Name>, c: Constraints) {
    forall i :: 0 <= i < |rounds| ==>
                  rounds[i] != {} && rounds[i] == LeftAfter(tables, c, i) - LeftAfter(tables, c, i + 1)
  }

  /** What holds between two turns of the loop. */
  ghost predicate InProgress(tables: set<Name>, c: Constraints, left: set<Name>, ported: set<Name>,
                             rounds: seq<set<Name>>)
  {
    && Splits(tables, ported, left) && left == LeftAfter(tables, c, |rounds|)
    && IsPortOrder(rounds, c, ported) && AreRounds(rounds, tables, c)
  }

  lemma TurnKeepsProgress(tables: set<Name>, c: Constraints, left: set<Name>, ported: set<Name>,
                          rounds: seq<set<Name>>, next: set<Name>)
    requires InProgress(tables, c, left, ported, rounds) && next == Ready(left, ported, c) && next != {}
    ensures InProgress(tables, c, left - next, ported + next, rounds + [next])
  {
    RoundTaken(tables, c, left, ported);
    TurnIsRound(tables, c, |rounds|, left, ported);
    OneMoreRound(rounds, c, ported, left);
  }

  lemma NothingPorted(tables: set<Name>, c: Constraints)
    ensures InProgress(tables, c, tables, {}, [])
  {
  }

  lemma RoundTaken(tables: set<Name>, c: Constraints, left: set<Name>, ported: set<Name>)
    requires Splits(tables, ported, left)
    ensures Ready(left, ported, c) <= left
    ensures Splits(tables, ported + Ready(left, ported, c), left - Ready(left, ported, c))
  {
  }

  /** One turn of the loop is one round. */
  lemma TurnIsRound(tables: set<Name>, c: Constraints, n: nat, left: set<Name>, ported: set<Name>)
    requires left == LeftAfter(tables, c, n) && Splits(tables, ported, left)
    ensures left - Ready(left, ported, c) == LeftAfter(tables, c, n + 1)
    ensures Ready(left, ported, c) == LeftAfter(tables, c, n) - LeftAfter(tables, c, n + 1)
  {
    assert tables - left == ported;
  }
}
