/** The SQLite-to-PostgreSQL porter (synapse/_scripts/synapse_port_db.py): the conversion of rows, and the
    batches of rowids that are selected upwards and downwards.
 */
module Porter {
  import opened Wrappers

  // ---------------------------------------------------------------------------------------------
  // Rows

  datatype Value =
    | Null | Integer(i: int) | Float(r: real) | Text(s: string) | Blob(bytes: seq<nat>) | Boolean(b: bool)

  /** One row without its rowid. */
  type Row = seq<Value>

  /** A SQLite table: its rows by rowid, the names of its columns and which of those are boolean. */
  datatype Table = Table(rows: map<int, Row>, headers: seq<string>, booleans: set<string>)

  function Truthy(v: Value): bool {
    match v
    case Null => false
    case Integer(i) => i != 0
    case Float(r) => r != 0.0
    case Text(s) => s != ""
    case Blob(b) => b != []
    case Boolean(b) => b
  }

  predicate IsBooleanColumn(t: Table, j: nat) {
    j < |t.headers| && t.headers[j] in t.booleans
  }

  const NUL := 0 as char

  function ConvertValue(v: Value, boolean: bool): Option<Value> {
    if boolean then Some(Boolean(Truthy(v)))
    else if v.Text? && NUL in v.s then None
    else Some(v)
  }

  /** A row with every value converted, or nothing if one of them cannot be. */
  function ConvertRow(t: Table, row: Row): Option<Row> {
    if row == [] then Some([])
    else
      var n := |row| - 1;
      match (ConvertRow(t, row[..n]), ConvertValue(row[n], IsBooleanColumn(t, n)))
      case (Some(front), Some(v)) => Some(front + [v])
      case _ => None
  }

  predicate BooleanAt(t: Table, j: nat) {
    j < |t.headers| && t.headers[j] in t.booleans
  }

  /** The values that count as false. */
  predicate IsFalse(v: Value) {
    v in {Null, Integer(0), Float(0.0), Text(""), Blob([]), Boolean(false)}
  }

  /** A row is dropped exactly if a column that is not boolean holds a text with a NUL. Otherwise the boolean
      columns become truth values, false exactly for null, zero, the empty text and blob, and false, and
      all other columns are kept as they are. */
  lemma {:induction false} ConvertRowMeaning(t: Table, row: Row)
    ensures ConvertRow(t, row).None?
            <==> exists j :: 0 <= j < |row| && !BooleanAt(t, j) && row[j].Text? && (0 as char) in row[j].s
    ensures ConvertRow(t, row).Some? ==>
              && |ConvertRow(t, row).value| == |row|
              && forall j :: 0 <= j < |row| ==>
                   ConvertRow(t, row).value[j] == if BooleanAt(t, j) then Boolean(!IsFalse(row[j])) else row[j]
    decreases |row|
  {
    if row != [] {
      var front := row[..|row| - 1];
      ConvertRowMeaning(t, front);
      assert forall j :: 0 <= j < |front| ==> front[j] == row[j];
      TruthyMeaning(row[|row| - 1]);
    }
  }

  lemma TruthyMeaning(v: Value)
    ensures Truthy(v) <==> !IsFalse(v)
  {
  }

  function AsRows(r: Option<Row>): seq<Row> {
    if r.Some? then [r.value] else []
  }

  function Converted(t: Table, rows: seq<Row>): seq<Row> {
    if rows == [] then []
    else Converted(t, rows[..|rows| - 1]) + AsRows(ConvertRow(t, rows[|rows| - 1]))
  }

  method ConvertRows(t: Table, rows: seq<Row>) returns (out: seq<Row>)
    ensures out == Converted(t, rows)
  {
    out := [];
    for i := 0 to |rows|
      invariant out == Converted(t, rows[..i])
    {
      assert rows[..i + 1][..i] == rows[..i];
      var converted: Row := [];
      var bad := false;
      var j := 0;
      while j < |rows[i]| && !bad
        invariant 0 <= j <= |rows[i]|
        invariant !bad ==> ConvertRow(t, rows[i][..j]) == Some(converted)
        invariant bad ==> ConvertRow(t, rows[i]).None?
        decreases |rows[i]| - j, !bad
      {
        var v := ConvertValue(rows[i][j], IsBooleanColumn(t, j));
        assert rows[i][..j + 1][..j] == rows[i][..j];
        if v.None? {
          ConvertRowMeaning(t, rows[i]);
          bad := true;
        } else {
          converted := converted + [v.value];
          j := j + 1;
        }
      }
      if !bad {
        assert rows[i][..|rows[i]|] == rows[i];
        out := out + [converted];
      }
    }
    assert rows[..|rows|] == rows;
  }

  // ---------------------------------------------------------------------------------------------
  // Selecting a batch

  predicate AnyFrom(ids: set<int>, from: int) {
    exists i :: i in ids && from <= i
  }

  predicate IsLeastFrom(ids: set<int>, from: int, m: int) {
    m in ids && from <= m && forall k :: k in ids && from <= k ==> m <= k
  }

  lemma FindLeast(ids: set<int>, from: int) returns (m: int)
    requires AnyFrom(ids, from)
    ensures IsLeastFrom(ids, from, m)
    decreases |ids|
  {
    var first :| first in ids && from <= first;
    var rest := ids - {first};
    m := first;
    if AnyFrom(rest, from) {
      var n := FindLeast(rest, from);
      if n < m { m := n; }
    }
    forall k | k in ids && from <= k ensures m <= k {
      assert k == first || k in rest;
    }
  }

  /** The least of the ids that are at least `from`. */
  function LeastFrom(ids: set<int>, from: int): (m: int)
    requires AnyFrom(ids, from)
    ensures IsLeastFrom(ids, from, m)
  {
    assert exists m :: IsLeastFrom(ids, from, m) by { var m := FindLeast(ids, from); }
    var m :| IsLeastFrom(ids, from, m);
    m
  }

  /** The ids at least `from`, in ascending order, at most `limit` of them. */
  function Ascending(ids: set<int>, from: int, limit: nat): seq<int>
    decreases limit
  {
    if limit == 0 || !AnyFrom(ids, from) then []
    else [LeastFrom(ids, from)] + Ascending(ids, LeastFrom(ids, from) + 1, limit - 1)
  }

  predicate AnyTo(ids: set<int>, to: int) {
    exists i :: i in ids && i <= to
  }

  predicate IsGreatestTo(ids: set<int>, to: int, m: int) {
    m in ids && m <= to && forall k :: k in ids && k <= to ==> k <= m
  }

  lemma FindGreatest(ids: set<int>, to: int) returns (m: int)
    requires AnyTo(ids, to)
    ensures IsGreatestTo(ids, to, m)
    decreases |ids|
  {
    var first :| first in ids && first <= to;
    var rest := ids - {first};
    m := first;
    if AnyTo(rest, to) {
      var n := FindGreatest(rest, to);
      if m < n { m := n; }
    }
    forall k | k in ids && k <= to ensures k <= m {
      assert k == first || k in rest;
    }
  }

  /** The greatest of the ids that are at most `to`. */
  function GreatestTo(ids: set<int>, to: int): (m: int)
    requires AnyTo(ids, to)
    ensures IsGreatestTo(ids, to, m)
  {
    assert exists m :: IsGreatestTo(ids, to, m) by { var m := FindGreatest(ids, to); }
    var m :| IsGreatestTo(ids, to, m);
    m
  }

  /** The ids at most `to`, in descending order, at most `limit` of them. */
  function Descending(ids: set<int>, to: int, limit: nat): seq<int>
    decreases limit
  {
    if limit == 0 || !AnyTo(ids, to) then []
    else [GreatestTo(ids, to)] + Descending(ids, GreatestTo(ids, to) - 1, limit - 1)
  }

  function MaxOf(s: seq<int>): (m: int)
    requires s != []
    ensures IsMax(s, m)
  {
    if |s| == 1 then s[0]
    else
      var m := MaxOf(s[1..]);
      assert forall k :: k in s ==> k == s[0] || k in s[1..];
      if m < s[0] then s[0] else m
  }

  function MinOf(s: seq<int>): (m: int)
    requires s != []
    ensures IsMin(s, m)
  {
    if |s| == 1 then s[0]
    else
      var m := MinOf(s[1..]);
      assert forall k :: k in s ==> k == s[0] || k in s[1..];
      if s[0] < m then s[0] else m
  }

  lemma {:induction false} AscendingIsFrom(ids: set<int>, from: int, limit: nat)
    ensures forall i :: i in Ascending(ids, from, limit) ==> i in ids && from <= i
    decreases limit
  {
    if limit > 0 && AnyFrom(ids, from) { AscendingIsFrom(ids, LeastFrom(ids, from) + 1, limit - 1); }
  }

  lemma {:induction false} DescendingIsTo(ids: set<int>, to: int, limit: nat)
    ensures forall i :: i in Descending(ids, to, limit) ==> i in ids && i <= to
    decreases limit
  {
    if limit > 0 && AnyTo(ids, to) { DescendingIsTo(ids, GreatestTo(ids, to) - 1, limit - 1); }
  }

  /** A batch holds at most the limit, in order, and all there is from where it starts if it is shorter. */
  lemma {:induction false} AscendingIsLimited(ids: set<int>, from: int, limit: nat, id: int)
    ensures |Ascending(ids, from, limit)| <= limit
    ensures |Ascending(ids, from, limit)| < limit && id in ids && from <= id ==> id in Ascending(ids, from, limit)
    decreases limit
  {
    if limit > 0 && AnyFrom(ids, from) { AscendingIsLimited(ids, LeastFrom(ids, from) + 1, limit - 1, id); }
  }

  lemma {:induction false} AscendingIsOrdered(ids: set<int>, from: int, limit: nat, i: nat, j: nat)
    requires i < j < |Ascending(ids, from, limit)|
    ensures Ascending(ids, from, limit)[i] < Ascending(ids, from, limit)[j]
    decreases limit
  {
    var m := LeastFrom(ids, from);
    var rest := Ascending(ids, m + 1, limit - 1);
    assert Ascending(ids, from, limit)[j] == rest[j - 1] && rest[j - 1] in rest;
    if i == 0 { AscendingIsFrom(ids, m + 1, limit - 1); } else { AscendingIsOrdered(ids, m + 1, limit - 1, i - 1, j - 1); }
  }

  lemma {:induction false} DescendingIsLimited(ids: set<int>, to: int, limit: nat, id: int)
    ensures |Descending(ids, to, limit)| <= limit
    ensures |Descending(ids, to, limit)| < limit && id in ids && id <= to ==> id in Descending(ids, to, limit)
    decreases limit
  {
    if limit > 0 && AnyTo(ids, to) { DescendingIsLimited(ids, GreatestTo(ids, to) - 1, limit - 1, id); }
  }

  lemma {:induction false} DescendingIsOrdered(ids: set<int>, to: int, limit: nat, i: nat, j: nat)
    requires i < j < |Descending(ids, to, limit)|
    ensures Descending(ids, to, limit)[i] > Descending(ids, to, limit)[j]
    decreases limit
  {
    var m := GreatestTo(ids, to);
    var rest := Descending(ids, m - 1, limit - 1);
    assert Descending(ids, to, limit)[j] == rest[j - 1] && rest[j - 1] in rest;
    if i == 0 { DescendingIsTo(ids, m - 1, limit - 1); } else { DescendingIsOrdered(ids, m - 1, limit - 1, i - 1, j - 1); }
  }

  predicate IsMax(s: seq<int>, m: int) {
    m in s && forall k :: k in s ==> k <= m
  }

  predicate IsMin(s: seq<int>, m: int) {
    m in s && forall k :: k in s ==> m <= k
  }

  lemma {:induction false} MaxOfRest(m: int, rest: seq<int>, top: int)
    requires rest != [] && (forall i :: i in rest ==> m < i) && IsMax([m] + rest, top)
    ensures IsMax(rest, top)
  {
    var all := [m] + rest;
    assert all[1] == rest[0] && all[1] in all && rest[0] in rest;
    var i :| 0 <= i < |all| && all[i] == top;
    assert rest[i - 1] == top;
    assert forall k :: k in rest ==> k in all;
  }

  lemma {:induction false} MinOfRest(m: int, rest: seq<int>, low: int)
    requires rest != [] && (forall i :: i in rest ==> i < m) && IsMin([m] + rest, low)
    ensures IsMin(rest, low)
  {
    var all := [m] + rest;
    assert all[1] == rest[0] && all[1] in all && rest[0] in rest;
    var i :| 0 <= i < |all| && all[i] == low;
    assert rest[i - 1] == low;
    assert forall k :: k in rest ==> k in all;
  }

  lemma AscendingSplits(ids: set<int>, from: int, limit: nat) returns (m: int, rest: seq<int>)
    requires Ascending(ids, from, limit) != []
    ensures limit > 0 && AnyFrom(ids, from) && m == LeastFrom(ids, from)
    ensures rest == Ascending(ids, m + 1, limit - 1) && Ascending(ids, from, limit) == [m] + rest
    ensures forall i :: i in rest ==> m < i
  {
    m := LeastFrom(ids, from);
    rest := Ascending(ids, m + 1, limit - 1);
    AscendingIsFrom(ids, m + 1, limit - 1);
  }

  lemma DescendingSplits(ids: set<int>, to: int, limit: nat) returns (m: int, rest: seq<int>)
    requires Descending(ids, to, limit) != []
    ensures limit > 0 && AnyTo(ids, to) && m == GreatestTo(ids, to)
    ensures rest == Descending(ids, m - 1, limit - 1) && Descending(ids, to, limit) == [m] + rest
    ensures forall i :: i in rest ==> i < m
  {
    m := GreatestTo(ids, to);
    rest := Descending(ids, m - 1, limit - 1);
    DescendingIsTo(ids, m - 1, limit - 1);
  }

  // ---------------------------------------------------------------------------------------------
  // How often a row is to be ported

  /** How often a row occurs among rows. */
  function Copies(rows: seq<Row>, row: Row): nat {
    if rows == [] then 0
    else Copies(rows[..|rows| - 1], row) + if rows[|rows| - 1] == row then 1 else 0
  }

  lemma {:induction false} CopiesIsMultiplicity(rows: seq<Row>, row: Row)
    ensures Copies(rows, row) == multiset(rows)[row]
    decreases |rows|
  {
    if rows != [] {
      CopiesIsMultiplicity(rows[..|rows| - 1], row);
      assert rows == rows[..|rows| - 1] + [rows[|rows| - 1]];
    }
  }

  lemma {:induction false} CopiesAppend(a: seq<Row>, b: seq<Row>, row: Row)
    ensures Copies(a + b, row) == Copies(a, row) + Copies(b, row)
    decreases |b|
  {
    if b == [] {
      assert a + b == a;
    } else {
      CopiesAppend(a, b[..|b| - 1], row);
      assert (a + b)[..|a + b| - 1] == a + b[..|b| - 1];
    }
  }

  /** How often a row results from converting the source row with a given rowid: once or never. */
  function CopiesAt(t: Table, id: int, row: Row): nat {
    if id in t.rows && ConvertRow(t, t.rows[id]) == Some(row) then 1 else 0
  }

  /** How often it results from the rowids from `lo` up to but not including `hi`. */
  function CopiesWithin(t: Table, lo: int, hi: int, row: Row): nat
    decreases hi - lo
  {
    if lo >= hi then 0 else CopiesAt(t, lo, row) + CopiesWithin(t, lo + 1, hi, row)
  }

  /** How often it results from a list of rowids. */
  function CopiesOf(t: Table, ids: seq<int>, row: Row): nat {
    if ids == [] then 0 else CopiesOf(t, ids[..|ids| - 1], row) + CopiesAt(t, ids[|ids| - 1], row)
  }

  lemma {:induction false} WithinSplits(t: Table, lo: int, mid: int, hi: int, row: Row)
    requires lo <= mid <= hi
    ensures CopiesWithin(t, lo, hi, row) == CopiesWithin(t, lo, mid, row) + CopiesWithin(t, mid, hi, row)
    decreases mid - lo
  {
    if lo < mid { WithinSplits(t, lo + 1, mid, hi, row); }
  }

  lemma {:induction false} NothingWithin(t: Table, lo: int, hi: int, row: Row)
    requires forall i :: lo <= i < hi ==> i !in t.rows
    ensures CopiesWithin(t, lo, hi, row) == 0
    decreases hi - lo
  {
    if lo < hi { NothingWithin(t, lo + 1, hi, row); }
  }

  lemma {:induction false} OnlyAt(t: Table, lo: int, m: int, hi: int, row: Row)
    requires lo <= m < hi && forall i :: lo <= i < hi && i != m ==> i !in t.rows
    ensures CopiesWithin(t, lo, hi, row) == CopiesAt(t, m, row)
  {
    WithinSplits(t, lo, m, hi, row);
    NothingWithin(t, lo, m, row);
    NothingWithin(t, m + 1, hi, row);
  }

  lemma {:induction false} CopiesOfAppend(t: Table, a: seq<int>, b: seq<int>, row: Row)
    ensures CopiesOf(t, a + b, row) == CopiesOf(t, a, row) + CopiesOf(t, b, row)
    decreases |b|
  {
    if b == [] {
      assert a + b == a;
    } else {
      CopiesOfAppend(t, a, b[..|b| - 1], row);
      assert (a + b)[..|a + b| - 1] == a + b[..|b| - 1];
    }
  }

  lemma {:induction false} CopiesOfFirst(t: Table, m: int, rest: seq<int>, row: Row)
    ensures CopiesOf(t, [m] + rest, row) == CopiesAt(t, m, row) + CopiesOf(t, rest, row)
  {
    CopiesOfAppend(t, [m], rest, row);
    assert [m][..0] == [] && CopiesOf(t, [m], row) == CopiesOf(t, [], row) + CopiesAt(t, m, row);
  }

  /** A forward batch is exactly the rows from where it starts up to its greatest rowid. */
  lemma {:induction false} ForwardBatch(t: Table, from: int, limit: nat, top: int, row: Row)
    requires IsMax(Ascending(t.rows.Keys, from, limit), top)
    ensures CopiesOf(t, Ascending(t.rows.Keys, from, limit), row) == CopiesWithin(t, from, top + 1, row)
    ensures from <= top
    decreases limit
  {
    var m, rest := AscendingSplits(t.rows.Keys, from, limit);
    CopiesOfFirst(t, m, rest, row);
    OnlyAt(t, from, m, m + 1, row);
    if rest == [] {
      assert top == m;
    } else {
      MaxOfRest(m, rest, top);
      ForwardBatch(t, m + 1, limit - 1, top, row);
      WithinSplits(t, from, m + 1, top + 1, row);
    }
  }

  /** A backward batch is exactly the rows from its least rowid up to where it starts. */
  lemma {:induction false} BackwardBatch(t: Table, to: int, limit: nat, low: int, row: Row)
    requires IsMin(Descending(t.rows.Keys, to, limit), low)
    ensures CopiesOf(t, Descending(t.rows.Keys, to, limit), row) == CopiesWithin(t, low, to + 1, row)
    ensures low <= to
    decreases limit
  {
    var m, rest := DescendingSplits(t.rows.Keys, to, limit);
    CopiesOfFirst(t, m, rest, row);
    OnlyAt(t, m, m, to + 1, row);
    if rest == [] {
      assert low == m;
    } else {
      MinOfRest(m, rest, low);
      BackwardBatch(t, m - 1, limit - 1, low, row);
      WithinSplits(t, low, m, to + 1, row);
    }
  }

  // ---------------------------------------------------------------------------------------------
  // Converting what a batch fetches

  function Fetched(t: Table, ids: seq<int>): seq<Row> {
    if ids == [] then []
    else
      Fetched(t, ids[..|ids| - 1]) + if ids[|ids| - 1] in t.rows then [t.rows[ids[|ids| - 1]]] else []
  }

  lemma ConvertedSnoc(t: Table, rows: seq<Row>, row: Row)
    ensures Converted(t, rows + [row]) == Converted(t, rows) + AsRows(ConvertRow(t, row))
  {
    assert (rows + [row])[..|rows|] == rows;
  }

  lemma FetchedSnoc(t: Table, front: seq<int>, id: int)
    ensures Fetched(t, front + [id]) == Fetched(t, front) + if id in t.rows then [t.rows[id]] else []
  {
    assert (front + [id])[..|front|] == front;
  }

  lemma {:induction false} FetchedCopies(t: Table, ids: seq<int>, row: Row)
    ensures Copies(Converted(t, Fetched(t, ids)), row) == CopiesOf(t, ids, row)
    decreases |ids|
  {
    if ids != [] {
      var front, id := ids[..|ids| - 1], ids[|ids| - 1];
      FetchedCopies(t, front, row);
      if id in t.rows {
        ConvertedSnoc(t, Fetched(t, front), t.rows[id]);
        OneConverted(Converted(t, Fetched(t, front)), ConvertRow(t, t.rows[id]), row);
      } else {
        assert Fetched(t, front) + [] == Fetched(t, front);
      }
    }
  }

  lemma OneConverted(rows: seq<Row>, converted: Option<Row>, row: Row)
    ensures Copies(rows + AsRows(converted), row) == Copies(rows, row) + if converted == Some(row) then 1 else 0
  {
    if converted.Some? { assert (rows + [converted.value])[..|rows|] == rows; } else { assert rows + [] == rows; }
  }
}
