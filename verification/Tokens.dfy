/** Stream tokens (synapse/types/__init__.py): positions in streams that may have several writers, and
    the advance that merges two of them.
 */
module Tokens {

  /** A position that holds for every writer except those listed with a position of their own. */
  datatype Position = Position(stream: nat, instances: map<string, nat>)

  function PosFor(p: Position, instance: string): nat {
    if instance in p.instances then p.instances[instance] else p.stream
  }

  function Max(a: nat, b: nat): nat {
    if a < b then b else a
  }

  function Merge(p: Position, q: Position): Position {
    Position(Max(p.stream, q.stream),
             map i | i in p.instances.Keys + q.instances.Keys :: Max(PosFor(p, i), PosFor(q, i)))
  }

  /** Where an event was persisted, and by which writer. */
  datatype EventPosition = EventPosition(instance: string, stream: nat)

  predicate PersistedAfter(e: EventPosition, p: Position) {
    PosFor(p, e.instance) < e.stream
  }

  /** An event is after a merged position exactly if it is after both. */
  lemma AfterMergeIffAfterBoth(e: EventPosition, p: Position, q: Position)
    ensures PersistedAfter(e, Merge(p, q)) <==> PersistedAfter(e, p) && PersistedAfter(e, q)
  {
    assert PosFor(Merge(p, q), e.instance) == Max(PosFor(p, e.instance), PosFor(q, e.instance));
  }

  datatype Field = Presence | Typing | AccountData | PushRules | ToDevice | DeviceList | UnPartialStatedRooms

  datatype Token = Token(room: Position, receipt: Position, others: map<Field, nat>)

  datatype Advance = RoomAdvance(to: Position) | ReceiptAdvance(to: Position) | FieldAdvance(field: Field, id: nat)

  function FieldOf(t: Token, f: Field): nat {
    if f in t.others then t.others[f] else 0
  }

  function Advanced(t: Token, a: Advance): Token {
    match a
    case RoomAdvance(p) => t.(room := Merge(t.room, p))
    case ReceiptAdvance(p) => t.(receipt := Merge(t.receipt, p))
    case FieldAdvance(f, id) => if FieldOf(t, f) < id then t.(others := t.others[f := id]) else t
  }

  ghost predicate PositionLeq(p: Position, q: Position) {
    && p.stream <= q.stream
    && p.instances.Keys <= q.instances.Keys
    && (forall i :: PosFor(p, i) <= PosFor(q, i))
  }

  ghost predicate TokenLeq(t: Token, u: Token) {
    && PositionLeq(t.room, u.room)
    && PositionLeq(t.receipt, u.receipt)
    && t.others.Keys <= u.others.Keys
    && (forall f :: FieldOf(t, f) <= FieldOf(u, f))
  }

  lemma AdvanceOnlyAdvances(t: Token, a: Advance)
    ensures TokenLeq(t, Advanced(t, a))
  {
  }

  /** An event is after a position exactly if its writer had not come as far by then. */
  lemma AfterItsWriter(e: EventPosition, p: Position)
    ensures e.instance in p.instances ==> (PersistedAfter(e, p) <==> p.instances[e.instance] < e.stream)
    ensures e.instance !in p.instances ==> (PersistedAfter(e, p) <==> p.stream < e.stream)
  {
  }

  /** Advancing a stream brings it at least to the given position, no further than either, and moves no
      other stream. */
  lemma AdvanceReaches(t: Token, a: Advance, i: string, f: Field)
    ensures a.RoomAdvance? ==>
              && PosFor(Advanced(t, a).room, i) == Max(PosFor(t.room, i), PosFor(a.to, i))
              && Advanced(t, a).receipt == t.receipt && Advanced(t, a).others == t.others
    ensures a.ReceiptAdvance? ==>
              && PosFor(Advanced(t, a).receipt, i) == Max(PosFor(t.receipt, i), PosFor(a.to, i))
              && Advanced(t, a).room == t.room && Advanced(t, a).others == t.others
    ensures a.FieldAdvance? ==>
              && FieldOf(Advanced(t, a), f) == (if f == a.field then Max(FieldOf(t, f), a.id) else FieldOf(t, f))
              && Advanced(t, a).room == t.room && Advanced(t, a).receipt == t.receipt
  {
  }

  lemma PositionAntisymmetric(p: Position, q: Position)
    requires PositionLeq(p, q) && PositionLeq(q, p)
    ensures p == q
  {
    forall i | i in p.instances ensures p.instances[i] == q.instances[i] {
      assert PosFor(p, i) <= PosFor(q, i) <= PosFor(p, i);
    }
  }

  lemma TokenAntisymmetric(t: Token, u: Token)
    requires TokenLeq(t, u) && TokenLeq(u, t)
    ensures t == u
  {
    PositionAntisymmetric(t.room, u.room);
    PositionAntisymmetric(t.receipt, u.receipt);
    forall f | f in t.others ensures t.others[f] == u.others[f] {
      assert FieldOf(t, f) <= FieldOf(u, f) <= FieldOf(t, f);
    }
  }

  lemma TokenTransitive(t: Token, u: Token, v: Token)
    requires TokenLeq(t, u) && TokenLeq(u, v)
    ensures TokenLeq(t, v)
  {
    forall i ensures PosFor(t.room, i) <= PosFor(v.room, i) { assert PosFor(t.room, i) <= PosFor(u.room, i); }
    forall i ensures PosFor(t.receipt, i) <= PosFor(v.receipt, i) { assert PosFor(t.receipt, i) <= PosFor(u.receipt, i); }
    forall f ensures FieldOf(t, f) <= FieldOf(v, f) { assert FieldOf(t, f) <= FieldOf(u, f); }
  }

  /** A token that has moved on from a value never comes back to it. */
  lemma TokenNeverReturns(t: Token, u: Token, v: Token)
    requires TokenLeq(t, u) && t != u && TokenLeq(u, v)
    ensures TokenLeq(t, v) && t != v
  {
    TokenTransitive(t, u, v);
    if t == v { TokenAntisymmetric(t, u); }
  }
}
