/** Sums over maps keyed by stream, and how they follow a change to one entry. */
module Sums {
  import opened Frame

  ghost function Pick<V>(m: map<StreamId, V>): StreamId
    requires m != map[]
    ensures Pick(m) in m
  {
    assert m.Keys != {};
    var id :| id in m.Keys;
    id
  }

  ghost function Total<V>(m: map<StreamId, V>, weigh: V -> nat): nat
    decreases |m|
  {
    if m == map[] then 0
    else
      var id := Pick(m);
      weigh(m[id]) + Total(m - {id}, weigh)
  }

  lemma {:induction false} TotalSplit<V>(m: map<StreamId, V>, weigh: V -> nat, id: StreamId)
    requires id in m
    ensures Total(m, weigh) == weigh(m[id]) + Total(m - {id}, weigh)
    decreases |m|
  {
    var pick := Pick(m);
    if pick != id {
      var rest := m - {pick};
      TotalSplit(rest, weigh, id);
      TotalSplit(m - {id}, weigh, pick);
      assert rest - {id} == (m - {id}) - {pick};
    }
  }

  lemma TotalPut<V>(m: map<StreamId, V>, weigh: V -> nat, id: StreamId, s: V)
    ensures Total(m[id := s], weigh) ==
            weigh(s) + (if id in m then Total(m, weigh) - weigh(m[id]) else Total(m, weigh))
  {
    TotalSplit(m[id := s], weigh, id);
    if id in m {
      TotalSplit(m, weigh, id);
      assert m[id := s] - {id} == m - {id};
    } else {
      assert m[id := s] - {id} == m;
    }
  }

  lemma {:induction false} TotalSame<V>(a: map<StreamId, V>, b: map<StreamId, V>, weigh: V -> nat)
    requires a.Keys == b.Keys && forall id :: id in a ==> weigh(a[id]) == weigh(b[id])
    ensures Total(a, weigh) == Total(b, weigh)
    decreases |a|
  {
    if a == map[] {
      assert b.Keys == {};
      assert b == map[];
    } else {
      var id := Pick(a);
      assert b != map[];
      TotalSplit(b, weigh, id);
      TotalSame(a - {id}, b - {id}, weigh);
    }
  }

  /** Entry by entry no more means in total no more. */
  lemma {:induction false} TotalBelow<V, W>(a: map<StreamId, V>, b: map<StreamId, W>, weigh: V -> nat, bound: W -> nat)
    requires a.Keys == b.Keys && forall id :: id in a ==> weigh(a[id]) <= bound(b[id])
    ensures Total(a, weigh) <= Total(b, bound)
    decreases |a|
  {
    if a != map[] {
      var id := Pick(a);
      assert b != map[];
      TotalSplit(b, bound, id);
      TotalBelow(a - {id}, b - {id}, weigh, bound);
    }
  }
}
