/**
  Count/sum totals over the entries of a map, in no particular order. This is the
  independent reference the recompute loop and the cross-store invariant are
  compared against: "the sum of the counts and of the sums of these buckets".
*/
module Tally {
  datatype Totals = Totals(count: int, sum: real)

  const NoTotals := Totals(0, 0.0)

  function Plus(a: Totals, b: Totals): Totals
  {
    Totals(a.count + b.count, a.sum + b.sum)
  }

  lemma PlusZero(x: Totals)
    ensures Plus(x, NoTotals) == x && Plus(NoTotals, x) == x
  {
  }

  lemma PlusCancel(x: Totals, y: Totals, b: Totals, t: Totals)
    requires Plus(x, b) == Plus(y, Plus(b, t))
    ensures x == Plus(y, t)
  {
  }

  /** The totals of all the entries of `m`. */
  ghost function Total<K>(m: map<K, Totals>): Totals
    decreases |m|
  {
    if m == map[] then NoTotals
    else
      var k :| k in m;
      Plus(m[k], Total(m - {k}))
  }

  /** Any entry can be taken out first. */
  lemma {:induction false} TotalRemove<K>(m: map<K, Totals>, k: K)
    requires k in m
    ensures Total(m) == Plus(m[k], Total(m - {k}))
    decreases |m|
  {
    var j :| j in m && Total(m) == Plus(m[j], Total(m - {j}));
    if j != k {
      var mj, mk := m - {j}, m - {k};
      assert mj.Keys == m.Keys - {j};
      assert mk.Keys == m.Keys - {k};
      TotalRemove(mj, k);
      TotalRemove(mk, j);
      var rest := mj - {k};
      assert rest == mk - {j};
      assert mj[k] == m[k] && mk[j] == m[j];
      calc {
        Total(m);
        Plus(m[j], Plus(m[k], Total(rest)));
        Plus(m[k], Plus(m[j], Total(rest)));
        Plus(m[k], Total(mk));
      }
    }
  }

  /** Replacing (or adding) one entry changes the total by exactly that entry. */
  lemma TotalUpdate<K>(m: map<K, Totals>, k: K, t: Totals)
    ensures Total(m[k := t]) == Plus(t, Total(m - {k}))
  {
    TotalRemove(m[k := t], k);
    assert m[k := t] - {k} == m - {k};
  }

  /** Replacing (or adding) one entry changes the total by the new entry minus the old one. */
  lemma TotalReplace<K>(m: map<K, Totals>, k: K, t: Totals)
    ensures Plus(Total(m[k := t]), if k in m then m[k] else NoTotals) == Plus(Total(m), t)
  {
    TotalUpdate(m, k, t);
    if k in m {
      TotalRemove(m, k);
    } else {
      assert m - {k} == m;
    }
  }

  /** Adding `delta` to one entry (a missing entry counting as zero) adds `delta` to the total. */
  lemma TotalShift<K>(m: map<K, Totals>, m': map<K, Totals>, k: K, delta: Totals)
    requires m' == m[k := Plus(if k in m then m[k] else NoTotals, delta)]
    ensures Total(m') == Plus(Total(m), delta)
  {
    var before := if k in m then m[k] else NoTotals;
    TotalReplace(m, k, Plus(before, delta));
    PlusCancel(Total(m'), Total(m), before, delta);
  }

  /** A map whose entries are all zero totals to zero. */
  lemma {:induction false} TotalOfZeros<K>(m: map<K, Totals>)
    requires forall k :: k in m ==> m[k] == NoTotals
    ensures Total(m) == NoTotals
    decreases |m|
  {
    if m != map[] {
      var k :| k in m && Total(m) == Plus(m[k], Total(m - {k}));
      var rest := m - {k};
      assert rest.Keys == m.Keys - {k};
      TotalOfZeros(rest);
    }
  }
}
