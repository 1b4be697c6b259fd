/** Sums over the rows of a collection, whatever order they are visited in. */
module Totals {

  ghost function Total(m: map<nat, int>, ids: set<nat>): int
    requires ids <= m.Keys
  {
    if ids == {} then 0
    else
      var i :| i in ids;
      m[i] + Total(m, ids - {i})
  }

  lemma {:induction false} TotalRemove(m: map<nat, int>, ids: set<nat>, i: nat)
    requires ids <= m.Keys && i in ids
    ensures Total(m, ids) == m[i] + Total(m, ids - {i})
    decreases ids
  {
    var j :| j in ids && Total(m, ids) == m[j] + Total(m, ids - {j});
    if j != i {
      TotalRemove(m, ids - {j}, i);
      TotalRemove(m, ids - {i}, j);
      assert ids - {j} - {i} == ids - {i} - {j};
    }
  }

  lemma TotalAdd(m: map<nat, int>, ids: set<nat>, i: nat)
    requires ids <= m.Keys && i in m && i !in ids
    ensures Total(m, ids + {i}) == Total(m, ids) + m[i]
  {
    TotalRemove(m, ids + {i}, i);
    assert ids + {i} - {i} == ids;
  }

  lemma {:induction false} TotalSame(m: map<nat, int>, n: map<nat, int>, ids: set<nat>)
    requires ids <= m.Keys && ids <= n.Keys && forall i :: i in ids ==> m[i] == n[i]
    ensures Total(m, ids) == Total(n, ids)
    decreases ids
  {
    if ids != {} {
      var i :| i in ids;
      TotalRemove(m, ids, i);
      TotalRemove(n, ids, i);
      TotalSame(m, n, ids - {i});
    }
  }

  lemma {:induction false} TotalUnion(m: map<nat, int>, a: set<nat>, b: set<nat>)
    requires a <= m.Keys && b <= m.Keys && a !! b
    ensures Total(m, a + b) == Total(m, a) + Total(m, b)
    decreases b
  {
    if b == {} {
      assert a + b == a;
    } else {
      var i :| i in b;
      TotalUnion(m, a, b - {i});
      TotalRemove(m, b, i);
      TotalRemove(m, a + b, i);
      assert a + b - {i} == a + (b - {i});
    }
  }

  /** The two maps differ on one row only. */
  lemma TotalOneChanged(m: map<nat, int>, n: map<nat, int>, ids: set<nat>, i: nat)
    requires ids <= m.Keys && ids <= n.Keys && i in ids
    requires forall j :: j in ids && j != i ==> m[j] == n[j]
    ensures Total(n, ids) - Total(m, ids) == n[i] - m[i]
  {
    TotalRemove(m, ids, i);
    TotalRemove(n, ids, i);
    TotalSame(m, n, ids - {i});
  }

  lemma {:induction false} TotalBounds(m: map<nat, int>, ids: set<nat>)
    requires ids <= m.Keys && forall i :: i in ids ==> m[i] >= 0
    ensures Total(m, ids) >= 0
    decreases ids
  {
    if ids != {} {
      var i :| i in ids;
      TotalRemove(m, ids, i);
      TotalBounds(m, ids - {i});
    }
  }

  /** Totals add up row by row. */
  lemma {:induction false} TotalDifference(m: map<nat, int>, n: map<nat, int>, d: map<nat, int>, ids: set<nat>)
    requires ids <= m.Keys && ids <= n.Keys && ids <= d.Keys
    requires forall i :: i in ids ==> d[i] == m[i] - n[i]
    ensures Total(d, ids) == Total(m, ids) - Total(n, ids)
    decreases ids
  {
    if ids != {} {
      var i :| i in ids;
      TotalRemove(m, ids, i);
      TotalRemove(n, ids, i);
      TotalRemove(d, ids, i);
      TotalDifference(m, n, d, ids - {i});
    }
  }
}
