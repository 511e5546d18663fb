/** Sums over finite maps, used for every "how many units are where" statement of the project. */
module Totals {

  ghost function Total(m: map<nat, int>): int
    decreases m.Keys
  {
    if m == map[] then 0
    else
      var k :| k in m;
      m[k] + Total(m - {k})
  }

  /** The key that `Total` happens to pick first does not matter. */
  lemma {:induction false} TotalRemove(m: map<nat, int>, k: nat)
    requires k in m
    ensures Total(m) == m[k] + Total(m - {k})
    decreases m.Keys
  {
    var first :| first in m && Total(m) == m[first] + Total(m - {first});
    if first != k {
      TotalRemove(m - {first}, k);
      TotalRemove(m - {k}, first);
      assert (m - {first}) - {k} == (m - {k}) - {first};
    }
  }

  /** Writing one entry changes the sum by the difference at that entry. */
  lemma TotalPut(m: map<nat, int>, k: nat, v: int)
    ensures Total(m[k := v]) == Total(m) - (if k in m then m[k] else 0) + v
  {
    var m' := m[k := v];
    TotalRemove(m', k);
    if k in m {
      TotalRemove(m, k);
      assert m' - {k} == m - {k};
    } else {
      assert m' - {k} == m;
    }
  }

  /** A sum of non-negative entries is at least each of them, and at least zero. */
  lemma {:induction false} TotalBounds(m: map<nat, int>)
    requires forall k :: k in m ==> 0 <= m[k]
    ensures 0 <= Total(m)
    ensures forall k :: k in m ==> m[k] <= Total(m)
    decreases m.Keys
  {
    if m != map[] {
      var first :| first in m && Total(m) == m[first] + Total(m - {first});
      TotalBounds(m - {first});
      assert forall k :: k in m && k != first ==> k in m - {first};
    }
  }

  /** Entrywise comparison of two maps over the same keys. */
  lemma {:induction false} TotalMonotone(a: map<nat, int>, b: map<nat, int>)
    requires a.Keys == b.Keys
    requires forall k :: k in a ==> a[k] <= b[k]
    ensures Total(a) <= Total(b)
    decreases a.Keys
  {
    if a != map[] {
      var first :| first in a && Total(a) == a[first] + Total(a - {first});
      TotalRemove(b, first);
      TotalMonotone(a - {first}, b - {first});
    } else {
      assert b == map[];
    }
  }

  /** Sums add up entry by entry. */
  lemma {:induction false} TotalSum(a: map<nat, int>, b: map<nat, int>, c: map<nat, int>)
    requires a.Keys == b.Keys == c.Keys
    requires forall k :: k in a ==> c[k] == a[k] + b[k]
    ensures Total(c) == Total(a) + Total(b)
    decreases a.Keys
  {
    if a != map[] {
      var first :| first in a && Total(a) == a[first] + Total(a - {first});
      TotalRemove(b, first);
      TotalRemove(c, first);
      TotalSum(a - {first}, b - {first}, c - {first});
    } else {
      assert b == map[] && c == map[];
    }
  }

  /** A finite map never uses every natural number as a key. */
  lemma {:induction false} FreshKey(keys: set<nat>) returns (k: nat)
    ensures k !in keys
    ensures forall j :: j in keys ==> j < k
    decreases keys
  {
    if keys == {} {
      k := 0;
    } else {
      var j :| j in keys;
      var k' := FreshKey(keys - {j});
      k := if j < k' then k' else j + 1;
      assert forall i :: i in keys && i != j ==> i in keys - {j};
    }
  }
}
