/** Sums of the integer values of a finite map: what SQL's sum() does to a column of a relation. */
module Sums {

  ghost function Sum<T>(m: map<T, int>): int {
    if m == map[] then 0 else var t :| t in m; m[t] + Sum(m - {t})
  }

  /** The order in which values are added does not matter. */
  lemma {:induction false} SumRemove<T>(m: map<T, int>, t: T)
    requires t in m
    ensures Sum(m) == m[t] + Sum(m - {t})
    decreases |m|
  {
    var u :| u in m && Sum(m) == m[u] + Sum(m - {u});
    if u != t {
      SumRemove(m - {u}, t);
      SumRemove(m - {t}, u);
      assert m - {u} - {t} == m - {t} - {u};
    }
  }

  /** A map split into two parts adds up to the sums of the parts. */
  lemma {:induction false} SumSplit<T>(m: map<T, int>, a: map<T, int>, b: map<T, int>)
    requires forall t | t in m :: t in a || t in b
    requires forall t | t in a :: t in m && t !in b && m[t] == a[t]
    requires forall t | t in b :: t in m && m[t] == b[t]
    ensures Sum(m) == Sum(a) + Sum(b)
    decreases |a|
  {
    if a == map[] {
      assert m == b;
    } else {
      var t :| t in a;
      SumSplit(m - {t}, a - {t}, b);
      SumRemove(a, t);
      SumRemove(m, t);
    }
  }

  lemma {:induction false} SumOrder<T>(a: map<T, int>, b: map<T, int>)
    requires a.Keys == b.Keys && forall t | t in a :: a[t] <= b[t]
    ensures Sum(a) <= Sum(b)
    decreases |a|
  {
    if a == map[] {
      assert b == map[];
    } else {
      var t :| t in a;
      SumRemove(a, t);
      SumRemove(b, t);
      SumOrder(a - {t}, b - {t});
    }
  }

  lemma {:induction false} SumAdd<T>(a: map<T, int>, b: map<T, int>, c: map<T, int>)
    requires a.Keys == b.Keys == c.Keys && forall t | t in a :: c[t] == a[t] + b[t]
    ensures Sum(c) == Sum(a) + Sum(b)
    decreases |a|
  {
    if a == map[] {
      assert b == map[] && c == map[];
    } else {
      var t :| t in a;
      SumAdd(a - {t}, b - {t}, c - {t});
      SumRemove(a, t);
      SumRemove(b, t);
      SumRemove(c, t);
    }
  }

  lemma {:induction false} SumOfOnes<T>(m: map<T, int>)
    requires forall t | t in m :: m[t] == 1
    ensures Sum(m) == |m|
    decreases |m|
  {
    if m != map[] {
      var t :| t in m;
      SumRemove(m, t);
      SumOfOnes(m - {t});
    }
  }

  lemma {:induction false} SumOfZeros<T>(m: map<T, int>)
    requires forall t | t in m :: m[t] == 0
    ensures Sum(m) == 0
    decreases |m|
  {
    if m != map[] {
      var t :| t in m;
      SumRemove(m, t);
      SumOfZeros(m - {t});
    }
  }

  /** The entries of one group. */
  ghost function Group<T, K>(m: map<T, int>, groups: map<T, K>, k: K): map<T, int>
    requires forall t | t in m :: t in groups
  {
    map t | t in m && groups[t] == k :: m[t]
  }

  lemma SumUpdate<K>(sums: map<K, int>, k: K, v: int)
    requires k in sums
    ensures Sum(sums[k := v]) == Sum(sums) - sums[k] + v
  {
    SumRemove(sums, k);
    SumRemove(sums[k := v], k);
    assert sums[k := v] - {k} == sums - {k};
  }

  lemma GroupRemove<T, K>(m: map<T, int>, groups: map<T, K>, t: T, k: K)
    requires t in m && forall u | u in m :: u in groups
    ensures Sum(Group(m, groups, k))
            == (if groups[t] == k then m[t] else 0) + Sum(Group(m - {t}, groups, k))
  {
    if groups[t] == k {
      SumRemove(Group(m, groups, k), t);
      assert Group(m, groups, k) - {t} == Group(m - {t}, groups, k);
    } else {
      assert Group(m, groups, k) == Group(m - {t}, groups, k);
    }
  }

  lemma GroupsRemove<T, K>(m: map<T, int>, groups: map<T, K>, sums: map<K, int>, t: T, fewer: map<K, int>)
    requires (forall u | u in m :: u in groups && groups[u] in sums) && t in m
    requires forall k | k in sums :: sums[k] == Sum(Group(m, groups, k))
    requires fewer == sums[groups[t] := sums[groups[t]] - m[t]]
    ensures forall j | j in fewer :: fewer[j] == Sum(Group(m - {t}, groups, j))
  {
    forall j | j in fewer ensures fewer[j] == Sum(Group(m - {t}, groups, j)) {
      GroupRemove(m, groups, t, j);
    }
  }

  /** Adding up group by group adds up everything once. */
  lemma {:induction false} SumByGroups<T, K>(m: map<T, int>, groups: map<T, K>, sums: map<K, int>)
    requires forall t | t in m :: t in groups && groups[t] in sums
    requires forall k | k in sums :: sums[k] == Sum(Group(m, groups, k))
    ensures Sum(sums) == Sum(m)
    decreases |m|
  {
    if m == map[] {
      forall k | k in sums ensures sums[k] == 0 {
        assert Group(m, groups, k) == map[];
      }
      SumOfZeros(sums);
    } else {
      var t :| t in m;
      var k := groups[t];
      var fewer := sums[k := sums[k] - m[t]];
      GroupsRemove(m, groups, sums, t, fewer);
      SumByGroups(m - {t}, groups, fewer);
      SumRemove(m, t);
      SumUpdate(sums, k, sums[k] - m[t]);
    }
  }
}
