/** Sums over finite maps and sizes of finite sets. */
module Sums {
  ghost function Sum(m: map<int, nat>): nat
    decreases |m|
  {
    if m.Keys == {} then 0 else m[Pick(m.Keys)] + Sum(m - {Pick(m.Keys)})
  }

  ghost function Pick<T>(keys: set<T>): (r: T)
    requires keys != {}
    ensures r in keys
  {
    var k :| k in keys; k
  }

  lemma {:induction false} SumWithout(m: map<int, nat>, k: int)
    requires k in m
    ensures Sum(m) == m[k] + Sum(m - {k})
    decreases |m|
  {
    var j := Pick(m.Keys);
    if j != k {
      SumWithout(m - {j}, k);
      SumWithout(m - {k}, j);
      assert m - {j} - {k} == m - {k} - {j};
    }
  }

  lemma SumUpdate(m: map<int, nat>, k: int, v: nat)
    ensures Sum(m[k := v]) == v + Sum(m) - (if k in m then m[k] else 0)
  {
    SumWithout(m[k := v], k);
    assert m[k := v] - {k} == m - {k};
    if k in m { SumWithout(m, k); } else { assert m - {k} == m; }
  }

  lemma UnionSize<T>(a: set<T>, b: set<T>)
    ensures |a + b| <= |a| + |b|
  {
    assert a + b == a + (b - a);
    assert |b - a| <= |b| by { SubsetSize(b - a, b); }
  }

  lemma {:induction false} SubsetSize<T>(a: set<T>, b: set<T>)
    requires a <= b
    ensures |a| <= |b|
    decreases a
  {
    if x :| x in a { SubsetSize(a - {x}, b - {x}); }
  }

  /** Distinct items make a set of as many. */
  lemma {:induction false} DistinctSize<T>(items: seq<T>)
    requires forall i, j | 0 <= i < j < |items| :: items[i] != items[j]
    ensures |set x | x in items| == |items|
  {
    if items != [] {
      var front := items[..|items| - 1];
      DistinctSize(front);
      assert (set x | x in items) == (set x | x in front) + {items[|items| - 1]};
    }
  }
}
