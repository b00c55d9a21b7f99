/** Sums and maxima over finite maps, independent of the order of their keys. */
module Sums {

  ghost function Sum<K(!new)>(m: map<K, int>): int
    decreases |m|
  {
    if m == map[] then 0
    else
      var k :| k in m;
      m[k] + Sum(m - {k})
  }

  lemma SumOfNothing<K(!new)>()
    ensures Sum<K>(map[]) == 0
  {}

  /** Any key may be taken out first. */
  lemma {:induction false} SumRemove<K(!new)>(m: map<K, int>, k: K)
    requires k in m
    ensures Sum(m) == m[k] + Sum(m - {k})
    decreases |m|
  {
    var first :| first in m && Sum(m) == m[first] + Sum(m - {first});
    if first != k {
      SumRemove(m - {first}, k);
      SumRemove(m - {k}, first);
      assert m - {first} - {k} == m - {k} - {first};
    }
  }

  lemma SumAdd<K(!new)>(m: map<K, int>, k: K, x: int)
    requires k !in m
    ensures Sum(m[k := x]) == Sum(m) + x
  {
    SumRemove(m[k := x], k);
    assert m[k := x] - {k} == m;
  }

  /** Sums add up key by key. */
  lemma {:induction false} SumPlus<K(!new)>(a: map<K, int>, b: map<K, int>, c: map<K, int>)
    requires a.Keys == b.Keys == c.Keys
    requires forall k | k in a :: c[k] == a[k] + b[k]
    ensures Sum(c) == Sum(a) + Sum(b)
    decreases |a|
  {
    if a.Keys == {} {
      assert a == map[] && b == map[] && c == map[];
    } else {
      var k :| k in a;
      SumRemove(a, k);
      SumRemove(b, k);
      SumRemove(c, k);
      SumPlus(a - {k}, b - {k}, c - {k});
    }
  }

  lemma {:induction false} SumMonotone<K(!new)>(a: map<K, int>, b: map<K, int>)
    requires a.Keys == b.Keys
    requires forall k | k in a :: a[k] <= b[k]
    ensures Sum(a) <= Sum(b)
    decreases |a|
  {
    if a.Keys == {} {
      assert a == map[] && b == map[];
    } else {
      var k :| k in a;
      SumRemove(a, k);
      SumRemove(b, k);
      SumMonotone(a - {k}, b - {k});
    }
  }

  lemma {:induction false} SumConstant<K(!new)>(m: map<K, int>, x: int)
    requires forall k | k in m :: m[k] == x
    ensures Sum(m) == |m| * x
    decreases |m|
  {
    if m != map[] {
      var k :| k in m;
      SumRemove(m, k);
      assert |m - {k}| == |m| - 1 by {
        assert (m - {k}).Keys == m.Keys - {k};
      }
      SumConstant(m - {k}, x);
    }
  }

  /** The greatest value, but at least 0. */
  ghost predicate IsTop<K(!new)>(m: map<K, int>, t: int) {
    && t >= 0
    && (forall k | k in m :: m[k] <= t)
    && (t == 0 || exists k :: k in m && m[k] == t)
  }

  ghost function Top<K(!new)>(m: map<K, int>): (t: int)
    ensures IsTop(m, t)
    decreases |m|
  {
    if m == map[] then 0
    else
      var k :| k in m;
      var rest := Top(m - {k});
      assert forall j | j in m :: j == k || j in m - {k};
      if m[k] > rest then m[k] else rest
  }

  /** The greatest value left when one key that attains the greatest is gone. */
  ghost function Second<K(!new)>(m: map<K, int>): int {
    if k :| k in m && m[k] == Top(m) then Top(m - {k}) else Top(m)
  }

  ghost function TopsWithoutOne<K(!new)>(m: map<K, int>): map<K, int> {
    map k | k in m :: Top(m - {k})
  }

  /** Leaving out one key in turn costs the greatest value exactly once. */
  lemma SumOfTopsWithoutOne<K(!new)>(m: map<K, int>)
    requires m != map[]
    requires forall k | k in m :: m[k] >= 0
    ensures Sum(TopsWithoutOne(m)) == (|m| - 1) * Top(m) + Second(m)
  {
    hide Sum, Top, Second, TopsWithoutOne, IsTop;
    var best := BestKey(m);
    var tops := TopsWithoutOne(m);
    TopsWithoutBest(m, best);
    SumRemove(tops, best);
    SumConstant(tops - {best}, Top(m));
  }

  lemma TopsWithoutBest<K(!new)>(m: map<K, int>, best: K)
    requires best in m && m[best] == Top(m)
    ensures var tops := TopsWithoutOne(m);
            && best in tops && tops[best] == Top(m - {best})
            && (forall k | k in tops - {best} :: (tops - {best})[k] == Top(m))
            && |tops - {best}| == |m| - 1
  {
    hide Top, IsTop;
    var tops := TopsWithoutOne(m);
    forall k | k in tops - {best} ensures tops[k] == Top(m) {
      TopWithout(m, best, k);
    }
    OneKeyLess(m, tops, best);
  }

  lemma OneKeyLess<K(!new), V(!new)>(m: map<K, V>, n: map<K, V>, k: K)
    requires m.Keys == n.Keys && k in m
    ensures |n - {k}| == |m| - 1
  {
    assert (n - {k}).Keys == m.Keys - {k};
    assert |(n - {k}).Keys| == |m.Keys - {k}| == |m.Keys| - 1;
  }

  lemma BestKey<K(!new)>(m: map<K, int>) returns (best: K)
    requires m != map[]
    requires forall k | k in m :: m[k] >= 0
    ensures best in m && m[best] == Top(m) && Second(m) == Top(m - {best})
  {
    SomeKeyIsTop(m);
    best :| best in m && m[best] == Top(m) && Second(m) == Top(m - {best});
  }

  /** Leaving out another key than the best leaves the greatest value. */
  lemma TopWithout<K(!new)>(m: map<K, int>, best: K, k: K)
    requires best in m && m[best] == Top(m) && k != best
    ensures Top(m - {k}) == Top(m)
  {
    assert best in m - {k} && (m - {k})[best] == Top(m);
    TopMonotone(m - {k}, m);
  }

  /** A map with more keys and larger values has no smaller top. */
  lemma TopMonotone<K(!new)>(a: map<K, int>, b: map<K, int>)
    requires forall k | k in a :: k in b && a[k] <= b[k]
    ensures Top(a) <= Top(b)
  {}

  lemma SomeKeyIsTop<K(!new)>(m: map<K, int>)
    requires m != map[]
    requires forall k | k in m :: m[k] >= 0
    ensures exists k :: k in m && m[k] == Top(m)
  {}
}
