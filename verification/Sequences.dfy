/** Sequences mapped element by element, their sums, and permutations of them. */
module Sequences {

  function Total(s: seq<int>): int {
    if s == [] then 0 else Total(s[..|s| - 1]) + s[|s| - 1]
  }

  function Map<A, B>(f: A -> B, s: seq<A>): (r: seq<B>)
    ensures |r| == |s|
    ensures forall i | 0 <= i < |s| :: r[i] == f(s[i])
  {
    if s == [] then [] else Map(f, s[..|s| - 1]) + [f(s[|s| - 1])]
  }

  lemma {:induction false} MapJoins<A, B>(f: A -> B, s: seq<A>, t: seq<A>)
    ensures Map(f, s + t) == Map(f, s) + Map(f, t)
  {}

  /** Without their last element and its counterpart, permutations stay permutations. */
  lemma TakeOut<A>(s: seq<A>, t: seq<A>) returns (before: seq<A>, after: seq<A>)
    requires s != [] && multiset(s) == multiset(t)
    ensures t == before + [s[|s| - 1]] + after
    ensures multiset(s[..|s| - 1]) == multiset(before + after)
  {
    var last := s[|s| - 1];
    assert last in multiset(t);
    var i :| 0 <= i < |t| && t[i] == last;
    before, after := t[..i], t[i + 1..];
    assert s == s[..|s| - 1] + [last];
    assert t == before + [last] + after;
    assert multiset(s) == multiset(s[..|s| - 1]) + multiset{last};
    assert multiset(t) == multiset(before + after) + multiset{last};
    SameRest(multiset(s[..|s| - 1]), multiset(before + after), last);
  }

  lemma SameRest<A>(a: multiset<A>, b: multiset<A>, x: A)
    requires a + multiset{x} == b + multiset{x}
    ensures a == b
  {
    assert a == (a + multiset{x}) - multiset{x};
    assert b == (b + multiset{x}) - multiset{x};
  }

  lemma SameLength<A>(s: seq<A>, t: seq<A>)
    requires multiset(s) == multiset(t)
    ensures |s| == |t|
  {
    assert |multiset(s)| == |multiset(t)|;
  }

  /** A permutation of the arguments is a permutation of the results. */
  lemma {:induction false} MapPermutes<A, B>(f: A -> B, s: seq<A>, t: seq<A>)
    requires multiset(s) == multiset(t)
    ensures multiset(Map(f, s)) == multiset(Map(f, t))
  {
    SameLength(s, t);
    if s != [] {
      var init, last := s[..|s| - 1], s[|s| - 1];
      var before, after := TakeOut(s, t);
      MapPermutes(f, init, before + after);
      MapJoins(f, before, after);
      MapJoins(f, before + [last], after);
      MapJoins(f, before, [last]);
      assert Map(f, [last]) == [f(last)];
      assert Map(f, s) == Map(f, init) + [f(last)];
      hide Map;
    }
  }
}
