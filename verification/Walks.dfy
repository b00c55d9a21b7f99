/** Walks over an adjacency map, their length in hops and their cost in turns.

    This module is the yardstick for the searches in module Graph: it says what
    the least number of hops and the least total cost mean, without saying how
    either is found. */
module Walks {

  datatype Edge = Edge(to: string, pathId: string, cost: int)

  type Adjacency = map<string, seq<Edge>>

  /** The edges leaving `r`; a region nobody mentioned has none. */
  function EdgesFrom(adj: Adjacency, r: string): seq<Edge> {
    if r in adj then adj[r] else []
  }

  /** Where a walk that starts in `src` and follows `es` ends. */
  function End(src: string, es: seq<Edge>): string {
    if es == [] then src else es[|es| - 1].to
  }

  predicate FollowsEdges(adj: Adjacency, src: string, es: seq<Edge>) {
    es == [] ||
    var init := es[..|es| - 1];
    FollowsEdges(adj, src, init) && es[|es| - 1] in EdgesFrom(adj, End(src, init))
  }

  predicate IsWalk(adj: Adjacency, src: string, es: seq<Edge>, dst: string) {
    FollowsEdges(adj, src, es) && End(src, es) == dst
  }

  function Cost(es: seq<Edge>): int {
    if es == [] then 0 else Cost(es[..|es| - 1]) + es[|es| - 1].cost
  }

  ghost predicate Reachable(adj: Adjacency, src: string, dst: string) {
    exists es :: IsWalk(adj, src, es, dst)
  }

  predicate NonNegative(adj: Adjacency) {
    forall r | r in adj :: forall e | e in adj[r] :: e.cost >= 0
  }

  /** Every region a search from `src` can ever meet. */
  function Universe(adj: Adjacency, src: string): set<string> {
    {src} + set r, e | r in adj && e in adj[r] :: e.to
  }

  lemma EdgeInUniverse(adj: Adjacency, src: string, r: string, e: Edge)
    requires e in EdgesFrom(adj, r)
    ensures e.to in Universe(adj, src)
  {}

  lemma ExtendWalk(adj: Adjacency, src: string, es: seq<Edge>, mid: string, e: Edge)
    requires IsWalk(adj, src, es, mid)
    requires e in EdgesFrom(adj, mid)
    ensures IsWalk(adj, src, es + [e], e.to)
    ensures Cost(es + [e]) == Cost(es) + e.cost
  {}

  lemma {:induction false} CostNonNegative(adj: Adjacency, src: string, es: seq<Edge>)
    requires NonNegative(adj)
    requires FollowsEdges(adj, src, es)
    ensures Cost(es) >= 0
  {
    if es != [] {
      CostNonNegative(adj, src, es[..|es| - 1]);
    }
  }

  // ----- least number of hops ------------------------------------------------

  ghost predicate IsMinHops(adj: Adjacency, src: string, dst: string, n: int) {
    && (exists es :: IsWalk(adj, src, es, dst) && |es| == n)
    && (forall es :: IsWalk(adj, src, es, dst) ==> n <= |es|)
  }

  /** The least number of edges from `src` to `dst`, or -1 if there is no walk. */
  ghost function MinHops(adj: Adjacency, src: string, dst: string): (n: int)
    ensures n >= 0 ==> IsMinHops(adj, src, dst, n)
    ensures n < 0 ==> n == -1 && !Reachable(adj, src, dst)
  {
    if Reachable(adj, src, dst) then
      var es :| IsWalk(adj, src, es, dst);
      MinHopsExists(adj, src, dst, es);
      var n :| IsMinHops(adj, src, dst, n);
      n
    else -1
  }

  lemma {:induction false} MinHopsExists(adj: Adjacency, src: string, dst: string, es: seq<Edge>)
    requires IsWalk(adj, src, es, dst)
    ensures exists n :: IsMinHops(adj, src, dst, n)
    decreases |es|
  {
    if better :| IsWalk(adj, src, better, dst) && |better| < |es| {
      MinHopsExists(adj, src, dst, better);
    } else {
      assert IsMinHops(adj, src, dst, |es|);
    }
  }

  lemma MinHopsIs(adj: Adjacency, src: string, dst: string, n: int)
    requires IsMinHops(adj, src, dst, n)
    ensures MinHops(adj, src, dst) == n
  {}

  // ----- least cost in turns -------------------------------------------------

  ghost predicate IsMinCost(adj: Adjacency, src: string, dst: string, c: int) {
    && (exists es :: IsWalk(adj, src, es, dst) && Cost(es) == c)
    && (forall es :: IsWalk(adj, src, es, dst) ==> c <= Cost(es))
  }

  /** The least total cost over all walks from `src` to `dst`, or -1 if there is none. */
  ghost function MinTurns(adj: Adjacency, src: string, dst: string): (c: int)
    requires NonNegative(adj)
    ensures c >= 0 ==> IsMinCost(adj, src, dst, c)
    ensures c < 0 ==> c == -1 && !Reachable(adj, src, dst)
  {
    if Reachable(adj, src, dst) then
      var es :| IsWalk(adj, src, es, dst);
      MinCostExists(adj, src, dst, es);
      var c :| IsMinCost(adj, src, dst, c);
      MinCostNonNegative(adj, src, dst, c);
      c
    else -1
  }

  lemma MinCostNonNegative(adj: Adjacency, src: string, dst: string, c: int)
    requires NonNegative(adj)
    requires IsMinCost(adj, src, dst, c)
    ensures c >= 0
  {
    var es :| IsWalk(adj, src, es, dst) && Cost(es) == c;
    CostNonNegative(adj, src, es);
  }

  lemma {:induction false} MinCostExists(adj: Adjacency, src: string, dst: string, es: seq<Edge>)
    requires NonNegative(adj)
    requires IsWalk(adj, src, es, dst)
    ensures exists c :: IsMinCost(adj, src, dst, c)
    decreases Cost(es)
  {
    CostNonNegative(adj, src, es);
    if better :| IsWalk(adj, src, better, dst) && Cost(better) < Cost(es) {
      CostNonNegative(adj, src, better);
      MinCostExists(adj, src, dst, better);
    } else {
      assert IsMinCost(adj, src, dst, Cost(es));
    }
  }

  lemma MinTurnsIs(adj: Adjacency, src: string, dst: string, c: int)
    requires NonNegative(adj)
    requires IsMinCost(adj, src, dst, c)
    ensures MinTurns(adj, src, dst) == c
  {}

  /** A walk bounds the least cost from above. */
  lemma MinTurnsBound(adj: Adjacency, src: string, es: seq<Edge>, dst: string)
    requires NonNegative(adj)
    requires IsWalk(adj, src, es, dst)
    ensures 0 <= MinTurns(adj, src, dst) <= Cost(es)
  {}

  /** Crossing one edge raises the least cost by at most the cost of that edge. */
  lemma MinTurnsEdge(adj: Adjacency, src: string, mid: string, e: Edge)
    requires NonNegative(adj)
    requires e in EdgesFrom(adj, mid)
    requires MinTurns(adj, src, mid) >= 0
    ensures 0 <= MinTurns(adj, src, e.to) <= MinTurns(adj, src, mid) + e.cost
  {
    var es :| IsWalk(adj, src, es, mid) && Cost(es) == MinTurns(adj, src, mid);
    ExtendWalk(adj, src, es, mid, e);
    MinTurnsBound(adj, src, es + [e], e.to);
  }

  // ----- undirected graphs ---------------------------------------------------

  /** Every edge can be crossed back over the same path at the same cost. */
  ghost predicate Symmetric(adj: Adjacency) {
    forall r, e | e in EdgesFrom(adj, r) :: Edge(r, e.pathId, e.cost) in EdgesFrom(adj, e.to)
  }

  lemma {:induction false} PrependWalk(adj: Adjacency, src: string, e: Edge, es: seq<Edge>, dst: string)
    requires e in EdgesFrom(adj, src)
    requires IsWalk(adj, e.to, es, dst)
    ensures IsWalk(adj, src, [e] + es, dst)
    ensures Cost([e] + es) == e.cost + Cost(es)
  {
    if es == [] {
      assert [e] + es == [] + [e];
      ExtendWalk(adj, src, [], src, e);
    } else {
      var init, last := es[..|es| - 1], es[|es| - 1];
      var mid := End(e.to, init);
      assert IsWalk(adj, e.to, init, mid) && last in EdgesFrom(adj, mid) && last.to == dst;
      assert Cost(es) == Cost(init) + last.cost;
      hide IsWalk, Cost, End, EdgesFrom;
      PrependWalk(adj, src, e, init, mid);
      ExtendWalk(adj, src, [e] + init, mid, last);
      assert [e] + es == [e] + init + [last];
    }
  }

  lemma {:induction false} ReverseWalk(adj: Adjacency, src: string, es: seq<Edge>, dst: string)
    returns (back: seq<Edge>)
    requires Symmetric(adj)
    requires IsWalk(adj, src, es, dst)
    ensures IsWalk(adj, dst, back, src)
    ensures |back| == |es| && Cost(back) == Cost(es)
  {
    if es == [] {
      back := [];
    } else {
      var init, last := es[..|es| - 1], es[|es| - 1];
      var mid := End(src, init);
      var rest := ReverseWalk(adj, src, init, mid);
      var e := Edge(mid, last.pathId, last.cost);
      PrependWalk(adj, dst, e, rest, src);
      back := [e] + rest;
    }
  }

  /** On an undirected map the hop distance does not depend on its direction. */
  lemma MinHopsSymmetric(adj: Adjacency, a: string, b: string)
    requires Symmetric(adj)
    ensures MinHops(adj, a, b) == MinHops(adj, b, a)
  {
    if MinHops(adj, a, b) >= 0 { HopsNoWorseBack(adj, a, b); }
    if MinHops(adj, b, a) >= 0 { HopsNoWorseBack(adj, b, a); }
  }

  lemma HopsNoWorseBack(adj: Adjacency, a: string, b: string)
    requires Symmetric(adj)
    requires MinHops(adj, a, b) >= 0
    ensures 0 <= MinHops(adj, b, a) <= MinHops(adj, a, b)
  {
    var es :| IsWalk(adj, a, es, b) && |es| == MinHops(adj, a, b);
    var back := ReverseWalk(adj, a, es, b);
    assert Reachable(adj, b, a);
  }

  /** On an undirected map the travel time does not depend on its direction. */
  lemma MinTurnsSymmetric(adj: Adjacency, a: string, b: string)
    requires Symmetric(adj) && NonNegative(adj)
    ensures MinTurns(adj, a, b) == MinTurns(adj, b, a)
  {
    if MinTurns(adj, a, b) >= 0 { TurnsNoWorseBack(adj, a, b); }
    if MinTurns(adj, b, a) >= 0 { TurnsNoWorseBack(adj, b, a); }
  }

  lemma TurnsNoWorseBack(adj: Adjacency, a: string, b: string)
    requires Symmetric(adj) && NonNegative(adj)
    requires MinTurns(adj, a, b) >= 0
    ensures 0 <= MinTurns(adj, b, a) <= MinTurns(adj, a, b)
  {
    var es :| IsWalk(adj, a, es, b) && Cost(es) == MinTurns(adj, a, b);
    var back := ReverseWalk(adj, a, es, b);
    MinTurnsBound(adj, b, back, a);
  }
}
