/** Dijkstra's algorithm with lazy deletion: outdated entries stay in the heap.
    What both weighted searches of module Graph keep, and why the first entry
    popped for a region carries its least cost. */
module Dijkstra {
  import opened Walks

  datatype HeapItem = HeapItem(region: string, cost: int)

  // ----- the heap ------------------------------------------------------------

  lemma {:induction false} MinimumExists(pq: multiset<HeapItem>)
    requires |pq| > 0
    ensures exists x :: x in pq && forall y | y in pq :: x.cost <= y.cost
  {
    var x :| x in pq;
    var rest := pq - multiset{x};
    forall y | y in pq && y != x ensures y in rest {}
    if |rest| > 0 {
      MinimumExists(rest);
      var m :| m in rest && forall y | y in rest :: m.cost <= y.cost;
      var best := if m.cost < x.cost then m else x;
      assert best in pq;
    } else {
      assert x in pq;
    }
  }

  /** The contract of heap.Pop: it removes some entry of minimum cost. */
  method PopMinimum(pq: multiset<HeapItem>) returns (cur: HeapItem, rest: multiset<HeapItem>)
    requires |pq| > 0
    ensures cur in pq && rest == pq - multiset{cur}
    ensures forall x | x in pq :: cur.cost <= x.cost
  {
    MinimumExists(pq);
    cur :| cur in pq && forall x | x in pq :: cur.cost <= x.cost;
    rest := pq - multiset{cur};
  }

  // ----- the invariant -------------------------------------------------------

  ghost predicate ReachedAt(adj: Adjacency, src: string, r: string, c: int) {
    exists es :: IsWalk(adj, src, es, r) && Cost(es) == c
  }

  /** Every tentative cost is the cost of some walk. */
  ghost predicate Priced(adj: Adjacency, src: string, dist: map<string, int>) {
    && src in dist && dist[src] == 0
    && dist.Keys <= Universe(adj, src)
    && forall r | r in dist :: dist[r] >= 0 && ReachedAt(adj, src, r, dist[r])
  }

  /** Crossing one of the first `n` edges of `es` from a region priced `c` brings nothing new. */
  predicate Relaxed(es: seq<Edge>, n: nat, dist: map<string, int>, c: int) {
    n <= |es| && forall k | 0 <= k < n :: es[k].to in dist && dist[es[k].to] <= c + es[k].cost
  }

  ghost predicate Settled(adj: Adjacency, dist: map<string, int>, settled: set<string>) {
    && settled <= dist.Keys
    && forall r | r in settled :: Relaxed(EdgesFrom(adj, r), |EdgesFrom(adj, r)|, dist, dist[r])
  }

  /** The heap holds the current price of every open region exactly once, no
      current price of a closed one, and otherwise only outdated entries. */
  ghost predicate Heaped(dist: map<string, int>, closed: set<string>, pq: multiset<HeapItem>) {
    && closed <= dist.Keys
    && (forall x | x in pq :: x.region in dist && x.cost >= dist[x.region])
    && (forall r | r in dist :: pq[HeapItem(r, dist[r])] == if r in closed then 0 else 1)
  }

  /** Closed regions are no dearer than `c`, and the heap holds nothing cheaper. */
  predicate Watershed(dist: map<string, int>, closed: set<string>, pq: multiset<HeapItem>, c: int) {
    && (forall r | r in closed :: r in dist && dist[r] <= c)
    && (forall x | x in pq :: c <= x.cost)
  }

  ghost predicate Searching(
      adj: Adjacency, src: string, dist: map<string, int>, settled: set<string>, pq: multiset<HeapItem>)
  {
    && NonNegative(adj)
    && Priced(adj, src, dist)
    && Settled(adj, dist, settled)
    && Heaped(dist, settled, pq)
    && exists c :: Watershed(dist, settled, pq, c)
  }

  /** `cur` has been closed and its first `n` edges have been relaxed. */
  ghost predicate Relaxing(
      adj: Adjacency, src: string, dist: map<string, int>, settled: set<string>, pq: multiset<HeapItem>,
      cur: HeapItem, n: nat)
  {
    && NonNegative(adj)
    && Priced(adj, src, dist)
    && Settled(adj, dist, settled)
    && Heaped(dist, settled + {cur.region}, pq)
    && Watershed(dist, settled + {cur.region}, pq, cur.cost)
    && cur.region in dist && dist[cur.region] == cur.cost
    && Relaxed(EdgesFrom(adj, cur.region), n, dist, cur.cost)
  }

  lemma StartSearching(adj: Adjacency, src: string)
    requires NonNegative(adj)
    ensures Searching(adj, src, map[src := 0], {}, multiset{HeapItem(src, 0)})
  {
    assert IsWalk(adj, src, [], src) && Cost([]) == 0;
    assert ReachedAt(adj, src, src, 0);
    assert Watershed(map[src := 0], {}, multiset{HeapItem(src, 0)}, 0);
  }

  lemma HeapIsPriced(
      adj: Adjacency, src: string, dist: map<string, int>, settled: set<string>, pq: multiset<HeapItem>, cur: HeapItem)
    requires Searching(adj, src, dist, settled, pq) && cur in pq
    ensures cur.region in dist && cur.cost >= dist[cur.region]
  {}

  lemma PricedSource(
      adj: Adjacency, src: string, dist: map<string, int>, settled: set<string>, pq: multiset<HeapItem>, cur: HeapItem)
    requires Relaxing(adj, src, dist, settled, pq, cur, 0)
    ensures src in dist && dist[src] == 0
    ensures cur.region in dist && dist[cur.region] == cur.cost >= 0
  {}

  /** An entry of a closed region is outdated. */
  lemma ClosedIsStale(
      adj: Adjacency, src: string, dist: map<string, int>, settled: set<string>, pq: multiset<HeapItem>, cur: HeapItem)
    requires Searching(adj, src, dist, settled, pq) && cur in pq && cur.region in settled
    ensures cur.region in dist && cur.cost > dist[cur.region]
  {
    hide Priced, Settled, Watershed;
    assert pq[HeapItem(cur.region, dist[cur.region])] == 0;
  }

  lemma Push(dist: map<string, int>, closed: set<string>, pq: multiset<HeapItem>, x: HeapItem)
    requires Heaped(dist, closed, pq)
    requires x.region !in closed
    requires x.region in dist ==> x.cost < dist[x.region]
    ensures Heaped(dist[x.region := x.cost], closed, pq + multiset{x})
  {}

  lemma Price(adj: Adjacency, src: string, dist: map<string, int>, r: string, e: Edge)
    requires NonNegative(adj) && Priced(adj, src, dist)
    requires r in dist && e in EdgesFrom(adj, r)
    requires e.to in dist ==> dist[r] + e.cost < dist[e.to]
    ensures Priced(adj, src, dist[e.to := dist[r] + e.cost])
  {
    hide ReachedAt, Universe;
    assert e.cost >= 0;
    hide EdgesFrom, NonNegative;
    EdgeInUniverse(adj, src, r, e);
    assert ReachedAt(adj, src, r, dist[r]);
    ReachedNext(adj, src, r, dist[r], e);
    assert e.to != src;
  }

  lemma ReachedNext(adj: Adjacency, src: string, r: string, c: int, e: Edge)
    requires ReachedAt(adj, src, r, c) && e in EdgesFrom(adj, r)
    ensures ReachedAt(adj, src, e.to, c + e.cost)
  {
    var es :| IsWalk(adj, src, es, r) && Cost(es) == c;
    ExtendWalk(adj, src, es, r, e);
  }

  lemma LowerKeepsSettled(adj: Adjacency, dist: map<string, int>, settled: set<string>, r: string, c: int)
    requires Settled(adj, dist, settled) && r !in settled
    requires r in dist ==> c < dist[r]
    ensures Settled(adj, dist[r := c], settled)
  {}

  lemma EdgeCost(adj: Adjacency, r: string, n: nat)
    requires NonNegative(adj) && n < |EdgesFrom(adj, r)|
    ensures EdgesFrom(adj, r)[n] in EdgesFrom(adj, r) && EdgesFrom(adj, r)[n].cost >= 0
  {}

  /** Relaxing an edge that improves a price: the new entry joins the heap. */
  lemma RelaxBetter(
      adj: Adjacency, src: string, dist: map<string, int>, settled: set<string>, pq: multiset<HeapItem>,
      cur: HeapItem, n: nat)
    requires Relaxing(adj, src, dist, settled, pq, cur, n) && n < |EdgesFrom(adj, cur.region)|
    requires var e := EdgesFrom(adj, cur.region)[n]; e.to in dist ==> cur.cost + e.cost < dist[e.to]
    ensures var e := EdgesFrom(adj, cur.region)[n];
            var x := HeapItem(e.to, cur.cost + e.cost);
            && e in EdgesFrom(adj, cur.region) && cur.region in dist && dist[cur.region] == cur.cost
            && e.to !in settled + {cur.region} && e.to != src
            && Relaxing(adj, src, dist[e.to := x.cost], settled, pq + multiset{x}, cur, n + 1)
  {
    hide Settled, Heaped, NonNegative, EdgesFrom, Universe, ReachedAt;
    var e := EdgesFrom(adj, cur.region)[n];
    var x := HeapItem(e.to, cur.cost + e.cost);
    EdgeCost(adj, cur.region, n);
    Price(adj, src, dist, cur.region, e);
    LowerKeepsSettled(adj, dist, settled, e.to, x.cost);
    Push(dist, settled + {cur.region}, pq, x);
  }

  lemma RelaxKnown(
      adj: Adjacency, src: string, dist: map<string, int>, settled: set<string>, pq: multiset<HeapItem>,
      cur: HeapItem, n: nat)
    requires Relaxing(adj, src, dist, settled, pq, cur, n) && n < |EdgesFrom(adj, cur.region)|
    requires var e := EdgesFrom(adj, cur.region)[n]; e.to in dist && dist[e.to] <= cur.cost + e.cost
    ensures Relaxing(adj, src, dist, settled, pq, cur, n + 1)
  {}

  lemma RelaxedAll(
      adj: Adjacency, src: string, dist: map<string, int>, settled: set<string>, pq: multiset<HeapItem>, cur: HeapItem)
    requires Relaxing(adj, src, dist, settled, pq, cur, |EdgesFrom(adj, cur.region)|)
    ensures Searching(adj, src, dist, settled + {cur.region}, pq)
  {}

  /** Popping an outdated entry changes nothing else. */
  lemma PopStale(
      adj: Adjacency, src: string, dist: map<string, int>, settled: set<string>, pq: multiset<HeapItem>, cur: HeapItem)
    requires Searching(adj, src, dist, settled, pq)
    requires cur in pq && cur.cost > dist[cur.region]
    ensures Searching(adj, src, dist, settled, pq - multiset{cur})
  {
    hide Priced, Settled, NonNegative;
    var c :| Watershed(dist, settled, pq, c);
    assert Watershed(dist, settled, pq - multiset{cur}, c);
  }

  /** Popping a current entry closes its region; it was open until now. */
  lemma PopCurrent(
      adj: Adjacency, src: string, dist: map<string, int>, settled: set<string>, pq: multiset<HeapItem>, cur: HeapItem)
    requires Searching(adj, src, dist, settled, pq)
    requires cur in pq && cur.cost <= dist[cur.region]
    requires forall x | x in pq :: cur.cost <= x.cost
    ensures cur.region !in settled && cur.region in Universe(adj, src)
    ensures Relaxing(adj, src, dist, settled, pq - multiset{cur}, cur, 0)
  {
    hide Settled, NonNegative, Universe, ReachedAt, EdgesFrom;
    PopOpen(dist, settled, pq, cur);
    var c :| Watershed(dist, settled, pq, c);
    assert c <= cur.cost;
  }

  lemma PopOpen(dist: map<string, int>, closed: set<string>, pq: multiset<HeapItem>, cur: HeapItem)
    requires Heaped(dist, closed, pq)
    requires cur in pq && cur.cost <= dist[cur.region]
    ensures cur.region !in closed && cur.cost == dist[cur.region]
    ensures Heaped(dist, closed + {cur.region}, pq - multiset{cur})
  {}

  // ----- optimality ----------------------------------------------------------

  /** A walk either leads to a region priced no dearer than itself, or some
      entry in the heap is no dearer than the walk. */
  lemma {:induction false} WalkMeetsHeap(
      adj: Adjacency, src: string, dist: map<string, int>, settled: set<string>, pq: multiset<HeapItem>, es: seq<Edge>)
    requires Searching(adj, src, dist, settled, pq)
    requires FollowsEdges(adj, src, es)
    ensures || (End(src, es) in dist && dist[End(src, es)] <= Cost(es))
            || exists x :: x in pq && x.cost <= Cost(es)
  {
    if es != [] {
      var init, last := es[..|es| - 1], es[|es| - 1];
      WalkMeetsHeap(adj, src, dist, settled, pq, init);
      var u := End(src, init);
      assert last.cost >= 0;
      if u in dist && dist[u] <= Cost(init) {
        if u in settled {
          assert Relaxed(EdgesFrom(adj, u), |EdgesFrom(adj, u)|, dist, dist[u]);
        } else {
          assert HeapItem(u, dist[u]) in pq;
        }
      } else {
        var x :| x in pq && x.cost <= Cost(init);
        assert x.cost <= Cost(es);
      }
    }
  }

  /** The first entry popped for a region that is still open is final, even if
      the code has not yet looked whether it is outdated. */
  lemma FirstPopIsFinal(
      adj: Adjacency, src: string, dist: map<string, int>, settled: set<string>, pq: multiset<HeapItem>, cur: HeapItem)
    requires Searching(adj, src, dist, settled, pq)
    requires cur in pq && cur.region !in settled
    requires forall x | x in pq :: cur.cost <= x.cost
    ensures cur.cost == dist[cur.region] == MinTurns(adj, src, cur.region)
  {
    var dst := cur.region;
    assert HeapItem(dst, dist[dst]) in pq;
    assert ReachedAt(adj, src, dst, dist[dst]);
    forall es | IsWalk(adj, src, es, dst) ensures cur.cost <= Cost(es) {
      WalkMeetsHeap(adj, src, dist, settled, pq, es);
    }
    MinTurnsIs(adj, src, dst, cur.cost);
  }

  /** An empty heap leaves exactly the unreachable regions without a price. */
  lemma EmptyHeapIsComplete(
      adj: Adjacency, src: string, dist: map<string, int>, settled: set<string>, r: string)
    requires Searching(adj, src, dist, settled, multiset{})
    ensures settled == dist.Keys
    ensures MinTurns(adj, src, r) == if r in dist then dist[r] else -1
  {
    forall x | x in dist ensures x in settled {
      assert multiset{}[HeapItem(x, dist[x])] == if x in settled then 0 else 1;
    }
    forall es | IsWalk(adj, src, es, r) ensures r in dist && dist[r] <= Cost(es) {
      WalkMeetsHeap(adj, src, dist, settled, multiset{}, es);
    }
    if r in dist {
      assert ReachedAt(adj, src, r, dist[r]);
      MinTurnsIs(adj, src, r, dist[r]);
    }
  }

  /** How many regions a search from `src` may still close. */
  function Open(adj: Adjacency, src: string, settled: set<string>): nat {
    |Universe(adj, src) - settled|
  }

  lemma ClosingLeavesFewer(adj: Adjacency, src: string, settled: set<string>, r: string)
    requires r in Universe(adj, src) && r !in settled
    ensures Open(adj, src, settled + {r}) < Open(adj, src, settled)
  {
    hide Universe;
    assert Universe(adj, src) - settled == (Universe(adj, src) - (settled + {r})) + {r};
  }

  lemma MinTurnsToSelf(adj: Adjacency, src: string)
    requires NonNegative(adj)
    ensures MinTurns(adj, src, src) == 0
  {
    assert IsWalk(adj, src, [], src) && Cost([]) == 0;
    forall es | IsWalk(adj, src, es, src) ensures 0 <= Cost(es) {
      CostNonNegative(adj, src, es);
    }
    MinTurnsIs(adj, src, src, 0);
  }

  // ----- predecessors --------------------------------------------------------

  ghost predicate Linked(adj: Adjacency, a: string, b: string, c: int) {
    exists e :: e in EdgesFrom(adj, a) && e.to == b && e.cost == c
  }

  /** Each predecessor was closed before its successor (`rank` counts closings),
      and the edge between the two accounts for the difference of their prices. */
  ghost predicate Predecessors(
      adj: Adjacency, src: string, dist: map<string, int>, closed: set<string>, prev: map<string, string>,
      rank: map<string, nat>)
  {
    && prev.Keys == dist.Keys - {src}
    && rank.Keys == closed
    && (forall r | r in rank :: rank[r] < |closed|)
    && (forall r | r in prev ::
          prev[r] in closed && prev[r] in dist && Linked(adj, prev[r], r, dist[r] - dist[prev[r]]))
    && (forall r | r in prev && r in closed :: rank[prev[r]] < rank[r])
  }

  lemma StartPredecessors(adj: Adjacency, src: string)
    ensures Predecessors(adj, src, map[src := 0], {}, map[], map[])
  {}

  lemma PredecessorKeys(
      adj: Adjacency, src: string, dist: map<string, int>, closed: set<string>, prev: map<string, string>,
      rank: map<string, nat>)
    requires Predecessors(adj, src, dist, closed, prev, rank)
    ensures prev.Keys == dist.Keys - {src} && rank.Keys == closed
  {}

  lemma ClosePredecessor(
      adj: Adjacency, src: string, dist: map<string, int>, closed: set<string>, prev: map<string, string>,
      rank: map<string, nat>, r: string)
    requires Predecessors(adj, src, dist, closed, prev, rank) && r !in closed
    ensures Predecessors(adj, src, dist, closed + {r}, prev, rank[r := |closed|])
  {
    hide Linked;
  }

  lemma SetPredecessor(
      adj: Adjacency, src: string, dist: map<string, int>, closed: set<string>, prev: map<string, string>,
      rank: map<string, nat>, r: string, e: Edge)
    requires Predecessors(adj, src, dist, closed, prev, rank)
    requires r in closed && r in dist && e in EdgesFrom(adj, r)
    requires e.to !in closed && e.to != src
    ensures Predecessors(adj, src, dist[e.to := dist[r] + e.cost], closed, prev[e.to := r], rank)
  {}

  /** The state of ShortestPath's inner loop. */
  ghost predicate Tracing(
      adj: Adjacency, src: string, dist: map<string, int>, open: set<string>, pq: multiset<HeapItem>, cur: HeapItem,
      n: nat,
      prev: map<string, string>, rank: map<string, nat>)
  {
    && Relaxing(adj, src, dist, open, pq, cur, n)
    && Predecessors(adj, src, dist, open + {cur.region}, prev, rank)
  }

  lemma StartTracing(
      adj: Adjacency, src: string, dist: map<string, int>, open: set<string>, pq: multiset<HeapItem>, cur: HeapItem,
      prev: map<string, string>, rank: map<string, nat>)
    requires Relaxing(adj, src, dist, open, pq, cur, 0)
    requires Predecessors(adj, src, dist, open + {cur.region}, prev, rank)
    ensures Tracing(adj, src, dist, open, pq, cur, 0, prev, rank)
  {}

  lemma TraceBetter(
      adj: Adjacency, src: string, dist: map<string, int>, open: set<string>, pq: multiset<HeapItem>, cur: HeapItem,
      n: nat,
      prev: map<string, string>, rank: map<string, nat>, r: string, newCost: int)
    requires Tracing(adj, src, dist, open, pq, cur, n, prev, rank)
    requires n < |EdgesFrom(adj, cur.region)|
    requires var e := EdgesFrom(adj, cur.region)[n]; r == e.to && newCost == cur.cost + e.cost
    requires r in dist ==> newCost < dist[r]
    ensures Tracing(adj, src, dist[r := newCost], open, pq + multiset{HeapItem(r, newCost)}, cur, n + 1,
                    prev[r := cur.region], rank)
  {
    hide Relaxing, Predecessors, EdgesFrom;
    RelaxBetter(adj, src, dist, open, pq, cur, n);
    SetPredecessor(adj, src, dist, open + {cur.region}, prev, rank, cur.region, EdgesFrom(adj, cur.region)[n]);
  }

  lemma TraceKnown(
      adj: Adjacency, src: string, dist: map<string, int>, open: set<string>, pq: multiset<HeapItem>, cur: HeapItem,
      n: nat,
      prev: map<string, string>, rank: map<string, nat>, e: Edge)
    requires Tracing(adj, src, dist, open, pq, cur, n, prev, rank)
    requires n < |EdgesFrom(adj, cur.region)| && e == EdgesFrom(adj, cur.region)[n]
    requires e.to in dist && dist[e.to] <= cur.cost + e.cost
    ensures Tracing(adj, src, dist, open, pq, cur, n + 1, prev, rank)
  {
    hide Relaxing, Predecessors, EdgesFrom;
    RelaxKnown(adj, src, dist, open, pq, cur, n);
  }

  lemma TraceAll(
      adj: Adjacency, src: string, dist: map<string, int>, open: set<string>, pq: multiset<HeapItem>, cur: HeapItem,
      prev: map<string, string>, rank: map<string, nat>)
    requires Tracing(adj, src, dist, open, pq, cur, |EdgesFrom(adj, cur.region)|, prev, rank)
    ensures Searching(adj, src, dist, open + {cur.region}, pq)
    ensures Predecessors(adj, src, dist, open + {cur.region}, prev, rank)
  {
    hide Relaxing, Predecessors, EdgesFrom;
    RelaxedAll(adj, src, dist, open, pq, cur);
  }

  /** The regions a walk visits, its start first. */
  function Vertices(src: string, es: seq<Edge>): seq<string> {
    if es == [] then [src] else Vertices(src, es[..|es| - 1]) + [es[|es| - 1].to]
  }

  lemma {:induction false} PrependVertices(src: string, e: Edge, es: seq<Edge>)
    ensures Vertices(src, [e] + es) == [src] + Vertices(e.to, es)
  {
    if es == [] {
      assert ([e] + es)[..0] == [];
    } else {
      PrependVertices(src, e, es[..|es| - 1]);
      assert ([e] + es)[..|es|] == [e] + es[..|es| - 1];
    }
  }

  /** No region is called "", the value Go's maps return for a missing key. */
  predicate Named(adj: Adjacency) {
    forall r | r in adj :: r != "" && forall e | e in adj[r] :: e.to != ""
  }

  lemma PredecessorNamed(
      adj: Adjacency, src: string, dist: map<string, int>, closed: set<string>, prev: map<string, string>,
      rank: map<string, nat>, r: string)
    requires Predecessors(adj, src, dist, closed, prev, rank) && Named(adj) && r in prev
    ensures r != ""
  {
    assert Linked(adj, prev[r], r, dist[r] - dist[prev[r]]);
  }

  /** What the reconstruction loop keeps: `path` followed backwards from the
      destination leads to `r`, along a walk that costs what the prices say. */
  ghost predicate Unwinding(
      adj: Adjacency, dist: map<string, int>, rank: map<string, nat>, r: string, path: seq<string>, tail: seq<Edge>,
      dst: string)
  {
    && r in rank && r in dist && dst in dist
    && IsWalk(adj, r, tail, dst)
    && Cost(tail) == dist[dst] - dist[r]
    && Vertices(r, tail) == [r] + path
    && (forall x | x in path :: x in rank && rank[r] < rank[x])
    && Distinct(path)
  }

  predicate Distinct(path: seq<string>) {
    forall i, j | 0 <= i < j < |path| :: path[i] != path[j]
  }

  /** `path` visits no region twice and is the track of a walk of least cost. */
  ghost predicate IsCheapestRoute(adj: Adjacency, src: string, path: seq<string>, dst: string)
    requires NonNegative(adj)
  {
    && Distinct(path)
    && exists es :: IsWalk(adj, src, es, dst) && Vertices(src, es) == path && Cost(es) == MinTurns(adj, src, dst)
  }

  lemma Unwind(
      adj: Adjacency, src: string, dist: map<string, int>, closed: set<string>, prev: map<string, string>,
      rank: map<string, nat>, r: string, path: seq<string>, tail: seq<Edge>, dst: string)
    returns (tail': seq<Edge>)
    requires Predecessors(adj, src, dist, closed, prev, rank)
    requires Unwinding(adj, dist, rank, r, path, tail, dst)
    requires r in prev
    ensures prev[r] in rank && rank[prev[r]] < rank[r] && prev[r] in dist
    ensures Named(adj) ==> prev[r] != ""
    ensures Unwinding(adj, dist, rank, prev[r], [r] + path, tail', dst)
  {
    var p := prev[r];
    assert Linked(adj, p, r, dist[r] - dist[p]);
    var e :| e in EdgesFrom(adj, p) && e.to == r && e.cost == dist[r] - dist[p];
    tail' := [e] + tail;
    assert Named(adj) ==> p != "";
    assert rank[p] < rank[r];
    hide Predecessors, EdgesFrom, FollowsEdges, Vertices;
    PrependWalk(adj, p, e, tail, dst);
    PrependVertices(p, e, tail);
    forall x | x in path ensures x != r {}
  }

  lemma StartUnwinding(adj: Adjacency, dist: map<string, int>, rank: map<string, nat>, dst: string)
    requires dst in rank && dst in dist
    ensures Unwinding(adj, dist, rank, dst, [], [], dst)
  {}

  lemma Unwound(
      adj: Adjacency, dist: map<string, int>, rank: map<string, nat>, src: string, path: seq<string>,
      tail: seq<Edge>, dst: string)
    requires Unwinding(adj, dist, rank, src, path, tail, dst)
    ensures src in dist && dst in dist
    requires NonNegative(adj) && dist[src] == 0 && dist[dst] == MinTurns(adj, src, dst)
    ensures IsCheapestRoute(adj, src, [src] + path, dst)
  {}

  lemma StayingIsCheapest(adj: Adjacency, src: string)
    requires NonNegative(adj)
    ensures IsCheapestRoute(adj, src, [src], src)
  {
    MinTurnsToSelf(adj, src);
    assert IsWalk(adj, src, [], src) && Vertices(src, []) == [src] && Cost([]) == 0;
  }

  lemma MinTurnsReachable(adj: Adjacency, src: string, dst: string)
    requires NonNegative(adj)
    ensures MinTurns(adj, src, dst) >= 0 <==> Reachable(adj, src, dst)
  {}
}
