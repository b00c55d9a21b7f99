/** The map graph and its four searches (option-b/internal/game/graph.go). */
module Graph {
  import opened Walks
  import opened BreadthFirst
  import opened Dijkstra

  // ----- the graph -----------------------------------------------------------

  /** The adjacency after one more path: an edge at each end. */
  function WithPath(adj: Adjacency, pathId: string, from: string, to: string, cost: int): Adjacency {
    var there := adj[from := EdgesFrom(adj, from) + [Edge(to, pathId, cost)]];
    there[to := EdgesFrom(there, to) + [Edge(from, pathId, cost)]]
  }

  lemma WithPathEdges(adj: Adjacency, pathId: string, from: string, to: string, cost: int, r: string, e: Edge)
    ensures e in EdgesFrom(WithPath(adj, pathId, from, to, cost), r) <==>
            || e in EdgesFrom(adj, r)
            || (r == from && e == Edge(to, pathId, cost))
            || (r == to && e == Edge(from, pathId, cost))
  {}

  /** Paths are added in both directions, so the map stays undirected. */
  lemma WithPathSymmetric(adj: Adjacency, pathId: string, from: string, to: string, cost: int)
    requires Symmetric(adj)
    ensures Symmetric(WithPath(adj, pathId, from, to, cost))
  {}

  class MapGraph {
    var adj: Adjacency
    var pathsByEndpoints: map<(string, string), string>
    var pathCosts: map<string, int>

    constructor ()
      ensures adj == map[] && pathsByEndpoints == map[] && pathCosts == map[]
    {
      adj, pathsByEndpoints, pathCosts := map[], map[], map[];
    }

    /** Adds one edge in each direction and keeps all the others in order. */
    method AddPath(pathId: string, from: string, to: string, cost: int)
      modifies this
      ensures adj == WithPath(old(adj), pathId, from, to, cost)
      ensures pathsByEndpoints == old(pathsByEndpoints)[(from, to) := pathId][(to, from) := pathId]
      ensures pathCosts == old(pathCosts)[pathId := cost]
    {
      adj := adj[from := EdgesFrom(adj, from) + [Edge(to, pathId, cost)]];
      adj := adj[to := EdgesFrom(adj, to) + [Edge(from, pathId, cost)]];
      pathsByEndpoints := pathsByEndpoints[(from, to) := pathId];
      pathsByEndpoints := pathsByEndpoints[(to, from) := pathId];
      pathCosts := pathCosts[pathId := cost];
    }

    function Neighbours(regionId: string): (es: seq<Edge>)
      reads this
      ensures regionId !in adj ==> es == []
    {
      EdgesFrom(adj, regionId)
    }

    /** The configured cost, or 0 for a path the graph does not know. */
    function PathCost(pathId: string): (c: int)
      reads this
      ensures pathId !in pathCosts ==> c == 0
    {
      if pathId in pathCosts then pathCosts[pathId] else 0
    }

    /** Breadth-first search that stops as soon as `to` is discovered. */
    method BFSDistance(from: string, to: string) returns (d: int)
      ensures d == MinHops(adj, from, to)
    {
      hide Unlabelled, MinHops, Frontier, Scanning;
      if from == to {
        assert IsWalk(adj, from, [], to);
        MinHopsIs(adj, from, to, 0);
        return 0;
      }
      var visited := {from};
      var queue := [Visit(from, 0)];
      ghost var level: map<string, nat> := map[from := 0];
      ghost var done: set<string> := {};
      StartFrontier(adj, Anywhere, from);
      while |queue| > 0
        invariant Frontier(adj, Anywhere, from, level, done, queue)
        invariant visited == level.Keys && to !in level
        decreases Unlabelled(adj, from, level), |queue|
      {
        ScanStart(adj, Anywhere, from, level, done, queue);
        var cur := queue[0];
        queue := queue[1..];
        ghost var before, waiting := level, |queue|;
        var edges := EdgesFrom(adj, cur.region);
        for i := 0 to |edges|
          invariant Scanning(adj, Anywhere, from, level, done, cur, queue, i)
          invariant visited == level.Keys && to !in level
          invariant Unlabelled(adj, from, level) < Unlabelled(adj, from, before)
              || (level == before && |queue| == waiting)
        {
          var e := edges[i];
          if e.to == to {
            FirstDiscoveryIsMinHops(adj, from, level, done, cur, queue, i);
            return cur.dist + 1;
          }
          if e.to !in visited {
            ScanNew(adj, Anywhere, from, level, done, cur, queue, i);
            visited := visited + {e.to};
            level := level[e.to := cur.dist + 1];
            queue := queue + [Visit(e.to, cur.dist + 1)];
          } else {
            ScanKnown(adj, Anywhere, from, level, done, cur, queue, i);
          }
        }
        ScanEnd(adj, Anywhere, from, level, done, cur, queue, |edges|);
        done := done + {cur.region};
      }
      ExhaustedMeansUnreachable(adj, from, level, done, to);
      d := -1;
    }

    /** The regions at most `maxHops` away, other than `start` itself, nearest first. */
    method RegionsWithinHops(start: string, maxHops: int) returns (result: seq<string>)
      ensures forall r :: r in result <==> 1 <= MinHops(adj, start, r) <= maxHops
      ensures forall i, j | 0 <= i < j < |result| ::
                result[i] != result[j] && MinHops(adj, start, result[i]) <= MinHops(adj, start, result[j])
    {
      hide Unlabelled, MinHops, Frontier, Scanning, Collected;
      var visited: map<string, nat> := map[start := 0];
      var queue := [Visit(start, 0)];
      result := [];
      ghost var done: set<string> := {};
      ghost var reach := Within(maxHops);
      StartFrontier(adj, reach, start);
      NothingCollected(start);
      while |queue| > 0
        invariant Frontier(adj, reach, start, visited, done, queue)
        invariant WithinLimit(visited, maxHops)
        invariant Collected(result, visited, done, queue)
        decreases Unlabelled(adj, start, visited), |queue|
      {
        ScanStart(adj, reach, start, visited, done, queue);
        Collect(adj, reach, start, result, visited, done, queue);
        var cur := queue[0];
        queue := queue[1..];
        if cur.dist > 0 {
          result := result + [cur.region];
        }
        if cur.dist >= maxHops {
          ScanEnd(adj, reach, start, visited, done, cur, queue, 0);
          done := done + {cur.region};
          continue;
        }
        ghost var before, waiting := visited, |queue|;
        var edges := EdgesFrom(adj, cur.region);
        for i := 0 to |edges|
          invariant Scanning(adj, reach, start, visited, done, cur, queue, i)
          invariant WithinLimit(visited, maxHops)
          invariant Collected(result, visited, done + {cur.region}, queue)
          invariant Unlabelled(adj, start, visited) < Unlabelled(adj, start, before)
                    || (visited == before && |queue| == waiting)
        {
          var e := edges[i];
          if e.to !in visited {
            ScanNew(adj, reach, start, visited, done, cur, queue, i);
            CollectMore(adj, reach, start, result, visited, done, cur, queue, i);
            visited := visited[e.to := cur.dist + 1];
            queue := queue + [Visit(e.to, cur.dist + 1)];
          } else {
            ScanKnown(adj, reach, start, visited, done, cur, queue, i);
          }
        }
        ScanEnd(adj, reach, start, visited, done, cur, queue, |edges|);
        done := done + {cur.region};
      }
      CollectedAll(adj, start, maxHops, result, visited, done);
    }

    /** The least number of turns from `src` to `dst`, or -1 if there is no way. */
    method ShortestTurns(src: string, dst: string) returns (turns: int)
      requires NonNegative(adj)
      ensures turns == MinTurns(adj, src, dst)
    {
      hide Searching, Relaxing, Open, MinTurns, IsMinCost, Reachable, NonNegative;
      if src == dst {
        MinTurnsToSelf(adj, src);
        return 0;
      }
      var dist: map<string, int> := map[src := 0];
      var pq := multiset{HeapItem(src, 0)};
      ghost var settled: set<string> := {};
      StartSearching(adj, src);
      while |pq| > 0
        invariant Searching(adj, src, dist, settled, pq)
        invariant dst !in settled
        decreases Open(adj, src, settled), |pq|
      {
        ghost var before := pq;
        var cur: HeapItem;
        cur, pq := PopMinimum(pq);
        HeapIsPriced(adj, src, dist, settled, before, cur);
        if cur.region == dst {
          FirstPopIsFinal(adj, src, dist, settled, before, cur);
          return cur.cost;
        }
        if cur.cost > dist[cur.region] {
          PopStale(adj, src, dist, settled, before, cur);
          continue;
        }
        PopCurrent(adj, src, dist, settled, before, cur);
        ClosingLeavesFewer(adj, src, settled, cur.region);
        var edges := EdgesFrom(adj, cur.region);
        for i := 0 to |edges|
          invariant Relaxing(adj, src, dist, settled, pq, cur, i)
        {
          var e := edges[i];
          var newCost := cur.cost + e.cost;
          if e.to !in dist || newCost < dist[e.to] {
            RelaxBetter(adj, src, dist, settled, pq, cur, i);
            dist := dist[e.to := newCost];
            pq := pq + multiset{HeapItem(e.to, newCost)};
          } else {
            RelaxKnown(adj, src, dist, settled, pq, cur, i);
          }
        }
        RelaxedAll(adj, src, dist, settled, pq, cur);
        settled := settled + {cur.region};
      }
      assert pq == multiset{};
      EmptyHeapIsComplete(adj, src, dist, settled, dst);
      if dst in dist {
        // The code would return dist[dst] here, but never gets here: a priced
        // region waits in the heap until it is popped, and popping dst returns.
        assert false;
      }
      turns := -1;
    }

    /** A cheapest way from `src` to `dst` as the regions it visits, or the empty
        list for the code's nil. */
    method ShortestPath(src: string, dst: string) returns (path: seq<string>)
      requires NonNegative(adj) && Named(adj)
      ensures path == [] <==> !Reachable(adj, src, dst)
      ensures path != [] ==> IsCheapestRoute(adj, src, path, dst)
    {
      hide Searching, Relaxing, Open, MinTurns, IsMinCost, Reachable, NonNegative;
      hide Named, Predecessors, IsCheapestRoute, Tracing, EdgesFrom;
      MinTurnsReachable(adj, src, dst);
      if src == dst {
        MinTurnsToSelf(adj, src);
        StayingIsCheapest(adj, src);
        return [src];
      }
      var prev: map<string, string> := map[];
      var dist: map<string, int> := map[src := 0];
      var visited: set<string> := {};
      var pq := multiset{HeapItem(src, 0)};
      ghost var rank: map<string, nat> := map[];
      StartSearching(adj, src);
      StartPredecessors(adj, src);
      ghost var found := false;
      while |pq| > 0
        invariant Searching(adj, src, dist, visited, pq) && dst !in visited && !found
        invariant Predecessors(adj, src, dist, visited, prev, rank)
        decreases Open(adj, src, visited), |pq|
      {
        ghost var before, open := pq, visited;
        var cur: HeapItem;
        cur, pq := PopMinimum(pq);
        HeapIsPriced(adj, src, dist, visited, before, cur);
        if cur.region in visited {
          ClosedIsStale(adj, src, dist, visited, before, cur);
          PopStale(adj, src, dist, visited, before, cur);
          continue;
        }
        FirstPopIsFinal(adj, src, dist, visited, before, cur);
        PopCurrent(adj, src, dist, visited, before, cur);
        ClosingLeavesFewer(adj, src, visited, cur.region);
        ClosePredecessor(adj, src, dist, visited, prev, rank, cur.region);
        rank := rank[cur.region := |visited|];
        visited := visited + {cur.region};
        StartTracing(adj, src, dist, open, pq, cur, prev, rank);
        if cur.region == dst {
          PricedSource(adj, src, dist, open, pq, cur);
          found := true;
          break;
        }
        var edges := EdgesFrom(adj, cur.region);
        for i := 0 to |edges|
          invariant Tracing(adj, src, dist, open, pq, cur, i, prev, rank)
        {
          var e := edges[i];
          var newCost := cur.cost + e.cost;
          if e.to !in dist || newCost < dist[e.to] {
            TraceBetter(adj, src, dist, open, pq, cur, i, prev, rank, e.to, newCost);
            dist := dist[e.to := newCost];
            prev := prev[e.to := cur.region];
            pq := pq + multiset{HeapItem(e.to, newCost)};
          } else {
            TraceKnown(adj, src, dist, open, pq, cur, i, prev, rank, e);
          }
        }
        TraceAll(adj, src, dist, open, pq, cur, prev, rank);
      }
      if !found {
        assert pq == multiset{};
        EmptyHeapIsComplete(adj, src, dist, visited, dst);
      }
      PredecessorKeys(adj, src, dist, visited, prev, rank);

      // reconstruct
      if dst !in prev {
        return [];
      }
      path := Reconstruct(src, dst, prev, dist, visited, rank);
    }

    /** The second loop of ShortestPath: follow the predecessors back from `dst`. */
    method Reconstruct(
        src: string, dst: string, prev: map<string, string>,
        ghost dist: map<string, int>, ghost closed: set<string>, ghost rank: map<string, nat>)
      returns (path: seq<string>)
      requires NonNegative(adj) && Named(adj)
      requires Predecessors(adj, src, dist, closed, prev, rank)
      requires dst in prev && dst in closed
      requires src in dist && dist[src] == 0 && dst in dist && dist[dst] == MinTurns(adj, src, dst)
      ensures path != [] && IsCheapestRoute(adj, src, path, dst)
    {
      hide MinTurns, IsMinCost, Reachable, NonNegative, Named, Predecessors, Unwinding, IsCheapestRoute;
      path := [];
      var r := dst;
      ghost var tail: seq<Edge> := [];
      PredecessorKeys(adj, src, dist, closed, prev, rank);
      StartUnwinding(adj, dist, rank, dst);
      PredecessorNamed(adj, src, dist, closed, prev, rank, dst);
      while r != ""
        invariant Unwinding(adj, dist, rank, r, path, tail, dst)
        invariant r != "" && r in rank && r in dist
        decreases rank[r]
      {
        if r == src {
          Unwound(adj, dist, rank, src, path, tail, dst);
          path := [r] + path;
          break;
        }
        tail := Unwind(adj, src, dist, closed, prev, rank, r, path, tail, dst);
        path := [r] + path;
        r := if r in prev then prev[r] else "";
      }
    }
  }
}
