/** The map as the Java stream processors load it, and its hop distance
    (kafka/streams/src/main/java/rotr/streams/ConfigModel.java). */
module JavaConfig {
  import opened Walks
  import opened BreadthFirst
  import opened Config

  /** Neighbours in the order in which they were first added, each once. */
  type Neighbourhood = map<string, seq<string>>

  function NeighboursOf(adjacency: Neighbourhood, region: string): seq<string> {
    if region in adjacency then adjacency[region] else []
  }

  function WithNeighbour(adjacency: Neighbourhood, from: string, to: string): Neighbourhood {
    var ns := NeighboursOf(adjacency, from);
    adjacency[from := if to in ns then ns else ns + [to]]
  }

  // ----- the same distances as in Go -----------------------------------------

  /** The neighbourhood as a graph whose edges carry neither path nor cost. */
  function Unweighted(adjacency: Neighbourhood): Adjacency {
    map r | r in adjacency :: Bare(adjacency[r])
  }

  function Bare(ns: seq<string>): seq<Edge> {
    seq(|ns|, i requires 0 <= i < |ns| => Edge(ns[i], "", 0))
  }

  lemma UnweightedEdges(adjacency: Neighbourhood, r: string)
    ensures |EdgesFrom(Unweighted(adjacency), r)| == |NeighboursOf(adjacency, r)|
    ensures forall i | 0 <= i < |NeighboursOf(adjacency, r)| ::
              EdgesFrom(Unweighted(adjacency), r)[i] == Edge(NeighboursOf(adjacency, r)[i], "", 0)
  {}

  /** Both graphs have an edge from `r` to `x`, or neither has. */
  ghost predicate NextTo(adj: Adjacency, r: string, x: string) {
    exists e :: e in EdgesFrom(adj, r) && e.to == x
  }

  lemma {:induction false} SameWalk(a: Adjacency, b: Adjacency, src: string, es: seq<Edge>) returns (fs: seq<Edge>)
    requires forall r, x :: NextTo(a, r, x) ==> NextTo(b, r, x)
    requires FollowsEdges(a, src, es)
    ensures IsWalk(b, src, fs, End(src, es)) && |fs| == |es|
  {
    if es == [] {
      fs := [];
    } else {
      var init, last := es[..|es| - 1], es[|es| - 1];
      var rest := SameWalk(a, b, src, init);
      assert NextTo(a, End(src, init), last.to);
      var f :| f in EdgesFrom(b, End(src, init)) && f.to == last.to;
      ExtendWalk(b, src, rest, End(src, init), f);
      fs := rest + [f];
    }
  }

  /** The hop distance depends on nothing but which regions are neighbours. */
  lemma SameNeighboursSameHops(a: Adjacency, b: Adjacency, src: string, dst: string)
    requires forall r, x :: NextTo(a, r, x) <==> NextTo(b, r, x)
    ensures MinHops(a, src, dst) == MinHops(b, src, dst)
  {
    hide NextTo;
    if MinHops(a, src, dst) >= 0 { HopsCarryOver(a, b, src, dst); }
    if MinHops(b, src, dst) >= 0 { HopsCarryOver(b, a, src, dst); }
  }

  lemma HopsCarryOver(a: Adjacency, b: Adjacency, src: string, dst: string)
    requires forall r, x :: NextTo(a, r, x) ==> NextTo(b, r, x)
    requires MinHops(a, src, dst) >= 0
    ensures 0 <= MinHops(b, src, dst) <= MinHops(a, src, dst)
  {
    hide NextTo;
    var es :| IsWalk(a, src, es, dst) && |es| == MinHops(a, src, dst);
    var fs := SameWalk(a, b, src, es);
    assert Reachable(b, src, dst);
  }

  // ----- the code ------------------------------------------------------------

  const UNREACHABLE := 1073741823

  /** What `distance` answers for a hop count of the Go graph. */
  function JavaHops(hops: int): int {
    if hops >= 0 then hops else UNREACHABLE
  }

  class StreamsConfig {
    const g: GameConfig
    const m: MapConfig
    var adjacency: Neighbourhood

    /** The neighbourhood is that of the configured paths. */
    ghost predicate Valid()
      reads this
    {
      forall a, b :: b in NeighboursOf(adjacency, a) <==> Joined(m, a, b)
    }

    constructor (g: GameConfig, m: MapConfig)
      ensures this.g == g && this.m == m && Valid()
    {
      this.g, this.m := g, m;
      adjacency := map[];
      new;
      var todo := m.paths.Keys;
      while todo != {}
        invariant todo <= m.paths.Keys && this.g == g && this.m == m
        invariant forall a, b :: b in NeighboursOf(adjacency, a) <==> JoinedAlready(m, todo, a, b)
        decreases |todo|
      {
        var id :| id in todo;
        var p := m.paths[id];
        JoinOneMore(m, adjacency, todo, id);
        adjacency := WithNeighbour(adjacency, p.from, p.to);
        adjacency := WithNeighbour(adjacency, p.to, p.from);
        todo := todo - {id};
      }
      AllJoined(m);
    }

    predicate AreAdjacent(from: string, to: string): (b: bool)
      reads this
      ensures Valid() ==> (b <==> Joined(m, from, to))
    {
      to in NeighboursOf(adjacency, from)
    }

    /** Breadth-first search with the distances in a map. */
    method Distance(start: string, target: string) returns (d: int)
      ensures d == JavaHops(MinHops(Unweighted(adjacency), start, target))
    {
      hide Unlabelled, MinHops, Frontier, Scanning, Unweighted, NeighboursOf;
      ghost var adj := Unweighted(adjacency);
      if start == target {
        assert IsWalk(adj, start, [], target);
        MinHopsIs(adj, start, target, 0);
        return 0;
      }
      var queue := [start];
      var distance: map<string, nat> := map[start := 0];
      ghost var visits := [Visit(start, 0)];
      ghost var done: set<string> := {};
      StartFrontier(adj, Anywhere, start);
      while queue != []
        invariant Frontier(adj, Anywhere, start, distance, done, visits)
        invariant queue == RegionsIn(visits) && target !in distance
        decreases Unlabelled(adj, start, distance), |queue|
      {
        ScanStart(adj, Anywhere, start, distance, done, visits);
        ghost var cur := visits[0];
        FrontIsLabelled(adj, start, distance, done, visits);
        var current := queue[0];
        queue, visits := queue[1..], visits[1..];
        var currentDistance := distance[current];
        ghost var before, waiting := distance, |queue|;
        var ns := NeighboursOf(adjacency, current);
        UnweightedEdges(adjacency, current);
        for i := 0 to |ns|
          invariant Scanning(adj, Anywhere, start, distance, done, cur, visits, i)
          invariant queue == RegionsIn(visits) && target !in distance
          invariant Unlabelled(adj, start, distance) < Unlabelled(adj, start, before)
              || (distance == before && |queue| == waiting)
        {
          var next := ns[i];
          if next in distance {
            ScanKnown(adj, Anywhere, start, distance, done, cur, visits, i);
            continue;
          }
          var nextDistance := currentDistance + 1;
          if next == target {
            FirstDiscoveryIsMinHops(adj, start, distance, done, cur, visits, i);
            return nextDistance;
          }
          ScanNew(adj, Anywhere, start, distance, done, cur, visits, i);
          distance := distance[next := nextDistance];
          queue, visits := queue + [next], visits + [Visit(next, nextDistance)];
        }
        ScanEnd(adj, Anywhere, start, distance, done, cur, visits, |ns|);
        done := done + {cur.region};
      }
      ExhaustedMeansUnreachable(adj, start, distance, done, target);
      d := UNREACHABLE;
    }
  }

  ghost function RegionsIn(visits: seq<Visit>): seq<string> {
    seq(|visits|, i requires 0 <= i < |visits| => visits[i].region)
  }

  lemma FrontIsLabelled(adj: Adjacency, src: string, level: map<string, nat>, done: set<string>, queue: seq<Visit>)
    requires Frontier(adj, Anywhere, src, level, done, queue) && queue != []
    ensures queue[0].region in level && level[queue[0].region] == queue[0].dist
  {}

  ghost predicate JoinedAlready(m: MapConfig, todo: set<string>, a: string, b: string) {
    exists id :: id in m.paths && id !in todo && Joins(m.paths[id], a, b)
  }

  lemma JoinOneMore(m: MapConfig, adjacency: Neighbourhood, todo: set<string>, id: string)
    requires id in todo && id in m.paths
    requires forall a, b :: b in NeighboursOf(adjacency, a) <==> JoinedAlready(m, todo, a, b)
    ensures var p := m.paths[id];
            var after := WithNeighbour(WithNeighbour(adjacency, p.from, p.to), p.to, p.from);
            forall a, b :: b in NeighboursOf(after, a) <==> JoinedAlready(m, todo - {id}, a, b)
  {
    var p := m.paths[id];
    var after := WithNeighbour(WithNeighbour(adjacency, p.from, p.to), p.to, p.from);
    forall a, b ensures b in NeighboursOf(after, a) <==> JoinedAlready(m, todo - {id}, a, b) {
      assert b in NeighboursOf(after, a) <==> b in NeighboursOf(adjacency, a) || Joins(p, a, b);
      hide NeighboursOf, WithNeighbour;
      assert b in NeighboursOf(adjacency, a) <==> JoinedAlready(m, todo, a, b);
      JoinedWithOneMore(m, todo, id, a, b);
    }
  }

  lemma JoinedWithOneMore(m: MapConfig, todo: set<string>, id: string, a: string, b: string)
    requires id in todo && id in m.paths
    ensures JoinedAlready(m, todo - {id}, a, b) <==> JoinedAlready(m, todo, a, b) || Joins(m.paths[id], a, b)
  {}

  lemma AllJoined(m: MapConfig)
    ensures forall a, b :: JoinedAlready(m, {}, a, b) <==> Joined(m, a, b)
  {}

  /** Java's distance and Go's BFSDistance, on graphs loaded from the same
      configuration, differ in nothing but the answer for unreachable regions. */
  lemma SameDistances(adj: Adjacency, m: MapConfig, adjacency: Neighbourhood, a: string, b: string)
    requires Represents(adj, m)
    requires forall x, y :: y in NeighboursOf(adjacency, x) <==> Joined(m, x, y)
    ensures MinHops(Unweighted(adjacency), a, b) == MinHops(adj, a, b)
  {
    forall r, x ensures NextTo(adj, r, x) <==> NextTo(Unweighted(adjacency), r, x) {
      EdgesJoin(adj, m, r, x);
      UnweightedEdges(adjacency, r);
      assert x in NeighboursOf(adjacency, r) <==> Joined(m, r, x);
      hide Joined, NeighboursOf, Unweighted;
      if x in NeighboursOf(adjacency, r) {
        assert Edge(x, "", 0) in EdgesFrom(Unweighted(adjacency), r);
      }
    }
    SameNeighboursSameHops(adj, Unweighted(adjacency), a, b);
  }

  lemma EdgesJoin(adj: Adjacency, m: MapConfig, r: string, x: string)
    requires Represents(adj, m)
    ensures NextTo(adj, r, x) <==> Joined(m, r, x)
  {
    if NextTo(adj, r, x) {
      var e :| e in EdgesFrom(adj, r) && e.to == x;
      assert IsPathEdge(m, r, e);
      assert Joins(m.paths[e.pathId], r, x);
    }
    if Joined(m, r, x) {
      var id :| id in m.paths && Joins(m.paths[id], r, x);
      assert IsPathEdge(m, r, Edge(x, id, m.paths[id].cost));
    }
  }
}
