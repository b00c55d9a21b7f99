/** The interception analysis (option-b/internal/pipeline/intercept.go), with
    scores as real numbers. */
module Intercept {
  import opened Walks
  import opened Graph
  import opened Config
  import opened State
  import opened Steps
  import opened CacheStore
  import opened Timetable
  import opened RouteRisk
  import opened FanOut
  import opened Sequences
  import opened Runs

  datatype InterceptWork = InterceptWork(nazgulId: string, nazgulRegion: string, route: RouteWork)

  datatype InterceptResult = InterceptResult(nazgulId: string, targetRegion: string, score: real, routeName: string)

  // ----- what the score is ---------------------------------------------------

  /** The turns the Ring Bearer needs to the i-th region of a route. */
  function Arrival(costs: map<string, int>, ids: seq<string>, i: int): nat
    requires i < |ids|
  {
    if i < 0 then 0
    else Arrival(costs, ids, i - 1) + LegTime(if ids[i] in costs then costs[ids[i]] else 0)
  }

  /** Past the last path, positions keep the time of the last path. */
  function ArrivalAt(costs: map<string, int>, ids: seq<string>, i: int): nat {
    Arrival(costs, ids, if i < |ids| then i else |ids| - 1)
  }

  /** On the configured costs this is the timetable the engine keeps. */
  lemma {:induction false} ArrivalIsTimetable(m: MapConfig, costs: map<string, int>, ids: seq<string>, i: nat)
    requires i < |ids|
    requires forall id :: (if id in costs then costs[id] else 0) == PathCfg(m, id).cost
    ensures Arrival(costs, ids, i) == LegsTime(m, ids, i + 1)
  {
    if i > 0 { ArrivalIsTimetable(m, costs, ids, i - 1); }
  }

  /** The regions the analysis lists are the stops of the journey. */
  lemma {:induction false} RouteRegionsAreStops(m: MapConfig, home: string, ids: seq<string>)
    requires forall id | id in ids :: id in m.paths
    ensures |RouteRegions(m, home, ids)| == |ids|
    ensures forall i | 0 <= i < |ids| :: RouteRegions(m, home, ids)[i] == Stop(m, home, ids, i + 1)
  {
    if ids != [] {
      var n := |ids| - 1;
      RouteRegionsAreStops(m, home, ids[..n]);
      forall i | 0 <= i <= n ensures Stop(m, home, ids[..n], i) == Stop(m, home, ids, i) {
        StopOfPrefix(m, home, ids, n, i);
      }
    }
  }

  /** The analysis predicts the journey: unhindered, the Ring Bearer stands in the
      i-th region of his route in exactly the turn the analysis expects him there. */
  lemma PredictionComesTrue(
      r: Rules, costs: map<string, int>, ringBearerId: string, start: seq<Action>, more: seq<Action>,
      ids: seq<string>, i: nat)
    requires Playable(r) && OneRingBearer(r.g, ringBearerId)
    requires Departs(r, Game(r, ringBearerId, start).node, ids) && Unhindered(r, ringBearerId, start, more, ids)
    requires forall id :: (if id in costs then costs[id] else 0) == PathCfg(r.m, id).cost
    requires i < |ids| && 1 + TurnsEnded(more) == ArrivalAt(costs, ids, i)
    ensures var home := Game(r, ringBearerId, start).node.rb.trueRegion;
            && i < |RouteRegions(r.m, home, ids)|
            && Game(r, ringBearerId, start + [EndOfTurn] + more).node.rb.trueRegion == RouteRegions(r.m, home, ids)[i]
  {
    hide Playable, Game, Departs, Unhindered;
    ArrivalIsTimetable(r.m, costs, ids, i);
    FirstTurnOnTime(r, ringBearerId, start, ids);
    RouteRegionsAreStops(r.m, Game(r, ringBearerId, start).node.rb.trueRegion, ids);
    ExactTravelTime(r, ringBearerId, start, more, ids, i + 1);
  }

  /** How long the Nazgul needs to position i, or -1. */
  ghost function Needs(adj: Adjacency, w: InterceptWork, i: nat): int
    requires NonNegative(adj) && i < |w.route.regions|
  {
    MinTurns(adj, w.nazgulRegion, w.route.regions[i])
  }

  /** The Nazgul can be at position i when the Ring Bearer arrives. */
  ghost predicate InTime(adj: Adjacency, costs: map<string, int>, w: InterceptWork, i: nat)
    requires NonNegative(adj) && i < |w.route.regions|
  {
    0 <= Needs(adj, w, i) <= ArrivalAt(costs, w.route.pathIds, i)
  }

  function Score(turns: int, length: nat): real
    requires length > 0
  {
    var s := 1.0 - turns as real / length as real;
    if s < 0.0 then 0.0 else s
  }

  ghost function ScoreAt(adj: Adjacency, costs: map<string, int>, w: InterceptWork, i: nat): real
    requires NonNegative(adj) && i < |w.route.regions|
  {
    if InTime(adj, costs, w, i) then Score(Needs(adj, w, i), |w.route.regions|) else 0.0
  }

  lemma ScoreFalls(a: int, b: int, length: nat)
    requires length > 0 && 0 <= a
    ensures (Score(a, length) > 0.0 <==> a < length) && 0.0 <= Score(a, length) <= 1.0
    ensures a < length && a < b ==> Score(b, length) < Score(a, length)
    ensures a <= b ==> Score(b, length) <= Score(a, length)
  {}

  /** The best score over the first n positions, and the first position with it. */
  ghost predicate BestOfFirst(
      adj: Adjacency, costs: map<string, int>, w: InterceptWork, n: nat, best: InterceptResult)
    requires NonNegative(adj) && n <= |w.route.regions|
  {
    && best.nazgulId == w.nazgulId && best.routeName == w.route.name
    && (forall i | 0 <= i < n :: ScoreAt(adj, costs, w, i) <= best.score)
    && (|| (best.score == 0.0 && best.targetRegion == "")
        || exists i :: 0 <= i < n && best.score > 0.0 && FirstBest(adj, costs, w, i, best))
  }

  ghost predicate FirstBest(adj: Adjacency, costs: map<string, int>, w: InterceptWork, i: nat, best: InterceptResult)
    requires NonNegative(adj) && i < |w.route.regions|
  {
    && best.score == ScoreAt(adj, costs, w, i) && best.targetRegion == w.route.regions[i]
    && forall j | 0 <= j < i :: ScoreAt(adj, costs, w, j) < best.score
  }

  ghost predicate Interceptable(adj: Adjacency, costs: map<string, int>, w: InterceptWork, i: nat)
    requires NonNegative(adj) && i < |w.route.regions|
  {
    InTime(adj, costs, w, i) && Needs(adj, w, i) < |w.route.regions|
  }

  predicate IsShare(score: real, part: int, whole: int) {
    score * whole as real == part as real
  }

  /** The optimum: the score is positive exactly if the Nazgul can be somewhere on
      the route in time and in fewer turns than the route has regions, and then the
      target is the first such region that takes it the fewest turns. */
  lemma InterceptionOptimum(adj: Adjacency, costs: map<string, int>, w: InterceptWork, best: InterceptResult)
    requires NonNegative(adj) && BestOfFirst(adj, costs, w, |w.route.regions|, best)
    ensures best.score > 0.0 <==> exists i :: 0 <= i < |w.route.regions| && Interceptable(adj, costs, w, i)
    ensures best.score > 0.0 ==> exists i ::
              && 0 <= i < |w.route.regions|
              && Interceptable(adj, costs, w, i)
              && best.targetRegion == w.route.regions[i]
              && IsShare(best.score, |w.route.regions| - Needs(adj, w, i), |w.route.regions|)
              && (forall j | 0 <= j < |w.route.regions| && Interceptable(adj, costs, w, j) ::
                    Needs(adj, w, i) < Needs(adj, w, j) || (Needs(adj, w, i) == Needs(adj, w, j) && i <= j))
  {
    var n := |w.route.regions|;
    hide InTime, Needs, Score, IsShare;
    forall i | 0 <= i < n ensures ScoreAt(adj, costs, w, i) > 0.0 <==> Interceptable(adj, costs, w, i) {
      PositiveIfReachable(adj, costs, w, i);
    }
    if best.score > 0.0 {
      var i :| 0 <= i < n && best.score > 0.0 && FirstBest(adj, costs, w, i, best);
      forall j | 0 <= j < n && Interceptable(adj, costs, w, j)
        ensures Needs(adj, w, i) < Needs(adj, w, j) || (Needs(adj, w, i) == Needs(adj, w, j) && i <= j)
      {
        FewerTurnsScoreMore(adj, costs, w, i, j);
      }
      ScoreIsShare(adj, costs, w, i);
    }
  }

  lemma PositiveIfReachable(adj: Adjacency, costs: map<string, int>, w: InterceptWork, i: nat)
    requires NonNegative(adj) && i < |w.route.regions|
    ensures ScoreAt(adj, costs, w, i) > 0.0 <==> Interceptable(adj, costs, w, i)
  {
    hide Score, MinTurns;
    if InTime(adj, costs, w, i) {
      ScoreFalls(Needs(adj, w, i), 0, |w.route.regions|);
    }
  }

  lemma ScoreIsShare(adj: Adjacency, costs: map<string, int>, w: InterceptWork, i: nat)
    requires NonNegative(adj) && i < |w.route.regions| && Interceptable(adj, costs, w, i)
    ensures IsShare(ScoreAt(adj, costs, w, i), |w.route.regions| - Needs(adj, w, i), |w.route.regions|)
  {
    hide MinTurns, Score;
    ShareOf(Needs(adj, w, i), |w.route.regions|);
  }

  lemma ShareOf(turns: nat, length: nat)
    requires turns < length
    ensures IsShare(Score(turns, length), length - turns, length)
  {
    var q, n := turns as real / length as real, length as real;
    assert q * n == turns as real;
    assert q >= 1.0 ==> q * n >= n;
    assert (1.0 - q) * n == n - q * n;
  }

  lemma FewerTurnsScoreMore(adj: Adjacency, costs: map<string, int>, w: InterceptWork, i: nat, j: nat)
    requires NonNegative(adj) && i < |w.route.regions| && j < |w.route.regions|
    requires Interceptable(adj, costs, w, i) && Interceptable(adj, costs, w, j)
    ensures ScoreAt(adj, costs, w, j) <= ScoreAt(adj, costs, w, i) ==> Needs(adj, w, i) <= Needs(adj, w, j)
    ensures Needs(adj, w, i) == Needs(adj, w, j) ==> ScoreAt(adj, costs, w, j) == ScoreAt(adj, costs, w, i)
  {
    hide Score, MinTurns;
    ScoreFalls(Needs(adj, w, j), Needs(adj, w, i), |w.route.regions|);
  }

  // ----- the code ------------------------------------------------------------

  method ComputeInterceptScore(w: InterceptWork, graph: MapGraph) returns (best: InterceptResult)
    requires NonNegative(graph.adj)
    ensures BestOfFirst(graph.adj, graph.pathCosts, w, |w.route.regions|, best)
  {
    hide BestOfFirst, MinTurns, InTime, ArrivalAt, ScoreAt;
    best := InterceptResult(w.nazgulId, "", 0.0, w.route.name);
    NothingYet(graph.adj, graph.pathCosts, w, best);
    assert ArrivalAt(graph.pathCosts, w.route.pathIds, -1) == 0 by { NextArrival(graph.pathCosts, w.route.pathIds, 0); }
    var regions, ids := w.route.regions, w.route.pathIds;
    if |regions| == 0 {
      return;
    }
    var cumulative := 0;
    for i := 0 to |regions|
      invariant cumulative == ArrivalAt(graph.pathCosts, ids, i - 1)
      invariant BestOfFirst(graph.adj, graph.pathCosts, w, i, best)
    {
      if i < |ids| {
        var cost := graph.PathCost(ids[i]);
        if cost <= 0 {
          cost := 1;
        }
        cumulative := cumulative + cost;
      }
      NextArrival(graph.pathCosts, ids, i);
      var turns := graph.ShortestTurns(w.nazgulRegion, regions[i]);
      OneMorePosition(graph.adj, graph.pathCosts, w, i, best);
      if turns < 0 {
        continue;
      }
      var window := cumulative - turns;
      var score := 0.0;
      if window >= 0 {
        score := 1.0 - turns as real / |regions| as real;
        if score < 0.0 {
          score := 0.0;
        }
      }
      if score > best.score {
        best := best.(score := score, targetRegion := regions[i]);
      }
    }
  }

  lemma NothingYet(adj: Adjacency, costs: map<string, int>, w: InterceptWork, best: InterceptResult)
    requires NonNegative(adj) && best == InterceptResult(w.nazgulId, "", 0.0, w.route.name)
    ensures BestOfFirst(adj, costs, w, 0, best)
  {}

  lemma NextArrival(costs: map<string, int>, ids: seq<string>, i: nat)
    ensures ArrivalAt(costs, ids, -1) == 0
    ensures ArrivalAt(costs, ids, i)
         == ArrivalAt(costs, ids, i - 1)
            + if i < |ids| then LegTime(if ids[i] in costs then costs[ids[i]] else 0) else 0
  {}

  /** Whether one more position improves the best. */
  lemma OneMorePosition(adj: Adjacency, costs: map<string, int>, w: InterceptWork, n: nat, best: InterceptResult)
    requires NonNegative(adj) && n < |w.route.regions| && BestOfFirst(adj, costs, w, n, best)
    ensures var t, score := Needs(adj, w, n), ScoreAt(adj, costs, w, n);
            && (score == if 0 <= t <= ArrivalAt(costs, w.route.pathIds, n) then Score(t, |w.route.regions|) else 0.0)
            && BestOfFirst(adj, costs, w, n + 1,
                           if score > best.score then best.(score := score, targetRegion := w.route.regions[n])
                           else best)
    ensures best.score >= 0.0
  {
    hide MinTurns, Score, ArrivalAt;
    var score := ScoreAt(adj, costs, w, n);
    if score > best.score {
      var better := best.(score := score, targetRegion := w.route.regions[n]);
      assert FirstBest(adj, costs, w, n, better);
    }
  }

  /** The contract leaves no choice: there is one result for each work item. */
  lemma OneResult(adj: Adjacency, costs: map<string, int>, w: InterceptWork, a: InterceptResult, b: InterceptResult)
    requires NonNegative(adj)
    requires BestOfFirst(adj, costs, w, |w.route.regions|, a) && BestOfFirst(adj, costs, w, |w.route.regions|, b)
    ensures a == b
  {}

  // ----- the best result of each Nazgul --------------------------------------

  /** Each Nazgul that has a result has its best one, as far as scores go. */
  ghost predicate BestPerUnit(results: seq<InterceptResult>, best: map<string, InterceptResult>) {
    && (forall id :: id in best <==> HasResult(results, id))
    && (forall id | id in best :: best[id].nazgulId == id && best[id] in results)
    && (forall r | r in results :: r.nazgulId in best && r.score <= best[r.nazgulId].score)
  }

  predicate HasResult(results: seq<InterceptResult>, id: string) {
    exists r :: r in results && r.nazgulId == id
  }

  lemma OneMoreResult(results: seq<InterceptResult>, best: map<string, InterceptResult>, r: InterceptResult)
    requires BestPerUnit(results, best)
    ensures BestPerUnit(results + [r],
              if r.nazgulId !in best || r.score > best[r.nazgulId].score then best[r.nazgulId := r] else best)
  {}

  method BestByUnit(results: seq<InterceptResult>) returns (best: map<string, InterceptResult>)
    ensures BestPerUnit(results, best)
  {
    hide BestPerUnit;
    best := map[];
    NoResults();
    assert results[..0] == [];
    for i := 0 to |results|
      invariant BestPerUnit(results[..i], best)
    {
      var r := results[i];
      OneMoreResult(results[..i], best, r);
      assert results[..i + 1] == results[..i] + [r];
      if r.nazgulId !in best || r.score > best[r.nazgulId].score {
        best := best[r.nazgulId := r];
      }
    }
    assert results[..|results|] == results;
  }

  lemma NoResults()
    ensures BestPerUnit([], map[])
  {}

  predicate SameScores(a: map<string, InterceptResult>, b: map<string, InterceptResult>) {
    a.Keys == b.Keys && forall id | id in a :: a[id].score == b[id].score
  }

  /** The best scores do not depend on the order in which results arrive. */
  lemma ArrivalOrderDoesNotMatter(
      one: seq<InterceptResult>, other: seq<InterceptResult>,
      a: map<string, InterceptResult>, b: map<string, InterceptResult>)
    requires multiset(one) == multiset(other) && BestPerUnit(one, a) && BestPerUnit(other, b)
    ensures SameScores(a, b)
  {
    forall r ensures r in one <==> r in other {
      assert r in multiset(one) <==> r in multiset(other);
    }
    forall id | id in a ensures id in b && a[id].score <= b[id].score {
      assert a[id] in other;
    }
    forall id | id in b ensures id in a && b[id].score <= a[id].score {
      assert b[id] in one;
    }
  }

  /** One work item per active hunter and route, whatever order the units come in. */
  ghost predicate PairsUp(g: GameConfig, units: Units, routes: seq<RouteWork>, works: seq<InterceptWork>) {
    forall w :: multiset(works)[w] == if IsPair(g, units, w) then multiset(routes)[w.route] else 0
  }

  predicate IsPair(g: GameConfig, units: Units, w: InterceptWork) {
    w.nazgulId in units && IsHunter(g, units, w.nazgulId) && w.nazgulRegion == units[w.nazgulId].region
  }

  /** The pairs of the units that have been visited. */
  ghost predicate PairsUpSoFar(
      g: GameConfig, units: Units, routes: seq<RouteWork>, todo: set<string>, works: seq<InterceptWork>)
  {
    forall w ::
      multiset(works)[w] == if IsPair(g, units, w) && w.nazgulId !in todo then multiset(routes)[w.route] else 0
  }

  function WorksOf(id: string, region: string, routes: seq<RouteWork>): seq<InterceptWork> {
    Map((route: RouteWork) => InterceptWork(id, region, route), routes)
  }

  lemma {:induction false} WorksOfOne(id: string, region: string, routes: seq<RouteWork>, w: InterceptWork)
    ensures multiset(WorksOf(id, region, routes))[w]
         == if w.nazgulId == id && w.nazgulRegion == region then multiset(routes)[w.route] else 0
  {
    if routes != [] {
      var init, last := routes[..|routes| - 1], routes[|routes| - 1];
      WorksOfOne(id, region, init, w);
      assert routes == init + [last];
      assert WorksOf(id, region, routes) == WorksOf(id, region, init) + [InterceptWork(id, region, last)];
    }
  }

  lemma OneMoreHunter(
      g: GameConfig, units: Units, routes: seq<RouteWork>, todo: set<string>, works: seq<InterceptWork>, id: string)
    requires id in todo && id in units && PairsUpSoFar(g, units, routes, todo, works)
    ensures PairsUpSoFar(g, units, routes, todo - {id},
              if IsHunter(g, units, id) then works + WorksOf(id, units[id].region, routes) else works)
  {
    forall w {
      WorksOfOne(id, units[id].region, routes, w);
    }
    hide WorksOf;
  }

  method BuildWorks(g: GameConfig, snap: Snapshot, routes: seq<RouteWork>) returns (works: seq<InterceptWork>)
    ensures PairsUp(g, snap.units, routes, works)
  {
    hide PairsUpSoFar, WorksOf;
    works := [];
    var todo := snap.units.Keys;
    NoPairsYet(g, snap.units, routes);
    while todo != {}
      invariant todo <= snap.units.Keys
      invariant PairsUpSoFar(g, snap.units, routes, todo, works)
      decreases |todo|
    {
      var id :| id in todo;
      OneMoreHunter(g, snap.units, routes, todo, works, id);
      todo := todo - {id};
      var u := snap.units[id];
      if u.status != Active || UnitCfg(g, id).detectionRange <= 0 {
        continue;
      }
      ghost var before := works;
      assert routes[..0] == [];
      assert before + WorksOf(id, u.region, []) == before by { WorksOfNothing(id, u.region); }
      for i := 0 to |routes|
        invariant works == before + WorksOf(id, u.region, routes[..i])
      {
        OneMoreRoute(id, u.region, routes, i);
        works := works + [InterceptWork(id, u.region, routes[i])];
      }
      assert routes[..|routes|] == routes;
    }
    AllPairs(g, snap.units, routes, works);
  }

  lemma NoPairsYet(g: GameConfig, units: Units, routes: seq<RouteWork>)
    ensures PairsUpSoFar(g, units, routes, units.Keys, [])
  {}

  lemma AllPairs(g: GameConfig, units: Units, routes: seq<RouteWork>, works: seq<InterceptWork>)
    requires PairsUpSoFar(g, units, routes, {}, works)
    ensures PairsUp(g, units, routes, works)
  {}

  lemma WorksOfNothing(id: string, region: string)
    ensures WorksOf(id, region, []) == []
  {}

  lemma OneMoreRoute(id: string, region: string, routes: seq<RouteWork>, i: nat)
    requires i < |routes|
    ensures WorksOf(id, region, routes[..i + 1])
        == WorksOf(id, region, routes[..i]) + [InterceptWork(id, region, routes[i])]
  {}

  // ----- the plan ------------------------------------------------------------

  /** Each work item's result is the one ComputeInterceptScore gives. */
  ghost predicate ScoresAsCoded(adj: Adjacency, costs: map<string, int>, score: InterceptWork -> InterceptResult)
    requires NonNegative(adj)
  {
    forall w: InterceptWork :: BestOfFirst(adj, costs, w, |w.route.regions|, score(w))
  }

  /** The result over the first n positions. */
  ghost function ResultUpTo(adj: Adjacency, costs: map<string, int>, w: InterceptWork, n: nat): (best: InterceptResult)
    requires NonNegative(adj) && n <= |w.route.regions|
    ensures BestOfFirst(adj, costs, w, n, best)
  {
    hide BestOfFirst, ScoreAt;
    if n == 0 then
      var none := InterceptResult(w.nazgulId, "", 0.0, w.route.name);
      NothingYet(adj, costs, w, none);
      none
    else
      var best := ResultUpTo(adj, costs, w, n - 1);
      var score := ScoreAt(adj, costs, w, n - 1);
      OneMorePosition(adj, costs, w, n - 1, best);
      if score > best.score then best.(score := score, targetRegion := w.route.regions[n - 1]) else best
  }

  /** There is such an assignment of results, and only one. */
  lemma OneScoring(adj: Adjacency, costs: map<string, int>) returns (score: InterceptWork -> InterceptResult)
    requires NonNegative(adj)
    ensures ScoresAsCoded(adj, costs, score)
    ensures forall other: InterceptWork -> InterceptResult, w: InterceptWork ::
              ScoresAsCoded(adj, costs, other) ==> other(w) == score(w)
  {
    hide BestOfFirst;
    score := (w: InterceptWork) => ResultUpTo(adj, costs, w, |w.route.regions|);
    forall other: InterceptWork -> InterceptResult, w: InterceptWork | ScoresAsCoded(adj, costs, other)
      ensures other(w) == score(w)
    {
      OneResult(adj, costs, w, other(w), score(w));
    }
  }

  /** `best` is the result of one of the routes for this Nazgul, and no position
      of any of the routes scores higher. */
  ghost predicate BestOverRoutes(
      adj: Adjacency, costs: map<string, int>, id: string, region: string, routes: seq<RouteWork>,
      best: InterceptResult)
    requires NonNegative(adj)
  {
    && (exists route :: route in routes &&
          BestOfFirst(adj, costs, InterceptWork(id, region, route), |route.regions|, best))
    && (forall route, i | route in routes && 0 <= i < |route.regions| ::
          ScoreAt(adj, costs, InterceptWork(id, region, route), i) <= best.score)
  }

  /** The plan has an entry for exactly the active hunters, each the best over all
      positions of all routes. */
  ghost predicate PlanIsOptimal(
      g: GameConfig, units: Units, routes: seq<RouteWork>, adj: Adjacency, costs: map<string, int>,
      plan: map<string, InterceptResult>)
    requires NonNegative(adj)
  {
    && (forall id :: id in plan <==> routes != [] && id in units && IsHunter(g, units, id))
    && (forall id | id in plan && id in units :: BestOverRoutes(adj, costs, id, units[id].region, routes, plan[id]))
  }

  lemma MappedFrom<A, B>(f: A -> B, s: seq<A>, y: B)
    ensures y in Map(f, s) <==> exists x :: x in s && f(x) == y
  {
    if x :| x in s && f(x) == y {
      var i :| 0 <= i < |s| && s[i] == x;
      assert Map(f, s)[i] == y;
    }
    if y in Map(f, s) {
      var i :| 0 <= i < |s| && Map(f, s)[i] == y;
      assert s[i] in s && f(s[i]) == y;
    }
  }

  lemma WorksAreThePairs(
      g: GameConfig, units: Units, routes: seq<RouteWork>, works: seq<InterceptWork>, c: seq<InterceptWork>,
      w: InterceptWork)
    requires PairsUp(g, units, routes, works) && multiset(c) == multiset(works)
    ensures w in c <==> IsPair(g, units, w) && w.route in routes
  {
    hide IsPair;
    assert w in c <==> multiset(c)[w] > 0;
    assert w.route in routes <==> multiset(routes)[w.route] > 0;
  }

  lemma BestIsOptimal(
      g: GameConfig, units: Units, routes: seq<RouteWork>, adj: Adjacency, costs: map<string, int>,
      score: InterceptWork -> InterceptResult, works: seq<InterceptWork>, c: seq<InterceptWork>,
      plan: map<string, InterceptResult>)
    requires NonNegative(adj) && ScoresAsCoded(adj, costs, score)
    requires PairsUp(g, units, routes, works) && multiset(c) == multiset(works)
    requires BestPerUnit(Map(score, c), plan)
    ensures PlanIsOptimal(g, units, routes, adj, costs, plan)
  {
    hide PairsUp, Map, ScoreAt;
    forall id ensures id in plan ==> routes != [] && id in units && IsHunter(g, units, id)
      ensures id in plan ==> BestOverRoutes(adj, costs, id, units[id].region, routes, plan[id])
    {
      if id in plan {
        MappedFrom(score, c, plan[id]);
        var w :| w in c && score(w) == plan[id];
        WorksAreThePairs(g, units, routes, works, c, w);
        PlannedIsBest(g, units, routes, adj, costs, score, works, c, plan, w);
      }
    }
    forall id | routes != [] && id in units && IsHunter(g, units, id) ensures id in plan {
      var w := InterceptWork(id, units[id].region, routes[0]);
      WorksAreThePairs(g, units, routes, works, c, w);
      MappedFrom(score, c, score(w));
    }
  }

  lemma PlannedIsBest(
      g: GameConfig, units: Units, routes: seq<RouteWork>, adj: Adjacency, costs: map<string, int>,
      score: InterceptWork -> InterceptResult, works: seq<InterceptWork>, c: seq<InterceptWork>,
      plan: map<string, InterceptResult>, w: InterceptWork)
    requires NonNegative(adj) && ScoresAsCoded(adj, costs, score)
    requires PairsUp(g, units, routes, works) && multiset(c) == multiset(works) && BestPerUnit(Map(score, c), plan)
    requires IsPair(g, units, w) && w.route in routes && w.nazgulId in plan && plan[w.nazgulId] == score(w)
    ensures BestOverRoutes(adj, costs, w.nazgulId, w.nazgulRegion, routes, plan[w.nazgulId])
  {
    hide PairsUp, Map, ScoreAt;
    var best := plan[w.nazgulId];
    forall route, i | route in routes && 0 <= i < |route.regions|
      ensures ScoreAt(adj, costs, InterceptWork(w.nazgulId, w.nazgulRegion, route), i) <= best.score
    {
      var v := InterceptWork(w.nazgulId, w.nazgulRegion, route);
      WorksAreThePairs(g, units, routes, works, c, v);
      MappedFrom(score, c, score(v));
      assert BestOfFirst(adj, costs, v, |route.regions|, score(v));
    }
    assert w == InterceptWork(w.nazgulId, w.nazgulRegion, w.route);
  }

  /** Two analyses of the same state that are not cancelled give the same Nazgul a
      target, namely all active hunters, and each the same score, the greatest over
      all positions of all routes, whatever order the units came in and however the
      goroutines were scheduled. */
  lemma PlanDependsOnStateOnly(
      g: GameConfig, units: Units, routes: seq<RouteWork>, adj: Adjacency, costs: map<string, int>,
      score: InterceptWork -> InterceptResult, works1: seq<InterceptWork>, works2: seq<InterceptWork>,
      cap: nat, workers: nat, run1: seq<Step>, run2: seq<Step>,
      a: map<string, InterceptResult>, b: map<string, InterceptResult>)
    requires NonNegative(adj) && ScoresAsCoded(adj, costs, score) && workers > 0
    requires PairsUp(g, units, routes, works1) && PairsUp(g, units, routes, works2)
    requires IsRun(NewPipeline(works1, cap, workers), run1) && IsRun(NewPipeline(works2, cap, workers), run2)
    requires var p := StateAfter(NewPipeline(works1, cap, workers), run1);
             !p.aggregating && !p.cancelled && BestPerUnit(Map(score, p.collected), a)
    requires var p := StateAfter(NewPipeline(works2, cap, workers), run2);
             !p.aggregating && !p.cancelled && BestPerUnit(Map(score, p.collected), b)
    ensures SameScores(a, b)
    ensures PlanIsOptimal(g, units, routes, adj, costs, a) && PlanIsOptimal(g, units, routes, adj, costs, b)
  {
    hide ScoresAsCoded, BestPerUnit, SameScores, IsRun, StateAfter, NewPipeline, Terminated, Map, PlanIsOptimal;
    OneScorePerWorkItem(works1, cap, workers, run1);
    OneScorePerWorkItem(works2, cap, workers, run2);
    var c := StateAfter(NewPipeline(works1, cap, workers), run1).collected;
    var d := StateAfter(NewPipeline(works2, cap, workers), run2).collected;
    assert multiset(works1) == multiset(works2);
    hide PairsUp;
    MapPermutes(score, c, d);
    ArrivalOrderDoesNotMatter(Map(score, c), Map(score, d), a, b);
    BestIsOptimal(g, units, routes, adj, costs, score, works1, c, a);
    BestIsOptimal(g, units, routes, adj, costs, score, works2, d, b);
  }
}
