/** The risk of a route, as the Go pipeline computes it
    (option-b/internal/pipeline/route_risk.go:128-336). */
module RouteRisk {
  import opened Walks
  import opened Graph
  import opened Config
  import opened State
  import opened Steps
  import opened Turn
  import opened CacheStore
  import opened Ingest
  import opened Acceptance
  import opened Sequences

  // ----- what the risk is ----------------------------------------------------

  /** What a risk analysis sees: the threat of each region, the state of each
      path, and where the active units that can detect are. */
  datatype View = View(threats: map<string, int>, paths: map<string, PathView>, hunters: map<string, string>)

  datatype PathView = PathView(status: PathStatus, surveillance: int)

  datatype RiskReport = RiskReport(score: int, threatened: seq<string>, blocked: seq<string>)

  /** The regions a list of paths leads through. Unknown paths are skipped; a path
      that does not start where the last one ended is taken to its `to` end. */
  function RouteRegions(m: MapConfig, start: string, ids: seq<string>): seq<string> {
    if ids == [] then []
    else
      var before := RouteRegions(m, start, ids[..|ids| - 1]);
      var id := ids[|ids| - 1];
      if id !in m.paths then before else before + [OtherEnd(LastOr(start, before), m.paths[id])]
  }

  function LastOr(start: string, regions: seq<string>): string {
    if regions == [] then start else regions[|regions| - 1]
  }

  function ThreatSum(threats: map<string, int>, regions: seq<string>): int {
    if regions == [] then 0
    else
      var r := regions[|regions| - 1];
      ThreatSum(threats, regions[..|regions| - 1]) + if r in threats then threats[r] else 0
  }

  function PathRisk(p: PathView): int {
    p.surveillance * 3 + match p.status { case Blocked => 5 case Threatened => 2 case _ => 0 }
  }

  function PathRiskSum(paths: map<string, PathView>, ids: seq<string>): int {
    if ids == [] then 0
    else
      var id := ids[|ids| - 1];
      PathRiskSum(paths, ids[..|ids| - 1]) + if id in paths then PathRisk(paths[id]) else 0
  }

  function WithStatus(paths: map<string, PathView>, ids: seq<string>, status: PathStatus): seq<string> {
    if ids == [] then []
    else
      var id := ids[|ids| - 1];
      WithStatus(paths, ids[..|ids| - 1], status) + if id in paths && paths[id].status == status then [id] else []
  }

  ghost predicate IsNear(adj: Adjacency, from: string, regions: seq<string>) {
    exists r :: r in regions && 0 <= MinHops(adj, from, r) <= 2
  }

  ghost function NearHunters(adj: Adjacency, hunters: map<string, string>, regions: seq<string>): set<string> {
    set id | id in hunters && IsNear(adj, hunters[id], regions)
  }

  /** The report on paths `ids` that lead through `regions`. */
  ghost function Report(adj: Adjacency, v: View, regions: seq<string>, ids: seq<string>): RiskReport {
    RiskReport(
      ThreatSum(v.threats, regions) + PathRiskSum(v.paths, ids) + |NearHunters(adj, v.hunters, regions)| * 2,
      WithStatus(v.paths, ids, Threatened),
      WithStatus(v.paths, ids, Blocked))
  }

  // ----- what the score is made of -------------------------------------------

  /** The threat of each region on the way; unknown ones pose none. */
  function Threats(v: View, regions: seq<string>): seq<int> {
    seq(|regions|, i requires 0 <= i < |regions| => if regions[i] in v.threats then v.threats[regions[i]] else 0)
  }

  function Watches(v: View, ids: seq<string>): seq<int> {
    seq(|ids|, i requires 0 <= i < |ids| => if ids[i] in v.paths then v.paths[ids[i]].surveillance else 0)
  }

  lemma {:induction false} ThreatSumIsTotal(v: View, regions: seq<string>)
    ensures ThreatSum(v.threats, regions) == Total(Threats(v, regions))
  {
    if regions != [] {
      var init := regions[..|regions| - 1];
      ThreatSumIsTotal(v, init);
      assert Threats(v, regions)[..|init|] == Threats(v, init);
    }
  }

  lemma {:induction false} PathRiskSumIsTotal(v: View, ids: seq<string>)
    ensures PathRiskSum(v.paths, ids)
         == 3 * Total(Watches(v, ids))
            + 5 * |WithStatus(v.paths, ids, Blocked)| + 2 * |WithStatus(v.paths, ids, Threatened)|
  {
    if ids != [] {
      var init := ids[..|ids| - 1];
      PathRiskSumIsTotal(v, init);
      assert Watches(v, ids)[..|init|] == Watches(v, init);
    }
  }

  lemma {:induction false} WithStatusCounts(
      paths: map<string, PathView>, ids: seq<string>, status: PathStatus, id: string)
    ensures multiset(WithStatus(paths, ids, status))[id]
         == if id in paths && paths[id].status == status then multiset(ids)[id] else 0
  {
    if ids != [] {
      var init, last := ids[..|ids| - 1], ids[|ids| - 1];
      WithStatusCounts(paths, init, status, id);
      assert ids == init + [last];
    }
  }

  /** Of the ids those asked for are reported, each as often as it occurs. */
  ghost predicate ReportsOnly(reported: seq<string>, ids: seq<string>, those: set<string>) {
    forall id :: multiset(reported)[id] == if id in those then multiset(ids)[id] else 0
  }

  /** The score: every region counts its threat, every path three times its
      surveillance, every blocked path 5, every threatened one 2, and every hunter
      within two hops of a region of the route 2. A path is reported as blocked or
      threatened as often as it occurs, if it is, and otherwise not at all. */
  lemma RiskFormula(adj: Adjacency, v: View, regions: seq<string>, ids: seq<string>)
    ensures var report := Report(adj, v, regions, ids);
            var near := set u | u in v.hunters && exists r :: r in regions && 0 <= MinHops(adj, v.hunters[u], r) <= 2;
            && report.score
               == Total(Threats(v, regions)) + 3 * Total(Watches(v, ids))
                  + 5 * |report.blocked| + 2 * |report.threatened| + 2 * |near|
            && ReportsOnly(report.blocked, ids, set id | id in v.paths && v.paths[id].status == Blocked)
            && ReportsOnly(report.threatened, ids, set id | id in v.paths && v.paths[id].status == Threatened)
  {
    hide MinHops, Total, Threats, Watches, ThreatSum, PathRiskSum, WithStatus;
    ThreatSumIsTotal(v, regions);
    PathRiskSumIsTotal(v, ids);
    forall id, status
      ensures multiset(WithStatus(v.paths, ids, status))[id]
           == if id in v.paths && v.paths[id].status == status then multiset(ids)[id] else 0
    {
      WithStatusCounts(v.paths, ids, status, id);
    }
    assert NearHunters(adj, v.hunters, regions)
        == set u | u in v.hunters && exists r :: r in regions && 0 <= MinHops(adj, v.hunters[u], r) <= 2;
  }

  /** On a walk, the regions are the ones it visits. */
  lemma {:induction false} RegionsOfWalk(adj: Adjacency, m: MapConfig, start: string, es: seq<Edge>)
    requires Represents(adj, m) && FollowsEdges(adj, start, es)
    ensures RouteRegions(m, start, PathIdsOf(es)) == RegionsOf(es)
    ensures LastOr(start, RegionsOf(es)) == End(start, es)
  {
    if es != [] {
      var init, last := es[..|es| - 1], es[|es| - 1];
      RegionsOfWalk(adj, m, start, init);
      assert PathIdsOf(es)[..|es| - 1] == PathIdsOf(init);
      assert IsPathEdge(m, End(start, init), last);
      assert RegionsOf(es) == RegionsOf(init) + [last.to];
    }
  }

  /** On the route of an accepted order the pipeline sees exactly the regions of
      the walk that was accepted. */
  lemma RegionsOfAcceptedRoute(r: Rules, cache: Cache, raw: RawOrder)
    requires Represents(r.adj, r.m)
    requires raw.kind == AssignRoute || raw.kind == RedirectUnit
    requires Validate(r, cache, raw) == Accepted
    ensures var start := StartOfRoute(r.g, cache, raw.unit);
            exists es :: && FollowsEdges(r.adj, start, es) && PathIdsOf(es) == RouteIds(raw)
                         && RouteRegions(r.m, start, RouteIds(raw)) == RegionsOf(es)
  {
    ProperOrders(r, cache, raw);
    RouteAcceptance(r, cache, raw);
    hide Validate, Proper;
    var start := StartOfRoute(r.g, cache, raw.unit);
    var es :| FollowsEdges(r.adj, start, es) && PathIdsOf(es) == RouteIds(raw);
    RegionsOfWalk(r.adj, r.m, start, es);
  }

  /** What the pipeline sees of a snapshot. */
  function Observed(g: GameConfig, cache: Cache): View {
    View(map id | id in cache.regions :: cache.regions[id].threatLevel,
         map id | id in cache.paths :: PathView(cache.paths[id].status, cache.paths[id].surveillance),
         map id | id in cache.units && IsHunter(g, cache.units, id) :: cache.units[id].region)
  }

  predicate IsHunter(g: GameConfig, units: Units, id: string)
    requires id in units
  {
    units[id].status == Active && UnitCfg(g, id).detectionRange > 0
  }

  /** The same, told of the cache. */
  lemma RiskInCache(g: GameConfig, adj: Adjacency, cache: Cache, regions: seq<string>, ids: seq<string>)
    ensures var report := Report(adj, Observed(g, cache), regions, ids);
            var threats := seq(|regions|, i requires 0 <= i < |regions| =>
              if regions[i] in cache.regions then cache.regions[regions[i]].threatLevel else 0);
            var watches := seq(|ids|, i requires 0 <= i < |ids| =>
              if ids[i] in cache.paths then cache.paths[ids[i]].surveillance else 0);
            var near := set u |
              && u in cache.units && cache.units[u].status == Active && UnitCfg(g, u).detectionRange > 0
              && exists r :: r in regions && 0 <= MinHops(adj, cache.units[u].region, r) <= 2;
            && report.score
               == Total(threats) + 3 * Total(watches) + 5 * |report.blocked| + 2 * |report.threatened| + 2 * |near|
            && ReportsOnly(report.blocked, ids, set id | id in cache.paths && cache.paths[id].status == Blocked)
            && ReportsOnly(report.threatened, ids, set id | id in cache.paths && cache.paths[id].status == Threatened)
  {
    hide MinHops, Report, Total, ReportsOnly;
    var v := Observed(g, cache);
    RiskFormula(adj, v, regions, ids);
    assert Threats(v, regions) == seq(|regions|, i requires 0 <= i < |regions| =>
              if regions[i] in cache.regions then cache.regions[regions[i]].threatLevel else 0);
    assert Watches(v, ids) == seq(|ids|, i requires 0 <= i < |ids| =>
              if ids[i] in cache.paths then cache.paths[ids[i]].surveillance else 0);
    assert (set id | id in v.paths && v.paths[id].status == Blocked)
        == set id | id in cache.paths && cache.paths[id].status == Blocked;
    assert (set id | id in v.paths && v.paths[id].status == Threatened)
        == set id | id in cache.paths && cache.paths[id].status == Threatened;
    hide Threats, Watches;
    NearInCache(g, adj, cache, regions);
  }

  lemma NearInCache(g: GameConfig, adj: Adjacency, cache: Cache, regions: seq<string>)
    ensures var v := Observed(g, cache);
            (set u | u in v.hunters && exists r :: r in regions && 0 <= MinHops(adj, v.hunters[u], r) <= 2)
            == set u |
                 && u in cache.units && cache.units[u].status == Active && UnitCfg(g, u).detectionRange > 0
                 && exists r :: r in regions && 0 <= MinHops(adj, cache.units[u].region, r) <= 2
  {
    hide MinHops;
  }

  // ----- the code ------------------------------------------------------------

  datatype RouteWork = RouteWork(name: string, regions: seq<string>, pathIds: seq<string>)

  datatype RouteScore = RouteScore(
    name: string, regions: seq<string>, riskScore: int, threatPaths: seq<string>, blockedPaths: seq<string>)

  method ResolveRouteRegions(start: string, ids: seq<string>, m: MapConfig) returns (regions: seq<string>)
    ensures regions == RouteRegions(m, start, ids)
  {
    var current := start;
    regions := [];
    assert ids[..0] == [];
    for i := 0 to |ids|
      invariant regions == RouteRegions(m, start, ids[..i]) && current == LastOr(start, regions)
    {
      assert ids[..i + 1][..i] == ids[..i];
      if ids[i] !in m.paths {
        continue;
      }
      var pc := m.paths[ids[i]];
      if current == pc.from {
        current := pc.to;
      } else if current == pc.to {
        current := pc.from;
      } else {
        current := pc.to;
      }
      regions := regions + [current];
    }
    assert ids[..|ids|] == ids;
  }

  /** Counts the hunters near the route, whatever order the units come in. */
  method ComputeNazgulProximity(
      regions: seq<string>, snap: Snapshot, g: GameConfig, graph: MapGraph)
    returns (count: nat)
    ensures count == |NearHunters(graph.adj, Observed(g, snap.Value()).hunters, regions)|
  {
    hide IsNear, NearHunters, Observed;
    ghost var near := NearHunters(graph.adj, Observed(g, snap.Value()).hunters, regions);
    var todo := snap.units.Keys;
    count := 0;
    NearAreUnits(g, graph.adj, snap.Value(), regions);
    assert near - todo == {};
    while todo != {}
      invariant todo <= snap.units.Keys && count == |near - todo|
      decreases |todo|
    {
      var id :| id in todo;
      IsNearHunter(g, graph.adj, snap.Value(), regions, id);
      OneLess(near, todo, id);
      todo := todo - {id};
      var u := snap.units[id];
      if u.status != Active || UnitCfg(g, id).detectionRange <= 0 {
        continue;
      }
      var isNear := NearRoute(u.region, regions, graph);
      if isNear {
        count := count + 1;
      }
    }
    assert near - {} == near;
  }

  lemma NearAreUnits(g: GameConfig, adj: Adjacency, cache: Cache, regions: seq<string>)
    ensures NearHunters(adj, Observed(g, cache).hunters, regions) <= cache.units.Keys
  {}

  lemma IsNearHunter(g: GameConfig, adj: Adjacency, cache: Cache, regions: seq<string>, id: string)
    requires id in cache.units
    ensures id in NearHunters(adj, Observed(g, cache).hunters, regions)
            <==> IsHunter(g, cache.units, id) && IsNear(adj, cache.units[id].region, regions)
  {}

  lemma OneLess(s: set<string>, todo: set<string>, id: string)
    requires id in todo
    ensures |s - (todo - {id})| == |s - todo| + if id in s then 1 else 0
  {
    if id in s {
      assert s - (todo - {id}) == (s - todo) + {id};
    } else {
      assert s - (todo - {id}) == s - todo;
    }
  }

  method NearRoute(from: string, regions: seq<string>, graph: MapGraph) returns (b: bool)
    ensures b <==> IsNear(graph.adj, from, regions)
  {
    hide MinHops;
    for i := 0 to |regions|
      invariant forall k | 0 <= k < i :: !(0 <= MinHops(graph.adj, from, regions[k]) <= 2)
    {
      var dist := graph.BFSDistance(from, regions[i]);
      if dist >= 0 && dist <= 2 {
        assert regions[i] in regions;
        return true;
      }
    }
    b := false;
  }

  method SumThreats(regions: seq<string>, snap: Snapshot, ghost g: GameConfig) returns (score: int)
    ensures score == ThreatSum(Observed(g, snap.Value()).threats, regions)
  {
    score := 0;
    assert regions[..0] == [];
    for i := 0 to |regions|
      invariant score == ThreatSum(Observed(g, snap.Value()).threats, regions[..i])
    {
      assert regions[..i + 1][..i] == regions[..i];
      if regions[i] in snap.regions {
        score := score + snap.regions[regions[i]].threatLevel;
      }
    }
    assert regions[..|regions|] == regions;
  }

  method ComputeRouteRisk(work: RouteWork, snap: Snapshot, g: GameConfig, graph: MapGraph) returns (score: RouteScore)
    ensures score.name == work.name && score.regions == work.regions
    ensures RiskReport(score.riskScore, score.threatPaths, score.blockedPaths)
         == Report(graph.adj, Observed(g, snap.Value()), work.regions, work.pathIds)
  {
    hide NearHunters;
    var ids := work.pathIds;
    ghost var v := Observed(g, snap.Value());
    var threat := SumThreats(work.regions, snap, g);
    var risk := threat;
    var threatened, blocked := [], [];
    assert ids[..0] == [];
    for i := 0 to |ids|
      invariant risk == threat + PathRiskSum(v.paths, ids[..i])
      invariant threatened == WithStatus(v.paths, ids[..i], Threatened)
      invariant blocked == WithStatus(v.paths, ids[..i], Blocked)
    {
      assert ids[..i + 1][..i] == ids[..i];
      var id := ids[i];
      if id !in snap.paths {
        continue;
      }
      var p := snap.paths[id];
      assert v.paths[id] == PathView(p.status, p.surveillance);
      risk := risk + p.surveillance * 3;
      if p.status == Blocked {
        risk := risk + 5;
        blocked := blocked + [id];
      } else if p.status == Threatened {
        risk := risk + 2;
        threatened := threatened + [id];
      }
    }
    assert ids[..|ids|] == ids;
    var proximity := ComputeNazgulProximity(work.regions, snap, g, graph);
    risk := risk + proximity * 2;
    score := RouteScore(work.name, work.regions, risk, threatened, blocked);
  }

  /** The risk of a submitted route. */
  method ComputeRouteRiskForPathIds(
      start: string, ids: seq<string>, snap: Snapshot, g: GameConfig, graph: MapGraph, m: MapConfig)
    returns (score: RouteScore)
    ensures RiskReport(score.riskScore, score.threatPaths, score.blockedPaths)
         == Report(graph.adj, Observed(g, snap.Value()), RouteRegions(m, start, ids), ids)
  {
    var regions := ResolveRouteRegions(start, ids, m);
    score := ComputeRouteRisk(RouteWork("Submitted Route", regions, ids), snap, g, graph);
  }
}
