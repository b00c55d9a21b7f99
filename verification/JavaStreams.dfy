/** The second implementation of the risk formula and of the route check, in Java
    (RouteRiskTopology.java and ValidationTopology.java under
    kafka/streams/src/main/java/rotr/streams), and its agreement with the first. */
module JavaStreams {
  import opened Walks
  import opened Config
  import opened State
  import opened Steps
  import opened Turn
  import opened Ingest
  import opened Runs
  import opened Timers
  import opened JavaConfig
  import opened RouteRisk
  import opened Sequences

  /** The newest records of the unit and path topics; NoStatus stands for the
      empty status. */
  datatype UnitRecord = UnitRecord(to: string, status: UnitStatus)

  datatype PathRecord = PathRecord(newStatus: PathStatus, surveillance: int)

  datatype Stores = Stores(units: map<string, UnitRecord>, paths: map<string, PathRecord>, ring: map<string, string>)

  // ----- what the stores show ------------------------------------------------

  function StatusSeen(s: Stores, id: string): UnitStatus {
    if id !in s.units || s.units[id].status == NoStatus then Active else s.units[id].status
  }

  function RegionSeen(s: Stores, g: GameConfig, id: string): string {
    if id in s.units then s.units[id].to else UnitCfg(g, id).startRegion
  }

  function PathSeen(s: Stores, id: string): PathView {
    if id in s.paths then PathView(s.paths[id].newStatus, s.paths[id].surveillance) else PathView(Open, 0)
  }

  function RingBearerSeen(s: Stores, g: GameConfig, ringBearerId: string): string {
    if ringBearerId in s.ring then s.ring[ringBearerId] else UnitCfg(g, ringBearerId).startRegion
  }

  /** Every configured region shows its initial threat, whatever has happened. */
  function Seen(s: Stores, g: GameConfig, m: MapConfig): View {
    View(map id | id in m.regions :: m.regions[id].startThreat,
         map id | id in m.paths :: PathSeen(s, id),
         map id | id in g.units && g.units[id].detectionRange > 0 && StatusSeen(s, id) == Active ::
             RegionSeen(s, g, id))
  }

  /** The score that is passed on: configured threats, the newest path records, and
      the configured hunters as the unit records show them, active at home if there
      is none. */
  lemma RiskInStores(s: Stores, g: GameConfig, m: MapConfig, adj: Adjacency, regions: seq<string>, ids: seq<string>)
    ensures var report := Report(adj, Seen(s, g, m), regions, ids);
            var threats := seq(|regions|, i requires 0 <= i < |regions| =>
              if regions[i] in m.regions then m.regions[regions[i]].startThreat else 0);
            var watches := seq(|ids|, i requires 0 <= i < |ids| =>
              if ids[i] in m.paths && ids[i] in s.paths then s.paths[ids[i]].surveillance else 0);
            var marked := m.paths.Keys * s.paths.Keys;
            var near := set u |
              && u in g.units && g.units[u].detectionRange > 0
              && (u in s.units ==> s.units[u].status in {Active, NoStatus})
              && var at := if u in s.units then s.units[u].to else g.units[u].startRegion;
                 exists r :: r in regions && 0 <= MinHops(adj, at, r) <= 2;
            && report.score
               == Total(threats) + 3 * Total(watches) + 5 * |report.blocked| + 2 * |report.threatened| + 2 * |near|
            && ReportsOnly(report.blocked, ids, set id | id in marked && s.paths[id].newStatus == Blocked)
            && ReportsOnly(report.threatened, ids, set id | id in marked && s.paths[id].newStatus == Threatened)
  {
    hide MinHops, Report, Total, ReportsOnly;
    var v, marked := Seen(s, g, m), m.paths.Keys * s.paths.Keys;
    RiskFormula(adj, v, regions, ids);
    assert Threats(v, regions) == seq(|regions|, i requires 0 <= i < |regions| =>
              if regions[i] in m.regions then m.regions[regions[i]].startThreat else 0);
    assert Watches(v, ids) == seq(|ids|, i requires 0 <= i < |ids| =>
              if ids[i] in m.paths && ids[i] in s.paths then s.paths[ids[i]].surveillance else 0);
    assert (set id | id in v.paths && v.paths[id].status == Blocked)
        == set id | id in marked && s.paths[id].newStatus == Blocked;
    assert (set id | id in v.paths && v.paths[id].status == Threatened)
        == set id | id in marked && s.paths[id].newStatus == Threatened;
    hide Threats, Watches;
    NearInStores(s, g, m, adj, regions);
  }

  lemma NearInStores(s: Stores, g: GameConfig, m: MapConfig, adj: Adjacency, regions: seq<string>)
    ensures var v := Seen(s, g, m);
            (set u | u in v.hunters && exists r :: r in regions && 0 <= MinHops(adj, v.hunters[u], r) <= 2)
            == set u |
                 && u in g.units && g.units[u].detectionRange > 0
                 && (u in s.units ==> s.units[u].status in {Active, NoStatus})
                 && var at := if u in s.units then s.units[u].to else g.units[u].startRegion;
                    exists r :: r in regions && 0 <= MinHops(adj, at, r) <= 2
  {
    hide MinHops;
  }

  // ----- the code ------------------------------------------------------------

  class RouteRiskTransformer {
    const config: StreamsConfig
    const ringBearerId: string
    var stores: Stores

    constructor (config: StreamsConfig, ringBearerId: string, stores: Stores)
      ensures this.config == config && this.ringBearerId == ringBearerId && this.stores == stores
    {
      this.config, this.ringBearerId, this.stores := config, ringBearerId, stores;
    }

    function StartRegion(unitId: string): string
      reads this
    {
      if unitId !in config.g.units then ""
      else if IsRingBearer(config.g, unitId) then
        // with no record yet, the configured start of the ordered unit itself
        if ringBearerId in stores.ring then stores.ring[ringBearerId] else config.g.units[unitId].startRegion
      else RegionSeen(stores, config.g, unitId)
    }

    function CurrentPathState(pathId: string): PathView
      reads this
    {
      PathSeen(stores, pathId)
    }

    function ResolveDestination(region: string, p: PathConfig): string {
      if region == p.from then p.to else if region == p.to then p.from else p.to
    }

    /** One pass over the paths, then one over the units. */
    method ComputeRouteRisk(start: string, ids: seq<string>) returns (risk: RiskReport)
      ensures risk == Report(Unweighted(config.adjacency), Seen(stores, config.g, config.m),
          RouteRegions(config.m, start, ids), ids)
    {
      hide NearHunters, Unweighted, RouteRegions, ThreatSum, PathRiskSum, WithStatus, Seen;
      ghost var v := Seen(stores, config.g, config.m);
      var score, region := 0, start;
      var threatened, blocked, regions := [], [], [];
      NoPathYet(config.m, v, start, ids);
      for i := 0 to |ids|
        invariant regions == RouteRegions(config.m, start, ids[..i]) && region == LastOr(start, regions)
        invariant score == ThreatSum(v.threats, regions) + PathRiskSum(v.paths, ids[..i])
        invariant threatened == WithStatus(v.paths, ids[..i], Threatened)
        invariant blocked == WithStatus(v.paths, ids[..i], Blocked)
      {
        var id := ids[i];
        OnePathMore(stores, config.g, config.m, start, ids, i);
        if id !in config.m.paths {
          continue;
        }
        region := ResolveDestination(region, config.m.paths[id]);
        regions := regions + [region];
        if region in config.m.regions {
          score := score + config.m.regions[region].startThreat;
        }
        var p := CurrentPathState(id);
        score := score + p.surveillance * 3;
        if p.status == Threatened {
          score := score + 2;
          threatened := threatened + [id];
        } else if p.status == Blocked {
          score := score + 5;
          blocked := blocked + [id];
        }
      }
      assert ids[..|ids|] == ids;
      var near := CountHunters(regions);
      risk := RiskReport(score + 2 * near, threatened, blocked);
    }

    /** The risk with which a route order is passed on. */
    method Transform(unitId: string, ids: seq<string>) returns (risk: RiskReport)
      ensures risk == Report(Unweighted(config.adjacency), Seen(stores, config.g, config.m),
                             RouteRegions(config.m, StartRegion(unitId), ids), ids)
    {
      risk := ComputeRouteRisk(StartRegion(unitId), ids);
    }

    /** The second loop: two points for every hunter near the route. */
    method CountHunters(regions: seq<string>) returns (count: nat)
      ensures count == |NearHunters(Unweighted(config.adjacency), Seen(stores, config.g, config.m).hunters, regions)|
    {
      hide IsNear, NearHunters, Unweighted, Seen;
      ghost var adj := Unweighted(config.adjacency);
      ghost var near := NearHunters(adj, Seen(stores, config.g, config.m).hunters, regions);
      var todo := config.g.units.Keys;
      count := 0;
      NearAreConfigured(stores, config.g, config.m, adj, regions);
      assert near - todo == {};
      while todo != {}
        invariant todo <= config.g.units.Keys && count == |near - todo|
        decreases |todo|
      {
        var id :| id in todo;
        IsNearSeen(stores, config.g, config.m, adj, regions, id);
        OneLess(near, todo, id);
        todo := todo - {id};
        if config.g.units[id].detectionRange <= 0 {
          continue;
        }
        if StatusSeen(stores, id) != Active {
          continue;
        }
        var isNear := NearRoute(RegionSeen(stores, config.g, id), regions);
        if isNear {
          count := count + 1;
        }
      }
      assert near - {} == near;
    }

    method NearRoute(from: string, regions: seq<string>) returns (b: bool)
      ensures b <==> IsNear(Unweighted(config.adjacency), from, regions)
    {
      hide MinHops, Unweighted;
      for i := 0 to |regions|
        invariant forall k | 0 <= k < i :: !(0 <= MinHops(Unweighted(config.adjacency), from, regions[k]) <= 2)
      {
        var dist := config.Distance(from, regions[i]);
        if dist <= 2 {
          assert regions[i] in regions;
          return true;
        }
      }
      b := false;
    }
  }

  lemma NoPathYet(m: MapConfig, v: View, start: string, ids: seq<string>)
    ensures ids[..0] == [] && RouteRegions(m, start, []) == [] && PathRiskSum(v.paths, []) == 0
        && ThreatSum(v.threats, []) == 0
    ensures WithStatus(v.paths, [], Threatened) == [] && WithStatus(v.paths, [], Blocked) == []
  {}

  /** What one more path adds, seen through the stores. */
  lemma OnePathMore(s: Stores, g: GameConfig, m: MapConfig, start: string, ids: seq<string>, i: nat)
    requires i < |ids|
    ensures var v, id, now, next := Seen(s, g, m), ids[i], ids[..i], ids[..i + 1];
            var regions := RouteRegions(m, start, now);
            if id in m.paths then
              var at, p := OtherEnd(LastOr(start, regions), m.paths[id]), PathSeen(s, id);
              && RouteRegions(m, start, next) == regions + [at]
              && ThreatSum(v.threats, regions + [at])
                 == ThreatSum(v.threats, regions) + (if at in m.regions then m.regions[at].startThreat else 0)
              && PathRiskSum(v.paths, next) == PathRiskSum(v.paths, now) + PathRisk(p)
              && WithStatus(v.paths, next, Threatened)
                  == WithStatus(v.paths, now, Threatened) + (if p.status == Threatened then [id] else [])
              && WithStatus(v.paths, next, Blocked)
                  == WithStatus(v.paths, now, Blocked) + (if p.status == Blocked then [id] else [])
            else
              && RouteRegions(m, start, next) == regions && PathRiskSum(v.paths, next) == PathRiskSum(v.paths, now)
              && WithStatus(v.paths, next, Threatened) == WithStatus(v.paths, now, Threatened)
              && WithStatus(v.paths, next, Blocked) == WithStatus(v.paths, now, Blocked)
  {
    assert ids[..i + 1][..i] == ids[..i];
    var regions := RouteRegions(m, start, ids[..i]);
    if ids[i] in m.paths {
      var at := OtherEnd(LastOr(start, regions), m.paths[ids[i]]);
      assert (regions + [at])[..|regions|] == regions;
    }
  }

  lemma NearAreConfigured(s: Stores, g: GameConfig, m: MapConfig, adj: Adjacency, regions: seq<string>)
    ensures NearHunters(adj, Seen(s, g, m).hunters, regions) <= g.units.Keys
  {}

  lemma IsNearSeen(s: Stores, g: GameConfig, m: MapConfig, adj: Adjacency, regions: seq<string>, id: string)
    requires id in g.units
    ensures id in NearHunters(adj, Seen(s, g, m).hunters, regions) <==>
            g.units[id].detectionRange > 0 && StatusSeen(s, id) == Active && IsNear(adj, RegionSeen(s, g, id), regions)
  {}

  class ValidationTransformer {
    const config: StreamsConfig
    const ringBearerId: string
    var stores: Stores

    constructor (config: StreamsConfig, ringBearerId: string, stores: Stores)
      ensures this.config == config && this.ringBearerId == ringBearerId && this.stores == stores
    {
      this.config, this.ringBearerId, this.stores := config, ringBearerId, stores;
    }

    function CurrentUnitRegion(unitId: string): string
      reads this
    {
      if IsRingBearer(config.g, unitId) then RingBearerSeen(stores, config.g, ringBearerId)
      else RegionSeen(stores, config.g, unitId)
    }

    method ValidateRoute(unitId: string, route: seq<string>) returns (code: Code)
      ensures code == if route == [] then InvalidPath
                      else RouteCode(config.m, PathsSeen(stores), IsRingBearer(config.g, unitId),
                          CurrentUnitRegion(unitId), route, true)
    {
      if route == [] {
        return InvalidPath;
      }
      var ringBearer := IsRingBearer(config.g, unitId);
      var region := CurrentUnitRegion(unitId);
      for i := 0 to |route|
        invariant RouteCode(config.m, PathsSeen(stores), ringBearer, CurrentUnitRegion(unitId), route, true)
               == RouteCode(config.m, PathsSeen(stores), ringBearer, region, route[i..], i == 0)
      {
        assert route[i..][1..] == route[i + 1..];
        var id := route[i];
        if id !in config.m.paths {
          return InvalidPath;
        }
        var p := config.m.paths[id];
        if i == 0 && ringBearer {
          if PathSeen(stores, id).status == Blocked {
            return PathBlocked;
          }
        }
        if region == p.from {
          region := p.to;
        } else if region == p.to {
          region := p.from;
        } else {
          return InvalidPath;
        }
      }
      code := Accepted;
    }
  }

  /** The path records as path states. */
  function PathsSeen(s: Stores): Paths {
    map id | id in s.paths :: Path(s.paths[id].newStatus, s.paths[id].surveillance, 0, "")
  }

  // ----- agreement -----------------------------------------------------------

  /** The stores are up to date with the cache, as far as these analyses look. */
  predicate UpToDate(s: Stores, g: GameConfig, m: MapConfig, cache: Cache) {
    && (forall id | id in m.paths && id in cache.paths ::
          PathSeen(s, id) == PathView(cache.paths[id].status, cache.paths[id].surveillance))
    && (forall id | id in g.units && g.units[id].detectionRange > 0 && id in cache.units ::
          && (StatusSeen(s, id) == Active <==> cache.units[id].status == Active)
          && (cache.units[id].status == Active ==> RegionSeen(s, g, id) == cache.units[id].region))
  }

  /** Exactly then both implementations look at the same view. */
  lemma SameView(s: Stores, g: GameConfig, m: MapConfig, cache: Cache)
    requires cache.paths.Keys == m.paths.Keys && cache.units.Keys == g.units.Keys && RegionsOk(m, cache.regions)
    ensures UpToDate(s, g, m, cache) <==> Seen(s, g, m) == Observed(g, cache)
  {
    assert Seen(s, g, m).threats == Observed(g, cache).threats;
    if UpToDate(s, g, m, cache) {
      UpToDateShows(s, g, m, cache);
    }
    if Seen(s, g, m) == Observed(g, cache) {
      ShownIsUpToDate(s, g, m, cache);
    }
    hide UpToDate;
  }

  lemma UpToDateShows(s: Stores, g: GameConfig, m: MapConfig, cache: Cache)
    requires UpToDate(s, g, m, cache) && cache.paths.Keys == m.paths.Keys && cache.units.Keys == g.units.Keys
    ensures Seen(s, g, m).paths == Observed(g, cache).paths && Seen(s, g, m).hunters == Observed(g, cache).hunters
  {
    hide StatusSeen, RegionSeen, PathSeen;
  }

  lemma ShownIsUpToDate(s: Stores, g: GameConfig, m: MapConfig, cache: Cache)
    requires Seen(s, g, m) == Observed(g, cache) && cache.paths.Keys == m.paths.Keys && cache.units.Keys == g.units.Keys
    ensures UpToDate(s, g, m, cache)
  {
    hide StatusSeen, RegionSeen, PathSeen;
    var a, b := Seen(s, g, m), Observed(g, cache);
    forall id | id in m.paths
      ensures PathSeen(s, id) == PathView(cache.paths[id].status, cache.paths[id].surveillance)
    {
      assert a.paths[id] == b.paths[id];
    }
    forall id | id in g.units && g.units[id].detectionRange > 0
      ensures StatusSeen(s, id) == Active <==> cache.units[id].status == Active
      ensures cache.units[id].status == Active ==> RegionSeen(s, g, id) == cache.units[id].region
    {
      assert id in a.hunters <==> id in b.hunters;
    }
  }

  /** Nothing on the unit and path topics: the stores show every path open and
      unwatched and every unit active where it started. */
  predicate NoEvents(s: Stores) {
    s.units == map[] && s.paths == map[]
  }

  /** The engine's turns publish nothing on those topics, so this is the case that
      occurs: the stores are up to date exactly while no path is marked or watched
      and no hunter has fallen or left home. */
  lemma EmptyStoresUpToDate(s: Stores, g: GameConfig, m: MapConfig, cache: Cache)
    requires NoEvents(s)
    ensures UpToDate(s, g, m, cache) <==>
            && (forall id | id in m.paths && id in cache.paths ::
                  cache.paths[id].status == Open && cache.paths[id].surveillance == 0)
            && (forall id | id in g.units && g.units[id].detectionRange > 0 && id in cache.units ::
                  cache.units[id].status == Active && cache.units[id].region == g.units[id].startRegion)
  {}

  lemma SameNear(
      adj: Adjacency, m: MapConfig, adjacency: Neighbourhood, hunters: map<string, string>, regions: seq<string>)
    requires Represents(adj, m)
    requires forall x, y :: y in NeighboursOf(adjacency, x) <==> Joined(m, x, y)
    ensures NearHunters(Unweighted(adjacency), hunters, regions) == NearHunters(adj, hunters, regions)
  {
    hide NeighboursOf, MinHops, Represents, Unweighted;
    forall id | id in hunters
      ensures IsNear(Unweighted(adjacency), hunters[id], regions) <==> IsNear(adj, hunters[id], regions)
    {
      forall r ensures MinHops(Unweighted(adjacency), hunters[id], r) == MinHops(adj, hunters[id], r) {
        SameDistances(adj, m, adjacency, hunters[id], r);
      }
    }
  }

  /** In every state of every game, for every list of paths, known or unknown,
      connected or not: the Go pipeline and the Java topology report the same
      score, threatened paths and blocked paths. */
  lemma GoAndJavaAgree(
      r: Rules, ringBearerId: string, actions: seq<Action>, s: Stores, adjacency: Neighbourhood, start: string,
      ids: seq<string>)
    requires Playable(r)
    requires forall x, y :: y in NeighboursOf(adjacency, x) <==> Joined(r.m, x, y)
    requires UpToDate(s, r.g, r.m, Game(r, ringBearerId, actions).node.cache)
    ensures var regions := RouteRegions(r.m, start, ids);
            Report(Unweighted(adjacency), Seen(s, r.g, r.m), regions, ids)
            == Report(r.adj, Observed(r.g, Game(r, ringBearerId, actions).node.cache), regions, ids)
  {
    BasicInvHolds(r, ringBearerId, actions);
    RegionInvariant(r, ringBearerId, actions);
    hide Game, UpToDate, Seen, Observed, NearHunters, Unweighted, RegionsOk;
    var cache := Game(r, ringBearerId, actions).node.cache;
    SameView(s, r.g, r.m, cache);
    SameNear(r.adj, r.m, adjacency, Seen(s, r.g, r.m).hunters, RouteRegions(r.m, start, ids));
  }

  /** Go's verdict on a route order, once the common checks have passed, is Java's:
      the first path's state and the starting region are all that both look up. */
  lemma SameRouteVerdict(r: Rules, cache: Cache, raw: RawOrder, s: Stores, ringBearerId: string)
    requires raw.kind == AssignRoute || raw.kind == RedirectUnit
    requires CommonCode(r, cache, raw) == Accepted
    requires cache.paths.Keys == r.m.paths.Keys && UpToDate(s, r.g, r.m, cache)
    requires StartOfRoute(r.g, cache, raw.unit)
          == if IsRingBearer(r.g, raw.unit) then RingBearerSeen(s, r.g, ringBearerId) else RegionSeen(s, r.g, raw.unit)
    ensures var ids, start := RouteIds(raw), StartOfRoute(r.g, cache, raw.unit);
            Validate(r, cache, raw)
            == if ids == [] then InvalidPath
                else RouteCode(r.m, PathsSeen(s), IsRingBearer(r.g, raw.unit), start, ids, true)
  {
    var ids, start := RouteIds(raw), StartOfRoute(r.g, cache, raw.unit);
    if ids != [] && ids[0] in r.m.paths {
      assert PathSeen(s, ids[0]).status == cache.paths[ids[0]].status;
      RouteLooksUpFirst(r.m, cache.paths, PathsSeen(s), IsRingBearer(r.g, raw.unit), start, ids);
    }
  }

  lemma RouteLooksUpFirst(m: MapConfig, paths: Paths, other: Paths, ringBearer: bool, region: string, ids: seq<string>)
    requires ids != [] && (FirstPathBlocked(paths, ids) <==> FirstPathBlocked(other, ids))
    ensures RouteCode(m, paths, ringBearer, region, ids, true) == RouteCode(m, other, ringBearer, region, ids, true)
  {
    if ids[0] in m.paths {
      LaterPathsAnyState(m, paths, other, ringBearer, OtherEnd(region, m.paths[ids[0]]), ids[1..]);
    }
  }

  lemma {:induction false} LaterPathsAnyState(
      m: MapConfig, paths: Paths, other: Paths, ringBearer: bool, region: string, ids: seq<string>)
    ensures RouteCode(m, paths, ringBearer, region, ids, false) == RouteCode(m, other, ringBearer, region, ids, false)
    decreases |ids|
  {
    if ids != [] && ids[0] in m.paths {
      LaterPathsAnyState(m, paths, other, ringBearer, OtherEnd(region, m.paths[ids[0]]), ids[1..]);
    }
  }
}
