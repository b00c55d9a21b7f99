/** Static configuration (option-b/internal/config/config.go:13-77). A key Go's
    maps do not hold yields the zero value, so every lookup here is total. */
module Config {
  import opened Walks

  /** A unit's side and a region's controller; None is Go's zero value "". */
  datatype Faction = FreePeoples | Shadow | Neutral | NoFaction

  datatype Class = RingBearer | FellowshipGuard | OtherClass

  datatype Terrain = Fortress | Mountains | OtherTerrain

  datatype UnitConfig = UnitConfig(
    class_: Class,
    side: Faction,
    startRegion: string,
    strength: int,
    leadership: bool,
    leadershipBonus: int,
    indestructible: bool,
    detectionRange: int,
    respawns: bool,
    respawnTurns: int,
    maia: bool,
    maiaAbilityPaths: seq<string>,
    ignoresFortress: bool,
    canFortify: bool,
    cooldown: int)

  datatype GameConfig = GameConfig(hiddenUntilTurn: int, maxTurns: int, units: map<string, UnitConfig>)

  datatype RegionConfig = RegionConfig(terrain: Terrain, startControl: Faction, startThreat: int)

  datatype PathConfig = PathConfig(from: string, to: string, cost: int)

  datatype MapConfig = MapConfig(regions: map<string, RegionConfig>, paths: map<string, PathConfig>)

  const ZERO_UNIT := UnitConfig(
    OtherClass, NoFaction, "", 0, false, 0, false, 0, false, 0, false, [], false, false, 0)
  const ZERO_PATH := PathConfig("", "", 0)
  const ZERO_REGION := RegionConfig(OtherTerrain, NoFaction, 0)

  const MOUNT_DOOM := "mount-doom"
  const MORDOR := "mordor"
  const ISENGARD := "isengard"

  function UnitCfg(g: GameConfig, id: string): UnitConfig {
    if id in g.units then g.units[id] else ZERO_UNIT
  }

  function PathCfg(m: MapConfig, id: string): PathConfig {
    if id in m.paths then m.paths[id] else ZERO_PATH
  }

  function RegionCfg(m: MapConfig, id: string): RegionConfig {
    if id in m.regions then m.regions[id] else ZERO_REGION
  }

  predicate AtEndpoint(region: string, p: PathConfig) {
    region == p.from || region == p.to
  }

  /** The other end of `p`; seen from anywhere else, its `to` end. */
  function OtherEnd(region: string, p: PathConfig): string {
    if region == p.to then p.from else p.to
  }

  /** Some configured path joins the two regions. */
  ghost predicate Joined(m: MapConfig, a: string, b: string) {
    exists id :: id in m.paths && Joins(m.paths[id], a, b)
  }

  predicate Joins(p: PathConfig, a: string, b: string) {
    (a == p.from && b == p.to) || (a == p.to && b == p.from)
  }

  /** The preconditions on configuration files the engine silently relies on. */
  predicate WellFormed(g: GameConfig, m: MapConfig) {
    && (forall p | p in m.paths :: m.paths[p].from != "" && m.paths[p].to != "" && m.paths[p].cost >= 0)
    && (forall u | u in g.units :: g.units[u].strength >= 1 && g.units[u].side in {FreePeoples, Shadow})
    && "" !in g.units
  }

  /** `adj` is the adjacency the server builds from the configured paths
      (option-b/cmd/server/main.go:59-62). */
  ghost predicate Represents(adj: Adjacency, m: MapConfig) {
    forall r, e :: e in EdgesFrom(adj, r) <==> IsPathEdge(m, r, e)
  }

  /** `e` leaves `r` along a configured path. */
  predicate IsPathEdge(m: MapConfig, r: string, e: Edge) {
    && e.pathId in m.paths
    && var p := m.paths[e.pathId];
       && e.cost == p.cost
       && Joins(p, r, e.to)
  }

  lemma RepresentsIsSymmetric(adj: Adjacency, m: MapConfig)
    requires Represents(adj, m)
    ensures Symmetric(adj)
  {}

  lemma RepresentsIsNonNegative(adj: Adjacency, m: MapConfig)
    requires Represents(adj, m)
    requires forall p | p in m.paths :: m.paths[p].cost >= 0
    ensures NonNegative(adj)
  {
    forall r, e | r in adj && e in adj[r] ensures e.cost >= 0 {
      assert e in EdgesFrom(adj, r);
      assert IsPathEdge(m, r, e);
    }
  }

  /** Moving along a configured path from one of its ends crosses an edge. */
  lemma PathIsEdge(adj: Adjacency, m: MapConfig, region: string, id: string)
    requires Represents(adj, m)
    requires id in m.paths && AtEndpoint(region, m.paths[id])
    ensures Edge(OtherEnd(region, m.paths[id]), id, m.paths[id].cost) in EdgesFrom(adj, region)
  {}
}
