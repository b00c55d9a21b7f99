/** The shared cache and the copies taken from it
    (option-b/internal/game/cache_helpers.go and types.go). */
module CacheStore {
  import opened Config
  import opened State
  import opened Steps
  import opened Turn

  /** A copy of the cache for one turn. Its maps are rewritten in place. */
  class Snapshot {
    var turn: int
    var session: Session
    var units: Units
    var regions: Regions
    var paths: Paths
    var lightView: LightView

    constructor (turn: int, session: Session, units: Units, regions: Regions, paths: Paths, lightView: LightView)
      ensures Value() == Cache(turn, session, units, regions, paths, lightView)
    {
      this.turn, this.session, this.units, this.regions, this.paths, this.lightView :=
        turn, session, units, regions, paths, lightView;
    }

    ghost function Value(): Cache
      reads this
    {
      Cache(turn, session, units, regions, paths, lightView)
    }
  }

  /** The node's one cache, together with the package-level variables of the
      source: the hidden Ring Bearer record and the disabled Maias. */
  class WorldStateCache {
    var turn: int
    var session: Session
    var units: Units
    var regions: Regions
    var paths: Paths
    var lightView: LightView
    var ringBearer: RingBearerState
    var disabledMaias: set<string>

    ghost function Value(): Cache
      reads this
    {
      Cache(turn, session, units, regions, paths, lightView)
    }

    /** The state at the start of a game. */
    constructor (g: GameConfig, m: MapConfig, ringBearerId: string, startRegion: string)
      ensures Value() == StartCache(g, m, ringBearerId, startRegion)
      ensures ringBearer == StartRingBearer(startRegion) && disabledMaias == {}
    {
      turn, session := 1, NO_SESSION;
      units := map id | id in g.units :: StartUnit(g, ringBearerId, id);
      regions := map id | id in m.regions :: StartRegionState(m.regions[id]);
      paths := map id | id in m.paths :: START_PATH;
      lightView := LightView(startRegion, [], 0);
      ringBearer := StartRingBearer(startRegion);
      disabledMaias := {};
    }

    method TakeSnapshot() returns (snap: Snapshot)
      ensures fresh(snap) && snap.Value() == Value()
    {
      snap := new Snapshot(turn, session, units, regions, paths, lightView);
    }

    /** Writes a turn's result back; the turn number moves on by one. */
    method Update(snap: Snapshot, rb: RingBearerState)
      modifies this`turn, this`session, this`units, this`regions, this`paths, this`lightView, this`ringBearer
      ensures Value() == snap.Value().(turn := snap.turn + 1)
      ensures ringBearer == rb
    {
      turn := snap.turn + 1;
      session := snap.session;
      units, regions, paths := snap.units, snap.regions, snap.paths;
      lightView := snap.lightView;
      ringBearer := rb;
    }

    /** Marks every Maia with a list of paths, in whatever order they are visited. */
    method DisableCorruptPathMaias(g: GameConfig)
      modifies this`disabledMaias
      ensures disabledMaias == old(disabledMaias) + CorruptPathMaias(g)
    {
      var todo := g.units.Keys;
      while todo != {}
        invariant todo <= g.units.Keys
        invariant disabledMaias == old(disabledMaias) + set id | id in CorruptPathMaias(g) && id !in todo
        decreases |todo|
      {
        var id :| id in todo;
        if g.units[id].maia && |g.units[id].maiaAbilityPaths| > 0 {
          disabledMaias := disabledMaias + {id};
        }
        todo := todo - {id};
      }
    }

    predicate IsCorruptPathMaiaDisabled(id: string, g: GameConfig)
      reads this
    {
      IsCorruptPathMaia(g, id) && id in disabledMaias
    }
  }

  // ----- the start of a game -------------------------------------------------

  const START_PATH := Path(Open, 0, 0, "")

  /** Every unit starts at home and ready; only the Ring Bearer's public record
      leaves his region out. */
  function StartUnit(g: GameConfig, ringBearerId: string, id: string): Unit
    requires id in g.units
  {
    var region := if id == ringBearerId then "" else g.units[id].startRegion;
    Unit(id, region, g.units[id].strength, Active, 0, [], 0, "", 0, 0)
  }

  function StartRegionState(r: RegionConfig): Region {
    Region(r.startControl, r.startThreat, false, 0)
  }

  function StartRingBearer(startRegion: string): RingBearerState {
    RingBearerState(startRegion, false, [], 0, "", 0, 0, "")
  }

  function StartCache(g: GameConfig, m: MapConfig, ringBearerId: string, startRegion: string): Cache {
    Cache(1, NO_SESSION,
          map id | id in g.units :: StartUnit(g, ringBearerId, id),
          map id | id in m.regions :: StartRegionState(m.regions[id]),
          map id | id in m.paths :: START_PATH,
          LightView(startRegion, [], 0))
  }
}
