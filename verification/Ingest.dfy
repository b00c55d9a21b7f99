/** Order validation (option-b/internal/kafkaclient/order_ingest.go). */
module Ingest {
  import opened Walks
  import opened Graph
  import opened Config
  import opened State
  import opened Steps
  import opened Turn
  import opened CacheStore

  /** The body of a submitted order. */
  datatype RawOrder = RawOrder(
    kind: OrderType, player: string, unit: string, turn: int,
    pathIds: seq<string>, newPathIds: seq<string>, targetPath: string, targetRegion: string)

  /** Error codes; Accepted stands for the empty code. */
  datatype Code =
    | Accepted | InvalidJson | NotYourUnit | WrongTurn | InvalidTarget | InvalidPath | PathBlocked
    | NotAdjacentToPath | OnCooldown | DestroyConditionNotMet | DuplicateUnitOrder

  const DARK_PLAYER := "player-dark"

  function PlayerFaction(player: string): Faction {
    if DARK_PLAYER <= player then Shadow else FreePeoples
  }

  function RouteIds(raw: RawOrder): seq<string> {
    if raw.kind == RedirectUnit then raw.newPathIds else raw.pathIds
  }

  /** The order the engine receives for an accepted submission. */
  function Parsed(raw: RawOrder): Order {
    Order(raw.kind, raw.unit, raw.turn, RouteIds(raw), raw.targetPath, raw.targetRegion)
  }

  // ----- routes --------------------------------------------------------------

  /** The rule for routes, one path after the other from `region`. */
  function RouteCode(m: MapConfig, paths: Paths, ringBearer: bool, region: string, ids: seq<string>, first: bool): Code
    decreases |ids|
  {
    if ids == [] then Accepted
    else if ids[0] !in m.paths then InvalidPath
    else if first && ringBearer && ids[0] in paths && paths[ids[0]].status == Blocked then PathBlocked
    else if !AtEndpoint(region, m.paths[ids[0]]) then InvalidPath
    else RouteCode(m, paths, ringBearer, OtherEnd(region, m.paths[ids[0]]), ids[1..], false)
  }

  /** The paths `ids` lead from `region` from one to the next. */
  predicate Connected(m: MapConfig, region: string, ids: seq<string>)
    decreases |ids|
  {
    ids == [] ||
    ( && ids[0] in m.paths
      && AtEndpoint(region, m.paths[ids[0]])
      && Connected(m, OtherEnd(region, m.paths[ids[0]]), ids[1..]) )
  }

  predicate FirstPathBlocked(paths: Paths, ids: seq<string>) {
    ids != [] && ids[0] in paths && paths[ids[0]].status == Blocked
  }

  lemma {:induction false} RouteCodeMeansConnected(
      m: MapConfig, paths: Paths, ringBearer: bool, region: string, ids: seq<string>, first: bool)
    ensures RouteCode(m, paths, ringBearer, region, ids, first) == Accepted
            <==> Connected(m, region, ids) && !(first && ringBearer && FirstPathBlocked(paths, ids))
    decreases |ids|
  {
    if ids != [] && ids[0] in m.paths {
      RouteCodeMeansConnected(m, paths, ringBearer, OtherEnd(region, m.paths[ids[0]]), ids[1..], false);
    }
  }

  function PathIdsOf(es: seq<Edge>): seq<string> {
    seq(|es|, i requires 0 <= i < |es| => es[i].pathId)
  }

  function RegionsOf(es: seq<Edge>): seq<string> {
    seq(|es|, i requires 0 <= i < |es| => es[i].to)
  }

  /** A connected list of paths is the list of paths of a walk on the map. */
  lemma {:induction false} ConnectedIsWalk(
      adj: Adjacency, m: MapConfig, region: string, ids: seq<string>)
    returns (es: seq<Edge>)
    requires Represents(adj, m) && Connected(m, region, ids)
    ensures FollowsEdges(adj, region, es) && PathIdsOf(es) == ids
    decreases |ids|
  {
    if ids == [] {
      es := [];
    } else {
      var p := m.paths[ids[0]];
      var e := Edge(OtherEnd(region, p), ids[0], p.cost);
      PathIsEdge(adj, m, region, ids[0]);
      var rest := ConnectedIsWalk(adj, m, e.to, ids[1..]);
      PrependWalk(adj, region, e, rest, End(e.to, rest));
      es := [e] + rest;
    }
  }

  lemma {:induction false} WalkIsConnected(adj: Adjacency, m: MapConfig, region: string, es: seq<Edge>)
    requires Represents(adj, m) && FollowsEdges(adj, region, es)
    ensures Connected(m, region, PathIdsOf(es))
    decreases |es|
  {
    if es != [] {
      var e := es[0];
      TailWalk(adj, region, es);
      assert IsPathEdge(m, region, e);
      hide FollowsEdges, Represents;
      WalkIsConnected(adj, m, e.to, es[1..]);
      assert PathIdsOf(es)[1..] == PathIdsOf(es[1..]);
      assert OtherEnd(region, m.paths[e.pathId]) == e.to;
    }
  }

  lemma {:induction false} TailWalk(adj: Adjacency, src: string, es: seq<Edge>)
    requires FollowsEdges(adj, src, es) && es != []
    ensures es[0] in EdgesFrom(adj, src) && FollowsEdges(adj, es[0].to, es[1..])
    ensures End(es[0].to, es[1..]) == End(src, es)
  {
    if |es| > 1 {
      var init := es[..|es| - 1];
      TailWalk(adj, src, init);
      assert es[1..][..|es[1..]| - 1] == init[1..];
    } else {
      assert es[..|es| - 1] == [];
    }
  }

  // ----- the verdict ---------------------------------------------------------

  predicate EnemyAdjacent(adj: Adjacency, regions: Regions, from: string, target: string, side: Faction) {
    && target != "" && target in regions
    && regions[target].controlledBy != Neutral && regions[target].controlledBy != side
    && Adjacent(adj, from, target)
  }

  function StartOfRoute(g: GameConfig, cache: Cache, id: string): string {
    if IsRingBearer(g, id) then cache.lightView.ringBearerRegion else UnitAt(cache.units, id).region
  }

  /** The rule for the kind of order, once the common checks have passed. */
  function KindCode(r: Rules, cache: Cache, raw: RawOrder): Code {
    var cfg := UnitCfg(r.g, raw.unit);
    var u := UnitAt(cache.units, raw.unit);
    match raw.kind
    case AssignRoute | RedirectUnit =>
      if RouteIds(raw) == [] then InvalidPath
      else
        var start := StartOfRoute(r.g, cache, raw.unit);
        RouteCode(r.m, cache.paths, cfg.class_ == RingBearer, start, RouteIds(raw), true)
    case BlockPath | SearchPath =>
      if raw.targetPath !in r.m.paths then InvalidTarget
      else if !AtEndpoint(u.region, r.m.paths[raw.targetPath]) then NotAdjacentToPath
      else if raw.kind == SearchPath && cfg.side != Shadow then NotYourUnit
      else if raw.kind == BlockPath && Guarded(r.g, cache.units, r.m.paths[raw.targetPath], cfg.side) then InvalidTarget
      else Accepted
    case AttackRegion =>
      if EnemyAdjacent(r.adj, cache.regions, u.region, raw.targetRegion, cfg.side) then Accepted else InvalidTarget
    case MaiaAbility =>
      if u.cooldown > 0 then OnCooldown else if raw.targetPath !in r.m.paths then InvalidTarget else Accepted
    case DeployNazgul =>
      if cfg.side != Shadow || cfg.detectionRange <= 0 then NotYourUnit else Accepted
    case FortifyRegion =>
      if cfg.canFortify then Accepted else NotYourUnit
    case DestroyRing =>
      if cfg.class_ != RingBearer then NotYourUnit
      else if cache.lightView.ringBearerRegion != MOUNT_DOOM then DestroyConditionNotMet
      else if ShadowHolds(r.g, cache.units, MOUNT_DOOM) then DestroyConditionNotMet
      else Accepted
    case ReinforceRegion | UnknownType | MissingType => Accepted
  }

  /** The checks every order goes through first. */
  function CommonCode(r: Rules, cache: Cache, raw: RawOrder): Code {
    if raw.kind == MissingType || raw.player == "" || raw.unit == "" then InvalidJson
    else if raw.unit !in r.g.units then NotYourUnit
    else if raw.turn != cache.turn then WrongTurn
    else if r.g.units[raw.unit].side != PlayerFaction(raw.player) then NotYourUnit
    else if raw.unit !in cache.units || cache.units[raw.unit].status != Active then InvalidTarget
    else Accepted
  }

  function Validate(r: Rules, cache: Cache, raw: RawOrder): Code {
    var common := CommonCode(r, cache, raw);
    if common != Accepted then common else KindCode(r, cache, raw)
  }

  // ----- the code ------------------------------------------------------------

  class OrderIngest {
    const g: GameConfig
    const m: MapConfig
    const graph: MapGraph
    const cache: WorldStateCache

    var seenByTurn: map<int, set<string>>
    var validated: seq<Order>
    var rejected: seq<(Code, RawOrder)>

    constructor (g: GameConfig, m: MapConfig, graph: MapGraph, cache: WorldStateCache)
      ensures this.g == g && this.m == m && this.graph == graph && this.cache == cache
      ensures seenByTurn == map[] && validated == [] && rejected == []
    {
      this.g, this.m, this.graph, this.cache := g, m, graph, cache;
      seenByTurn, validated, rejected := map[], [], [];
    }

    ghost function GameRules(): Rules
      reads graph
    {
      Rules(g, m, graph.adj)
    }

    method GuardedByEnemyFellowship(units: Units, p: PathConfig, blockerSide: Faction) returns (b: bool)
      ensures b <==> Guarded(g, units, p, blockerSide)
    {
      var todo := units.Keys;
      while todo != {}
        invariant todo <= units.Keys
        invariant forall id | id in units && id !in todo :: !IsGuard(g, units, id, p, blockerSide)
        decreases |todo|
      {
        var id :| id in todo;
        todo := todo - {id};
        var u := units[id];
        if u.status != Active || id !in g.units || g.units[id].side == blockerSide
            || g.units[id].class_ != FellowshipGuard {
          continue;
        }
        if u.region == p.from || u.region == p.to {
          assert IsGuard(g, units, id, p, blockerSide);
          return true;
        }
      }
      b := false;
    }

    method DarkSideActiveAtRegion(units: Units, region: string) returns (b: bool)
      ensures b <==> ShadowHolds(g, units, region)
    {
      var todo := units.Keys;
      while todo != {}
        invariant todo <= units.Keys
        invariant forall id | id in units && id !in todo :: !IsShadowAt(g, units, id, region)
        decreases |todo|
      {
        var id :| id in todo;
        todo := todo - {id};
        var u := units[id];
        if u.status != Active || u.region != region {
          continue;
        }
        if id in g.units && g.units[id].side == Shadow {
          assert IsShadowAt(g, units, id, region);
          return true;
        }
      }
      b := false;
    }

    method RegionIsEnemyAdjacent(regions: Regions, from: string, target: string, side: Faction) returns (b: bool)
      ensures b <==> EnemyAdjacent(graph.adj, regions, from, target, side)
    {
      if target == "" || target !in regions {
        return false;
      }
      var controller := regions[target].controlledBy;
      if controller == Neutral || controller == side {
        return false;
      }
      var edges := graph.Neighbours(from);
      for i := 0 to |edges|
        invariant forall k | 0 <= k < i :: edges[k].to != target
      {
        if edges[i].to == target {
          assert edges[i] in edges;
          return true;
        }
      }
      b := false;
    }

    method ValidateRoute(snap: Snapshot, ids: seq<string>, start: string, ringBearer: bool) returns (code: Code)
      requires ids != []
      ensures code == RouteCode(m, snap.paths, ringBearer, start, ids, true)
    {
      var region := start;
      for i := 0 to |ids|
        invariant RouteCode(m, snap.paths, ringBearer, start, ids, true)
               == RouteCode(m, snap.paths, ringBearer, region, ids[i..], i == 0)
      {
        assert ids[i..][1..] == ids[i + 1..];
        var id := ids[i];
        if id !in m.paths {
          return InvalidPath;
        }
        var pc := m.paths[id];
        if i == 0 && ringBearer {
          if id in snap.paths && snap.paths[id].status == Blocked {
            return PathBlocked;
          }
        }
        if region == pc.from {
          region := pc.to;
        } else if region == pc.to {
          region := pc.from;
        } else {
          return InvalidPath;
        }
      }
      code := Accepted;
    }

    method ValidateRawOrder(raw: RawOrder) returns (code: Code)
      ensures code == Validate(GameRules(), cache.Value(), raw)
    {
      hide RouteCode, Guarded, ShadowHolds, EnemyAdjacent, PlayerFaction;
      if raw.kind == MissingType || raw.player == "" || raw.unit == "" {
        return InvalidJson;
      }
      var snap := cache.TakeSnapshot();
      if raw.unit !in g.units {
        return NotYourUnit;
      }
      var cfg := g.units[raw.unit];
      if raw.turn != snap.turn {
        return WrongTurn;
      }
      if cfg.side != PlayerFaction(raw.player) {
        return NotYourUnit;
      }
      if raw.unit !in snap.units || snap.units[raw.unit].status != Active {
        return InvalidTarget;
      }
      var u := snap.units[raw.unit];
      assert Validate(GameRules(), cache.Value(), raw) == KindCode(GameRules(), snap.Value(), raw);
      hide Validate;
      if raw.kind == AssignRoute || raw.kind == RedirectUnit {
        var ids := raw.pathIds;
        if raw.kind == RedirectUnit {
          ids := raw.newPathIds;
        }
        if |ids| == 0 {
          return InvalidPath;
        }
        var region := u.region;
        if cfg.class_ == RingBearer {
          region := snap.lightView.ringBearerRegion;
        }
        code := ValidateRoute(snap, ids, region, cfg.class_ == RingBearer);
        return;
      } else if raw.kind == BlockPath || raw.kind == SearchPath {
        if raw.targetPath !in m.paths {
          return InvalidTarget;
        }
        var pc := m.paths[raw.targetPath];
        if u.region != pc.from && u.region != pc.to {
          return NotAdjacentToPath;
        }
        if raw.kind == SearchPath && cfg.side != Shadow {
          return NotYourUnit;
        }
        if raw.kind == BlockPath {
          var guarded := GuardedByEnemyFellowship(snap.units, pc, cfg.side);
          if guarded {
            return InvalidTarget;
          }
        }
      } else if raw.kind == AttackRegion {
        var ok := RegionIsEnemyAdjacent(snap.regions, u.region, raw.targetRegion, cfg.side);
        if !ok {
          return InvalidTarget;
        }
      } else if raw.kind == MaiaAbility {
        if u.cooldown > 0 {
          return OnCooldown;
        }
        if raw.targetPath !in m.paths {
          return InvalidTarget;
        }
      } else if raw.kind == DeployNazgul {
        if cfg.side != Shadow || cfg.detectionRange <= 0 {
          return NotYourUnit;
        }
      } else if raw.kind == FortifyRegion {
        if !cfg.canFortify {
          return NotYourUnit;
        }
      } else if raw.kind == DestroyRing {
        if cfg.class_ != RingBearer {
          return NotYourUnit;
        }
        if snap.lightView.ringBearerRegion != MOUNT_DOOM {
          return DestroyConditionNotMet;
        }
        var held := DarkSideActiveAtRegion(snap.units, MOUNT_DOOM);
        if held {
          return DestroyConditionNotMet;
        }
      }
      code := Accepted;
    }

    /** Forgets the turns before the current one, in whatever order they come up. */
    method PruneSeenOrders(currentTurn: int)
      modifies this`seenByTurn
      ensures seenByTurn == Pruned(old(seenByTurn), currentTurn)
    {
      ghost var before := seenByTurn;
      var todo: set<int> := seenByTurn.Keys;
      while todo != {}
        invariant todo <= before.Keys
        invariant seenByTurn == map t | t in before && (t in todo || t >= currentTurn) :: before[t]
        decreases |todo|
      {
        SomeTurn(todo);
        var t :| t in todo;
        todo := todo - {t};
        if t < currentTurn {
          seenByTurn := seenByTurn - {t};
        }
      }
    }

    /** One event of the ingest loop. */
    method IngestOrder(raw: RawOrder) returns (code: Code)
      modifies this`seenByTurn, this`validated, this`rejected
      ensures (seenByTurn, code) == Admit(GameRules(), cache.Value(), old(seenByTurn), raw)
      ensures code == Accepted ==>
                && |validated| == |old(validated)| + 1 && old(validated) <= validated && rejected == old(rejected)
                && var o := validated[|old(validated)|];
                   && o == Parsed(raw)
                   && o.kind == raw.kind && o.unit == raw.unit && o.turn == raw.turn
                   && o.targetPath == raw.targetPath && o.targetRegion == raw.targetRegion
                   && o.pathIds == if raw.kind == RedirectUnit then raw.newPathIds else raw.pathIds
      ensures code != Accepted ==> validated == old(validated) && rejected == old(rejected) + [(code, raw)]
    {
      hide Validate;
      code := ValidateRawOrder(raw);
      if code != Accepted {
        rejected := rejected + [(code, raw)];
        return;
      }
      PruneSeenOrders(cache.turn);
      ghost var kept := seenByTurn;
      if raw.turn !in seenByTurn {
        seenByTurn := seenByTurn[raw.turn := {}];
      }
      if raw.unit in seenByTurn[raw.turn] {
        code := DuplicateUnitOrder;
        rejected := rejected + [(code, raw)];
        return;
      }
      seenByTurn := seenByTurn[raw.turn := seenByTurn[raw.turn] + {raw.unit}];
      assert seenByTurn == kept[raw.turn := SeenAt(kept, raw.turn) + {raw.unit}];
      validated := validated + [Parsed(raw)];
    }
  }

  lemma SomeTurn(turns: set<int>)
    requires turns != {}
    ensures exists t :: t in turns
  {
    assert (forall t :: t !in turns) ==> turns == {};
  }

  function Pruned(seen: map<int, set<string>>, currentTurn: int): map<int, set<string>> {
    map t | t in seen && t >= currentTurn :: seen[t]
  }

  function SeenAt(seen: map<int, set<string>>, turn: int): set<string> {
    if turn in seen then seen[turn] else {}
  }

  /** Validation followed by the check for a second order of the same unit. */
  function Admit(r: Rules, cache: Cache, seen: map<int, set<string>>, raw: RawOrder): (map<int, set<string>>, Code) {
    var code := Validate(r, cache, raw);
    if code != Accepted then (seen, code)
    else
      var kept := Pruned(seen, cache.turn);
      if raw.unit in SeenAt(kept, raw.turn) then (kept, DuplicateUnitOrder)
      else (kept[raw.turn := SeenAt(kept, raw.turn) + {raw.unit}], Accepted)
  }
}
