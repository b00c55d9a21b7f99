/** Which submissions are accepted, and with what code the others are refused, told
    in terms of the map and of the units. */
module Acceptance {
  import opened Walks
  import opened Config
  import opened State
  import opened Steps
  import opened Turn
  import opened Ingest

  // ----- the words the rules are told in -------------------------------------

  /** The order names everything, its unit is known, active and the player's own, and
      it is meant for the current turn. */
  predicate Proper(r: Rules, cache: Cache, raw: RawOrder) {
    && raw.kind != MissingType && raw.player != "" && raw.unit != ""
    && raw.unit in r.g.units && raw.unit in cache.units && cache.units[raw.unit].status == Active
    && raw.turn == cache.turn
    && r.g.units[raw.unit].side == SideOf(raw.player)
  }

  /** Whoever is named player-dark, with any suffix, plays the Shadow. */
  function SideOf(player: string): Faction {
    if |player| >= 11 && player[..11] == "player-dark" then Shadow else FreePeoples
  }

  /** An active fellowship guard of another side stands at an end of the path. */
  predicate EnemyGuardAt(g: GameConfig, units: Units, path: PathConfig, side: Faction) {
    exists x | x in units && x in g.units ::
      && units[x].status == Active && (units[x].region == path.from || units[x].region == path.to)
      && g.units[x].class_ == FellowshipGuard && g.units[x].side != side
  }

  /** An active unit of the Shadow stands at Mount Doom. */
  predicate DoomIsHeld(g: GameConfig, units: Units) {
    exists x | x in units && x in g.units ::
      units[x].status == Active && units[x].region == "mount-doom" && g.units[x].side == Shadow
  }

  // ----- the checks every order goes through ---------------------------------

  /** An order is refused for what is wrong with it first; a proper one gets as far
      as the rules for its kind. */
  lemma ProperOrders(r: Rules, cache: Cache, raw: RawOrder)
    ensures Validate(r, cache, raw) == Accepted ==> Proper(r, cache, raw)
    ensures Proper(r, cache, raw) ==> Validate(r, cache, raw) == KindCode(r, cache, raw)
    ensures Validate(r, cache, raw) == InvalidJson <==> raw.kind == MissingType || raw.player == "" || raw.unit == ""
    ensures var known := raw.kind != MissingType && raw.player != "" && raw.unit != "" && raw.unit in r.g.units;
            && (Validate(r, cache, raw) == WrongTurn <==> known && raw.turn != cache.turn)
            && (raw.kind != MissingType && raw.player != "" && raw.unit != "" && !known ==>
                  Validate(r, cache, raw) == NotYourUnit)
            && (known && raw.turn == cache.turn && r.g.units[raw.unit].side != SideOf(raw.player) ==>
                  Validate(r, cache, raw) == NotYourUnit)
            && (known && raw.turn == cache.turn && r.g.units[raw.unit].side == SideOf(raw.player)
                && (raw.unit in cache.units ==> cache.units[raw.unit].status != Active) ==>
                  Validate(r, cache, raw) == InvalidTarget)
  {
    RouteCodes(r.m, cache.paths, IsRingBearer(r.g, raw.unit), StartOfRoute(r.g, cache, raw.unit), RouteIds(raw), true);
    hide RouteCode, Guarded, ShadowHolds, EnemyAdjacent;
  }

  /** A route is refused for its paths or for a blocked first one. */
  lemma {:induction false} RouteCodes(
      m: MapConfig, paths: Paths, ringBearer: bool, region: string, ids: seq<string>, first: bool)
    ensures RouteCode(m, paths, ringBearer, region, ids, first) in {Accepted, InvalidPath, PathBlocked}
    ensures RouteCode(m, paths, ringBearer, region, ids, first) == PathBlocked <==>
              first && ringBearer && FirstPathBlocked(paths, ids) && ids[0] in m.paths
    decreases |ids|
  {
    if ids != [] && ids[0] in m.paths {
      RouteCodes(m, paths, ringBearer, OtherEnd(region, m.paths[ids[0]]), ids[1..], false);
    }
  }

  // ----- routes --------------------------------------------------------------

  /** Route orders: a redirection counts by its new paths. Accepted exactly for
      non-empty walks that start where the unit stands, for the Ring Bearer where his
      side sees him, and whose first path, if it is his, is not blocked; that is
      refused as such, everything else as no path. */
  lemma RouteAcceptance(r: Rules, cache: Cache, raw: RawOrder)
    requires Represents(r.adj, r.m) && Proper(r, cache, raw)
    requires raw.kind == AssignRoute || raw.kind == RedirectUnit
    ensures var ids := if raw.kind == AssignRoute then raw.pathIds else raw.newPathIds;
            var bearer := r.g.units[raw.unit].class_ == RingBearer;
            var start := if bearer then cache.lightView.ringBearerRegion else cache.units[raw.unit].region;
            var blocked := bearer && |ids| > 0 && ids[0] in cache.paths && cache.paths[ids[0]].status == Blocked;
            var isWalk := ids != [] && exists es :: FollowsEdges(r.adj, start, es) && PathIdsOf(es) == ids;
            && (Validate(r, cache, raw) == Accepted <==> isWalk && !blocked)
            && (Validate(r, cache, raw) == PathBlocked <==> blocked && ids[0] in r.m.paths)
            && (Validate(r, cache, raw) == InvalidPath <==> if blocked then ids[0] !in r.m.paths else !isWalk)
  {
    var start, ids := StartOfRoute(r.g, cache, raw.unit), RouteIds(raw);
    var bearer := IsRingBearer(r.g, raw.unit);
    ProperOrders(r, cache, raw);
    RouteCodes(r.m, cache.paths, bearer, start, ids, true);
    RouteCodeMeansConnected(r.m, cache.paths, bearer, start, ids, true);
    hide Validate, Proper, RouteCode;
    if Connected(r.m, start, ids) {
      var es := ConnectedIsWalk(r.adj, r.m, start, ids);
    }
    if es :| FollowsEdges(r.adj, start, es) && PathIdsOf(es) == ids {
      WalkIsConnected(r.adj, r.m, start, es);
    }
  }

  // ----- orders about paths and regions --------------------------------------

  /** Blocking: a known path with the unit at one of its ends, and no enemy guard there. */
  lemma BlockAcceptance(r: Rules, cache: Cache, raw: RawOrder)
    requires Proper(r, cache, raw) && raw.kind == BlockPath
    ensures var at, side := cache.units[raw.unit].region, r.g.units[raw.unit].side;
            var code := Validate(r, cache, raw);
            if raw.targetPath !in r.m.paths then code == InvalidTarget
            else
              var p := r.m.paths[raw.targetPath];
              if at != p.from && at != p.to then code == NotAdjacentToPath
              else code == if EnemyGuardAt(r.g, cache.units, p, side) then InvalidTarget else Accepted
  {
    ProperOrders(r, cache, raw);
    hide Validate;
    if raw.targetPath in r.m.paths {
      GuardedMeans(r.g, cache.units, r.m.paths[raw.targetPath], r.g.units[raw.unit].side);
    }
    hide Guarded, EnemyGuardAt;
  }

  lemma GuardedMeans(g: GameConfig, units: Units, p: PathConfig, side: Faction)
    ensures Guarded(g, units, p, side) <==> EnemyGuardAt(g, units, p, side)
  {
    forall x | x in units
      ensures IsGuard(g, units, x, p, side) <==>
                && x in g.units && units[x].status == Active && (units[x].region == p.from || units[x].region == p.to)
                && g.units[x].class_ == FellowshipGuard && g.units[x].side != side
    {}
    hide IsGuard;
  }

  /** Searching: the Shadow alone, and likewise from one of the ends. */
  lemma SearchAcceptance(r: Rules, cache: Cache, raw: RawOrder)
    requires Proper(r, cache, raw) && raw.kind == SearchPath
    ensures var at, code := cache.units[raw.unit].region, Validate(r, cache, raw);
            && (code == Accepted <==>
                  && raw.targetPath in r.m.paths && r.g.units[raw.unit].side == Shadow
                  && (at == r.m.paths[raw.targetPath].from || at == r.m.paths[raw.targetPath].to))
            && (code == InvalidTarget <==> raw.targetPath !in r.m.paths)
            && (code == NotAdjacentToPath <==>
                  && raw.targetPath in r.m.paths
                  && at != r.m.paths[raw.targetPath].from && at != r.m.paths[raw.targetPath].to)
            && code in {Accepted, InvalidTarget, NotAdjacentToPath, NotYourUnit}
  {
    ProperOrders(r, cache, raw);
    hide Validate;
  }

  /** Attacking: a neighbouring region that is neither neutral nor the unit's own. */
  lemma AttackAcceptance(r: Rules, cache: Cache, raw: RawOrder)
    requires Represents(r.adj, r.m) && Proper(r, cache, raw) && raw.kind == AttackRegion
    ensures Validate(r, cache, raw) == Accepted <==>
              && raw.targetRegion != "" && raw.targetRegion in cache.regions
              && cache.regions[raw.targetRegion].controlledBy != Neutral
              && cache.regions[raw.targetRegion].controlledBy != r.g.units[raw.unit].side
              && Joined(r.m, cache.units[raw.unit].region, raw.targetRegion)
    ensures Validate(r, cache, raw) in {Accepted, InvalidTarget}
  {
    ProperOrders(r, cache, raw);
    AdjacentMeans(r, cache.units[raw.unit].region, raw.targetRegion);
    hide Validate, Adjacent, Joined, Represents;
  }

  lemma AdjacentMeans(r: Rules, a: string, b: string)
    requires Represents(r.adj, r.m)
    ensures Adjacent(r.adj, a, b) <==> Joined(r.m, a, b)
  {
    if Adjacent(r.adj, a, b) {
      var e :| e in EdgesFrom(r.adj, a) && e.to == b;
      assert IsPathEdge(r.m, a, e);
      assert e.pathId in r.m.paths;
    }
    if p :| p in r.m.paths && Joins(r.m.paths[p], a, b) {
      assert IsPathEdge(r.m, a, Edge(b, p, r.m.paths[p].cost));
      assert Edge(b, p, r.m.paths[p].cost) in EdgesFrom(r.adj, a);
    }
  }

  // ----- orders about units --------------------------------------------------

  /** Abilities: a rested unit and a known path; fortifying and deploying ask for a unit
      that can, deploying for one of the Shadow; reinforcing and orders of an unknown
      kind are always accepted. */
  lemma UnitAcceptance(r: Rules, cache: Cache, raw: RawOrder)
    requires Proper(r, cache, raw)
    ensures var cfg, code := r.g.units[raw.unit], Validate(r, cache, raw);
            match raw.kind
            case MaiaAbility =>
              code == if cache.units[raw.unit].cooldown > 0 then OnCooldown
                      else if raw.targetPath in r.m.paths then Accepted else InvalidTarget
            case DeployNazgul => code == if cfg.side == Shadow && cfg.detectionRange > 0 then Accepted else NotYourUnit
            case FortifyRegion => code == if cfg.canFortify then Accepted else NotYourUnit
            case ReinforceRegion => code == Accepted
            case UnknownType => code == Accepted
            case _ => true
  {
    ProperOrders(r, cache, raw);
    hide Validate;
  }

  /** Destroying the Ring: only the Ring Bearer can, at Mount Doom as his side sees
      him, while no active unit of the Shadow is there. */
  lemma DestroyAcceptance(r: Rules, cache: Cache, raw: RawOrder)
    requires Proper(r, cache, raw) && raw.kind == DestroyRing
    ensures var bearer, code := r.g.units[raw.unit].class_ == RingBearer, Validate(r, cache, raw);
            && (code == NotYourUnit <==> !bearer)
            && (code == Accepted <==>
                  bearer && cache.lightView.ringBearerRegion == "mount-doom" && !DoomIsHeld(r.g, cache.units))
            && code in {Accepted, NotYourUnit, DestroyConditionNotMet}
  {
    ProperOrders(r, cache, raw);
    HeldMeans(r.g, cache.units);
    hide Validate, ShadowHolds, DoomIsHeld;
  }

  lemma HeldMeans(g: GameConfig, units: Units)
    ensures ShadowHolds(g, units, MOUNT_DOOM) <==> DoomIsHeld(g, units)
  {
    forall x | x in units
      ensures IsShadowAt(g, units, x, MOUNT_DOOM) <==>
                && x in g.units && units[x].status == Active && units[x].region == "mount-doom"
                && g.units[x].side == Shadow
    {}
    hide IsShadowAt;
  }
}
