/** The turn processor with its mutable state
    (option-b/internal/engine/turn_processor.go).

    Loops over maps take the remaining keys in any order. Every method is tied to
    the function of module Steps or Turn that says what it computes, so the
    outcome of a turn is the same for every order of every one of these loops. */
module Processor {
  import opened Graph
  import opened Config
  import opened State
  import opened Combat
  import opened Maia
  import opened Steps
  import opened Turn
  import opened MapLoops
  import opened CacheStore
  import opened Detection

  // ----- what combat relies on -----------------------------------------------

  /** Units are stored under their own ID and are configured, on one of two sides. */
  predicate Known(g: GameConfig, units: Units) {
    forall id | id in units :: units[id].id == id && id in g.units && g.units[id].side in {FreePeoples, Shadow}
  }

  predicate KnownOrder(g: GameConfig, o: Order) {
    o.unit in g.units && g.units[o.unit].side in {FreePeoples, Shadow}
  }

  /** `list` holds exactly the units `ids`, each once, in some order. */
  ghost predicate Enumerates(g: GameConfig, units: Units, ids: set<string>, list: seq<Unit>, cfgs: seq<UnitConfig>) {
    && |list| == |cfgs|
    && DistinctIds(list)
    && (forall i | 0 <= i < |list| ::
          list[i].id in ids && list[i].id in units && list[i] == units[list[i].id] && cfgs[i] == UnitCfg(g, list[i].id))
    && (forall id | id in ids :: exists i :: 0 <= i < |list| && list[i].id == id)
  }

  lemma MusterOfEnumeration(g: GameConfig, units: Units, ids: set<string>, list: seq<Unit>, cfgs: seq<UnitConfig>)
    requires Enumerates(g, units, ids, list, cfgs)
    ensures StrengthsOf(list) == Strengths(units, ids)
    ensures BoostsOf(list, cfgs) == Boosts(g, ids)
  {
    hide StrengthsOf, BoostsOf, DistinctIds;
    KeysOf(list, cfgs);
    forall id | id in StrengthsOf(list)
      ensures id in ids && id in units
      ensures StrengthsOf(list)[id] == units[id].strength && BoostsOf(list, cfgs)[id] == Boost(UnitCfg(g, id))
    {
      var i :| 0 <= i < |list| && list[i].id == id;
      ValuesAt(list, cfgs, i);
    }
  }

  /** The power of a list depends only on who is on it. */
  lemma PowerOfEnumeration(
      g: GameConfig, units: Units, ids: set<string>, list: seq<Unit>, cfgs: seq<UnitConfig>, side: Faction)
    requires Enumerates(g, units, ids, list, cfgs) && OneSide(cfgs, side)
    ensures ListPower(list, cfgs, list, cfgs) == PowerOf(g, units, ids)
  {
    MusterOfEnumeration(g, units, ids, list, cfgs);
    ListPowerIsArmyPower(list, cfgs, side);
  }

  lemma FortressOfEnumeration(g: GameConfig, units: Units, ids: set<string>, list: seq<Unit>, cfgs: seq<UnitConfig>)
    requires Enumerates(g, units, ids, list, cfgs)
    ensures AnyIgnoresFortress(cfgs) <==> SomeIgnoreFortress(g, ids)
  {}

  lemma EnumerateNext(
      g: GameConfig, units: Units, ids: set<string>, list: seq<Unit>, cfgs: seq<UnitConfig>, id: string)
    requires Enumerates(g, units, ids, list, cfgs)
    requires id in units && units[id].id == id && id !in ids
    ensures Enumerates(g, units, ids + {id}, list + [units[id]], cfgs + [UnitCfg(g, id)])
  {
    var list' := list + [units[id]];
    forall x | x in ids + {id} ensures exists i :: 0 <= i < |list'| && list'[i].id == x {
      if x == id {
        assert list'[|list|].id == x;
      } else {
        var i :| 0 <= i < |list| && list[i].id == x;
        assert list'[i].id == x;
      }
    }
  }

  /** Scanning `id`: it joins the list exactly if it belongs to the army. */
  lemma EnumerateStep(
      g: GameConfig, units: Units, ids: set<string>, todo: set<string>, list: seq<Unit>, cfgs: seq<UnitConfig>,
      id: string)
    requires Enumerates(g, units, ids - todo, list, cfgs)
    requires id in todo && id in units && units[id].id == id
    ensures if id in ids then Enumerates(g, units, ids - (todo - {id}), list + [units[id]], cfgs + [UnitCfg(g, id)])
            else Enumerates(g, units, ids - (todo - {id}), list, cfgs)
  {
    hide Enumerates;
    if id in ids {
      EnumerateNext(g, units, ids - todo, list, cfgs, id);
      assert ids - (todo - {id}) == ids - todo + {id};
    } else {
      assert ids - (todo - {id}) == ids - todo;
    }
  }

  class TurnProcessor {
    const g: GameConfig
    const m: MapConfig
    const graph: MapGraph
    const cache: WorldStateCache

    var currentTurn: int
    var pendingOrders: seq<Order>
    var gameOverSent: bool
    var events: seq<Event>

    constructor (g: GameConfig, m: MapConfig, graph: MapGraph, cache: WorldStateCache)
      ensures this.g == g && this.m == m && this.graph == graph && this.cache == cache
      ensures currentTurn == 1 && pendingOrders == [] && !gameOverSent && events == []
    {
      this.g, this.m, this.graph, this.cache := g, m, graph, cache;
      currentTurn, pendingOrders, gameOverSent, events := 1, [], false, [];
    }

    ghost function Value(): Node
      reads this, cache
    {
      Node(cache.Value(), cache.ringBearer, cache.disabledMaias, currentTurn, pendingOrders, gameOverSent, events)
    }

    ghost function GameRules(): Rules
      reads graph
    {
      Rules(g, m, graph.adj)
    }

    method SyncTurn(cacheTurn: int)
      requires cacheTurn == cache.turn
      modifies this`pendingOrders, this`currentTurn
      ensures Value() == Turn.SyncTurn(old(Value()))
    {
      if cacheTurn <= 0 || cacheTurn == currentTurn {
        return;
      }
      if cacheTurn < currentTurn {
        pendingOrders := [];
      }
      currentTurn := cacheTurn;
    }

    /** Keeps the order if it is for the current turn and its unit has none yet. */
    method BufferOrder(o: Order)
      modifies this`pendingOrders, this`currentTurn
      ensures Value() == Buffer(old(Value()), o)
    {
      SyncTurn(cache.turn);
      if o.turn != currentTurn {
        return;
      }
      for i := 0 to |pendingOrders|
        invariant forall k | 0 <= k < i :: pendingOrders[k].unit != o.unit
      {
        if pendingOrders[i].unit == o.unit {
          assert pendingOrders[i] in pendingOrders;
          return;
        }
      }
      pendingOrders := pendingOrders + [o];
    }

    method StepRouteOrders(snap: Snapshot, rb: RingBearerState, orders: seq<Order>) returns (rb': RingBearerState)
      modifies snap`units
      ensures (snap.units, rb') == RouteOrders(g, old(snap.units), rb, orders)
    {
      rb' := rb;
      for i := 0 to |orders|
        invariant (snap.units, rb') == RouteOrders(g, old(snap.units), rb, orders[..i])
      {
        var o := orders[i];
        assert orders[..i + 1][..i] == orders[..i];
        if o.kind == AssignRoute || o.kind == RedirectUnit {
          if o.unit in snap.units && snap.units[o.unit].status == Active {
            var u := snap.units[o.unit];
            u := u.(route := o.pathIds, routeIdx := 0, travelPath := "", travelLeft := 0);
            snap.units := snap.units[o.unit := u];
            if UnitCfg(g, o.unit).class_ == RingBearer {
              rb' := rb'.(route := o.pathIds, routeIdx := 0, travelPath := "", travelLeft := 0);
            }
          }
        }
      }
      assert orders[..|orders|] == orders;
    }

    method PathGuardedByEnemy(p: PathConfig, blockerSide: Faction, snap: Snapshot) returns (b: bool)
      ensures b <==> Guarded(g, snap.units, p, blockerSide)
    {
      var todo := snap.units.Keys;
      while todo != {}
        invariant todo <= snap.units.Keys
        invariant forall id | id in snap.units && id !in todo :: !IsGuard(g, snap.units, id, p, blockerSide)
        decreases |todo|
      {
        var id :| id in todo;
        todo := todo - {id};
        var u := snap.units[id];
        if u.status != Active || id !in g.units {
          continue;
        }
        var cfg := g.units[id];
        if cfg.side == blockerSide || cfg.class_ != FellowshipGuard {
          continue;
        }
        if u.region == p.from || u.region == p.to {
          assert IsGuard(g, snap.units, id, p, blockerSide);
          return true;
        }
      }
      b := false;
    }

    method StepBlockAndSearch(snap: Snapshot, orders: seq<Order>)
      modifies snap`paths
      ensures snap.paths == BlockAndSearch(g, m, snap.units, old(snap.paths), orders)
    {
      for i := 0 to |orders|
        invariant snap.paths == PathOrders(g, m, snap.units, old(snap.paths), orders[..i])
      {
        var o := orders[i];
        assert orders[..i + 1][..i] == orders[..i];
        if o.kind == BlockPath {
          if o.targetPath in snap.paths {
            var p := snap.paths[o.targetPath];
            var pc := PathCfg(m, o.targetPath);
            var u := UnitAt(snap.units, o.unit);
            var guarded := PathGuardedByEnemy(pc, UnitCfg(g, o.unit).side, snap);
            if (u.region == pc.from || u.region == pc.to) && !guarded {
              p := p.(status := Blocked, blockedBy := o.unit);
              snap.paths := snap.paths[o.targetPath := p];
            }
          }
        } else if o.kind == SearchPath {
          if o.targetPath in snap.paths {
            var p := snap.paths[o.targetPath];
            if p.surveillance < 3 {
              p := p.(surveillance := p.surveillance + 1);
            }
            if p.status == Open && p.surveillance > 0 {
              p := p.(status := Threatened);
            }
            snap.paths := snap.paths[o.targetPath := p];
          }
        }
      }
      assert orders[..|orders|] == orders;
      RevertBlocked(snap);
    }

    /** The last loop of the step: release the paths whose blocker moved away. */
    method RevertBlocked(snap: Snapshot)
      modifies snap`paths
      ensures snap.paths == ReleasePaths(m, snap.units, old(snap.paths))
    {
      ghost var before, after := snap.paths, ReleasePaths(m, snap.units, snap.paths);
      Begin(before, after);
      var todo := snap.paths.Keys;
      while todo != {}
        invariant Partway(before, after, snap.paths, todo)
        decreases |todo|
      {
        var id :| id in todo;
        ghost var now := snap.paths;
        var p := snap.paths[id];
        if p.status == Blocked && p.blockedBy != "" {
          var pc := PathCfg(m, id);
          if p.blockedBy !in snap.units
             || (snap.units[p.blockedBy].region != pc.from && snap.units[p.blockedBy].region != pc.to)
          {
            p := p.(status := StatusFromSurveillance(p), blockedBy := "");
            snap.paths := snap.paths[id := p];
          }
        }
        Visit(before, after, now, todo, id, snap.paths);
        todo := todo - {id};
      }
      Complete(before, after, snap.paths);
    }

    method StepReinforceAndDeploy(snap: Snapshot, orders: seq<Order>)
      modifies snap`units
      ensures snap.units == MoveOrders(g, graph.adj, old(snap.units), orders)
    {
      for i := 0 to |orders|
        invariant snap.units == MoveOrders(g, graph.adj, old(snap.units), orders[..i])
      {
        var o := orders[i];
        assert orders[..i + 1][..i] == orders[..i];
        if o.kind == ReinforceRegion {
          if o.unit in snap.units {
            ghost var before := snap.units;
            var u := snap.units[o.unit];
            var edges := graph.Neighbours(u.region);
            for k := 0 to |edges|
              invariant snap.units == before
              invariant forall j | 0 <= j < k :: edges[j].to != o.targetRegion
            {
              if edges[k].to == o.targetRegion {
                assert edges[k] in edges;
                u := u.(region := o.targetRegion, travelPath := "", travelLeft := 0);
                snap.units := snap.units[o.unit := u];
                break;
              }
            }
          }
        } else if o.kind == DeployNazgul {
          if o.unit in snap.units {
            var u := snap.units[o.unit];
            if UnitCfg(g, o.unit).detectionRange > 0 {
              u := u.(region := o.targetRegion, travelPath := "", travelLeft := 0);
              snap.units := snap.units[o.unit := u];
            }
          }
        }
      }
      assert orders[..|orders|] == orders;
    }

    method StepFortify(snap: Snapshot, orders: seq<Order>)
      modifies snap`regions
      ensures snap.regions == FortifyOrders(g, snap.units, old(snap.regions), orders)
    {
      for i := 0 to |orders|
        invariant snap.regions == FortifyOrders(g, snap.units, old(snap.regions), orders[..i])
      {
        var o := orders[i];
        assert orders[..i + 1][..i] == orders[..i];
        if o.kind == FortifyRegion {
          if !UnitCfg(g, o.unit).canFortify {
            continue;
          }
          var u := UnitAt(snap.units, o.unit);
          if u.region in snap.regions {
            var r := snap.regions[u.region].(fortified := true, fortifyTurns := 2);
            snap.regions := snap.regions[u.region := r];
          }
        }
      }
      assert orders[..|orders|] == orders;
    }

    method StepMaiaAbilities(snap: Snapshot, orders: seq<Order>)
      modifies snap`units, snap`paths
      ensures (snap.units, snap.paths)
           == MaiaOrders(g, m, old(snap.units), old(snap.paths), cache.disabledMaias, orders)
    {
      for i := 0 to |orders|
        invariant (snap.units, snap.paths)
               == MaiaOrders(g, m, old(snap.units), old(snap.paths), cache.disabledMaias, orders[..i])
      {
        var o := orders[i];
        assert orders[..i + 1][..i] == orders[..i];
        if o.kind != MaiaAbility || o.unit !in snap.units || o.targetPath !in snap.paths {
          continue;
        }
        var u := snap.units[o.unit];
        var cfg := UnitCfg(g, o.unit);
        var p := snap.paths[o.targetPath];
        var disabled := cache.IsCorruptPathMaiaDisabled(o.unit, g);
        var result := DispatchMaiaAbility(u, cfg, o.targetPath, p, PathCfg(m, o.targetPath), disabled);
        if result.Refused? {
          continue;
        }
        match result.effect {
          case OpenPath =>
            p := p.(status := TemporarilyOpen);
            p := p.(tempOpenTurns := 2);
          case CorruptPath =>
            p := p.(surveillance := 3);
        }
        snap.paths := snap.paths[o.targetPath := p];
        u := u.(cooldown := cfg.cooldown);
        snap.units := snap.units[o.unit := u];
      }
      assert orders[..|orders|] == orders;
    }

    method StepAutoAdvance(snap: Snapshot, rb: RingBearerState, turn: int) returns (rb': RingBearerState)
      modifies snap`units, this`events
      ensures snap.units == AdvanceUnits(m, snap.paths, old(snap.units))
      ensures rb' == AdvanceRingBearer(g, m, snap.paths, rb, turn).0
      ensures events == old(events) + AdvanceRingBearer(g, m, snap.paths, rb, turn).1
    {
      AdvanceAllUnits(snap);
      rb' := AdvanceHidden(snap, rb, turn);
    }

    method AdvanceAllUnits(snap: Snapshot)
      modifies snap`units
      ensures snap.units == AdvanceUnits(m, snap.paths, old(snap.units))
    {
      ghost var before, after := snap.units, AdvanceUnits(m, snap.paths, snap.units);
      Begin(before, after);
      var todo := snap.units.Keys;
      while todo != {}
        invariant Partway(before, after, snap.units, todo)
        decreases |todo|
      {
        var id :| id in todo;
        ghost var now := snap.units;
        var u := AdvanceOne(snap, snap.units[id]);
        snap.units := snap.units[id := u];
        Visit(before, after, now, todo, id, snap.units);
        todo := todo - {id};
      }
      Complete(before, after, snap.units);
    }

    /** The body of the loop over the units. */
    method AdvanceOne(snap: Snapshot, u0: Unit) returns (u: Unit)
      ensures u == AdvanceUnit(m, snap.paths, u0)
    {
      u := u0;
      if u.status != Active || |u.route| == 0 || u.routeIdx < 0 || u.routeIdx >= |u.route| {
        return;
      }
      var next := u.route[u.routeIdx];
      if next !in snap.paths {
        return;
      }
      var p := snap.paths[next];
      if u.travelPath == next && u.travelLeft > 0 {
        u := u.(travelLeft := u.travelLeft - 1);
        if u.travelLeft == 0 {
          var pc := PathCfg(m, next);
          var dest := pc.to;
          if u.region == pc.to {
            dest := pc.from;
          }
          u := u.(region := dest, routeIdx := u.routeIdx + 1, travelPath := "");
        }
        return;
      }
      match p.status {
        case Blocked =>
        case Open | Threatened | TemporarilyOpen =>
          var pc := PathCfg(m, next);
          if pc.cost <= 1 {
            var dest := pc.to;
            if u.region == pc.to {
              dest := pc.from;
            }
            u := u.(region := dest, routeIdx := u.routeIdx + 1);
          } else {
            u := u.(travelPath := next, travelLeft := pc.cost - 1);
          }
      }
    }

    /** The second half of the step: the hidden Ring Bearer. */
    method AdvanceHidden(snap: Snapshot, rb0: RingBearerState, turn: int) returns (rb: RingBearerState)
      modifies this`events
      ensures rb == AdvanceRingBearer(g, m, snap.paths, rb0, turn).0
      ensures events == old(events) + AdvanceRingBearer(g, m, snap.paths, rb0, turn).1
    {
      hide AdvanceRingBearer, ExposedBySurveillance;
      rb := rb0;
      HiddenWaits(g, m, snap.paths, rb0, turn);
      if |rb.route| == 0 || rb.routeIdx < 0 || rb.routeIdx >= |rb.route| {
        return;
      }
      HiddenGoesOn(g, m, snap.paths, rb0, turn);
      HiddenArrives(g, m, snap.paths, rb0, turn);
      var next := rb.route[rb.routeIdx];
      if next !in snap.paths {
        return;
      }
      var p := snap.paths[next];
      if rb.travelPath == next && rb.travelLeft > 0 {
        rb := rb.(travelLeft := rb.travelLeft - 1);
        if rb.travelLeft == 0 {
          var pc := PathCfg(m, next);
          var dest := pc.to;
          if rb.trueRegion == pc.to {
            dest := pc.from;
          }
          rb := rb.(trueRegion := dest, routeIdx := rb.routeIdx + 1, travelPath := "");
          if ExposedBySurveillance(p, turn, g.hiddenUntilTurn) {
            rb := rb.(exposed := true);
            events := events + [Spotted(next, turn)];
          }
          events := events + [Moved(dest, turn)];
        }
        return;
      }
      match p.status {
        case Blocked =>
        case Open | Threatened | TemporarilyOpen =>
          var pc := PathCfg(m, next);
          if pc.cost <= 1 {
            var dest := pc.to;
            if rb.trueRegion == pc.to {
              dest := pc.from;
            }
            rb := rb.(trueRegion := dest, routeIdx := rb.routeIdx + 1);
            if ExposedBySurveillance(p, turn, g.hiddenUntilTurn) {
              rb := rb.(exposed := true);
              events := events + [Spotted(next, turn)];
            }
            events := events + [Moved(dest, turn)];
          } else {
            rb := rb.(travelPath := next, travelLeft := pc.cost - 1);
          }
      }
    }

    /** Collects both armies of an attack, in the arbitrary order of the scan. */
    method GatherArmies(snap: Snapshot, o: Order)
      returns (attackers: seq<Unit>, attackerCfgs: seq<UnitConfig>, defenders: seq<Unit>, defenderCfgs: seq<UnitConfig>)
      requires Known(g, snap.units)
      ensures var side := UnitCfg(g, o.unit).side;
              && Enumerates(g, snap.units, Friends(g, snap.units, UnitAt(snap.units, o.unit).region, side),
                  attackers, attackerCfgs)
              && Enumerates(g, snap.units, Foes(g, snap.units, o.targetRegion, side), defenders, defenderCfgs)
      ensures |attackers| == |attackerCfgs| && |defenders| == |defenderCfgs|
    {
      hide Enumerates, Friends, Foes, Gathered, Known;
      var attackerUnit := UnitAt(snap.units, o.unit);
      var attackerCfg := UnitCfg(g, o.unit);
      attackers, attackerCfgs, defenders, defenderCfgs := [], [], [], [];
      var todo := snap.units.Keys;
      GatherNone(g, snap.units, attackerUnit.region, o.targetRegion, attackerCfg.side);
      while todo != {}
        invariant todo <= snap.units.Keys
        invariant Gathered(g, snap.units, attackerUnit.region, o.targetRegion, attackerCfg.side, todo,
                           attackers, attackerCfgs, defenders, defenderCfgs)
        decreases |todo|
      {
        var id :| id in todo;
        GatherStep(g, snap.units, attackerUnit.region, o.targetRegion, attackerCfg.side, todo,
                   attackers, attackerCfgs, defenders, defenderCfgs, id);
        todo := todo - {id};
        var u := snap.units[id];
        if u.status != Active {
          continue;
        }
        var cfg := UnitCfg(g, id);
        if u.region == attackerUnit.region && cfg.side == attackerCfg.side {
          attackers := attackers + [u];
          attackerCfgs := attackerCfgs + [cfg];
        }
        if u.region == o.targetRegion && cfg.side != attackerCfg.side {
          defenders := defenders + [u];
          defenderCfgs := defenderCfgs + [cfg];
        }
      }
      GatherAll(g, snap.units, attackerUnit.region, o.targetRegion, attackerCfg.side,
                attackers, attackerCfgs, defenders, defenderCfgs);
    }

    /** Moves every attacker into the conquered region. */
    method MoveAttackers(
        snap: Snapshot, attackers: seq<Unit>, target: string, ghost before: Units, ghost after: Units,
        ghost rest: set<string>)
      requires DistinctIds(attackers) && Ids(attackers) !! rest
      requires Partway(before, after, snap.units, Ids(attackers) + rest)
      requires forall a | a in attackers :: a.id in before && after[a.id] == MoveTo(before[a.id], target)
      modifies snap`units
      ensures Partway(before, after, snap.units, rest)
    {
      hide DistinctIds;
      assert attackers[0..] == attackers;
      for i := 0 to |attackers|
        invariant Partway(before, after, snap.units, Ids(attackers[i..]) + rest)
      {
        var id := attackers[i].id;
        ghost var now := snap.units;
        IdsTail(attackers, i, rest);
        assert attackers[i] in attackers;
        var u := snap.units[id];
        u := u.(region := target, travelPath := "", travelLeft := 0);
        snap.units := snap.units[id := u];
        Visit(before, after, now, Ids(attackers[i..]) + rest, id, snap.units);
      }
      assert Ids(attackers[|attackers|..]) + rest == rest;
    }

    /** Deals the same damage to every unit on a list. */
    method DamageUnits(
        snap: Snapshot, list: seq<Unit>, cfgs: seq<UnitConfig>, damage: int, ghost before: Units, ghost after: Units,
        ghost rest: set<string>)
      requires |list| == |cfgs| && DistinctIds(list) && Ids(list) !! rest
      requires Partway(before, after, snap.units, Ids(list) + rest)
      requires forall i | 0 <= i < |list| ::
                 list[i].id in before && after[list[i].id] == ApplyDamage(before[list[i].id], cfgs[i], damage)
      modifies snap`units
      ensures Partway(before, after, snap.units, rest)
    {
      hide DistinctIds, ApplyDamage;
      assert list[0..] == list;
      for i := 0 to |list|
        invariant Partway(before, after, snap.units, Ids(list[i..]) + rest)
      {
        var id := list[i].id;
        ghost var now := snap.units;
        IdsTail(list, i, rest);
        var updated := ApplyDamage(snap.units[id], cfgs[i], damage);
        snap.units := snap.units[id := updated];
        Visit(before, after, now, Ids(list[i..]) + rest, id, snap.units);
      }
      assert Ids(list[|list|..]) + rest == rest;
    }

    /** One attack order. */
    method Attack(snap: Snapshot, o: Order)
      requires Known(g, snap.units) && KnownOrder(g, o)
      requires o.kind == AttackRegion
      modifies snap`units, snap`regions, cache`disabledMaias
      ensures Front(snap.units, snap.regions, cache.disabledMaias)
           == AttackOrder(g, m, old(Front(snap.units, snap.regions, cache.disabledMaias)), o)
      ensures Known(g, snap.units)
    {
      hide Enumerates, PowerOf, ListPower, Friends, Foes, Known, Partway, Ids, DistinctIds, OneSide, AfterBattle;
      if o.targetRegion !in snap.regions {
        return;
      }
      var targetRegion := snap.regions[o.targetRegion];
      ghost var b := BattleOf(g, m, snap.units, targetRegion, o);
      ghost var before, after := snap.units, AfterAttack(g, b, o.targetRegion, snap.units);
      var attackers, attackerCfgs, defenders, defenderCfgs := GatherArmies(snap, o);
      SidesOfArmies(g, before, b, UnitAt(before, o.unit).region, o.targetRegion, attackers, attackerCfgs, defenders,
          defenderCfgs);
      PowerOfEnumeration(g, before, b.attackers, attackers, attackerCfgs, b.side);
      PowerOfEnumeration(g, before, b.defenders, defenders, defenderCfgs, Opponent(b.side));
      FortressOfEnumeration(g, before, b.attackers, attackers, attackerCfgs);
      var result := ResolveAttack(attackers, attackerCfgs, defenders, defenderCfgs, targetRegion,
          RegionCfg(m, o.targetRegion));
      assert result.attackerWon == b.Won() && (b.Won() ==> result.damage == b.attack - b.defence);
      BattleBegins(g, b, o.targetRegion, before, attackers, attackerCfgs, defenders, defenderCfgs);
      if result.attackerWon {
        MoveAttackers(snap, attackers, o.targetRegion, before, after, Ids(defenders));
        targetRegion := targetRegion.(controlledBy := UnitCfg(g, o.unit).side);
        DamageUnits(snap, defenders, defenderCfgs, result.damage, before, after, {});
        if o.targetRegion == ISENGARD && UnitCfg(g, o.unit).side == FreePeoples {
          cache.DisableCorruptPathMaias(g);
        }
      } else {
        DamageUnits(snap, attackers, attackerCfgs, 1, before, after, {});
      }
      Complete(before, after, snap.units);
      KnownAfterAttack(g, b, o.targetRegion, before);
      snap.regions := snap.regions[o.targetRegion := targetRegion];
    }

    method StepCombat(snap: Snapshot, orders: seq<Order>)
      requires Known(g, snap.units)
      requires forall o | o in orders :: KnownOrder(g, o)
      modifies snap`units, snap`regions, cache`disabledMaias
      ensures Front(snap.units, snap.regions, cache.disabledMaias)
           == AttackOrders(g, m, old(Front(snap.units, snap.regions, cache.disabledMaias)), orders)
    {
      hide Known;
      for i := 0 to |orders|
        invariant Known(g, snap.units)
        invariant Front(snap.units, snap.regions, cache.disabledMaias)
               == AttackOrders(g, m, old(Front(snap.units, snap.regions, cache.disabledMaias)), orders[..i])
      {
        var o := orders[i];
        assert orders[..i + 1][..i] == orders[..i];
        assert o in orders;
        if o.kind != AttackRegion {
          continue;
        }
        Attack(snap, o);
      }
      assert orders[..|orders|] == orders;
    }

    method StepTempOpenTimers(snap: Snapshot)
      modifies snap`paths
      ensures snap.paths == TickPaths(old(snap.paths))
    {
      ghost var before, after := snap.paths, TickPaths(snap.paths);
      Begin(before, after);
      var todo := snap.paths.Keys;
      while todo != {}
        invariant Partway(before, after, snap.paths, todo)
        decreases |todo|
      {
        var id :| id in todo;
        ghost var now, left := snap.paths, todo;
        todo := todo - {id};
        var p := snap.paths[id];
        if p.status != TemporarilyOpen {
          Visit(before, after, now, left, id, snap.paths);
          continue;
        }
        p := p.(tempOpenTurns := p.tempOpenTurns - 1);
        if p.tempOpenTurns <= 0 {
          if p.blockedBy != "" {
            p := p.(status := Blocked);
          } else {
            p := p.(status := StatusFromSurveillance(p));
          }
          p := p.(tempOpenTurns := 0);
        }
        snap.paths := snap.paths[id := p];
        Visit(before, after, now, left, id, snap.paths);
      }
      Complete(before, after, snap.paths);
    }

    method StepFortifyTimers(snap: Snapshot)
      modifies snap`regions
      ensures snap.regions == TickRegions(old(snap.regions))
    {
      ghost var before, after := snap.regions, TickRegions(snap.regions);
      Begin(before, after);
      var todo := snap.regions.Keys;
      while todo != {}
        invariant Partway(before, after, snap.regions, todo)
        decreases |todo|
      {
        var id :| id in todo;
        ghost var now := snap.regions;
        var r := snap.regions[id];
        if r.fortified {
          r := r.(fortifyTurns := r.fortifyTurns - 1);
          if r.fortifyTurns <= 0 {
            r := r.(fortified := false);
          }
          snap.regions := snap.regions[id := r];
        }
        Visit(before, after, now, todo, id, snap.regions);
        todo := todo - {id};
      }
      Complete(before, after, snap.regions);
    }

    method StepRespawnAndCooldown(snap: Snapshot)
      modifies snap`units
      ensures snap.units == TickUnits(g, old(snap.units))
    {
      ghost var before, after := snap.units, TickUnits(g, snap.units);
      Begin(before, after);
      var todo := snap.units.Keys;
      while todo != {}
        invariant Partway(before, after, snap.units, todo)
        decreases |todo|
      {
        var id :| id in todo;
        ghost var now := snap.units;
        var u := RespawnAndCoolDown(id, snap.units[id]);
        snap.units := snap.units[id := u];
        Visit(before, after, now, todo, id, snap.units);
        todo := todo - {id};
      }
      Complete(before, after, snap.units);
    }

    /** The body of the loop over the units. */
    method RespawnAndCoolDown(id: string, u0: Unit) returns (u: Unit)
      ensures u == TickUnit(UnitCfg(g, id), u0)
    {
      u := u0;
      var cfg := UnitCfg(g, id);
      if u.status == Respawning {
        u := u.(respawnTurns := u.respawnTurns - 1);
        if u.respawnTurns <= 0 {
          u := u.(status := Active, strength := cfg.strength, region := cfg.startRegion, respawnTurns := 0,
                  travelPath := "", travelLeft := 0);
        }
      }
      if u.cooldown > 0 {
        u := u.(cooldown := u.cooldown - 1);
      }
    }

    method EvaluateWinConditions(snap: Snapshot, rb: RingBearerState, orders: seq<Order>) returns (winner: Winner)
      ensures winner == WinnerOf(g, snap.units, rb, orders)
    {
      var destroyRequested := false;
      for i := 0 to |orders|
        invariant destroyRequested <==> exists k :: 0 <= k < i && orders[k].kind == DestroyRing
      {
        if orders[i].kind == DestroyRing {
          destroyRequested := true;
        }
      }
      assert destroyRequested <==> DestroyRequested(orders);
      if rb.trueRegion == MOUNT_DOOM && destroyRequested {
        var darkAtMountDoom := ScanForShadow(snap);
        if !darkAtMountDoom {
          return RingDestroyed;
        }
      }
      if rb.exposed {
        var todo := snap.units.Keys;
        while todo != {}
          invariant todo <= snap.units.Keys
          invariant forall id | id in snap.units && id !in todo :: !IsHunterAt(g, snap.units, id, rb.trueRegion)
          decreases |todo|
        {
          var id :| id in todo;
          todo := todo - {id};
          var u := snap.units[id];
          if UnitCfg(g, id).detectionRange > 0 && u.status == Active && u.region == rb.trueRegion {
            assert IsHunterAt(g, snap.units, id, rb.trueRegion);
            return RingBearerCaught;
          }
        }
      }
      winner := NoWinner;
    }

    method ScanForShadow(snap: Snapshot) returns (b: bool)
      ensures b <==> ShadowHolds(g, snap.units, MOUNT_DOOM)
    {
      var todo := snap.units.Keys;
      while todo != {}
        invariant todo <= snap.units.Keys
        invariant forall id | id in snap.units && id !in todo :: !IsShadowAt(g, snap.units, id, MOUNT_DOOM)
        decreases |todo|
      {
        var id :| id in todo;
        todo := todo - {id};
        var u := snap.units[id];
        if u.region == MOUNT_DOOM && UnitCfg(g, id).side == Shadow && u.status == Active {
          assert IsShadowAt(g, snap.units, id, MOUNT_DOOM);
          return true;
        }
      }
      b := false;
    }

    /** Announces the end of the game, unless that has been done already. */
    method ProduceGameOver(winner: Winner, turn: int)
      modifies this`gameOverSent, this`events
      ensures gameOverSent
      ensures events == old(events) + if old(gameOverSent) then []
          else [GameOver(winner, turn), SessionOver(winner, turn)]
    {
      if gameOverSent {
        return;
      }
      gameOverSent := true;
      events := events + [GameOver(winner, turn)];
      events := events + [SessionOver(winner, turn)];
    }

    /** Every unit and every pending order is configured. */
    ghost predicate Valid()
      reads this, cache
    {
      Known(g, cache.units) && forall o | o in pendingOrders :: KnownOrder(g, o)
    }

    /** Steps 2 to 12 on a snapshot. */
    method PlaySteps(snap: Snapshot, rb0: RingBearerState, orders: seq<Order>, turn: int) returns (rb: RingBearerState)
      requires Known(g, snap.units) && forall o | o in orders :: KnownOrder(g, o)
      modifies snap`units, snap`regions, snap`paths, cache`disabledMaias, this`events
      ensures var played := PlayTurn(GameRules(),
          old(Board(snap.units, snap.regions, snap.paths, rb0, cache.disabledMaias)), orders, turn);
              && Board(snap.units, snap.regions, snap.paths, rb, cache.disabledMaias) == played.0
              && events == old(events) + played.1
      ensures Known(g, snap.units)
    {
      hide Known, RouteOrders, BlockAndSearch, MoveOrders, FortifyOrders, MaiaOrders, AdvanceUnits, AdvanceRingBearer,
        AttackOrders, TickPaths, TickRegions, TickUnits, RingBearerDetected;
      ghost var board := Board(snap.units, snap.regions, snap.paths, rb0, cache.disabledMaias);
      ghost var stages := StagesOf(GameRules(), board, orders, turn);
      KnownThroughStages(GameRules(), board, orders, turn);
      rb := StepRouteOrders(snap, rb0, orders);
      StepBlockAndSearch(snap, orders);
      StepReinforceAndDeploy(snap, orders);
      StepFortify(snap, orders);
      StepMaiaAbilities(snap, orders);
      rb := StepAutoAdvance(snap, rb, turn);
      StepCombat(snap, orders);
      StepTempOpenTimers(snap);
      StepFortifyTimers(snap);
      StepRespawnAndCooldown(snap);
      assert rb == stages.rb7 && snap.units == stages.units11;
      var detection := RunDetection(turn, g.hiddenUntilTurn, rb, snap.units, g, graph);
      DetectedMeans(GameRules(), snap.units, rb.trueRegion, turn);
      if detection.exposed {
        rb := rb.(exposed := true, lastDetectedTurn := turn, lastDetectedRegion := detection.trueRegion);
        events := events + [Detected(detection.trueRegion, turn)];
      }
    }

    /** Step 13 and the return of the snapshot to the cache. */
    method ConcludeTurn(snap: Snapshot, rb0: RingBearerState, orders: seq<Order>, turn: int)
      requires Known(g, snap.units)
      requires turn == currentTurn && !gameOverSent && pendingOrders == [] && snap.session == cache.session
      modifies this, cache, snap
      ensures var board := old(Board(snap.units, snap.regions, snap.paths, rb0, cache.disabledMaias));
              Value() == EndTurn(g, old(Value()).(pending := orders), board, [])
      ensures Valid()
    {
      hide Known, WinnerOf;
      var rb := rb0;
      var winner := EvaluateWinConditions(snap, rb, orders);
      if winner == NoWinner && turn >= g.maxTurns {
        winner := Draw;
      }
      assert winner == Verdict(g, Board(snap.units, snap.regions, snap.paths, rb0, cache.disabledMaias), orders, turn);
      if winner != NoWinner {
        ProduceGameOver(winner, turn);
        snap.session := Session(true, winner, turn);
      } else {
        events := events + [WorldState(turn + 1), SessionTurn(turn + 1)];
        rb := rb.(exposed := false);
        currentTurn := currentTurn + 1;
      }
      snap.turn := turn;
      snap.lightView := LightView(rb.trueRegion, rb.route, rb.routeIdx);
      cache.Update(snap, rb);
    }

    /** One turn. Its outcome is a function of the node's state: no order in which
        any of the maps is visited makes a difference. */
    method AdvanceTurn()
      requires Valid()
      modifies this, cache
      ensures Value() == Advance(old(GameRules()), old(Value()))
      ensures Valid()
    {
      hide Known, PlayTurn, EndTurn;
      var snap := cache.TakeSnapshot();
      var rb := cache.ringBearer;
      SyncTurn(snap.turn);
      if gameOverSent || snap.session.gameOver {
        return;
      }
      ghost var n1 := Value();
      var orders := pendingOrders;
      pendingOrders := [];
      var turn := currentTurn;
      rb := PlaySteps(snap, rb, orders, turn);
      ghost var played := PlayTurn(GameRules(), BoardOf(n1), orders, turn);
      ghost var n2 := Value().(pending := orders);
      assert n2.events == n1.events + played.1;
      ConcludeTurn(snap, rb, orders, turn);
      EndTurnDependsOn(g, n1, n2, played.0, played.1);
    }
  }

  lemma DetectedMeans(r: Rules, units: Units, region: string, turn: int)
    ensures RingBearerDetected(r, units, region, turn) <==>
            turn > r.g.hiddenUntilTurn && exists id :: id in units && Detects(r.g, r.adj, units, id, region)
  {}

  lemma EndTurnDependsOn(g: GameConfig, n1: Node, n2: Node, b: Board, events: seq<Event>)
    requires n2.events == n1.events + events && n2.currentTurn == n1.currentTurn
    requires n2.pending == n1.pending && n2.cache.session == n1.cache.session
    ensures EndTurn(g, n2, b, []) == EndTurn(g, n1, b, events)
  {}

  // ----- the hidden Ring Bearer ----------------------------------------------

  /** The path he is about to travel or already travelling. */
  predicate OnPath(paths: Paths, rb: RingBearerState) {
    0 <= rb.routeIdx < |rb.route| && rb.route[rb.routeIdx] in paths
  }

  predicate MidPath(rb: RingBearerState)
    requires 0 <= rb.routeIdx < |rb.route|
  {
    rb.travelPath == rb.route[rb.routeIdx] && rb.travelLeft > 0
  }

  lemma HiddenWaits(g: GameConfig, m: MapConfig, paths: Paths, rb: RingBearerState, turn: int)
    ensures !OnPath(paths, rb) || (!MidPath(rb) && paths[rb.route[rb.routeIdx]].status == Blocked)
            ==> AdvanceRingBearer(g, m, paths, rb, turn) == (rb, [])
  {}

  lemma HiddenGoesOn(g: GameConfig, m: MapConfig, paths: Paths, rb: RingBearerState, turn: int)
    requires 0 <= rb.routeIdx < |rb.route|
    ensures var next := rb.route[rb.routeIdx];
            OnPath(paths, rb) ==>
              && (MidPath(rb) && rb.travelLeft > 1 ==>
                    AdvanceRingBearer(g, m, paths, rb, turn) == (rb.(travelLeft := rb.travelLeft - 1), []))
              && (!MidPath(rb) && paths[next].status != Blocked && PathCfg(m, next).cost > 1 ==>
                    AdvanceRingBearer(g, m, paths, rb, turn)
                    == (rb.(travelPath := next, travelLeft := PathCfg(m, next).cost - 1), []))
  {}

  lemma HiddenArrives(g: GameConfig, m: MapConfig, paths: Paths, rb: RingBearerState, turn: int)
    requires 0 <= rb.routeIdx < |rb.route|
    ensures var next := rb.route[rb.routeIdx];
            OnPath(paths, rb)
            && (MidPath(rb) ==> rb.travelLeft == 1)
            && (!MidPath(rb) ==> paths[next].status != Blocked && PathCfg(m, next).cost <= 1) ==>
              var dest := OtherEnd(rb.trueRegion, PathCfg(m, next));
              var seen := ExposedBySurveillance(paths[next], turn, g.hiddenUntilTurn);
              var there := rb.(trueRegion := dest, routeIdx := rb.routeIdx + 1, exposed := rb.exposed || seen);
              AdvanceRingBearer(g, m, paths, rb, turn)
              == (if MidPath(rb) then there.(travelPath := "", travelLeft := 0) else there,
                  (if seen then [Spotted(next, turn)] else []) + [Moved(dest, turn)])
  {}

  // ----- gathering the armies ------------------------------------------------

  predicate Attacks(g: GameConfig, units: Units, from: string, side: Faction, id: string)
    requires id in units
  {
    units[id].status == Active && units[id].region == from && UnitCfg(g, id).side == side
  }

  predicate Defends(g: GameConfig, units: Units, target: string, side: Faction, id: string)
    requires id in units
  {
    units[id].status == Active && units[id].region == target && UnitCfg(g, id).side != side
  }

  /** Of the units that have been scanned, both lists hold the ones they should. */
  ghost predicate Gathered(
      g: GameConfig, units: Units, from: string, target: string, side: Faction, todo: set<string>,
      attackers: seq<Unit>, attackerCfgs: seq<UnitConfig>, defenders: seq<Unit>, defenderCfgs: seq<UnitConfig>)
  {
    && Enumerates(g, units, Friends(g, units, from, side) - todo, attackers, attackerCfgs)
    && Enumerates(g, units, Foes(g, units, target, side) - todo, defenders, defenderCfgs)
  }

  lemma GatherNone(g: GameConfig, units: Units, from: string, target: string, side: Faction)
    ensures Gathered(g, units, from, target, side, units.Keys, [], [], [], [])
  {}

  lemma GatherStep(
      g: GameConfig, units: Units, from: string, target: string, side: Faction, todo: set<string>,
      attackers: seq<Unit>, attackerCfgs: seq<UnitConfig>, defenders: seq<Unit>, defenderCfgs: seq<UnitConfig>,
      id: string)
    requires Known(g, units) && id in todo && id in units
    requires Gathered(g, units, from, target, side, todo, attackers, attackerCfgs, defenders, defenderCfgs)
    ensures var attacks, defends := Attacks(g, units, from, side, id), Defends(g, units, target, side, id);
            Gathered(g, units, from, target, side, todo - {id},
                     if attacks then attackers + [units[id]] else attackers,
                     if attacks then attackerCfgs + [UnitCfg(g, id)] else attackerCfgs,
                     if defends then defenders + [units[id]] else defenders,
                     if defends then defenderCfgs + [UnitCfg(g, id)] else defenderCfgs)
  {
    EnumerateStep(g, units, Friends(g, units, from, side), todo, attackers, attackerCfgs, id);
    EnumerateStep(g, units, Foes(g, units, target, side), todo, defenders, defenderCfgs, id);
    hide Enumerates;
  }

  lemma GatherAll(
      g: GameConfig, units: Units, from: string, target: string, side: Faction,
      attackers: seq<Unit>, attackerCfgs: seq<UnitConfig>, defenders: seq<Unit>, defenderCfgs: seq<UnitConfig>)
    requires Gathered(g, units, from, target, side, {}, attackers, attackerCfgs, defenders, defenderCfgs)
    ensures Enumerates(g, units, Friends(g, units, from, side), attackers, attackerCfgs)
    ensures Enumerates(g, units, Foes(g, units, target, side), defenders, defenderCfgs)
    ensures |attackers| == |attackerCfgs| && |defenders| == |defenderCfgs|
  {
    assert Friends(g, units, from, side) - {} == Friends(g, units, from, side);
    assert Foes(g, units, target, side) - {} == Foes(g, units, target, side);
  }

  // ----- units stay known ----------------------------------------------------

  lemma {:induction false} KnownAfterRoutes(g: GameConfig, units: Units, rb: RingBearerState, orders: seq<Order>)
    requires Known(g, units)
    ensures Known(g, RouteOrders(g, units, rb, orders).0)
  {
    if orders != [] {
      KnownAfterRoutes(g, units, rb, orders[..|orders| - 1]);
    }
  }

  lemma {:induction false} KnownAfterMoves(r: Rules, units: Units, orders: seq<Order>)
    requires Known(r.g, units)
    ensures Known(r.g, MoveOrders(r.g, r.adj, units, orders))
  {
    if orders != [] {
      KnownAfterMoves(r, units, orders[..|orders| - 1]);
    }
  }

  lemma {:induction false} KnownAfterMaias(
      r: Rules, units: Units, paths: Paths, disabled: set<string>, orders: seq<Order>)
    requires Known(r.g, units)
    ensures Known(r.g, MaiaOrders(r.g, r.m, units, paths, disabled, orders).0)
  {
    if orders != [] {
      KnownAfterMaias(r, units, paths, disabled, orders[..|orders| - 1]);
    }
  }

  lemma {:induction false} KnownAfterAttacks(g: GameConfig, m: MapConfig, f: Front, orders: seq<Order>)
    requires Known(g, f.units)
    ensures Known(g, AttackOrders(g, m, f, orders).units)
  {
    if orders != [] {
      hide BattleOf, AfterBattle;
      var init := AttackOrders(g, m, f, orders[..|orders| - 1]);
      KnownAfterAttacks(g, m, f, orders[..|orders| - 1]);
      KnownAfterOneAttack(g, m, init, orders[|orders| - 1]);
    }
  }

  lemma KnownAfterOneAttack(g: GameConfig, m: MapConfig, f: Front, o: Order)
    requires Known(g, f.units)
    ensures Known(g, AttackOrder(g, m, f, o).units)
  {
    hide BattleOf;
  }

  lemma KnownThroughStages(r: Rules, b: Board, orders: seq<Order>, turn: int)
    requires Known(r.g, b.units)
    ensures Known(r.g, StagesOf(r, b, orders, turn).units7)
    ensures Known(r.g, StagesOf(r, b, orders, turn).units11)
  {
    hide RouteOrders, BlockAndSearch, MoveOrders, FortifyOrders, MaiaOrders, AttackOrders, AdvanceRingBearer,
        TickPaths, TickRegions;
    var s := StagesOf(r, b, orders, turn);
    KnownAfterRoutes(r.g, b.units, b.rb, orders);
    KnownAfterMoves(r, s.units2, orders);
    KnownAfterMaias(r, s.units4, s.paths3, b.disabled, orders);
    assert Known(r.g, s.units7);
    KnownAfterAttacks(r.g, r.m, Front(s.units7, s.regions5, b.disabled), orders);
  }

  function Opponent(side: Faction): Faction {
    if side == FreePeoples then Shadow else FreePeoples
  }

  function AfterAttack(g: GameConfig, b: Battle, target: string, units: Units): Units {
    map id | id in units :: AfterBattle(g, b, target, id, units[id])
  }

  function Ids(list: seq<Unit>): set<string> {
    set u | u in list :: u.id
  }

  lemma IdsTail(list: seq<Unit>, i: nat, rest: set<string>)
    requires i < |list| && DistinctIds(list) && Ids(list) !! rest
    ensures list[i].id in Ids(list[i..]) + rest
    ensures Ids(list[i + 1..]) + rest == (Ids(list[i..]) + rest) - {list[i].id}
  {}

  lemma KnownAfterAttack(g: GameConfig, b: Battle, target: string, units: Units)
    requires Known(g, units)
    ensures Known(g, AfterAttack(g, b, target, units))
  {}

  lemma IdsOfEnumeration(g: GameConfig, units: Units, ids: set<string>, list: seq<Unit>, cfgs: seq<UnitConfig>)
    requires Enumerates(g, units, ids, list, cfgs)
    ensures Ids(list) == ids && DistinctIds(list)
  {}

  /** Before the first unit is touched, exactly the units of the losing and, after
      a victory, of the winning army are still to be rewritten. */
  lemma BattleBegins(
      g: GameConfig, b: Battle, target: string, units: Units, attackers: seq<Unit>, attackerCfgs: seq<UnitConfig>,
      defenders: seq<Unit>, defenderCfgs: seq<UnitConfig>)
    requires b.attackers !! b.defenders && b.attackers <= units.Keys && b.defenders <= units.Keys
    requires Enumerates(g, units, b.attackers, attackers, attackerCfgs)
    requires Enumerates(g, units, b.defenders, defenders, defenderCfgs)
    ensures DistinctIds(attackers) && DistinctIds(defenders)
    ensures Ids(attackers) == b.attackers && Ids(defenders) == b.defenders
    ensures var after := AfterAttack(g, b, target, units);
            if b.Won() then
              && Partway(units, after, units, Ids(attackers) + Ids(defenders))
              && Ids(defenders) + {} == Ids(defenders)
              && (forall a | a in attackers :: a.id in units && after[a.id] == MoveTo(units[a.id], target))
              && forall i | 0 <= i < |defenders| ::
                   defenders[i].id in units
                   && after[defenders[i].id]
                       == ApplyDamage(units[defenders[i].id], defenderCfgs[i], b.attack - b.defence)
            else
              && Partway(units, after, units, Ids(attackers) + {})
              && forall i | 0 <= i < |attackers| ::
                   attackers[i].id in units
                   && after[attackers[i].id] == ApplyDamage(units[attackers[i].id], attackerCfgs[i], 1)
  {
    IdsOfEnumeration(g, units, b.attackers, attackers, attackerCfgs);
    IdsOfEnumeration(g, units, b.defenders, defenders, defenderCfgs);
    hide ApplyDamage, DistinctIds;
  }

  lemma SidesOfArmies(
      g: GameConfig, units: Units, b: Battle, from: string, target: string, attackers: seq<Unit>,
      attackerCfgs: seq<UnitConfig>,
      defenders: seq<Unit>, defenderCfgs: seq<UnitConfig>)
    requires Known(g, units) && b.side in {FreePeoples, Shadow}
    requires b.attackers == Friends(g, units, from, b.side) && b.defenders == Foes(g, units, target, b.side)
    requires Enumerates(g, units, b.attackers, attackers, attackerCfgs)
    requires Enumerates(g, units, b.defenders, defenders, defenderCfgs)
    ensures OneSide(attackerCfgs, b.side) && OneSide(defenderCfgs, Opponent(b.side))
    ensures b.attackers !! b.defenders && b.attackers <= units.Keys && b.defenders <= units.Keys
  {}
}
