/** The life of a unit over whole games: strength, destruction and return. */
module Lifecycle {
  import opened Config
  import opened State
  import opened Steps
  import opened Turn
  import opened Ingest
  import opened Processor
  import opened Runs
  import opened PathMachine

  // ----- the invariant of one unit -------------------------------------------

  /** Active units have between 1 and their configured strength, all others 0;
      the indestructible never stop being active; only those that may return do. */
  predicate UnitOk(cfg: UnitConfig, u: Unit) {
    && (u.status == Active ==> 1 <= u.strength <= cfg.strength)
    && (u.status != Active ==> u.strength == 0)
    && u.status != NoStatus
    && (cfg.indestructible ==> u.status == Active)
    && (u.status == Respawning ==> cfg.respawns)
  }

  predicate UnitsOk(g: GameConfig, units: Units) {
    forall id | id in units :: UnitOk(UnitCfg(g, id), units[id])
  }

  /** What no step outside combat and the respawn timer touches. */
  predicate SameHealth(u: Unit, v: Unit) {
    u.status == v.status && u.strength == v.strength && u.respawnTurns == v.respawnTurns
  }

  predicate SameHealths(a: Units, b: Units) {
    a.Keys == b.Keys && forall id | id in a :: SameHealth(a[id], b[id])
  }

  lemma {:induction false} RoutesKeepHealth(g: GameConfig, units: Units, rb: RingBearerState, orders: seq<Order>)
    ensures SameHealths(units, RouteOrders(g, units, rb, orders).0)
  {
    if orders != [] { RoutesKeepHealth(g, units, rb, orders[..|orders| - 1]); }
  }

  lemma {:induction false} MovesKeepHealth(r: Rules, units: Units, orders: seq<Order>)
    ensures SameHealths(units, MoveOrders(r.g, r.adj, units, orders))
  {
    if orders != [] { MovesKeepHealth(r, units, orders[..|orders| - 1]); }
  }

  lemma {:induction false} MaiasKeepHealth(
      r: Rules, units: Units, paths: Paths, disabled: set<string>, orders: seq<Order>)
    ensures SameHealths(units, MaiaOrders(r.g, r.m, units, paths, disabled, orders).0)
  {
    if orders != [] { MaiasKeepHealth(r, units, paths, disabled, orders[..|orders| - 1]); }
  }

  lemma TravelKeepsHealth(m: MapConfig, paths: Paths, units: Units)
    ensures SameHealths(units, AdvanceUnits(m, paths, units))
  {}

  /** Nothing up to step 7 touches the health of a unit. */
  lemma HealthBeforeCombat(r: Rules, b: Board, orders: seq<Order>, turn: int)
    ensures SameHealths(b.units, StagesOf(r, b, orders, turn).units7)
  {
    hide RouteOrders, BlockAndSearch, MoveOrders, FortifyOrders, MaiaOrders, AttackOrders, AdvanceUnits,
      AdvanceRingBearer, TickPaths, TickRegions, TickUnits;
    var s := StagesOf(r, b, orders, turn);
    RoutesKeepHealth(r.g, b.units, b.rb, orders);
    MovesKeepHealth(r, s.units2, orders);
    MaiasKeepHealth(r, s.units4, s.paths3, b.disabled, orders);
    TravelKeepsHealth(r.m, s.paths6, s.units6);
  }

  // ----- combat --------------------------------------------------------------

  /** One unit in one battle: only active units are hurt, and they fall as their
      configuration says. */
  predicate Fares(cfg: UnitConfig, u: Unit, v: Unit) {
    && (UnitOk(cfg, u) ==> UnitOk(cfg, v))
    && (u.status != Active ==> SameHealth(u, v) && v.region == u.region)
    && (u.status == Active && v.status == Respawning ==> v.respawnTurns == cfg.respawnTurns)
  }

  lemma BattleFares(g: GameConfig, m: MapConfig, units: Units, region: Region, o: Order, id: string)
    requires id in units
    ensures Fares(UnitCfg(g, id), units[id],
        AfterBattle(g, BattleOf(g, m, units, region, o), o.targetRegion, id, units[id]))
  {
    hide PowerOf, SomeIgnoreFortress;
  }

  predicate AllFare(g: GameConfig, a: Units, b: Units) {
    a.Keys == b.Keys && forall id | id in a :: Fares(UnitCfg(g, id), a[id], b[id])
  }

  lemma AttackFares(g: GameConfig, m: MapConfig, f: Front, o: Order)
    ensures AllFare(g, f.units, AttackOrder(g, m, f, o).units)
  {
    hide BattleOf, AfterBattle, Fares;
    if o.kind == AttackRegion && o.targetRegion in f.regions {
      forall id | id in f.units ensures Fares(UnitCfg(g, id), f.units[id], AttackOrder(g, m, f, o).units[id]) {
        BattleFares(g, m, f.units, f.regions[o.targetRegion], o, id);
      }
    } else {
      forall id | id in f.units ensures Fares(UnitCfg(g, id), f.units[id], f.units[id]) {
        UntouchedFares(UnitCfg(g, id), f.units[id]);
      }
    }
  }

  lemma UntouchedFares(cfg: UnitConfig, u: Unit)
    ensures Fares(cfg, u, u)
  {}

  lemma {:induction false} AttacksFare(g: GameConfig, m: MapConfig, f: Front, orders: seq<Order>)
    ensures AllFare(g, f.units, AttackOrders(g, m, f, orders).units)
  {
    hide AttackOrder, Fares;
    if orders == [] {
      forall id | id in f.units ensures Fares(UnitCfg(g, id), f.units[id], f.units[id]) {
        UntouchedFares(UnitCfg(g, id), f.units[id]);
      }
    } else {
      var init, last := orders[..|orders| - 1], orders[|orders| - 1];
      var mid := AttackOrders(g, m, f, init);
      AttacksFare(g, m, f, init);
      AttackFares(g, m, mid, last);
      var after := AttackOrder(g, m, mid, last).units;
      forall id | id in f.units ensures Fares(UnitCfg(g, id), f.units[id], after[id]) {
        FareOn(UnitCfg(g, id), f.units[id], mid.units[id], after[id]);
      }
    }
  }

  lemma FareOn(cfg: UnitConfig, u: Unit, v: Unit, w: Unit)
    requires Fares(cfg, u, v) && Fares(cfg, v, w)
    ensures Fares(cfg, u, w)
  {}

  // ----- one turn ------------------------------------------------------------

  /** What a turn makes of one unit that is u before and v after: the destroyed
      stay so, a countdown goes on, and those that return do so at home and whole. */
  predicate TurnsInto(cfg: UnitConfig, u: Unit, v: Unit) {
    && (u.status == Destroyed ==> v.status == Destroyed)
    && (u.status == Respawning && u.respawnTurns > 1 ==> v.status == Respawning && v.respawnTurns == u.respawnTurns - 1)
    && (u.status == Respawning && u.respawnTurns <= 1 ==> ReturnedHome(cfg, v))
    && (u.status == Active && v.status == Respawning ==> v.respawnTurns == cfg.respawnTurns - 1 >= 1)
  }

  predicate ReturnedHome(cfg: UnitConfig, u: Unit) {
    u.status == Active && u.strength == cfg.strength && u.region == cfg.startRegion
  }

  /** The turn of one unit: u before and up to combat, `fought` after it. */
  lemma UnitFate(cfg: UnitConfig, u: Unit, moved: Unit, fought: Unit)
    requires cfg.strength >= 1 && UnitOk(cfg, u) && SameHealth(u, moved) && Fares(cfg, moved, fought)
    ensures UnitOk(cfg, TickUnit(cfg, fought)) && TurnsInto(cfg, u, TickUnit(cfg, fought))
    ensures fought.status == Respawning ==> cfg.respawns
    ensures moved.status == Active && fought.status == Respawning ==>
              var v := TickUnit(cfg, fought);
              if cfg.respawnTurns > 1 then v.status == Respawning && v.respawnTurns == cfg.respawnTurns - 1
              else ReturnedHome(cfg, v)
  {}

  lemma UnitThroughTurn(r: Rules, b: Board, orders: seq<Order>, turn: int, id: string)
    requires id in b.units && UnitOk(UnitCfg(r.g, id), b.units[id]) && UnitCfg(r.g, id).strength >= 1
    ensures var s := StagesOf(r, b, orders, turn);
            && id in s.units11 && id in s.units7 && id in s.front8.units
            && s.units7[id].status == b.units[id].status
            && UnitOk(UnitCfg(r.g, id), s.units11[id])
            && TurnsInto(UnitCfg(r.g, id), b.units[id], s.units11[id])
            && (s.front8.units[id].status == Respawning ==> UnitCfg(r.g, id).respawns)
            && (s.units7[id].status == Active && s.front8.units[id].status == Respawning ==>
                  var k := UnitCfg(r.g, id).respawnTurns;
                  if k > 1 then s.units11[id].status == Respawning && s.units11[id].respawnTurns == k - 1
                  else ReturnedHome(UnitCfg(r.g, id), s.units11[id]))
  {
    var s := StagesOf(r, b, orders, turn);
    assert s.units11 == TickUnits(r.g, s.front8.units);
    assert s.front8 == AttackOrders(r.g, r.m, Front(s.units7, s.regions5, b.disabled), orders);
    hide StagesOf, AttackOrders, Fares, UnitOk, TurnsInto, TickUnit, ReturnedHome;
    HealthBeforeCombat(r, b, orders, turn);
    AttacksFare(r.g, r.m, Front(s.units7, s.regions5, b.disabled), orders);
    UnitFate(UnitCfg(r.g, id), b.units[id], s.units7[id], s.front8.units[id]);
  }

  lemma UnitsAfterAdvance(r: Rules, n: Node)
    requires ClockInv(n) && !Over(n)
    ensures Advance(r, n).cache.units == NextStages(r, n).units11
  {
    hide RouteOrders, BlockAndSearch, MoveOrders, FortifyOrders, MaiaOrders, AttackOrders, AdvanceUnits,
      AdvanceRingBearer, TickPaths, TickRegions, TickUnits, RingBearerDetected, WinnerOf;
  }

  /** All that is left of a turn for a unit after combat: a respawning one comes one
      turn nearer to its return, or is back, whole, at home and not under way; a
      cooldown runs down by one. */
  lemma StepEleven(r: Rules, n: Node, id: string)
    requires ClockInv(n) && !Over(n) && id in NextStages(r, n).front8.units
    ensures id in Advance(r, n).cache.units
    ensures var cfg, u, v := UnitCfg(r.g, id), NextStages(r, n).front8.units[id], Advance(r, n).cache.units[id];
            && v.cooldown == (if u.cooldown > 0 then u.cooldown - 1 else u.cooldown)
            && if u.status != Respawning then v == u.(cooldown := v.cooldown)
               else if u.respawnTurns > 1 then v == u.(cooldown := v.cooldown, respawnTurns := u.respawnTurns - 1)
               else v == u.(cooldown := v.cooldown, respawnTurns := 0, status := Active, strength := cfg.strength,
                            region := cfg.startRegion, travelPath := "", travelLeft := 0)
  {
    UnitsAfterAdvance(r, n);
    var s := NextStages(r, n);
    assert s.units11 == TickUnits(r.g, s.front8.units);
    hide NextStages, Advance;
  }

  lemma ConfiguredStrength(r: Rules, id: string)
    requires Playable(r) && id in r.g.units
    ensures UnitCfg(r.g, id).strength >= 1
  {}

  lemma UnitsOkNext(r: Rules, w: World, a: Action)
    requires Playable(r) && BasicInv(r, w) && UnitsOk(r.g, w.node.cache.units)
    ensures UnitsOk(r.g, Next(r, w, a).node.cache.units)
  {
    hide Playable, Advance, Buffer, Admit, UnitOk, LogInv, StagesOf, Represents;
    match a {
      case Submit(raw) =>
      case Deliver(i) =>
        if i < |w.validated| { ClockAfterBuffer(w.node, w.validated[i]); }
      case EndOfTurn =>
        ClockAfterAdvance(r, w.node);
        if !Over(w.node) {
          UnitsAfterAdvance(r, w.node);
          KeysOfStages(r, BoardOf(w.node), w.node.pending, w.node.currentTurn);
          forall id | id in w.node.cache.units ensures UnitOk(UnitCfg(r.g, id), NextStages(r, w.node).units11[id]) {
            ConfiguredStrength(r, id);
            UnitThroughTurn(r, BoardOf(w.node), w.node.pending, w.node.currentTurn, id);
          }
        }
    }
  }

  // ----- theorems about every game -------------------------------------------

  lemma {:induction false} UnitInvariant(r: Rules, ringBearerId: string, actions: seq<Action>)
    requires Playable(r)
    ensures UnitsOk(r.g, Game(r, ringBearerId, actions).node.cache.units)
  {
    if actions != [] {
      var init, last := actions[..|actions| - 1], actions[|actions| - 1];
      UnitInvariant(r, ringBearerId, init);
      BasicInvHolds(r, ringBearerId, init);
      UnitsOkNext(r, Game(r, ringBearerId, init), last);
    }
  }

  /** The state of a unit between turns. */
  ghost function UnitIn(r: Rules, ringBearerId: string, actions: seq<Action>, id: string): Unit {
    UnitAt(Game(r, ringBearerId, actions).node.cache.units, id)
  }

  lemma OneTurnOnUnit(r: Rules, ringBearerId: string, actions: seq<Action>, a: Action, id: string)
    requires Playable(r) && id in r.g.units
    ensures var w, w' := Game(r, ringBearerId, actions), Game(r, ringBearerId, actions + [a]);
            var u, v := UnitIn(r, ringBearerId, actions, id), UnitIn(r, ringBearerId, actions + [a], id);
            if a == EndOfTurn && !Over(w.node)
            then TurnsInto(UnitCfg(r.g, id), u, v) && w'.node.cache.turn == w.node.cache.turn + 1
            else u == v && w'.node.cache.turn == w.node.cache.turn
  {
    hide Playable, Game, Advance, Buffer, Admit, TurnsInto, LogInv, Known, StagesOf;
    var w := Game(r, ringBearerId, actions);
    OneMoreAction(r, ringBearerId, actions, a);
    BasicInvHolds(r, ringBearerId, actions);
    UnitInvariant(r, ringBearerId, actions);
    match a {
      case Submit(raw) =>
      case Deliver(i) =>
        if i < |w.validated| { ClockAfterBuffer(w.node, w.validated[i]); }
      case EndOfTurn =>
        ClockAfterAdvance(r, w.node);
        if !Over(w.node) {
          UnitsAfterAdvance(r, w.node);
          ConfiguredStrength(r, id);
          UnitThroughTurn(r, BoardOf(w.node), w.node.pending, w.node.currentTurn, id);
        }
    }
  }

  /** A destroyed unit stays destroyed for the rest of every game. */
  lemma {:induction false} DestroyedForGood(
      r: Rules, ringBearerId: string, actions: seq<Action>, more: seq<Action>, id: string)
    requires Playable(r) && id in r.g.units
    requires UnitIn(r, ringBearerId, actions, id).status == Destroyed
    ensures UnitIn(r, ringBearerId, actions + more, id).status == Destroyed
  {
    hide Playable;
    if more == [] {
      assert actions + more == actions;
    } else {
      var init, last := more[..|more| - 1], more[|more| - 1];
      assert actions + more == (actions + init) + [last];
      DestroyedForGood(r, ringBearerId, actions, init, id);
      hide UnitIn, Game;
      OneTurnOnUnit(r, ringBearerId, actions + init, last, id);
    }
  }

  /** The countdown of a respawning unit follows the clock, whatever is ordered:
      k turns after it shows k the unit is back, whole and at home. */
  lemma {:induction false} RespawnSchedule(
      r: Rules, ringBearerId: string, actions: seq<Action>, more: seq<Action>, id: string)
    requires Playable(r) && id in r.g.units
    requires UnitIn(r, ringBearerId, actions, id).status == Respawning
        && UnitIn(r, ringBearerId, actions, id).respawnTurns >= 1
    ensures var k := UnitIn(r, ringBearerId, actions, id).respawnTurns;
            var t := Game(r, ringBearerId, actions + more).node.cache.turn
                     - Game(r, ringBearerId, actions).node.cache.turn;
            var u := UnitIn(r, ringBearerId, actions + more, id);
            && t >= 0
            && (t < k ==> u.status == Respawning && u.respawnTurns == k - t)
            && (t == k ==> ReturnedHome(UnitCfg(r.g, id), u))
  {
    hide Playable;
    if more == [] {
      assert actions + more == actions;
    } else {
      var init, last := more[..|more| - 1], more[|more| - 1];
      assert actions + more == (actions + init) + [last];
      RespawnSchedule(r, ringBearerId, actions, init, id);
      hide UnitIn, Game;
      OneTurnOnUnit(r, ringBearerId, actions + init, last, id);
    }
  }

  /** A unit that may return and falls in the turn being played is away at the end
      of that turn with one turn less than configured, or back already. */
  lemma FelledUnit(r: Rules, ringBearerId: string, actions: seq<Action>, id: string)
    requires Playable(r) && id in r.g.units && !Over(Game(r, ringBearerId, actions).node)
    requires UnitIn(r, ringBearerId, actions, id).status == Active
    requires UnitAt(NextStages(r, Game(r, ringBearerId, actions).node).front8.units, id).status == Respawning
    ensures var k := UnitCfg(r.g, id).respawnTurns;
            var u := UnitIn(r, ringBearerId, actions + [EndOfTurn], id);
            && UnitCfg(r.g, id).respawns
            && if k > 1 then u.status == Respawning && u.respawnTurns == k - 1 else ReturnedHome(UnitCfg(r.g, id), u)
  {
    hide Playable, Game, StagesOf, Advance, LogInv, PendingInv, Known, UnitOk, TurnsInto, ReturnedHome;
    var w := Game(r, ringBearerId, actions);
    OneMoreAction(r, ringBearerId, actions, EndOfTurn);
    BasicInvHolds(r, ringBearerId, actions);
    UnitInvariant(r, ringBearerId, actions);
    assert w.node.cache.units.Keys == r.g.units.Keys;
    UnitsAfterAdvance(r, w.node);
    ConfiguredStrength(r, id);
    UnitThroughTurn(r, BoardOf(w.node), w.node.pending, w.node.currentTurn, id);
  }
}
