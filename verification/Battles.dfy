/** What attacks do: one attack by itself, and the control of regions over games. */
module Battles {
  import opened Config
  import opened State
  import opened Combat
  import opened Steps
  import opened Turn
  import opened Ingest
  import opened Processor
  import opened Runs
  import opened PathMachine
  import opened OrderEffects
  import opened Timers

  // ----- one attack ----------------------------------------------------------

  /** The active units of the attacker's side that stand where he does. */
  function Attackers(g: GameConfig, units: Units, o: Order): set<string>
    requires o.unit in units
  {
    set x | x in units && units[x].status == Active && units[x].region == units[o.unit].region
            && UnitCfg(g, x).side == UnitCfg(g, o.unit).side
  }

  /** The active units of the other side that stand in the region attacked. */
  function Defenders(g: GameConfig, units: Units, o: Order): set<string> {
    set x | x in units && units[x].status == Active && units[x].region == o.targetRegion
            && UnitCfg(g, x).side != UnitCfg(g, o.unit).side
  }

  /** What the ground and the walls are worth to the defenders: the ground nothing if
      anybody among the attackers ignores it, the walls always. */
  function GroundAndWalls(g: GameConfig, m: MapConfig, f: Front, o: Order): int
    requires o.unit in f.units && o.targetRegion in f.regions
  {
    var terrain := RegionCfg(m, o.targetRegion).terrain;
    (if exists x :: x in Attackers(g, f.units, o) && UnitCfg(g, x).ignoresFortress then 0
     else if terrain == Fortress then 2 else if terrain == Mountains then 1 else 0)
    + if f.regions[o.targetRegion].fortified then 2 else 0
  }

  /** By how much the attackers are stronger. */
  ghost function Margin(g: GameConfig, m: MapConfig, f: Front, o: Order): int
    requires o.unit in f.units && o.targetRegion in f.regions
  {
    PowerOf(g, f.units, Attackers(g, f.units, o))
    - PowerOf(g, f.units, Defenders(g, f.units, o)) - GroundAndWalls(g, m, f, o)
  }

  /** The margin in terms of what the code adds up, for all lists of the two armies. */
  lemma MarginByLists(
      g: GameConfig, m: MapConfig, f: Front, o: Order,
      attackers: seq<Unit>, attackerCfgs: seq<UnitConfig>, defenders: seq<Unit>, defenderCfgs: seq<UnitConfig>)
    requires Known(g, f.units) && o.unit in f.units && o.targetRegion in f.regions
    requires Enumerates(g, f.units, Attackers(g, f.units, o), attackers, attackerCfgs)
    requires Enumerates(g, f.units, Defenders(g, f.units, o), defenders, defenderCfgs)
    ensures Margin(g, m, f, o)
         == ListPower(attackers, attackerCfgs, attackers, attackerCfgs)
            - ListPower(defenders, defenderCfgs, defenders, defenderCfgs) - GroundAndWalls(g, m, f, o)
  {
    var side := UnitCfg(g, o.unit).side;
    hide ListPower, PowerOf, GroundAndWalls, DistinctIds;
    forall c | c in attackerCfgs ensures c.side == side {
      var i :| 0 <= i < |attackerCfgs| && attackerCfgs[i] == c;
      assert attackers[i].id in Attackers(g, f.units, o);
    }
    forall c | c in defenderCfgs ensures c.side == Opponent(side) {
      var i :| 0 <= i < |defenderCfgs| && defenderCfgs[i] == c;
      assert defenders[i].id in Defenders(g, f.units, o);
    }
    hide Enumerates, Attackers, Defenders, Known;
    PowerOfEnumeration(g, f.units, Attackers(g, f.units, o), attackers, attackerCfgs, side);
    PowerOfEnumeration(g, f.units, Defenders(g, f.units, o), defenders, defenderCfgs, Opponent(side));
  }

  /** v is u after the loss: indestructible units keep at least strength 1, others
      fall when nothing is left, for good or to come back. */
  predicate Lost(cfg: UnitConfig, loss: int, u: Unit, v: Unit) {
    var left := u.strength - loss;
    if cfg.indestructible then v == u.(strength := if left >= 1 then left else 1)
    else if left >= 1 then v == u.(strength := left)
    else if cfg.respawns
    then v == u.(strength := 0, status := Respawning, respawnTurns := cfg.respawnTurns, region := "")
    else v == u.(strength := 0, status := Destroyed)
  }

  /** All that one attack does. It is won exactly if the attackers are stronger. Then
      their side controls the region, all of them stand in it, and the defenders have
      lost the margin; otherwise the attackers have lost 1. Nobody else is touched, no
      other region, and only the fall of Isengard to the Free Peoples disables Maias. */
  lemma OneAttack(g: GameConfig, m: MapConfig, f: Front, o: Order)
    requires Known(g, f.units) && o.kind == AttackRegion && o.unit in f.units && o.targetRegion in f.regions
    ensures var after, side := AttackOrder(g, m, f, o), UnitCfg(g, o.unit).side;
            var margin := Margin(g, m, f, o);
            var won := margin > 0;
            && after.units.Keys == f.units.Keys && after.regions.Keys == f.regions.Keys
            && (forall x | x in f.units ::
                  var u, v := f.units[x], after.units[x];
                  if won && x in Attackers(g, f.units, o)
                  then v == u.(region := o.targetRegion, travelPath := "", travelLeft := 0)
                  else if won && x in Defenders(g, f.units, o) then Lost(UnitCfg(g, x), margin, u, v)
                  else if !won && x in Attackers(g, f.units, o) then Lost(UnitCfg(g, x), 1, u, v)
                  else v == u)
            && (forall id | id in f.regions ::
                  after.regions[id]
                  == if won && id == o.targetRegion then f.regions[id].(controlledBy := side) else f.regions[id])
            && after.disabled
               == if won && o.targetRegion == "isengard" && side == FreePeoples
                  then f.disabled + set x | x in g.units && g.units[x].maia && g.units[x].maiaAbilityPaths != []
                  else f.disabled
  {
    hide AttackOrder, Attackers, Defenders, Margin, Lost, Known;
    forall x | x in f.units {
      UnitInAttack(g, m, f, o, x);
    }
    RegionsInAttack(g, m, f, o);
  }

  lemma UnitInAttack(g: GameConfig, m: MapConfig, f: Front, o: Order, x: string)
    requires o.kind == AttackRegion && o.unit in f.units && o.targetRegion in f.regions && x in f.units
    ensures x in AttackOrder(g, m, f, o).units
    ensures var u, v, margin := f.units[x], AttackOrder(g, m, f, o).units[x], Margin(g, m, f, o);
            if margin > 0 && x in Attackers(g, f.units, o)
            then v == u.(region := o.targetRegion, travelPath := "", travelLeft := 0)
            else if margin > 0 && x in Defenders(g, f.units, o) then Lost(UnitCfg(g, x), margin, u, v)
            else if margin <= 0 && x in Attackers(g, f.units, o) then Lost(UnitCfg(g, x), 1, u, v)
            else v == u
  {
    BattleIs(g, m, f, o);
    var b := BattleOf(g, m, f.units, f.regions[o.targetRegion], o);
    hide BattleOf, Attackers, Defenders, Margin;
    assert AttackOrder(g, m, f, o).units[x] == AfterBattle(g, b, o.targetRegion, x, f.units[x]);
    hide AttackOrder;
    UnitInBattle(g, b, o.targetRegion, x, f.units[x]);
    hide AfterBattle, Lost;
  }

  lemma RegionsInAttack(g: GameConfig, m: MapConfig, f: Front, o: Order)
    requires o.kind == AttackRegion && o.unit in f.units && o.targetRegion in f.regions
    ensures var after, side := AttackOrder(g, m, f, o), UnitCfg(g, o.unit).side;
            var won := Margin(g, m, f, o) > 0;
            && after.units.Keys == f.units.Keys && after.regions.Keys == f.regions.Keys
            && (forall id | id in f.regions ::
                  after.regions[id]
                  == if won && id == o.targetRegion then f.regions[id].(controlledBy := side) else f.regions[id])
            && after.disabled
               == if won && o.targetRegion == "isengard" && side == FreePeoples
                  then f.disabled + set x | x in g.units && g.units[x].maia && g.units[x].maiaAbilityPaths != []
                  else f.disabled
  {
    BattleIs(g, m, f, o);
    MaiasWithPaths(g);
    hide BattleOf, AfterBattle, Margin, CorruptPathMaias;
  }

  lemma MaiasWithPaths(g: GameConfig)
    ensures CorruptPathMaias(g) == set x | x in g.units && g.units[x].maia && g.units[x].maiaAbilityPaths != []
  {}

  lemma BattleIs(g: GameConfig, m: MapConfig, f: Front, o: Order)
    requires o.unit in f.units && o.targetRegion in f.regions
    ensures var b := BattleOf(g, m, f.units, f.regions[o.targetRegion], o);
            && b.side == UnitCfg(g, o.unit).side
            && b.attackers == Attackers(g, f.units, o) && b.defenders == Defenders(g, f.units, o)
            && b.attack - b.defence == Margin(g, m, f, o)
            && (forall x | x in b.attackers + b.defenders :: x in f.units && f.units[x].status == Active)
  {
    hide PowerOf;
  }

  lemma UnitInBattle(g: GameConfig, b: Battle, target: string, x: string, u: Unit)
    requires x in b.attackers + b.defenders ==> u.status == Active
    ensures var v := AfterBattle(g, b, target, x, u);
            if b.Won() && x in b.attackers then v == u.(region := target, travelPath := "", travelLeft := 0)
            else if b.Won() && x in b.defenders then Lost(UnitCfg(g, x), b.attack - b.defence, u, v)
            else if !b.Won() && x in b.attackers then Lost(UnitCfg(g, x), 1, u, v)
            else v == u
  {}

  // ----- control over games --------------------------------------------------

  /** The order is an attack on the region, and wins. */
  ghost predicate TakesRegion(g: GameConfig, m: MapConfig, f: Front, o: Order, region: string) {
    && o.kind == AttackRegion && o.targetRegion == region
    && o.unit in f.units && region in f.regions && Margin(g, m, f, o) > 0
  }

  ghost predicate Captures(g: GameConfig, m: MapConfig, f: Front, orders: seq<Order>, region: string, i: nat) {
    i < |orders| && TakesRegion(g, m, AttackOrders(g, m, f, orders[..i]), orders[i], region)
  }

  /** The i-th order is the last to take the region. */
  ghost predicate CapturesLast(g: GameConfig, m: MapConfig, f: Front, orders: seq<Order>, region: string, i: nat) {
    && Captures(g, m, f, orders, region, i)
    && forall j: nat | i < j < |orders| :: !Captures(g, m, f, orders, region, j)
  }

  ghost predicate SomeCapture(
      g: GameConfig, m: MapConfig, f: Front, orders: seq<Order>, region: string, side: Faction)
  {
    exists i: nat :: i < |orders| && Captures(g, m, f, orders, region, i) && UnitCfg(g, orders[i].unit).side == side
  }

  lemma CapturesInPrefix(
      g: GameConfig, m: MapConfig, f: Front, init: seq<Order>, last: Order, region: string, i: nat)
    ensures Captures(g, m, f, init + [last], region, i) <==>
              if i < |init| then Captures(g, m, f, init, region, i)
              else i == |init| && TakesRegion(g, m, AttackOrders(g, m, f, init), last, region)
    ensures Captures(g, m, f, init, region, i) ==> i < |init|
  {
    hide TakesRegion, AttackOrders;
    if i < |init| { assert (init + [last])[..i] == init[..i]; }
    assert (init + [last])[..|init|] == init;
  }

  lemma ControlOfOne(g: GameConfig, m: MapConfig, f: Front, o: Order, region: string)
    requires Known(g, f.units) && o.unit in f.units && region in f.regions
    ensures var after := AttackOrder(g, m, f, o);
            && Known(g, after.units) && after.units.Keys == f.units.Keys && after.regions.Keys == f.regions.Keys
            && after.regions[region].controlledBy
               == (if TakesRegion(g, m, f, o, region) then UnitCfg(g, o.unit).side else f.regions[region].controlledBy)
            && after.disabled
               == if TakesRegion(g, m, f, o, ISENGARD) && UnitCfg(g, o.unit).side == FreePeoples
                  then f.disabled + CorruptPathMaias(g) else f.disabled
  {
    hide Margin, CorruptPathMaias, BattleOf, AfterBattle, Lost;
    if o.kind == AttackRegion && o.targetRegion in f.regions {
      BattleIs(g, m, f, o);
      KnownAfterAttack(g, BattleOf(g, m, f.units, f.regions[o.targetRegion], o), o.targetRegion, f.units);
    }
  }

  /** The region is in the hands of whoever took it last, or of whoever had it before. */
  ghost predicate HeldBy(g: GameConfig, m: MapConfig, f: Front, orders: seq<Order>, region: string, holder: Faction)
    requires region in f.regions
  {
    && (forall i: nat | CapturesLast(g, m, f, orders, region, i) ::
          i < |orders| && holder == UnitCfg(g, orders[i].unit).side)
    && ((forall i: nat :: !Captures(g, m, f, orders, region, i)) ==> holder == f.regions[region].controlledBy)
  }

  lemma HeldAfterOneMore(
      g: GameConfig, m: MapConfig, f: Front, init: seq<Order>, last: Order, region: string, holder: Faction)
    requires region in f.regions && HeldBy(g, m, f, init, region, holder)
    ensures var taken := TakesRegion(g, m, AttackOrders(g, m, f, init), last, region);
            HeldBy(g, m, f, init + [last], region, if taken then UnitCfg(g, last.unit).side else holder)
  {
    hide Captures, TakesRegion, AttackOrders;
    var all := init + [last];
    CapturesInPrefix(g, m, f, init, last, region, |init|);
    if TakesRegion(g, m, AttackOrders(g, m, f, init), last, region) {
      forall i: nat | CapturesLast(g, m, f, all, region, i) ensures i == |init| {
        CapturesInPrefix(g, m, f, init, last, region, i);
      }
    } else {
      forall i: nat | CapturesLast(g, m, f, all, region, i)
        ensures i < |init| && CapturesLast(g, m, f, init, region, i)
      {
        CapturesInPrefix(g, m, f, init, last, region, i);
        forall j: nat | i < j < |init| ensures !Captures(g, m, f, init, region, j) {
          CapturesInPrefix(g, m, f, init, last, region, j);
        }
      }
      forall i: nat | Captures(g, m, f, init, region, i) ensures Captures(g, m, f, all, region, i) {
        CapturesInPrefix(g, m, f, init, last, region, i);
      }
    }
  }

  lemma SomeCaptureOneMore(
      g: GameConfig, m: MapConfig, f: Front, init: seq<Order>, last: Order, region: string, side: Faction)
    ensures SomeCapture(g, m, f, init + [last], region, side) <==>
              || SomeCapture(g, m, f, init, region, side)
              || (TakesRegion(g, m, AttackOrders(g, m, f, init), last, region) && UnitCfg(g, last.unit).side == side)
  {
    hide Captures, TakesRegion, AttackOrders;
    var all := init + [last];
    CapturesInPrefix(g, m, f, init, last, region, |init|);
    if i: nat :| i < |init| && Captures(g, m, f, init, region, i) && UnitCfg(g, init[i].unit).side == side {
      CapturesInPrefix(g, m, f, init, last, region, i);
      assert Captures(g, m, f, all, region, i) && all[i] == init[i];
    }
    if i: nat :| i < |all| && Captures(g, m, f, all, region, i) && UnitCfg(g, all[i].unit).side == side {
      CapturesInPrefix(g, m, f, init, last, region, i);
      assert i < |init| ==> all[i] == init[i];
    }
  }

  lemma {:induction false} ControlAfterAttacks(
      g: GameConfig, m: MapConfig, f: Front, orders: seq<Order>, region: string)
    requires Known(g, f.units) && region in f.regions
    requires forall o | o in orders :: o.unit in f.units
    ensures var after := AttackOrders(g, m, f, orders);
            && Known(g, after.units) && after.units.Keys == f.units.Keys && after.regions.Keys == f.regions.Keys
            && HeldBy(g, m, f, orders, region, after.regions[region].controlledBy)
            && after.disabled
               == if SomeCapture(g, m, f, orders, ISENGARD, FreePeoples) then f.disabled + CorruptPathMaias(g)
                  else f.disabled
  {
    hide Known, AttackOrder, TakesRegion, CorruptPathMaias;
    if orders != [] {
      hide HeldBy, SomeCapture;
      var init, last := orders[..|orders| - 1], orders[|orders| - 1];
      assert orders == init + [last] && last in orders;
      ControlAfterAttacks(g, m, f, init, region);
      var mid := AttackOrders(g, m, f, init);
      ControlOfOne(g, m, mid, last, region);
      HeldAfterOneMore(g, m, f, init, last, region, mid.regions[region].controlledBy);
      SomeCaptureOneMore(g, m, f, init, last, ISENGARD, FreePeoples);
    }
  }

  // ----- control over games --------------------------------------------------

  /** What combat finds in a turn. */
  ghost function BeforeCombat(r: Rules, n: Node): Front {
    var s := NextStages(r, n);
    Front(s.units7, s.regions5, n.disabled)
  }

  lemma CombatStages(r: Rules, n: Node)
    ensures var s := NextStages(r, n);
            && s.regions5 == FortifyOrders(r.g, s.units4, n.cache.regions, n.pending)
            && s.front8 == AttackOrders(r.g, r.m, BeforeCombat(r, n), n.pending)
            && s.regions10 == TickRegions(s.front8.regions)
  {
    hide RouteOrders, BlockAndSearch, MoveOrders, FortifyOrders, MaiaOrders, AttackOrders, AdvanceUnits,
      AdvanceRingBearer, TickPaths, TickRegions, TickUnits;
  }

  /** In every turn of every game: a region changes hands by attacks alone. After the
      turn it belongs to the side that took it last, if any did; and the Maias with a
      list of paths are disabled exactly if the Free Peoples took Isengard. */
  lemma ControlInGames(r: Rules, ringBearerId: string, actions: seq<Action>, region: string)
    requires Playable(r) && region in r.m.regions && !Over(Game(r, ringBearerId, actions).node)
    ensures var n := Game(r, ringBearerId, actions).node;
            var after, f := Advance(r, n), BeforeCombat(r, n);
            && region in n.cache.regions && region in after.cache.regions && region in f.regions
            && f.regions[region].controlledBy == n.cache.regions[region].controlledBy
            && HeldBy(r.g, r.m, f, n.pending, region, after.cache.regions[region].controlledBy)
            && after.disabled
               == if SomeCapture(r.g, r.m, f, n.pending, ISENGARD, FreePeoples) then n.disabled + CorruptPathMaias(r.g)
                  else n.disabled
  {
    var w := Game(r, ringBearerId, actions);
    var n, s := w.node, NextStages(r, w.node);
    hide Playable, Game, StagesOf, Advance, FortifyOrders, AttackOrders, HeldBy, SomeCapture, Known, CorruptPathMaias;
    hide ClockInv, PendingInv, LogInv;
    BasicInvHolds(r, ringBearerId, actions);
    RegionInvariant(r, ringBearerId, actions);
    BoardAfterAdvance(r, n);
    PendingIsKnown(r, w);
    KnownThroughStages(r, BoardOf(n), n.pending, n.currentTurn);
    KeysOfStages(r, BoardOf(n), n.pending, n.currentTurn);
    CombatStages(r, n);
    hide BasicInv;
    FortifyKeepsControl(r.g, s.units4, n.cache.regions, n.pending, region);
    ControlAfterAttacks(r.g, r.m, Front(s.units7, s.regions5, n.disabled), n.pending, region);
  }

  // ----- every region can fall -----------------------------------------------

  /** Alone, an attack order meets everybody where he is before the turn. */
  lemma LoneAttack(r: Rules, n: Node, o: Order)
    requires n.pending == [o] && o.kind == AttackRegion
    requires forall id | id in n.cache.units :: n.cache.units[id].route == []
    ensures BeforeCombat(r, n) == Front(n.cache.units, n.cache.regions, n.disabled)
  {
    var s := NextStages(r, n);
    var units := n.cache.units;
    assert [o][..0] == [];
    assert RouteOrders(r.g, units, n.rb, [o]) == RouteOrder(r.g, units, n.rb, o);
    assert s.units2 == units;
    assert MoveOrders(r.g, r.adj, units, [o]) == MoveOrder(r.g, r.adj, units, o);
    assert FortifyOrders(r.g, units, n.cache.regions, [o]) == FortifyOrder(r.g, units, n.cache.regions, o);
    assert MaiaOrders(r.g, r.m, units, s.paths3, n.disabled, [o])
        == MaiaOrder(r.g, r.m, units, s.paths3, n.disabled, o);
    hide RouteOrders, BlockAndSearch, MoveOrders, FortifyOrders, MaiaOrders, AttackOrders, AdvanceRingBearer,
      TickPaths, TickRegions, TickUnits;
    assert AdvanceUnits(r.m, s.paths6, units) == units;
  }

  /** The attack is submitted, delivered and carried out in the first turn. */
  function Strike(raw: RawOrder): seq<Action> {
    [Submit(raw), Deliver(0), EndOfTurn]
  }

  lemma BeforeStrike(r: Rules, ringBearerId: string, raw: RawOrder)
    requires Validate(r, Start(r.g, r.m, ringBearerId).node.cache, raw) == Accepted
    ensures Game(r, ringBearerId, [Submit(raw), Deliver(0)]).node
         == Start(r.g, r.m, ringBearerId).node.(pending := [Parsed(raw)])
    ensures raw.unit in Start(r.g, r.m, ringBearerId).node.cache.units
  {
    assert [] + [Submit(raw)] == [Submit(raw)];
    assert [Submit(raw)] + [Deliver(0)] == [Submit(raw), Deliver(0)];
    assert Game(r, ringBearerId, []) == Start(r.g, r.m, ringBearerId);
    OneMoreAction(r, ringBearerId, [], Submit(raw));
    OneMoreAction(r, ringBearerId, [Submit(raw)], Deliver(0));
    AcceptedIsForThisTurn(r, Start(r.g, r.m, ringBearerId).node.cache, raw);
    hide Game, Validate;
  }

  lemma AtStart(r: Rules, ringBearerId: string, target: string)
    requires target in r.m.regions
    ensures var n := Start(r.g, r.m, ringBearerId).node;
            && !Over(n) && n.disabled == {} && (forall id | id in n.cache.units :: n.cache.units[id].route == [])
            && target in n.cache.regions && n.cache.regions[target].controlledBy == r.m.regions[target].startControl
  {}

  /** From the start any accepted attack takes its region exactly if the attackers are
      stronger; so Isengard falls, and its Maias with it, wherever the Free Peoples
      begin beside it in strength. */
  lemma FirstStrike(r: Rules, ringBearerId: string, raw: RawOrder)
    requires Playable(r) && raw.kind == AttackRegion
    requires Validate(r, Start(r.g, r.m, ringBearerId).node.cache, raw) == Accepted
    requires raw.targetRegion in r.m.regions
    ensures var cache, after := Start(r.g, r.m, ringBearerId).node.cache, Game(r, ringBearerId, Strike(raw)).node;
            var target, side := raw.targetRegion, UnitCfg(r.g, raw.unit).side;
            && raw.unit in cache.units && target in cache.regions && target in after.cache.regions
            && var won := Margin(r.g, r.m, Front(cache.units, cache.regions, {}), Parsed(raw)) > 0;
               && after.cache.regions[target].controlledBy
                  == (if won then side else r.m.regions[target].startControl)
               && after.disabled
                  == if won && target == ISENGARD && side == FreePeoples then CorruptPathMaias(r.g) else {}
  {
    hide Playable, Game, Start, Validate, Advance, BeforeCombat, NextStages, Margin, HeldBy, SomeCapture,
      TakesRegion, CorruptPathMaias;
    var actions := [Submit(raw), Deliver(0)];
    BeforeStrike(r, ringBearerId, raw);
    AtStart(r, ringBearerId, raw.targetRegion);
    ControlInGames(r, ringBearerId, actions, raw.targetRegion);
    assert actions + [EndOfTurn] == Strike(raw);
    OneMoreAction(r, ringBearerId, actions, EndOfTurn);
    OutcomeOfLoneAttack(r, Game(r, ringBearerId, actions).node, Parsed(raw), raw.targetRegion,
      Game(r, ringBearerId, Strike(raw)).node.cache.regions[raw.targetRegion].controlledBy);
  }

  lemma OutcomeOfLoneAttack(r: Rules, n: Node, o: Order, region: string, holder: Faction)
    requires n.pending == [o] && o.kind == AttackRegion && o.targetRegion == region
    requires forall id | id in n.cache.units :: n.cache.units[id].route == []
    requires o.unit in n.cache.units && region in n.cache.regions && region in BeforeCombat(r, n).regions
    requires HeldBy(r.g, r.m, BeforeCombat(r, n), n.pending, region, holder)
    ensures var won := Margin(r.g, r.m, Front(n.cache.units, n.cache.regions, n.disabled), o) > 0;
            && holder == (if won then UnitCfg(r.g, o.unit).side else n.cache.regions[region].controlledBy)
            && (SomeCapture(r.g, r.m, BeforeCombat(r, n), n.pending, ISENGARD, FreePeoples) <==>
                  won && region == ISENGARD && UnitCfg(r.g, o.unit).side == FreePeoples)
  {
    hide BeforeCombat, NextStages, Margin, HeldBy, SomeCapture;
    LoneAttack(r, n, o);
    HeldAfterOne(r.g, r.m, BeforeCombat(r, n), o, region, holder);
    SomeCaptureByOne(r.g, r.m, BeforeCombat(r, n), o);
  }

  lemma HeldAfterOne(g: GameConfig, m: MapConfig, f: Front, o: Order, region: string, holder: Faction)
    requires region in f.regions && HeldBy(g, m, f, [o], region, holder)
    ensures holder
         == if TakesRegion(g, m, f, o, region) then UnitCfg(g, o.unit).side else f.regions[region].controlledBy
  {
    assert [o][..0] == [];
    hide TakesRegion;
    assert Captures(g, m, f, [o], region, 0) <==> TakesRegion(g, m, f, o, region);
    assert TakesRegion(g, m, f, o, region) ==> CapturesLast(g, m, f, [o], region, 0);
  }

  lemma SomeCaptureByOne(g: GameConfig, m: MapConfig, f: Front, o: Order)
    ensures SomeCapture(g, m, f, [o], ISENGARD, FreePeoples) <==>
              TakesRegion(g, m, f, o, ISENGARD) && UnitCfg(g, o.unit).side == FreePeoples
  {
    assert [o][..0] == [];
    hide TakesRegion;
    assert Captures(g, m, f, [o], ISENGARD, 0) <==> TakesRegion(g, m, f, o, ISENGARD);
  }
}
