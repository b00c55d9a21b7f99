/** What the orders that wait for a turn do in it, order by order, in every game:
    routes, moves, fortifications and abilities. Each unit has one order, so the
    outcome is the same wherever in the list that order stands. */
module OrderEffects {
  import opened Walks
  import opened Config
  import opened State
  import opened Steps
  import opened Turn
  import opened Ingest
  import opened Processor
  import opened Runs
  import opened PathMachine

  // ----- one unit and its order ----------------------------------------------

  predicate HasNoOrder(orders: seq<Order>, id: string) {
    forall o | o in orders :: o.unit != id
  }

  lemma {:induction false} RoutesOnUnit(
      g: GameConfig, units: Units, rb: RingBearerState, orders: seq<Order>, id: string)
    requires OneOrderPerUnit(orders) && id in units
    ensures id in RouteOrders(g, units, rb, orders).0
    ensures var u, v := units[id], RouteOrders(g, units, rb, orders).0[id];
            && (HasNoOrder(orders, id) ==> v == u)
            && (forall o | o in orders && o.unit == id ::
                  v == if (o.kind == AssignRoute || o.kind == RedirectUnit) && u.status == Active
                       then u.(route := o.pathIds, routeIdx := 0, travelPath := "", travelLeft := 0) else u)
  {
    if orders != [] {
      var init, last := orders[..|orders| - 1], orders[|orders| - 1];
      RoutesOnUnit(g, units, rb, init, id);
      LastOrder(orders, id);
    }
  }

  lemma LastOrder(orders: seq<Order>, id: string)
    requires OneOrderPerUnit(orders) && orders != []
    ensures var init, last := orders[..|orders| - 1], orders[|orders| - 1];
            && last in orders && OneOrderPerUnit(init)
            && (last.unit == id ==> HasNoOrder(init, id))
            && (HasNoOrder(orders, id) <==> HasNoOrder(init, id) && last.unit != id)
            && (forall o :: o in orders <==> o in init || o == last)
  {
    var init, last := orders[..|orders| - 1], orders[|orders| - 1];
    assert orders == init + [last];
    forall o | o in init ensures o.unit != last.unit {
      var i :| 0 <= i < |init| && init[i] == o;
      assert orders[i].unit != orders[|orders| - 1].unit;
    }
  }

  /** A move that takes place: to a region an edge leads to, or, for a unit that
      detects, anywhere. */
  predicate Moves(g: GameConfig, adj: Adjacency, u: Unit, o: Order) {
    || (o.kind == ReinforceRegion && exists e :: e in EdgesFrom(adj, u.region) && e.to == o.targetRegion)
    || (o.kind == DeployNazgul && UnitCfg(g, o.unit).detectionRange > 0)
  }

  lemma {:induction false} MovesOnUnit(g: GameConfig, adj: Adjacency, units: Units, orders: seq<Order>, id: string)
    requires OneOrderPerUnit(orders) && id in units
    ensures id in MoveOrders(g, adj, units, orders)
    ensures var u, v := units[id], MoveOrders(g, adj, units, orders)[id];
            && (HasNoOrder(orders, id) ==> v == u)
            && (forall o | o in orders && o.unit == id ::
                  v == if Moves(g, adj, u, o)
                       then u.(region := o.targetRegion, travelPath := "", travelLeft := 0) else u)
  {
    if orders != [] {
      var init, last := orders[..|orders| - 1], orders[|orders| - 1];
      MovesOnUnit(g, adj, units, init, id);
      LastOrder(orders, id);
      hide HasNoOrder, OneOrderPerUnit;
    }
  }

  lemma StagesUpToFour(r: Rules, n: Node)
    ensures var s := NextStages(r, n);
            && s.units2 == RouteOrders(r.g, n.cache.units, n.rb, n.pending).0
            && s.units4 == MoveOrders(r.g, r.adj, s.units2, n.pending)
  {
    hide RouteOrders, BlockAndSearch, MoveOrders, FortifyOrders, MaiaOrders, AttackOrders, AdvanceUnits,
      AdvanceRingBearer, TickPaths, TickRegions, TickUnits;
  }

  /** Steps 2 and 4 on a unit: without an order it stays as it was; with one it has
      a new route, or has moved, or stays as it was. */
  lemma UnitByItsOrder(r: Rules, n: Node, id: string)
    requires OneOrderPerUnit(n.pending) && id in n.cache.units
    ensures id in NextStages(r, n).units2 && id in NextStages(r, n).units4
    ensures var u, v := n.cache.units[id], NextStages(r, n).units4[id];
            && (HasNoOrder(n.pending, id) ==> v == u)
            && (forall o | o in n.pending && o.unit == id ::
                  v == if (o.kind == AssignRoute || o.kind == RedirectUnit) && u.status == Active
                       then u.(route := o.pathIds, routeIdx := 0, travelPath := "", travelLeft := 0)
                       else if Moves(r.g, r.adj, u, o)
                       then u.(region := o.targetRegion, travelPath := "", travelLeft := 0)
                       else u)
  {
    StagesUpToFour(r, n);
    var s := NextStages(r, n);
    hide NextStages, RouteOrders, MoveOrders, HasNoOrder, OneOrderPerUnit;
    RoutesOnUnit(r.g, n.cache.units, n.rb, n.pending, id);
    MovesOnUnit(r.g, r.adj, s.units2, n.pending, id);
  }

  // ----- fortifications ------------------------------------------------------

  /** An order fortifies the region: its unit is able to and stands there. */
  predicate Fortifies(g: GameConfig, units: Units, o: Order, region: string) {
    o.kind == FortifyRegion && UnitCfg(g, o.unit).canFortify && o.unit in units && units[o.unit].region == region
  }

  predicate FortifierWaits(r: Rules, n: Node, region: string) {
    exists o :: o in n.pending && Fortifies(r.g, n.cache.units, o, region)
  }

  lemma {:induction false} FortifiedByOrders(
      g: GameConfig, units: Units, regions: Regions, orders: seq<Order>, region: string)
    requires region in regions && forall o | o in orders :: o.unit in units
    ensures region in FortifyOrders(g, units, regions, orders)
    ensures FortifyOrders(g, units, regions, orders)[region]
         == if exists o :: o in orders && Fortifies(g, units, o, region)
            then regions[region].(fortified := true, fortifyTurns := 2) else regions[region]
  {
    if orders != [] {
      var init, last := orders[..|orders| - 1], orders[|orders| - 1];
      assert orders == init + [last] && last in orders;
      FortifiedByOrders(g, units, regions, init, region);
      if o :| o in init && Fortifies(g, units, o, region) { assert o in orders; }
    }
  }

  lemma PendingIsKnown(r: Rules, w: World)
    requires BasicInv(r, w)
    ensures forall o | o in w.node.pending :: o.unit in w.node.cache.units
  {
    hide Validate, ClockInv, Known, PendingInv;
    forall o | o in w.node.pending ensures o.unit in w.node.cache.units {
      assert AcceptedNow(r, w.node.cache, o) by { PendingIsOfThisTurn(w.node, o); }
      var raw :| Parsed(raw) == o && Validate(r, w.node.cache, raw) == Accepted;
      AcceptedIsForThisTurn(r, w.node.cache, raw);
    }
  }

  lemma PendingIsOfThisTurn(n: Node, o: Order)
    requires PendingInv(n) && o in n.pending
    ensures o.turn == n.cache.turn
  {}

  /** Step 5 on a region: freshly fortified for two turns exactly if somebody able
      to do so and standing there has the order, otherwise as it was. */
  lemma StepFive(r: Rules, w: World, region: string)
    requires BasicInv(r, w) && region in w.node.cache.regions
    ensures region in NextStages(r, w.node).regions5
    ensures var before := w.node.cache.regions[region];
            NextStages(r, w.node).regions5[region]
            == if FortifierWaits(r, w.node, region) then before.(fortified := true, fortifyTurns := 2) else before
  {
    var n := w.node;
    var s := NextStages(r, n);
    assert s.regions5 == FortifyOrders(r.g, s.units4, n.cache.regions, n.pending);
    PendingIsKnown(r, w);
    forall o | o in n.pending
      ensures o.unit in s.units4 && (Fortifies(r.g, s.units4, o, region) <==> Fortifies(r.g, n.cache.units, o, region))
    {
      hide NextStages, BasicInv;
      UnitByItsOrder(r, n, o.unit);
    }
    hide NextStages, BasicInv, FortifyOrders, Fortifies;
    FortifiedByOrders(r.g, s.units4, n.cache.regions, n.pending, region);
  }

  // ----- abilities -----------------------------------------------------------

  /** The order asks for an ability on the path, of a rested Maia at one of its ends. */
  predicate MaiaAt(g: GameConfig, m: MapConfig, units: Units, o: Order, id: string) {
    && o.kind == MaiaAbility && o.targetPath == id && UnitCfg(g, o.unit).maia
    && o.unit in units && units[o.unit].cooldown <= 0 && AtEndpoint(units[o.unit].region, PathCfg(m, id))
  }

  /** A Maia without a list of paths opens a path, one with a list corrupts a listed one. */
  predicate Opener(g: GameConfig, m: MapConfig, units: Units, o: Order, id: string) {
    MaiaAt(g, m, units, o, id) && UnitCfg(g, o.unit).maiaAbilityPaths == []
  }

  predicate Corrupter(g: GameConfig, m: MapConfig, units: Units, disabled: set<string>, o: Order, id: string) {
    MaiaAt(g, m, units, o, id) && id in UnitCfg(g, o.unit).maiaAbilityPaths && o.unit !in disabled
  }

  predicate SomeOpener(g: GameConfig, m: MapConfig, units: Units, orders: seq<Order>, id: string) {
    exists o :: o in orders && Opener(g, m, units, o, id)
  }

  /** Some order corrupts the path that is p before step 6: none can while it is
      open for a time, so not after an opener has had his turn on a blocked one. */
  predicate SomeCorrupter(
      g: GameConfig, m: MapConfig, units: Units, disabled: set<string>, orders: seq<Order>, id: string, p: Path)
  {
    exists i: nat :: i < |orders| && CorruptsAt(g, m, units, disabled, orders, id, p, i)
  }

  predicate CorruptsAt(
      g: GameConfig, m: MapConfig, units: Units, disabled: set<string>, orders: seq<Order>, id: string, p: Path, i: nat)
    requires i < |orders|
  {
    && Corrupter(g, m, units, disabled, orders[i], id)
    && p.status != TemporarilyOpen
    && !(p.status == Blocked && SomeOpener(g, m, units, orders[..i], id))
  }

  /** What step 6 makes of the path p. */
  function AfterAbilities(
      g: GameConfig, m: MapConfig, units: Units, disabled: set<string>, orders: seq<Order>, id: string, p: Path): Path
  {
    var isOpened := p.status == Blocked && SomeOpener(g, m, units, orders, id);
    p.(status := if isOpened then TemporarilyOpen else p.status,
       tempOpenTurns := if isOpened then 2 else p.tempOpenTurns,
       surveillance := if SomeCorrupter(g, m, units, disabled, orders, id, p) then 3 else p.surveillance)
  }

  lemma OneMoreMaia(
      g: GameConfig, m: MapConfig, units: Units, disabled: set<string>, init: seq<Order>, last: Order, id: string,
      p: Path)
    ensures SomeOpener(g, m, units, init + [last], id) <==>
              SomeOpener(g, m, units, init, id) || Opener(g, m, units, last, id)
    ensures SomeCorrupter(g, m, units, disabled, init + [last], id, p) <==>
              || SomeCorrupter(g, m, units, disabled, init, id, p)
              || ( && Corrupter(g, m, units, disabled, last, id) && p.status != TemporarilyOpen
                   && !(p.status == Blocked && SomeOpener(g, m, units, init, id)) )
  {
    hide Opener, Corrupter;
    var all := init + [last];
    assert last in all && all[..|init|] == init && all[|init|] == last;
    if o :| o in init && Opener(g, m, units, o, id) { assert o in all; }
    forall i: nat | i < |init|
      ensures CorruptsAt(g, m, units, disabled, all, id, p, i) <==> CorruptsAt(g, m, units, disabled, init, id, p, i)
    {
      assert all[..i] == init[..i];
    }
    assert CorruptsAt(g, m, units, disabled, all, id, p, |init|) <==>
             && Corrupter(g, m, units, disabled, last, id) && p.status != TemporarilyOpen
             && !(p.status == Blocked && SomeOpener(g, m, units, init, id));
    hide CorruptsAt, SomeOpener;
    if i: nat :| i < |init| && CorruptsAt(g, m, units, disabled, init, id, p, i) {
      assert CorruptsAt(g, m, units, disabled, all, id, p, i);
    }
    if i: nat :| i < |all| && CorruptsAt(g, m, units, disabled, all, id, p, i) {
      if i < |init| { assert CorruptsAt(g, m, units, disabled, init, id, p, i); }
    }
  }

  /** The Maias whose orders are still to come are as they were before step 6. */
  lemma {:induction false} AbilitiesOnPath(
      g: GameConfig, m: MapConfig, units: Units, paths: Paths, disabled: set<string>, orders: seq<Order>, id: string)
    requires OneOrderPerUnit(orders) && id in paths
    ensures id in MaiaOrders(g, m, units, paths, disabled, orders).1
    ensures MaiaOrders(g, m, units, paths, disabled, orders).0.Keys == units.Keys
    ensures forall x | x in units && HasNoOrder(orders, x) ::
              MaiaOrders(g, m, units, paths, disabled, orders).0[x] == units[x]
    ensures MaiaOrders(g, m, units, paths, disabled, orders).1[id]
         == AfterAbilities(g, m, units, disabled, orders, id, paths[id])
  {
    if orders != [] {
      var init, last := orders[..|orders| - 1], orders[|orders| - 1];
      assert orders == init + [last];
      LastOrder(orders, last.unit);
      AbilitiesOnPath(g, m, units, paths, disabled, init, id);
      OneMoreMaia(g, m, units, disabled, init, last, id, paths[id]);
      var us, ps := MaiaOrders(g, m, units, paths, disabled, init).0, MaiaOrders(g, m, units, paths, disabled, init).1;
      assert MaiaOrders(g, m, units, paths, disabled, orders) == MaiaOrder(g, m, us, ps, disabled, last);
      hide MaiaOrders, OneOrderPerUnit, SomeOpener, SomeCorrupter;
      OneAbility(g, m, units, us, ps, disabled, last, id);
      forall x | x in units && HasNoOrder(orders, x) ensures HasNoOrder(init, x) && last.unit != x {}
    }
  }

  /** The last order: its Maia has not acted before, the path is as found. */
  lemma OneAbility(
      g: GameConfig, m: MapConfig, units: Units, us: Units, ps: Paths, disabled: set<string>, o: Order, id: string)
    requires id in ps && us.Keys == units.Keys && (o.unit in units ==> us[o.unit] == units[o.unit])
    ensures var after := MaiaOrder(g, m, us, ps, disabled, o);
            && after.0.Keys == us.Keys && (forall x | x in us && x != o.unit :: after.0[x] == us[x])
            && id in after.1
            && var p, q := ps[id], after.1[id];
               q == if Opener(g, m, units, o, id) && p.status == Blocked
                    then p.(status := TemporarilyOpen, tempOpenTurns := 2)
                    else if Corrupter(g, m, units, disabled, o, id) && p.status != TemporarilyOpen
                    then p.(surveillance := 3)
                    else p
  {}

  // ----- abilities in a turn -------------------------------------------------

  predicate OpenerWaits(r: Rules, n: Node, id: string) {
    SomeOpener(r.g, r.m, n.cache.units, n.pending, id)
  }

  lemma StageSix(r: Rules, n: Node)
    ensures var s := NextStages(r, n);
            s.paths6 == MaiaOrders(r.g, r.m, s.units4, s.paths3, n.disabled, n.pending).1
  {
    hide RouteOrders, BlockAndSearch, MoveOrders, FortifyOrders, MaiaOrders, AttackOrders, AdvanceUnits,
      AdvanceRingBearer, TickPaths, TickRegions, TickUnits;
  }

  /** Whoever is to use an ability in a turn has done nothing else in it before. */
  lemma MaiasWaited(r: Rules, w: World)
    requires BasicInv(r, w)
    ensures var n, s := w.node, NextStages(r, w.node);
            forall o | o in n.pending && o.kind == MaiaAbility ::
              o.unit in s.units4 && o.unit in n.cache.units && s.units4[o.unit] == n.cache.units[o.unit]
  {
    var n, s := w.node, NextStages(r, w.node);
    hide NextStages, ClockInv, LogInv, Known;
    PendingIsKnown(r, w);
    hide BasicInv;
    forall o | o in n.pending && o.kind == MaiaAbility
      ensures o.unit in s.units4 && s.units4[o.unit] == n.cache.units[o.unit]
    {
      UnitByItsOrder(r, n, o.unit);
    }
  }

  /** All that step 6 does to a path: it is opened for two turns, for its blocker,
      exactly if it is blocked and an opener waits, and its surveillance goes to 3
      exactly if a corrupter comes upon it while it is not open for a time. */
  lemma StepSix(r: Rules, w: World, id: string)
    requires BasicInv(r, w) && id in NextStages(r, w.node).paths3
    ensures id in NextStages(r, w.node).paths6
    ensures var n, p, q := w.node, NextStages(r, w.node).paths3[id], NextStages(r, w.node).paths6[id];
            && q.blockedBy == p.blockedBy
            && (if p.status == Blocked && OpenerWaits(r, n, id) then q.status == TemporarilyOpen && q.tempOpenTurns == 2
                else q.status == p.status && q.tempOpenTurns == p.tempOpenTurns)
            && q.surveillance
               == if SomeCorrupter(r.g, r.m, n.cache.units, n.disabled, n.pending, id, p) then 3 else p.surveillance
  {
    var n, s := w.node, NextStages(r, w.node);
    hide NextStages, MaiaOrders, SomeOpener, SomeCorrupter, ClockInv, LogInv, Known;
    StageSix(r, n);
    MaiasWaited(r, w);
    hide BasicInv;
    AbilitiesOnPath(r.g, r.m, s.units4, s.paths3, n.disabled, n.pending, id);
    MaiasByPlaces(r.g, r.m, s.units4, n.cache.units, n.disabled, n.pending, id, s.paths3[id]);
  }

  lemma MaiasByPlaces(
      g: GameConfig, m: MapConfig, a: Units, b: Units, disabled: set<string>, orders: seq<Order>, id: string, p: Path)
    requires forall o | o in orders && o.kind == MaiaAbility :: o.unit in a && o.unit in b && a[o.unit] == b[o.unit]
    ensures SomeOpener(g, m, a, orders, id) <==> SomeOpener(g, m, b, orders, id)
    ensures SomeCorrupter(g, m, a, disabled, orders, id, p) <==> SomeCorrupter(g, m, b, disabled, orders, id, p)
  {
    forall o | o in orders
      ensures Opener(g, m, a, o, id) <==> Opener(g, m, b, o, id)
      ensures Corrupter(g, m, a, disabled, o, id) <==> Corrupter(g, m, b, disabled, o, id)
    {}
    hide Opener, Corrupter;
    forall i: nat | i < |orders|
      ensures CorruptsAt(g, m, a, disabled, orders, id, p, i) <==> CorruptsAt(g, m, b, disabled, orders, id, p, i)
    {
      forall o | o in orders[..i] ensures o in orders {}
      assert orders[i] in orders;
    }
    hide CorruptsAt;
  }
}
