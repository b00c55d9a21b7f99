/** Whole games of one node: orders are submitted, validated, delivered and
    buffered, and turns are played, in any interleaving.

    Validated orders travel through a log. They may be delivered late, out of
    order and more than once. */
module Runs {
  import opened Walks
  import opened Config
  import opened State
  import opened Steps
  import opened Turn
  import opened CacheStore
  import opened Ingest
  import opened Processor

  datatype World = World(node: Node, seen: map<int, set<string>>, validated: seq<Order>)

  datatype Action = Submit(raw: RawOrder) | Deliver(index: nat) | EndOfTurn

  ghost function Next(r: Rules, w: World, a: Action): World {
    match a
    case Submit(raw) =>
      var (seen, code) := Admit(r, w.node.cache, w.seen, raw);
      World(w.node, seen, if code == Accepted then w.validated + [Parsed(raw)] else w.validated)
    case Deliver(i) =>
      if i < |w.validated| then w.(node := Buffer(w.node, w.validated[i])) else w
    case EndOfTurn =>
      w.(node := Advance(r, w.node))
  }

  ghost function After(r: Rules, w: World, actions: seq<Action>): World {
    if actions == [] then w
    else Next(r, After(r, w, actions[..|actions| - 1]), actions[|actions| - 1])
  }

  /** The start of a game in which `ringBearerId` carries the Ring. */
  ghost function Start(g: GameConfig, m: MapConfig, ringBearerId: string): World {
    var home := UnitCfg(g, ringBearerId).startRegion;
    World(Node(StartCache(g, m, ringBearerId, home), StartRingBearer(home), {}, 1, [], false, []), map[], [])
  }

  /** The state a game is in after some actions. */
  ghost function Game(r: Rules, ringBearerId: string, actions: seq<Action>): World {
    After(r, Start(r.g, r.m, ringBearerId), actions)
  }

  /** The first turn finds everybody active, whole, rested and at home, though the Ring
      Bearer's public record does not say where; every path open and unwatched; and
      the regions as configured. */
  lemma StartOfGame(r: Rules, ringBearerId: string)
    ensures var n := Game(r, ringBearerId, []).node;
            && n.cache.turn == n.currentTurn == 1 && !Over(n) && n.pending == [] && n.events == [] && n.disabled == {}
            && n.cache.units.Keys == r.g.units.Keys && n.cache.paths.Keys == r.m.paths.Keys
            && n.cache.regions.Keys == r.m.regions.Keys
            && (forall id | id in r.g.units ::
                  var u, cfg := n.cache.units[id], r.g.units[id];
                  && u.id == id && u.status == Active && u.strength == cfg.strength && u.cooldown == 0
                  && u.route == [] && u.routeIdx == 0 && u.travelLeft == 0
                  && u.region == if id == ringBearerId then "" else cfg.startRegion)
            && (forall id | id in r.m.paths ::
                  n.cache.paths[id].status == Open && n.cache.paths[id].surveillance == 0)
            && (forall id | id in r.m.regions ::
                  var reg, cfg := n.cache.regions[id], r.m.regions[id];
                  && reg.controlledBy == cfg.startControl && reg.threatLevel == cfg.startThreat && !reg.fortified)
            && n.rb.trueRegion == n.cache.lightView.ringBearerRegion == UnitCfg(r.g, ringBearerId).startRegion
            && !n.rb.exposed && n.rb.route == []
  {}

  lemma OneMoreAction(r: Rules, ringBearerId: string, actions: seq<Action>, a: Action)
    ensures Game(r, ringBearerId, actions + [a]) == Next(r, Game(r, ringBearerId, actions), a)
  {
    hide Next, Start;
    assert (actions + [a])[..|actions|] == actions;
  }

  /** How often a turn was ended. */
  function TurnsEnded(actions: seq<Action>): nat {
    if actions == [] then 0
    else TurnsEnded(actions[..|actions| - 1]) + if actions[|actions| - 1] == EndOfTurn then 1 else 0
  }

  /** The configuration and the graph built from it. */
  ghost predicate Playable(r: Rules)
    ensures Playable(r) ==> NonNegative(r.adj)
  {
    WellFormed(r.g, r.m) && Represents(r.adj, r.m) && (RepresentsIsNonNegative(r.adj, r.m); true)
  }

  // ----- turns and pending orders --------------------------------------------

  predicate OneOrderPerUnit(orders: seq<Order>) {
    forall i, j | 0 <= i < j < |orders| :: orders[i].unit != orders[j].unit
  }

  /** Orders wait only for the turn that is being played, one per unit. */
  predicate PendingInv(n: Node) {
    && (forall o | o in n.pending :: o.turn == n.cache.turn)
    && (n.pending != [] ==> n.currentTurn == n.cache.turn)
    && OneOrderPerUnit(n.pending)
  }

  /** The processor and the cache agree on the turn until the game is over. */
  predicate ClockInv(n: Node) {
    && n.cache.turn >= 1
    && n.gameOverSent == n.cache.session.gameOver
    && (Over(n) ==>
          && n.cache.turn - 1 <= n.currentTurn <= n.cache.turn
          && n.cache.session.turn == n.cache.turn - 1 >= 1
          && n.cache.session.winner != NoWinner)
    && (!Over(n) ==> n.currentTurn == n.cache.turn && n.cache.session == NO_SESSION)
  }

  lemma ClockAfterAdvance(r: Rules, n: Node)
    requires ClockInv(n) && PendingInv(n)
    ensures ClockInv(Advance(r, n)) && PendingInv(Advance(r, n))
    ensures Over(n) ==> Advance(r, n) == SyncTurn(n)
    ensures !Over(n) ==> SyncTurn(n) == n && Advance(r, n).cache.turn == n.cache.turn + 1 && Advance(r, n).pending == []
  {
    hide PlayTurn;
  }

  lemma ClockAfterBuffer(n: Node, o: Order)
    requires ClockInv(n) && PendingInv(n)
    ensures ClockInv(Buffer(n, o)) && PendingInv(Buffer(n, o))
    ensures Buffer(n, o).cache == n.cache && Buffer(n, o).rb == n.rb && Buffer(n, o).disabled == n.disabled
    ensures Buffer(n, o).gameOverSent == n.gameOverSent && Buffer(n, o).events == n.events
    ensures forall p | p in Buffer(n, o).pending :: p in n.pending || (p == o && o.turn == n.cache.turn)
    ensures !Over(n) ==> Buffer(n, o).currentTurn == n.currentTurn
  {}

  /** A delivered order waits for the turn exactly if it is meant for it and its unit
      has none waiting; nothing else comes of a delivery. */
  lemma DeliveryExactly(r: Rules, w: World, i: nat)
    requires ClockInv(w.node) && !Over(w.node) && i < |w.validated|
    ensures var o, pending := w.validated[i], w.node.pending;
            var waits := o.turn == w.node.cache.turn && forall p | p in pending :: p.unit != o.unit;
            Next(r, w, Deliver(i)) == w.(node := w.node.(pending := if waits then pending + [o] else pending))
  {}

  lemma BufferAddsOnly(n: Node, o: Order)
    ensures Buffer(n, o).cache == n.cache
    ensures forall p | p in Buffer(n, o).pending :: p in n.pending || p == o
  {}

  // ----- accepted orders -----------------------------------------------------

  /** The order is what validation makes of a submission it accepts right now. */
  ghost predicate AcceptedNow(r: Rules, cache: Cache, o: Order) {
    exists raw :: Parsed(raw) == o && Validate(r, cache, raw) == Accepted
  }

  /** A validated order of the current turn was accepted against the current cache. */
  ghost predicate LogInv(r: Rules, w: World) {
    && (forall o | o in w.validated ::
          o.turn <= w.node.cache.turn && (o.turn == w.node.cache.turn ==> AcceptedNow(r, w.node.cache, o)))
    && (forall o | o in w.node.pending :: o in w.validated)
  }

  lemma LogAfterSubmit(r: Rules, w: World, raw: RawOrder)
    requires LogInv(r, w)
    ensures LogInv(r, Next(r, w, Submit(raw)))
  {
    hide Validate, Pruned, SeenAt;
    if Validate(r, w.node.cache, raw) == Accepted {
      AcceptedIsForThisTurn(r, w.node.cache, raw);
      assert AcceptedNow(r, w.node.cache, Parsed(raw));
    }
    hide AcceptedNow;
  }

  lemma AcceptedIsForThisTurn(r: Rules, cache: Cache, raw: RawOrder)
    requires Validate(r, cache, raw) == Accepted
    ensures raw.turn == cache.turn && raw.unit in r.g.units && raw.unit in cache.units
        && cache.units[raw.unit].status == Active
    ensures raw.unit != ""
  {}

  lemma LogAfterDeliver(r: Rules, w: World, i: nat)
    requires LogInv(r, w) && ClockInv(w.node) && PendingInv(w.node)
    ensures LogInv(r, Next(r, w, Deliver(i)))
  {
    hide AcceptedNow, Buffer;
    if i < |w.validated| {
      ClockAfterBuffer(w.node, w.validated[i]);
    }
  }

  lemma LogAfterTurn(r: Rules, w: World)
    requires LogInv(r, w) && ClockInv(w.node) && PendingInv(w.node)
    ensures LogInv(r, Next(r, w, EndOfTurn))
  {
    hide AcceptedNow, Advance;
    ClockAfterAdvance(r, w.node);
  }

  // ----- the invariant of every run ------------------------------------------

  ghost predicate BasicInv(r: Rules, w: World) {
    && ClockInv(w.node) && PendingInv(w.node) && LogInv(r, w)
    && Known(r.g, w.node.cache.units)
    && w.node.cache.units.Keys == r.g.units.Keys
    && w.node.cache.paths.Keys == r.m.paths.Keys
  }

  lemma {:induction false} BasicInvHolds(r: Rules, ringBearerId: string, actions: seq<Action>)
    requires Playable(r)
    ensures BasicInv(r, Game(r, ringBearerId, actions))
  {
    if actions != [] {
      var init, last := actions[..|actions| - 1], actions[|actions| - 1];
      BasicInvHolds(r, ringBearerId, init);
      BasicInvNext(r, Game(r, ringBearerId, init), last);
    }
  }

  lemma BasicInvNext(r: Rules, w: World, a: Action)
    requires BasicInv(r, w)
    ensures BasicInv(r, Next(r, w, a))
  {
    hide LogInv, ClockInv, PendingInv, Known, Advance, Buffer, Admit;
    match a {
      case Submit(raw) =>
        LogAfterSubmit(r, w, raw);
      case Deliver(i) =>
        LogAfterDeliver(r, w, i);
        if i < |w.validated| {
          ClockAfterBuffer(w.node, w.validated[i]);
        }
      case EndOfTurn =>
        LogAfterTurn(r, w);
        ClockAfterAdvance(r, w.node);
        KeysAfterAdvance(r, w.node);
    }
  }

  lemma KeysAfterAdvance(r: Rules, n: Node)
    requires Known(r.g, n.cache.units)
    ensures Known(r.g, Advance(r, n).cache.units)
    ensures Advance(r, n).cache.units.Keys == n.cache.units.Keys
    ensures Advance(r, n).cache.paths.Keys == n.cache.paths.Keys
    ensures Advance(r, n).cache.regions.Keys == n.cache.regions.Keys
  {
    hide Known, RouteOrders, BlockAndSearch, MoveOrders, FortifyOrders, MaiaOrders, AttackOrders, AdvanceUnits,
      AdvanceRingBearer, TickPaths, TickRegions, TickUnits, RingBearerDetected, Verdict;
    var n1 := SyncTurn(n);
    KnownThroughStages(r, BoardOf(n1), n1.pending, n1.currentTurn);
    KeysOfStages(r, BoardOf(n1), n1.pending, n1.currentTurn);
    hide StagesOf;
  }

  // ----- keys never change ---------------------------------------------------

  lemma {:induction false} KeysAfterRoutes(g: GameConfig, units: Units, rb: RingBearerState, orders: seq<Order>)
    ensures RouteOrders(g, units, rb, orders).0.Keys == units.Keys
  {
    if orders != [] { KeysAfterRoutes(g, units, rb, orders[..|orders| - 1]); }
  }

  lemma {:induction false} KeysAfterPathOrders(
      g: GameConfig, m: MapConfig, units: Units, paths: Paths, orders: seq<Order>)
    ensures PathOrders(g, m, units, paths, orders).Keys == paths.Keys
  {
    if orders != [] { KeysAfterPathOrders(g, m, units, paths, orders[..|orders| - 1]); }
  }

  lemma {:induction false} KeysAfterMoves(r: Rules, units: Units, orders: seq<Order>)
    ensures MoveOrders(r.g, r.adj, units, orders).Keys == units.Keys
  {
    if orders != [] { KeysAfterMoves(r, units, orders[..|orders| - 1]); }
  }

  lemma {:induction false} KeysAfterFortify(g: GameConfig, units: Units, regions: Regions, orders: seq<Order>)
    ensures FortifyOrders(g, units, regions, orders).Keys == regions.Keys
  {
    if orders != [] { KeysAfterFortify(g, units, regions, orders[..|orders| - 1]); }
  }

  lemma {:induction false} KeysAfterMaias(
      r: Rules, units: Units, paths: Paths, disabled: set<string>, orders: seq<Order>)
    ensures MaiaOrders(r.g, r.m, units, paths, disabled, orders).0.Keys == units.Keys
    ensures MaiaOrders(r.g, r.m, units, paths, disabled, orders).1.Keys == paths.Keys
  {
    if orders != [] { KeysAfterMaias(r, units, paths, disabled, orders[..|orders| - 1]); }
  }

  lemma {:induction false} KeysAfterAttacks(g: GameConfig, m: MapConfig, f: Front, orders: seq<Order>)
    ensures AttackOrders(g, m, f, orders).units.Keys == f.units.Keys
    ensures AttackOrders(g, m, f, orders).regions.Keys == f.regions.Keys
  {
    hide BattleOf, AfterBattle;
    if orders != [] { KeysAfterAttacks(g, m, f, orders[..|orders| - 1]); }
  }

  lemma KeysOfStages(r: Rules, b: Board, orders: seq<Order>, turn: int)
    ensures var s := StagesOf(r, b, orders, turn);
            && s.units2.Keys == s.units4.Keys == s.units6.Keys == s.units7.Keys == s.units11.Keys == b.units.Keys
            && s.paths3.Keys == s.paths6.Keys == s.paths9.Keys == b.paths.Keys
            && s.regions5.Keys == s.regions10.Keys == b.regions.Keys
  {
    hide RouteOrders, PathOrders, MoveOrders, FortifyOrders, MaiaOrders, AttackOrders, AdvanceRingBearer;
    var s := StagesOf(r, b, orders, turn);
    KeysAfterRoutes(r.g, b.units, b.rb, orders);
    KeysAfterPathOrders(r.g, r.m, s.units2, b.paths, orders);
    KeysAfterMoves(r, s.units2, orders);
    KeysAfterFortify(r.g, s.units4, b.regions, orders);
    KeysAfterMaias(r, s.units4, s.paths3, b.disabled, orders);
    KeysAfterAttacks(r.g, r.m, Front(s.units7, s.regions5, b.disabled), orders);
  }
}
