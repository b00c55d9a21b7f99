/** The travel bounds are attained: a game in which the Ring Bearer reaches a
    region in exactly the least travel time, and one in which the Ring is destroyed
    one turn later. */
module FastestGame {
  import opened Walks
  import opened Config
  import opened State
  import opened Steps
  import opened Turn
  import opened CacheStore
  import opened Ingest
  import opened Processor
  import opened Runs
  import opened Journey
  import opened PathMachine
  import opened Endgame
  import opened Duplicates
  import opened Timetable

  /** Where the Ring Bearer starts. */
  function Home(g: GameConfig, ringBearerId: string): string {
    UnitCfg(g, ringBearerId).startRegion
  }

  // ----- quiet turns ---------------------------------------------------------

  /** Only the Ring Bearer has orders: to go somewhere, or to destroy the Ring. */
  predicate Harmless(ringBearerId: string, orders: seq<Order>) {
    forall o | o in orders :: o.unit == ringBearerId && (IsRouteOrder(o) || o.kind == DestroyRing)
  }

  /** Everybody is active, and all but the Ring Bearer are at home without a route. */
  predicate AtHome(g: GameConfig, ringBearerId: string, units: Units) {
    forall id | id in units ::
      && units[id].status == Active
      && (id != ringBearerId ==> units[id].route == [] && units[id].region == UnitCfg(g, id).startRegion)
  }

  predicate AllOpen(paths: Paths) {
    forall id | id in paths :: paths[id].status == Open
  }

  lemma {:induction false} NothingElseHappens(
      r: Rules, ringBearerId: string, units: Units, paths: Paths, disabled: set<string>, orders: seq<Order>)
    requires Harmless(ringBearerId, orders)
    ensures PathOrders(r.g, r.m, units, paths, orders) == paths
    ensures MoveOrders(r.g, r.adj, units, orders) == units
    ensures MaiaOrders(r.g, r.m, units, paths, disabled, orders) == (units, paths)
  {
    if orders != [] {
      assert orders[|orders| - 1] in orders;
      NothingElseHappens(r, ringBearerId, units, paths, disabled, orders[..|orders| - 1]);
    }
  }

  lemma {:induction false} NobodyFights(g: GameConfig, m: MapConfig, ringBearerId: string, f: Front, orders: seq<Order>)
    requires Harmless(ringBearerId, orders)
    ensures AttackOrders(g, m, f, orders) == f
  {
    if orders != [] {
      assert orders[|orders| - 1] in orders;
      hide BattleOf, AfterBattle;
      NobodyFights(g, m, ringBearerId, f, orders[..|orders| - 1]);
    }
  }

  lemma {:induction false} RoutedAtHome(
      g: GameConfig, ringBearerId: string, units: Units, rb: RingBearerState, orders: seq<Order>)
    requires Harmless(ringBearerId, orders) && AtHome(g, ringBearerId, units)
    ensures AtHome(g, ringBearerId, RouteOrders(g, units, rb, orders).0)
  {
    if orders != [] {
      assert orders[|orders| - 1] in orders;
      RoutedAtHome(g, ringBearerId, units, rb, orders[..|orders| - 1]);
    }
  }

  lemma TravelledAtHome(g: GameConfig, m: MapConfig, ringBearerId: string, paths: Paths, units: Units)
    requires AtHome(g, ringBearerId, units)
    ensures AtHome(g, ringBearerId, AdvanceUnits(m, paths, units))
  {}

  lemma TickedAtHome(g: GameConfig, ringBearerId: string, units: Units)
    requires AtHome(g, ringBearerId, units)
    ensures AtHome(g, ringBearerId, TickUnits(g, units))
  {}

  lemma OpenPathsStayOpen(m: MapConfig, units: Units, paths: Paths)
    requires AllOpen(paths)
    ensures ReleasePaths(m, units, paths) == paths && TickPaths(paths) == paths
  {}

  /** A quiet turn leaves everybody at home and all paths open. */
  lemma QuietTurn(r: Rules, ringBearerId: string, n: Node)
    requires ClockInv(n) && !Over(n) && Harmless(ringBearerId, n.pending)
    requires AtHome(r.g, ringBearerId, n.cache.units) && AllOpen(n.cache.paths)
    ensures NextStages(r, n).paths6 == n.cache.paths
    ensures Advance(r, n).cache.paths == n.cache.paths && AtHome(r.g, ringBearerId, Advance(r, n).cache.units)
  {
    var s := NextStages(r, n);
    UnitsAndPathsAfter(r, n);
    assert s.units2 == RouteOrders(r.g, n.cache.units, n.rb, n.pending).0;
    assert s.paths3 == ReleasePaths(r.m, s.units2, PathOrders(r.g, r.m, s.units2, n.cache.paths, n.pending));
    assert s.units4 == MoveOrders(r.g, r.adj, s.units2, n.pending);
    assert (s.units6, s.paths6) == MaiaOrders(r.g, r.m, s.units4, s.paths3, n.disabled, n.pending);
    assert s.units7 == AdvanceUnits(r.m, s.paths6, s.units6);
    assert s.front8 == AttackOrders(r.g, r.m, Front(s.units7, s.regions5, n.disabled), n.pending);
    assert s.units11 == TickUnits(r.g, s.front8.units) && s.paths9 == TickPaths(s.paths6);
    hide StagesOf, NextStages, Advance, RouteOrders, PathOrders, MoveOrders, MaiaOrders, AttackOrders, AdvanceUnits,
      TickUnits, TickPaths, ReleasePaths, AtHome, AllOpen, Harmless;
    RoutedAtHome(r.g, ringBearerId, n.cache.units, n.rb, n.pending);
    NothingElseHappens(r, ringBearerId, s.units2, n.cache.paths, n.disabled, n.pending);
    OpenPathsStayOpen(r.m, s.units2, n.cache.paths);
    TravelledAtHome(r.g, r.m, ringBearerId, s.paths6, s.units6);
    NobodyFights(r.g, r.m, ringBearerId, Front(s.units7, s.regions5, n.disabled), n.pending);
    TickedAtHome(r.g, ringBearerId, s.units7);
  }

  lemma UnitsAndPathsAfter(r: Rules, n: Node)
    requires ClockInv(n) && !Over(n)
    ensures Advance(r, n).cache.units == NextStages(r, n).units11
    ensures Advance(r, n).cache.paths == NextStages(r, n).paths9
  {
    PathsAfterAdvance(r, n);
    hide RouteOrders, BlockAndSearch, MoveOrders, FortifyOrders, MaiaOrders, AttackOrders, AdvanceUnits,
      AdvanceRingBearer, TickPaths, TickRegions, TickUnits, RingBearerDetected, WinnerOf;
  }

  // ----- the game goes on ----------------------------------------------------

  /** Without a request to destroy the Ring, and with no hunter where the Ring
      Bearer is or before anybody can be detected, a turn before the last is not
      the end. */
  lemma GameGoesOn(r: Rules, n: Node)
    requires ClockInv(n) && !Over(n) && !n.rb.exposed && !DestroyRequested(n.pending)
    requires n.cache.turn < r.g.maxTurns
    requires || n.cache.turn <= r.g.hiddenUntilTurn
             || !HunterAt(r.g, Advance(r, n).cache.units, Advance(r, n).rb.trueRegion)
    ensures !Over(Advance(r, n))
  {
    var b := PlayTurn(r, BoardOf(n), n.pending, n.currentTurn).0;
    if n.cache.turn <= r.g.hiddenUntilTurn {
      HiddenTurnsExposeNobody(r, BoardOf(n), n.pending, n.currentTurn);
    }
    hide PlayTurn, HunterAt, DestroyRequested;
    assert Advance(r, n).cache.units == b.units && Advance(r, n).rb.trueRegion == b.rb.trueRegion;
  }

  /** No hunter's home is on the route, and the Ring Bearer is none himself. */
  predicate HuntersElsewhere(g: GameConfig, m: MapConfig, ringBearerId: string, home: string, ids: seq<string>) {
    forall id | id in g.units && g.units[id].detectionRange > 0 ::
      id != ringBearerId && forall i: nat | i <= |ids| :: g.units[id].startRegion != Stop(m, home, ids, i)
  }

  lemma NoHunterThere(
      g: GameConfig, m: MapConfig, ringBearerId: string, home: string, ids: seq<string>, k: nat, t: Traveller,
      units: Units)
    requires HuntersElsewhere(g, m, ringBearerId, home, ids) && OnTime(m, home, ids, k, t)
    requires AtHome(g, ringBearerId, units)
    ensures !HunterAt(g, units, t.region)
  {
    hide Stop, LegsTime;
    forall id | id in units ensures !IsHunterAt(g, units, id, t.region) {
      var i: nat := t.idx;
      assert id in g.units && g.units[id].detectionRange > 0 ==> g.units[id].startRegion != Stop(m, home, ids, i);
    }
  }

  /** On his way: t turns after departure nobody else has stirred. */
  ghost predicate OnHisWay(r: Rules, ringBearerId: string, home: string, ids: seq<string>, t: nat, n: Node) {
    && !Over(n) && n.cache.turn == t + 1
    && AtHome(r.g, ringBearerId, n.cache.units) && AllOpen(n.cache.paths)
    && OnTime(r.m, home, ids, t, RbTraveller(NextStages(r, n).rb2))
    && Harmless(ringBearerId, n.pending)
  }

  /** The conditions under which turn t is not the end of the game. */
  predicate Unseen(r: Rules, ringBearerId: string, home: string, ids: seq<string>, t: nat) {
    t < r.g.maxTurns && (t <= r.g.hiddenUntilTurn || HuntersElsewhere(r.g, r.m, ringBearerId, home, ids))
  }

  lemma LegsAreFree(r: Rules, ringBearerId: string, home: string, ids: seq<string>, t: nat, w: World)
    requires BasicInv(r, w) && OnHisWay(r, ringBearerId, home, ids, t, w.node)
    requires forall id | id in ids :: id in r.m.paths
    ensures LegsFree(r, w.node, ids, t)
  {
    QuietTurn(r, ringBearerId, w.node);
    hide Advance, NextStages, LogInv, PendingInv, ClockInv, Known, LegsTime;
  }

  lemma OneMoreTurn(r: Rules, ringBearerId: string, home: string, ids: seq<string>, t: nat, w: World)
    requires BasicInv(r, w) && RingInv(r, w.node) && OnHisWay(r, ringBearerId, home, ids, t, w.node)
    requires forall id | id in ids :: id in r.m.paths
    requires Unseen(r, ringBearerId, home, ids, t + 1) && !DestroyRequested(w.node.pending)
    ensures OnHisWay(r, ringBearerId, home, ids, t + 1, Advance(r, w.node)) && Advance(r, w.node).pending == []
  {
    var n := w.node;
    QuietTurn(r, ringBearerId, n);
    LegsAreFree(r, ringBearerId, home, ids, t, w);
    OnTimeAfterTurn(r, w, home, ids, t);
    ClockAfterAdvance(r, n);
    var n' := Advance(r, n);
    NoOrdersKeepRoute(r, n');
    hide Advance, NextStages, LogInv, Known, OnTime, LegsFree, HunterAt, HuntersElsewhere;
    if n.cache.turn > r.g.hiddenUntilTurn {
      NoHunterThere(r.g, r.m, ringBearerId, home, ids, t + 1, RbTraveller(n'.rb), n'.cache.units);
    }
    GameGoesOn(r, n);
  }

  lemma NoOrdersKeepRoute(r: Rules, n: Node)
    ensures n.pending == [] ==> NextStages(r, n).rb2 == n.rb
  {
    assert NextStages(r, n).rb2 == RouteOrders(r.g, n.cache.units, n.rb, n.pending).1;
    hide NextStages;
  }

  // ----- opening: one order --------------------------------------------------

  /** A player who may command the unit. */
  function PlayerFor(g: GameConfig, id: string): string {
    if UnitCfg(g, id).side == Shadow then DARK_PLAYER else "player-light"
  }

  function RouteSubmission(g: GameConfig, ringBearerId: string, ids: seq<string>): RawOrder {
    RawOrder(AssignRoute, PlayerFor(g, ringBearerId), ringBearerId, 1, ids, [], "", "")
  }

  function Opening(g: GameConfig, ringBearerId: string, ids: seq<string>): seq<Action> {
    [Submit(RouteSubmission(g, ringBearerId, ids)), Deliver(0)]
  }

  function Ends(k: nat): seq<Action> {
    seq(k, _ => EndOfTurn)
  }

  lemma PlayerForIsHis(r: Rules, id: string)
    requires Playable(r) && id in r.g.units
    ensures PlayerFor(r.g, id) != "" && PlayerFaction(PlayerFor(r.g, id)) == r.g.units[id].side && id != ""
  {
    hide Represents;
    assert "player-light"[7] == 'l' && DARK_PLAYER[7] == 'd';
  }

  lemma RingBearerIsConfigured(g: GameConfig, ringBearerId: string)
    requires OneRingBearer(g, ringBearerId)
    ensures ringBearerId in g.units && g.units[ringBearerId].class_ == RingBearer
  {
    assert IsRingBearer(g, ringBearerId);
  }

  /** The walk's paths are accepted as the Ring Bearer's route at the start. */
  lemma RouteIsAccepted(r: Rules, ringBearerId: string, es: seq<Edge>)
    requires Playable(r) && OneRingBearer(r.g, ringBearerId)
    requires es != [] && FollowsEdges(r.adj, Home(r.g, ringBearerId), es)
    ensures var cache := StartCache(r.g, r.m, ringBearerId, Home(r.g, ringBearerId));
            Validate(r, cache, RouteSubmission(r.g, ringBearerId, PathIdsOf(es))) == Accepted
  {
    var home, ids := Home(r.g, ringBearerId), PathIdsOf(es);
    var cache := StartCache(r.g, r.m, ringBearerId, home);
    PlayerForIsHis(r, ringBearerId) by { RingBearerIsConfigured(r.g, ringBearerId); }
    RingBearerIsConfigured(r.g, ringBearerId);
    WalkIsConnected(r.adj, r.m, home, es);
    RouteCodeMeansConnected(r.m, cache.paths, true, home, ids, true);
    hide RouteCode, Connected, PlayerFaction, PlayerFor, Represents;
    assert !FirstPathBlocked(cache.paths, ids);
    assert KindCode(r, cache, RouteSubmission(r.g, ringBearerId, ids)) == Accepted;
    hide KindCode;
  }

  lemma AfterOpening(r: Rules, ringBearerId: string, es: seq<Edge>)
    requires Playable(r) && OneRingBearer(r.g, ringBearerId)
    requires es != [] && FollowsEdges(r.adj, Home(r.g, ringBearerId), es)
    ensures var o := Parsed(RouteSubmission(r.g, ringBearerId, PathIdsOf(es)));
            var w := Game(r, ringBearerId, Opening(r.g, ringBearerId, PathIdsOf(es)));
            var w0 := Start(r.g, r.m, ringBearerId);
            w.validated == [o] && w.node == w0.node.(pending := [o])
  {
    var raw := RouteSubmission(r.g, ringBearerId, PathIdsOf(es));
    RouteIsAccepted(r, ringBearerId, es);
    assert [] + [Submit(raw)] == [Submit(raw)];
    assert [Submit(raw)] + [Deliver(0)] == Opening(r.g, ringBearerId, PathIdsOf(es));
    OneMoreAction(r, ringBearerId, [], Submit(raw));
    OneMoreAction(r, ringBearerId, [Submit(raw)], Deliver(0));
    assert Game(r, ringBearerId, []) == Start(r.g, r.m, ringBearerId);
    hide Playable, Game, Validate, StartCache;
    FirstIsBuffered(Start(r.g, r.m, ringBearerId).node, Parsed(raw));
  }

  lemma FirstIsBuffered(n: Node, o: Order)
    requires n.pending == [] && o.turn == n.currentTurn == n.cache.turn
    ensures Buffer(n, o) == n.(pending := [o])
  {}

  lemma QuietAtStart(r: Rules, ringBearerId: string, home: string)
    ensures var cache := StartCache(r.g, r.m, ringBearerId, home);
            AtHome(r.g, ringBearerId, cache.units) && AllOpen(cache.paths) && cache.turn == 1
  {}

  lemma DepartsAtOnce(r: Rules, ringBearerId: string, es: seq<Edge>)
    requires Playable(r) && OneRingBearer(r.g, ringBearerId)
    requires es != [] && FollowsEdges(r.adj, Home(r.g, ringBearerId), es)
    ensures var home := Home(r.g, ringBearerId);
            var n := Game(r, ringBearerId, Opening(r.g, ringBearerId, PathIdsOf(es))).node;
            && n.rb.trueRegion == home
            && OnHisWay(r, ringBearerId, home, PathIdsOf(es), 0, n)
            && Rerouted(r.g, n, PathIdsOf(es))
            && forall id | id in PathIdsOf(es) :: id in r.m.paths
  {
    hide Playable, Game, BasicInv, RingInv, OnHisWay, Rerouted, OneRingBearer, SpeedInv, StartCache, FollowsEdges;
    var opening := Opening(r.g, ringBearerId, PathIdsOf(es));
    AfterOpening(r, ringBearerId, es);
    BasicInvHolds(r, ringBearerId, opening);
    JourneyInv(r, ringBearerId, opening);
    ReadyToLeave(r, ringBearerId, Game(r, ringBearerId, opening), PathIdsOf(es));
  }

  lemma ReadyToLeave(r: Rules, ringBearerId: string, w: World, ids: seq<string>)
    requires BasicInv(r, w) && RingInv(r, w.node) && OneRingBearer(r.g, ringBearerId)
    requires w.node == Start(r.g, r.m, ringBearerId).node.(pending := [Parsed(RouteSubmission(r.g, ringBearerId, ids))])
    ensures var home := Home(r.g, ringBearerId);
            && w.node.rb.trueRegion == home
            && OnHisWay(r, ringBearerId, home, ids, 0, w.node)
            && Rerouted(r.g, w.node, ids)
            && forall id | id in ids :: id in r.m.paths
  {
    hide BasicInv, RingInv, NextStages, Connected, AtHome, AllOpen, OnTime, Start, OneRingBearer, Routed, RbTraveller,
      RouteSubmission, Rerouted, Harmless;
    var home := Home(r.g, ringBearerId);
    RouteWaits(r, ringBearerId, w.node, ids);
    RerouteTakesEffect(r, ringBearerId, w, ids);
    ConnectedIsConfigured(r.m, home, ids);
    DepartsOnTime(r.m, w.node.rb, ids);
  }

  /** The first turn is about to begin, with nothing but his route order in it. */
  lemma RouteWaits(r: Rules, ringBearerId: string, n: Node, ids: seq<string>)
    requires OneRingBearer(r.g, ringBearerId)
    requires n == Start(r.g, r.m, ringBearerId).node.(pending := [Parsed(RouteSubmission(r.g, ringBearerId, ids))])
    ensures n.rb.trueRegion == Home(r.g, ringBearerId) && !Over(n) && n.cache.turn == 1
    ensures AtHome(r.g, ringBearerId, n.cache.units) && AllOpen(n.cache.paths)
    ensures Rerouted(r.g, n, ids) && Harmless(ringBearerId, n.pending)
  {
    var o := Parsed(RouteSubmission(r.g, ringBearerId, ids));
    QuietAtStart(r, ringBearerId, Home(r.g, ringBearerId));
    hide AtHome, AllOpen;
    assert o in n.pending && RoutesRingBearer(r.g, o);
    hide OneRingBearer;
  }

  // ----- the journey ---------------------------------------------------------

  lemma {:induction false} AfterTurns(r: Rules, ringBearerId: string, es: seq<Edge>, k: nat)
    requires Playable(r) && OneRingBearer(r.g, ringBearerId)
    requires es != [] && FollowsEdges(r.adj, Home(r.g, ringBearerId), es)
    requires k > 0 ==> Unseen(r, ringBearerId, Home(r.g, ringBearerId), PathIdsOf(es), k)
    ensures var home, ids := Home(r.g, ringBearerId), PathIdsOf(es);
            var w := Game(r, ringBearerId, Opening(r.g, ringBearerId, ids) + Ends(k));
            && OnHisWay(r, ringBearerId, home, ids, k, w.node)
            && (k > 0 ==> w.node.pending == []) && !DestroyRequested(w.node.pending)
            && w.validated == [Parsed(RouteSubmission(r.g, ringBearerId, ids))]
  {
    var home, ids := Home(r.g, ringBearerId), PathIdsOf(es);
    var opening := Opening(r.g, ringBearerId, ids);
    hide Playable, Game, OnHisWay, BasicInv, RingInv, Advance, OneRingBearer, SpeedInv, FollowsEdges, Unseen;
    DepartsAtOnce(r, ringBearerId, es);
    if k == 0 {
      AfterOpening(r, ringBearerId, es);
      assert opening + Ends(0) == opening;
    } else {
      var before := opening + Ends(k - 1);
      SeenNoSooner(r, ringBearerId, home, ids, k);
      AfterTurns(r, ringBearerId, es, k - 1);
      assert opening + Ends(k) == before + [EndOfTurn];
      OneMoreAction(r, ringBearerId, before, EndOfTurn);
      BasicInvHolds(r, ringBearerId, before);
      JourneyInv(r, ringBearerId, before);
      OneMoreTurn(r, ringBearerId, home, ids, k - 1, Game(r, ringBearerId, before));
    }
  }

  lemma SeenNoSooner(r: Rules, ringBearerId: string, home: string, ids: seq<string>, k: nat)
    requires k > 0 && Unseen(r, ringBearerId, home, ids, k)
    ensures Unseen(r, ringBearerId, home, ids, k - 1)
  {}

  lemma {:induction false} EndsCount(k: nat)
    ensures TurnsEnded(Ends(k)) == k
  {
    if k > 0 {
      EndsCount(k - 1);
      assert Ends(k)[..k - 1] == Ends(k - 1);
    }
  }

  /** Turning k + 1 times, nothing is in the way. */
  lemma NothingInTheWay(r: Rules, ringBearerId: string, es: seq<Edge>, k: nat)
    requires Playable(r) && OneRingBearer(r.g, ringBearerId)
    requires es != [] && FollowsEdges(r.adj, Home(r.g, ringBearerId), es)
    requires k > 0 ==> Unseen(r, ringBearerId, Home(r.g, ringBearerId), PathIdsOf(es), k)
    ensures var ids := PathIdsOf(es);
            var opening := Opening(r.g, ringBearerId, ids);
            Departs(r, Game(r, ringBearerId, opening).node, ids) && Unhindered(r, ringBearerId, opening, Ends(k), ids)
  {
    var home, ids := Home(r.g, ringBearerId), PathIdsOf(es);
    var opening := Opening(r.g, ringBearerId, ids);
    hide Playable, Game, BasicInv, OneRingBearer, LegsFree, AtHome, AllOpen, NextStages, OnTime;
    DepartsAtOnce(r, ringBearerId, es);
    BasicInvHolds(r, ringBearerId, opening);
    LegsAreFree(r, ringBearerId, home, ids, 0, Game(r, ringBearerId, opening));
    forall j | 0 <= j < k
      ensures var more := Ends(k)[..j];
              TravelsOn(r, Game(r, ringBearerId, opening + [EndOfTurn] + more).node, ids, 1 + TurnsEnded(more))
    {
      assert Ends(k)[..j] == Ends(j);
      assert opening + [EndOfTurn] + Ends(j) == opening + Ends(j + 1);
      EndsCount(j);
      AfterTurns(r, ringBearerId, es, j + 1);
      BasicInvHolds(r, ringBearerId, opening + Ends(j + 1));
      LegsAreFree(r, ringBearerId, home, ids, j + 1, Game(r, ringBearerId, opening + Ends(j + 1)));
    }
  }

  /** For every cheapest walk from his home with costs of at least 1, there is a
      game in which the Ring Bearer arrives in as many turns as the least travel
      time, provided the game may last that long and, once the hidden turns are
      over, no hunter is at home on the route. No game gets him there sooner. */
  lemma FastestArrival(r: Rules, ringBearerId: string, es: seq<Edge>, dst: string) returns (actions: seq<Action>)
    requires Playable(r) && OneRingBearer(r.g, ringBearerId)
    requires IsWalk(r.adj, Home(r.g, ringBearerId), es, dst)
    requires forall e | e in es :: e.cost >= 1
    requires Cost(es) == MinTurns(r.adj, Home(r.g, ringBearerId), dst)
    requires Cost(es) <= r.g.maxTurns
    requires || Cost(es) - 1 <= r.g.hiddenUntilTurn
             || HuntersElsewhere(r.g, r.m, ringBearerId, Home(r.g, ringBearerId), PathIdsOf(es))
    ensures Game(r, ringBearerId, actions).node.rb.trueRegion == dst
    ensures TurnsEnded(actions) == MinTurns(r.adj, Home(r.g, ringBearerId), dst)
    ensures forall others | Game(r, ringBearerId, others).node.rb.trueRegion == dst ::
              TurnsEnded(others) >= TurnsEnded(actions)
  {
    var home, ids := Home(r.g, ringBearerId), PathIdsOf(es);
    if es == [] {
      actions := [];
    } else {
      CostIsPositive(es);
      var k := Cost(es) - 1;
      var opening := Opening(r.g, ringBearerId, ids);
      actions := opening + [EndOfTurn] + Ends(k);
      assert actions == opening + Ends(k + 1);
      OpeningCount(r.g, ringBearerId, ids, k + 1);
      EndsCount(k);
      hide Playable, Game, MinTurns, OneRingBearer, Departs, Unhindered, HuntersElsewhere, TurnsEnded, Opening;
      DepartsAtOnce(r, ringBearerId, es);
      NothingInTheWay(r, ringBearerId, es, k);
      SpeedLimitIsAttained(r, ringBearerId, opening, Ends(k), es, dst);
    }
    hide Playable, Game, MinTurns;
    forall others | Game(r, ringBearerId, others).node.rb.trueRegion == dst
      ensures TurnsEnded(others) >= TurnsEnded(actions)
    {
      SpeedLimit(r, ringBearerId, others);
    }
  }

  lemma {:induction false} CostIsPositive(es: seq<Edge>)
    requires forall e | e in es :: e.cost >= 1
    ensures Cost(es) >= |es|
  {
    if es != [] { CostIsPositive(es[..|es| - 1]); }
  }

  lemma {:induction false} OpeningCount(g: GameConfig, ringBearerId: string, ids: seq<string>, k: nat)
    ensures TurnsEnded(Opening(g, ringBearerId, ids) + Ends(k)) == k
  {
    var opening := Opening(g, ringBearerId, ids);
    if k == 0 {
      assert opening + Ends(0) == opening;
      assert opening[..1][..0] == [] && TurnsEnded([]) == 0;
      assert TurnsEnded(opening[..1]) == 0;
    } else {
      OpeningCount(g, ringBearerId, ids, k - 1);
      assert (opening + Ends(k))[..|opening + Ends(k)| - 1] == opening + Ends(k - 1);
    }
  }

  // ----- the earliest destruction --------------------------------------------

  function DestroySubmission(g: GameConfig, ringBearerId: string, turn: int): RawOrder {
    RawOrder(DestroyRing, PlayerFor(g, ringBearerId), ringBearerId, turn, [], [], "", "")
  }

  /** The Ring Bearer is no Shadow unit, and none is at home at Mount Doom. */
  predicate MountDoomIsFree(g: GameConfig, ringBearerId: string) {
    && UnitCfg(g, ringBearerId).side != Shadow
    && forall id | id in g.units && g.units[id].side == Shadow :: g.units[id].startRegion != MOUNT_DOOM
  }

  lemma NoShadowThere(g: GameConfig, ringBearerId: string, units: Units)
    requires MountDoomIsFree(g, ringBearerId) && AtHome(g, ringBearerId, units)
    ensures !ShadowHolds(g, units, MOUNT_DOOM)
  {}

  lemma DestroyIsAccepted(r: Rules, ringBearerId: string, w: World)
    requires Playable(r) && OneRingBearer(r.g, ringBearerId) && MountDoomIsFree(r.g, ringBearerId)
    requires BasicInv(r, w) && RingInv(r, w.node) && AtHome(r.g, ringBearerId, w.node.cache.units)
    requires w.node.rb.trueRegion == MOUNT_DOOM
    ensures Validate(r, w.node.cache, DestroySubmission(r.g, ringBearerId, w.node.cache.turn)) == Accepted
  {
    RingBearerIsConfigured(r.g, ringBearerId);
    PlayerForIsHis(r, ringBearerId);
    NoShadowThere(r.g, ringBearerId, w.node.cache.units);
    hide Playable, ShadowHolds, PlayerFor, PlayerFaction, LogInv, ClockInv, PendingInv, Known, OnCourse;
  }

  lemma LightWinsNow(r: Rules, n: Node)
    requires ClockInv(n) && !Over(n) && DestroyRequested(n.pending)
    requires Advance(r, n).rb.trueRegion == MOUNT_DOOM && !ShadowHolds(r.g, Advance(r, n).cache.units, MOUNT_DOOM)
    ensures Advance(r, n).cache.session.winner == RingDestroyed
  {
    hide PlayTurn, ShadowHolds, DestroyRequested;
    var b := PlayTurn(r, BoardOf(n), n.pending, n.currentTurn).0;
    assert Advance(r, n).cache.units == b.units && Advance(r, n).rb.trueRegion == b.rb.trueRegion;
  }

  /** At his journey's end he stays, whatever else is ordered. */
  lemma StaysAtTheEnd(m: MapConfig, home: string, ids: seq<string>, k: nat, t: Traveller)
    requires OnTime(m, home, ids, k, t) && k >= LegsTime(m, ids, |ids|)
    ensures t.region == Stop(m, home, ids, |ids|)
  {
    if t.idx < |ids| {
      if t.idx + 1 < |ids| { LegsTimeGrows(m, ids, t.idx + 1, |ids|); }
    }
  }

  lemma OrderDoesNotDisturb(
      r: Rules, ringBearerId: string, home: string, ids: seq<string>, k: nat, n: Node, d: Order)
    requires OnHisWay(r, ringBearerId, home, ids, k, n) && n.pending == []
    requires d.kind == DestroyRing && d.unit == ringBearerId
    ensures OnHisWay(r, ringBearerId, home, ids, k, n.(pending := [d])) && DestroyRequested([d])
  {
    var n' := n.(pending := [d]);
    NoOrdersKeepRoute(r, n);
    UnroutedKeeps(r.g, n.cache.units, n.rb, [d]);
    assert NextStages(r, n').rb2 == RouteOrders(r.g, n.cache.units, n.rb, [d]).1;
    hide NextStages, AtHome, AllOpen, OnTime;
    assert d in [d];
  }

  /** The turn after the arrival, with the order to destroy the Ring waiting. */
  lemma DestroyingTurn(r: Rules, ringBearerId: string, home: string, ids: seq<string>, k: nat, w: World)
    requires BasicInv(r, w) && MountDoomIsFree(r.g, ringBearerId)
    requires OnHisWay(r, ringBearerId, home, ids, k, w.node) && DestroyRequested(w.node.pending)
    requires k >= LegsTime(r.m, ids, |ids|) && Stop(r.m, home, ids, |ids|) == MOUNT_DOOM
    requires forall id | id in ids :: id in r.m.paths
    ensures var session := Advance(r, w.node).cache.session;
            session.winner == RingDestroyed && session.turn == k + 1
  {
    hide Advance, NextStages, LogInv, Known, OnTime, AtHome, AllOpen, MountDoomIsFree, Stop, ShadowHolds, LegsTime,
      DestroyRequested, Harmless, LegsFree;
    QuietTurn(r, ringBearerId, w.node);
    LegsAreFree(r, ringBearerId, home, ids, k, w);
    OnTimeAfterTurn(r, w, home, ids, k);
    StaysAtTheEnd(r.m, home, ids, k + 1, RbTraveller(Advance(r, w.node).rb));
    NoShadowThere(r.g, ringBearerId, Advance(r, w.node).cache.units);
    LightWinsNow(r, w.node);
    ClockAfterAdvance(r, w.node);
  }

  /** The order to destroy the Ring, submitted and delivered on arrival, waits. */
  lemma DestroyWaits(r: Rules, ringBearerId: string, actions: seq<Action>, o: Order)
    requires Playable(r) && OneRingBearer(r.g, ringBearerId) && MountDoomIsFree(r.g, ringBearerId)
    requires var w := Game(r, ringBearerId, actions);
             && w.node.pending == [] && w.validated == [o] && o.turn < w.node.cache.turn && !Over(w.node)
             && AtHome(r.g, ringBearerId, w.node.cache.units) && w.node.rb.trueRegion == MOUNT_DOOM
    ensures var w := Game(r, ringBearerId, actions);
            var raw := DestroySubmission(r.g, ringBearerId, w.node.cache.turn);
            Game(r, ringBearerId, actions + [Submit(raw)] + [Deliver(1)]).node == w.node.(pending := [Parsed(raw)])
  {
    hide Playable, Game, Validate, AtHome, MountDoomIsFree, OneRingBearer, LogInv, Known, SpeedInv,
      OnCourse, PendingInv, Admit;
    var w := Game(r, ringBearerId, actions);
    var raw := DestroySubmission(r.g, ringBearerId, w.node.cache.turn);
    BasicInvHolds(r, ringBearerId, actions);
    JourneyInv(r, ringBearerId, actions);
    DestroyIsAccepted(r, ringBearerId, w);
    DuplicateExactlyIfLogged(r, ringBearerId, actions, raw);
    assert !Logged(w.validated, raw.turn, raw.unit);
    ValidOrDuplicate(r, w.node.cache, w.seen, raw);
    OneMoreAction(r, ringBearerId, actions, Submit(raw));
    OneMoreAction(r, ringBearerId, actions + [Submit(raw)], Deliver(1));
    FirstIsBuffered(w.node, Parsed(raw));
  }

  lemma ValidOrDuplicate(r: Rules, cache: Cache, seen: map<int, set<string>>, raw: RawOrder)
    requires Validate(r, cache, raw) == Accepted
    ensures Admit(r, cache, seen, raw).1 in {Accepted, DuplicateUnitOrder}
  {}

  /** If Mount Doom is free and the journey can be made in one turn less than the
      game may last, there is a game in which the Ring is destroyed one turn after
      the least travel time. No game ends so any sooner. */
  lemma EarliestDestruction(r: Rules, ringBearerId: string, es: seq<Edge>) returns (actions: seq<Action>)
    requires Playable(r) && OneRingBearer(r.g, ringBearerId) && MountDoomIsFree(r.g, ringBearerId)
    requires es != [] && IsWalk(r.adj, Home(r.g, ringBearerId), es, MOUNT_DOOM)
    requires forall e | e in es :: e.cost >= 1
    requires Cost(es) == MinTurns(r.adj, Home(r.g, ringBearerId), MOUNT_DOOM)
    requires Cost(es) >= 0 && Unseen(r, ringBearerId, Home(r.g, ringBearerId), PathIdsOf(es), Cost(es))
    ensures var session := Game(r, ringBearerId, actions).node.cache.session;
            && session.winner == RingDestroyed
            && session.turn == MinTurns(r.adj, Home(r.g, ringBearerId), MOUNT_DOOM) + 1
    ensures forall others | Game(r, ringBearerId, others).node.cache.session.winner == RingDestroyed ::
              Game(r, ringBearerId, others).node.cache.session.turn
              >= Game(r, ringBearerId, actions).node.cache.session.turn
  {
    hide Playable, Game, MinTurns, OneRingBearer, Unseen, MountDoomIsFree, FollowsEdges, Advance, OnHisWay;
    actions := DestroyOnArrival(r, ringBearerId, es);
    forall others | Game(r, ringBearerId, others).node.cache.session.winner == RingDestroyed
      ensures Game(r, ringBearerId, others).node.cache.session.turn
           >= Game(r, ringBearerId, actions).node.cache.session.turn
    {
      NoEarlyDestruction(r, ringBearerId, others);
    }
  }

  lemma DestroyOnArrival(r: Rules, ringBearerId: string, es: seq<Edge>) returns (actions: seq<Action>)
    requires Playable(r) && OneRingBearer(r.g, ringBearerId) && MountDoomIsFree(r.g, ringBearerId)
    requires es != [] && IsWalk(r.adj, Home(r.g, ringBearerId), es, MOUNT_DOOM)
    requires forall e | e in es :: e.cost >= 1
    requires Cost(es) >= 0 && Unseen(r, ringBearerId, Home(r.g, ringBearerId), PathIdsOf(es), Cost(es))
    ensures var session := Game(r, ringBearerId, actions).node.cache.session;
            session.winner == RingDestroyed && session.turn == Cost(es) + 1
  {
    var home, ids, k := Home(r.g, ringBearerId), PathIdsOf(es), Cost(es);
    CostIsPositive(es);
    TimetableOfWalk(r.adj, r.m, home, es);
    hide Playable, Game, OneRingBearer, Unseen, OnHisWay, MountDoomIsFree, FollowsEdges, Stop, LegsTime, Cost;
    AfterTurns(r, ringBearerId, es, k);
    DepartsAtOnce(r, ringBearerId, es);
    actions := DestroyNow(r, ringBearerId, Opening(r.g, ringBearerId, ids) + Ends(k), home, ids, k,
                          Parsed(RouteSubmission(r.g, ringBearerId, ids)));
  }

  /** From his arrival at Mount Doom, an order to destroy the Ring and one more turn. */
  lemma DestroyNow(
      r: Rules, ringBearerId: string, arrival: seq<Action>, home: string, ids: seq<string>, k: nat, o: Order)
    returns (actions: seq<Action>)
    requires Playable(r) && OneRingBearer(r.g, ringBearerId) && MountDoomIsFree(r.g, ringBearerId)
    requires var w := Game(r, ringBearerId, arrival);
             OnHisWay(r, ringBearerId, home, ids, k, w.node) && w.node.pending == [] && w.validated == [o]
    requires o.turn <= k && LegsTime(r.m, ids, |ids|) <= k && Stop(r.m, home, ids, |ids|) == MOUNT_DOOM
    requires forall id | id in ids :: id in r.m.paths
    ensures var session := Game(r, ringBearerId, actions).node.cache.session;
            session.winner == RingDestroyed && session.turn == k + 1
  {
    hide Playable, Game, OneRingBearer, OnHisWay, BasicInv, MountDoomIsFree, Advance, Stop, LegsTime, AtHome;
    var n := Game(r, ringBearerId, arrival).node;
    var raw := DestroySubmission(r.g, ringBearerId, n.cache.turn);
    var ready := arrival + [Submit(raw)] + [Deliver(1)];
    ArrivedOnTime(r, ringBearerId, home, ids, k, n);
    DestroyWaits(r, ringBearerId, arrival, o);
    OrderDoesNotDisturb(r, ringBearerId, home, ids, k, n, Parsed(raw));
    actions := ready + [EndOfTurn];
    OneMoreAction(r, ringBearerId, ready, EndOfTurn);
    BasicInvHolds(r, ringBearerId, ready);
    DestroyingTurn(r, ringBearerId, home, ids, k, Game(r, ringBearerId, ready));
  }

  lemma ArrivedOnTime(r: Rules, ringBearerId: string, home: string, ids: seq<string>, k: nat, n: Node)
    requires OnHisWay(r, ringBearerId, home, ids, k, n) && n.pending == []
    requires k >= LegsTime(r.m, ids, |ids|)
    ensures n.rb.trueRegion == Stop(r.m, home, ids, |ids|)
    ensures !Over(n) && n.cache.turn == k + 1 && AtHome(r.g, ringBearerId, n.cache.units)
  {
    NoOrdersKeepRoute(r, n);
    hide NextStages, OnTime, AtHome, AllOpen, LegsTime;
    StaysAtTheEnd(r.m, home, ids, k, RbTraveller(n.rb));
  }
}
