/** The Ring Bearer's journey over whole games: he moves along the edges of the
    map, never faster than the least travel time, and so the Ring cannot be
    destroyed early. */
module Journey {
  import opened Walks
  import opened Config
  import opened State
  import opened Steps
  import opened Turn
  import opened Ingest
  import opened Processor
  import opened Runs

  // ----- one turn of travel --------------------------------------------------

  /** What is left of the route leads on from where the traveller is, and a long
      path under way is the next one, not yet travelled to its end. */
  predicate OnCourse(m: MapConfig, t: Traveller) {
    && 0 <= t.idx <= |t.route|
    && Connected(m, t.region, t.route[t.idx..])
    && t.left >= 0
    && (t.left > 0 ==> UnderWay(t) && t.path == t.route[t.idx] && t.left < PathCfg(m, t.path).cost)
  }

  /** The turns already spent on the path under way. */
  function Progress(m: MapConfig, t: Traveller): int {
    if t.left > 0 then PathCfg(m, t.path).cost - t.left else 0
  }

  lemma TravelStaysOnCourse(m: MapConfig, paths: Paths, t: Traveller)
    requires OnCourse(m, t)
    ensures OnCourse(m, Travel(m, paths, t))
    ensures Travel(m, paths, t).region == t.region || Joined(m, t.region, Travel(m, paths, t).region)
  {}

  /** The distance covered, counting the part of the path under way. */
  ghost function Covered(r: Rules, home: string, t: Traveller): int
    requires NonNegative(r.adj)
  {
    MinTurns(r.adj, home, t.region) + Progress(r.m, t)
  }

  lemma OneTurnCoversOne(r: Rules, paths: Paths, home: string, t: Traveller)
    requires Playable(r)
    requires OnCourse(r.m, t) && MinTurns(r.adj, home, t.region) >= 0
    ensures var t' := Travel(r.m, paths, t);
            MinTurns(r.adj, home, t'.region) >= 0 && Covered(r, home, t') <= Covered(r, home, t) + 1
  {
    if UnderWay(t) {
      var id := t.route[t.idx];
      assert t.route[t.idx..][0] == id;
      hide Connected, MinTurns;
      var p := r.m.paths[id];
      PathIsEdge(r.adj, r.m, t.region, id);
      MinTurnsEdge(r.adj, home, t.region, Edge(OtherEnd(t.region, p), id, p.cost));
      assert p.cost >= 0;
    }
  }

  // ----- route orders --------------------------------------------------------

  function Routed(rb: RingBearerState, ids: seq<string>): RingBearerState {
    rb.(route := ids, routeIdx := 0, travelPath := "", travelLeft := 0)
  }

  /** Step 2 leaves the record alone or gives it the route of one of the orders. */
  lemma {:induction false} RouteOrdersOnRingBearer(g: GameConfig, units: Units, rb: RingBearerState, orders: seq<Order>)
    ensures var rb' := RouteOrders(g, units, rb, orders).1;
            || rb' == rb
            || exists o :: o in orders && IsRouteOrder(o) && IsRingBearer(g, o.unit) && rb' == Routed(rb, o.pathIds)
  {
    if orders != [] {
      var init, last := orders[..|orders| - 1], orders[|orders| - 1];
      RouteOrdersOnRingBearer(g, units, rb, init);
      var us, rb1 := RouteOrders(g, units, rb, init).0, RouteOrders(g, units, rb, init).1;
      var rb' := RouteOrder(g, us, rb1, last).1;
      if rb' != rb1 {
        assert rb' == Routed(rb1, last.pathIds) == Routed(rb, last.pathIds);
        assert last in orders && IsRouteOrder(last) && IsRingBearer(g, last.unit);
      } else if rb1 != rb {
        var o :| o in init && IsRouteOrder(o) && IsRingBearer(g, o.unit) && rb1 == Routed(rb, o.pathIds);
        assert o in orders;
      }
    }
  }

  /** An accepted route order for the Ring Bearer starts where he really is. */
  lemma AcceptedRouteIsConnected(r: Rules, cache: Cache, o: Order)
    requires AcceptedNow(r, cache, o) && IsRouteOrder(o) && IsRingBearer(r.g, o.unit)
    ensures Connected(r.m, cache.lightView.ringBearerRegion, o.pathIds)
  {
    hide RouteCode, Connected;
    var raw :| Parsed(raw) == o && Validate(r, cache, raw) == Accepted;
    assert KindCode(r, cache, raw) == Accepted;
    RouteCodeMeansConnected(r.m, cache.paths, true, cache.lightView.ringBearerRegion, o.pathIds, true);
  }

  // ----- the hidden record over a whole game ---------------------------------

  /** The light side's view is the hidden record, whose route leads on. */
  predicate RingInv(r: Rules, n: Node) {
    && n.cache.lightView == LightViewOf(n.rb)
    && OnCourse(r.m, RbTraveller(n.rb))
    && (!Over(n) ==> !n.rb.exposed)
  }

  ghost predicate SpeedInv(r: Rules, home: string, n: Node)
    requires NonNegative(r.adj)
  {
    && MinTurns(r.adj, home, n.rb.trueRegion) >= 0
    && Covered(r, home, RbTraveller(n.rb)) <= n.cache.turn - 1
    && (n.cache.session.winner == RingDestroyed ==> 0 <= MinTurns(r.adj, home, MOUNT_DOOM) < n.cache.session.turn)
  }

  /** What a turn does to the hidden record: new route, one turn of travel,
      possibly a sighting, and the exposure is forgotten unless the game ends. */
  lemma RingBearerAfterTurn(r: Rules, n: Node)
    requires ClockInv(n) && !Over(n)
    ensures var n' := Advance(r, n);
            var s := StagesOf(r, BoardOf(n), n.pending, n.currentTurn);
            && RbTraveller(s.rb7) == Travel(r.m, s.paths6, RbTraveller(s.rb2))
            && RbTraveller(n'.rb) == RbTraveller(s.rb7)
            && s.rb2 == RouteOrders(r.g, n.cache.units, n.rb, n.pending).1
            && n'.cache.lightView == LightViewOf(n'.rb)
            && (!Over(n') ==> !n'.rb.exposed)
            && (n'.cache.session.winner == RingDestroyed ==> DestroyRequested(n.pending))
  {
    hide RouteOrders, BlockAndSearch, MoveOrders, FortifyOrders, MaiaOrders, AttackOrders, AdvanceUnits, TickPaths,
      TickRegions, TickUnits, RingBearerDetected, Travel, ShadowHolds, HunterAt, DestroyRequested;
    var s := StagesOf(r, BoardOf(n), n.pending, n.currentTurn);
    TravelKeepsRoute(r.m, s.paths6, RbTraveller(s.rb2));
  }

  lemma TravelKeepsRoute(m: MapConfig, paths: Paths, t: Traveller)
    ensures Travel(m, paths, t).route == t.route
  {}

  lemma RingBearerOnCourse(r: Rules, w: World)
    requires BasicInv(r, w) && RingInv(r, w.node) && !Over(w.node)
    ensures var s := StagesOf(r, BoardOf(w.node), w.node.pending, w.node.currentTurn);
            && OnCourse(r.m, RbTraveller(s.rb2))
            && s.rb2.trueRegion == w.node.rb.trueRegion
            && Progress(r.m, RbTraveller(s.rb2)) <= Progress(r.m, RbTraveller(w.node.rb))
            && s.rb2.exposed == w.node.rb.exposed
  {
    var n := w.node;
    var rb2 := RouteOrders(r.g, n.cache.units, n.rb, n.pending).1;
    assert StagesOf(r, BoardOf(n), n.pending, n.currentTurn).rb2 == rb2;
    hide StagesOf, RouteOrders, AcceptedNow, Connected;
    RouteOrdersOnRingBearer(r.g, n.cache.units, n.rb, n.pending);
    if rb2 != n.rb {
      var o :| o in n.pending && IsRouteOrder(o) && IsRingBearer(r.g, o.unit) && rb2 == Routed(n.rb, o.pathIds);
      AcceptedRouteIsConnected(r, n.cache, o);
      assert rb2.route[0..] == o.pathIds;
    }
  }

  lemma RingInvAfterTurn(r: Rules, w: World)
    requires BasicInv(r, w) && RingInv(r, w.node) && !Over(w.node)
    ensures RingInv(r, Advance(r, w.node))
    ensures var to := Advance(r, w.node).rb.trueRegion;
            to == w.node.rb.trueRegion || Joined(r.m, w.node.rb.trueRegion, to)
  {
    var n := w.node;
    var s := StagesOf(r, BoardOf(n), n.pending, n.currentTurn);
    RingBearerOnCourse(r, w);
    RingBearerAfterTurn(r, n);
    TravelStaysOnCourse(r.m, s.paths6, RbTraveller(s.rb2));
    hide StagesOf, Advance, Travel;
  }

  lemma DestroyOrderMeansArrived(r: Rules, w: World)
    requires BasicInv(r, w) && RingInv(r, w.node)
    requires DestroyRequested(w.node.pending)
    ensures w.node.rb.trueRegion == MOUNT_DOOM
  {
    var o :| o in w.node.pending && o.kind == DestroyRing;
    assert AcceptedNow(r, w.node.cache, o);
    hide BasicInv;
    var raw :| Parsed(raw) == o && Validate(r, w.node.cache, raw) == Accepted;
    assert KindCode(r, w.node.cache, raw) == Accepted;
  }

  lemma CoveredAfterTurn(r: Rules, home: string, w: World)
    requires Playable(r)
    requires BasicInv(r, w) && RingInv(r, w.node) && SpeedInv(r, home, w.node) && !Over(w.node)
    ensures var n' := Advance(r, w.node);
            MinTurns(r.adj, home, n'.rb.trueRegion) >= 0 && Covered(r, home, RbTraveller(n'.rb)) <= w.node.cache.turn
  {
    hide Playable;
    var s := StagesOf(r, BoardOf(w.node), w.node.pending, w.node.currentTurn);
    RingBearerOnCourse(r, w);
    RingBearerAfterTurn(r, w.node);
    hide BasicInv, RingInv, Advance, StagesOf, Travel, OnCourse, MinTurns;
    OneTurnCoversOne(r, s.paths6, home, RbTraveller(s.rb2));
  }

  lemma SpeedInvAfterTurn(r: Rules, home: string, w: World)
    requires Playable(r)
    requires BasicInv(r, w) && RingInv(r, w.node) && SpeedInv(r, home, w.node) && !Over(w.node)
    ensures SpeedInv(r, home, Advance(r, w.node))
  {
    hide Playable, Advance, StagesOf, Travel, MinTurns, LogInv, Known, DestroyRequested;
    var n := w.node;
    CoveredAfterTurn(r, home, w);
    RingBearerAfterTurn(r, n);
    ClockAfterAdvance(r, n);
    if DestroyRequested(n.pending) {
      DestroyOrderMeansArrived(r, w);
    }
  }

  // ----- theorems about every game -------------------------------------------

  lemma {:induction false} JourneyInv(r: Rules, ringBearerId: string, actions: seq<Action>)
    requires Playable(r)
    ensures RingInv(r, Game(r, ringBearerId, actions).node)
    ensures SpeedInv(r, UnitCfg(r.g, ringBearerId).startRegion, Game(r, ringBearerId, actions).node)
  {
    hide Playable;
    var home := UnitCfg(r.g, ringBearerId).startRegion;
    if actions == [] {
      MinTurnsHome(r, home);
    } else {
      var init, last := actions[..|actions| - 1], actions[|actions| - 1];
      var w := Game(r, ringBearerId, init);
      JourneyInv(r, ringBearerId, init);
      BasicInvHolds(r, ringBearerId, init);
      JourneyInvNext(r, home, w, last);
    }
  }

  lemma MinTurnsHome(r: Rules, home: string)
    requires NonNegative(r.adj)
    ensures MinTurns(r.adj, home, home) == 0
  {
    assert IsWalk(r.adj, home, [], home) && Cost([]) == 0;
    MinTurnsBound(r.adj, home, [], home);
  }

  lemma JourneyInvNext(r: Rules, home: string, w: World, a: Action)
    requires Playable(r)
    requires BasicInv(r, w) && RingInv(r, w.node) && SpeedInv(r, home, w.node)
    ensures RingInv(r, Next(r, w, a).node) && SpeedInv(r, home, Next(r, w, a).node)
  {
    hide Playable, Advance, Buffer, Admit, OnCourse, MinTurns, Known, LogInv;
    match a {
      case Submit(raw) =>
      case Deliver(i) =>
        if i < |w.validated| {
          ClockAfterBuffer(w.node, w.validated[i]);
        }
      case EndOfTurn =>
        ClockAfterAdvance(r, w.node);
        if !Over(w.node) {
          RingInvAfterTurn(r, w);
          SpeedInvAfterTurn(r, home, w);
        }
    }
  }

  /** Turns only pass by being played. */
  lemma {:induction false} ClockCountsTurns(r: Rules, ringBearerId: string, actions: seq<Action>)
    requires Playable(r)
    ensures Game(r, ringBearerId, actions).node.cache.turn - 1 <= TurnsEnded(actions)
    ensures !Over(Game(r, ringBearerId, actions).node) ==>
              Game(r, ringBearerId, actions).node.cache.turn - 1 == TurnsEnded(actions)
  {
    hide Playable;
    if actions != [] {
      var init, last := actions[..|actions| - 1], actions[|actions| - 1];
      var w := Game(r, ringBearerId, init);
      ClockCountsTurns(r, ringBearerId, init);
      BasicInvHolds(r, ringBearerId, init);
      hide Advance, Buffer, Admit, Known, LogInv;
      match last {
        case Submit(raw) =>
        case Deliver(i) =>
          if i < |w.validated| { ClockAfterBuffer(w.node, w.validated[i]); }
        case EndOfTurn =>
          ClockAfterAdvance(r, w.node);
      }
    }
  }

  /** Speed limit: after any play of k turns the Ring Bearer is at most k turns of
      travel from where he started, however often he was redirected. */
  lemma SpeedLimit(r: Rules, ringBearerId: string, actions: seq<Action>)
    requires Playable(r)
    ensures 0 <= MinTurns(r.adj, UnitCfg(r.g, ringBearerId).startRegion,
        Game(r, ringBearerId, actions).node.rb.trueRegion)
              <= TurnsEnded(actions)
  {
    hide Playable, Game, MinTurns;
    JourneyInv(r, ringBearerId, actions);
    ClockCountsTurns(r, ringBearerId, actions);
  }

  /** The Ring is never destroyed before one more turn than the least travel time
      to Mount Doom has been played, and never if there is no way there. */
  lemma NoEarlyDestruction(r: Rules, ringBearerId: string, actions: seq<Action>)
    requires Playable(r)
    requires Game(r, ringBearerId, actions).node.cache.session.winner == RingDestroyed
    ensures Reachable(r.adj, UnitCfg(r.g, ringBearerId).startRegion, MOUNT_DOOM)
    ensures MinTurns(r.adj, UnitCfg(r.g, ringBearerId).startRegion, MOUNT_DOOM) + 1
              <= Game(r, ringBearerId, actions).node.cache.session.turn <= TurnsEnded(actions)
  {
    hide Playable, Game;
    JourneyInv(r, ringBearerId, actions);
    BasicInvHolds(r, ringBearerId, actions);
    ClockCountsTurns(r, ringBearerId, actions);
  }

  /** In every turn of every game the Ring Bearer stays or crosses one edge. */
  lemma RingBearerCrossesEdges(r: Rules, ringBearerId: string, actions: seq<Action>)
    requires Playable(r)
    ensures var from := Game(r, ringBearerId, actions).node.rb.trueRegion;
            var to := Game(r, ringBearerId, actions + [EndOfTurn]).node.rb.trueRegion;
            from == to || exists e :: e in EdgesFrom(r.adj, from) && e.to == to
  {
    hide Playable;
    var w := Game(r, ringBearerId, actions);
    assert (actions + [EndOfTurn])[..|actions|] == actions;
    assert Game(r, ringBearerId, actions + [EndOfTurn]).node == Advance(r, w.node);
    hide Game, Advance, RingInv, BasicInv, SpeedInv, Joined;
    JourneyInv(r, ringBearerId, actions);
    BasicInvHolds(r, ringBearerId, actions);
    TurnCrossesOneEdge(r, w);
  }

  lemma TurnCrossesOneEdge(r: Rules, w: World)
    requires Playable(r) && BasicInv(r, w) && RingInv(r, w.node)
    ensures var from, to := w.node.rb.trueRegion, Advance(r, w.node).rb.trueRegion;
            from == to || exists e :: e in EdgesFrom(r.adj, from) && e.to == to
  {
    hide Playable;
    var from, to := w.node.rb.trueRegion, Advance(r, w.node).rb.trueRegion;
    hide Advance, OnCourse, LogInv, Known;
    ClockAfterAdvance(r, w.node);
    if !Over(w.node) {
      RingInvAfterTurn(r, w);
      hide RingInv, BasicInv;
      if from != to {
        JoinedByEdge(r, from, to);
      }
    }
  }

  lemma JoinedByEdge(r: Rules, from: string, to: string)
    requires Playable(r) && Joined(r.m, from, to)
    ensures exists e :: e in EdgesFrom(r.adj, from) && e.to == to
  {
    var id :| id in r.m.paths && Joins(r.m.paths[id], from, to);
    assert IsPathEdge(r.m, from, Edge(to, id, r.m.paths[id].cost));
  }
}
