/** When the Ring Bearer gets where: the exact timetable of an accepted route, as
    the engine travels it and as the interception analysis predicts it. */
module Timetable {
  import opened Walks
  import opened Config
  import opened State
  import opened Steps
  import opened Turn
  import opened Ingest
  import opened Processor
  import opened Runs
  import opened Journey
  import opened PathMachine

  /** The turns one path takes. */
  function LegTime(cost: int): nat {
    if cost <= 0 then 1 else cost
  }

  /** The turns the first `i` paths take together. */
  function LegsTime(m: MapConfig, ids: seq<string>, i: nat): nat
    requires i <= |ids|
  {
    if i == 0 then 0 else LegsTime(m, ids, i - 1) + LegTime(PathCfg(m, ids[i - 1]).cost)
  }

  /** The region the first `i` paths lead to. */
  function Stop(m: MapConfig, home: string, ids: seq<string>, i: nat): string
    requires i <= |ids|
  {
    if i == 0 then home else OtherEnd(Stop(m, home, ids, i - 1), PathCfg(m, ids[i - 1]))
  }

  lemma {:induction false} LegsTimeGrows(m: MapConfig, ids: seq<string>, i: nat, j: nat)
    requires i < j <= |ids|
    ensures LegsTime(m, ids, i) < LegsTime(m, ids, j)
  {
    if i < j - 1 { LegsTimeGrows(m, ids, i, j - 1); }
  }

  /** Where a traveller who left `home` on the route `ids` k turns ago should be. */
  predicate OnTime(m: MapConfig, home: string, ids: seq<string>, k: nat, t: Traveller) {
    && t.route == ids && 0 <= t.idx <= |ids|
    && t.region == Stop(m, home, ids, t.idx)
    && LegsTime(m, ids, t.idx) <= k
    && (t.idx < |ids| ==> k < LegsTime(m, ids, t.idx + 1))
    && if t.idx < |ids| && LegsTime(m, ids, t.idx) < k
       then t.path == ids[t.idx] && t.left == LegsTime(m, ids, t.idx + 1) - k
       else t.left == 0
  }

  lemma NextLeg(m: MapConfig, home: string, ids: seq<string>, i: nat)
    requires i < |ids|
    ensures LegsTime(m, ids, i + 1) == LegsTime(m, ids, i) + LegTime(PathCfg(m, ids[i]).cost)
    ensures Stop(m, home, ids, i + 1) == OtherEnd(Stop(m, home, ids, i), PathCfg(m, ids[i]))
    ensures i + 1 < |ids| ==> LegsTime(m, ids, i + 1) < LegsTime(m, ids, i + 2)
  {}

  lemma TravelsOnTime(m: MapConfig, paths: Paths, home: string, ids: seq<string>, k: nat, t: Traveller)
    requires OnTime(m, home, ids, k, t)
    requires forall id | id in ids :: id in paths
    requires forall i | 0 <= i < |ids| && LegsTime(m, ids, i) == k :: paths[ids[i]].status != Blocked
    ensures OnTime(m, home, ids, k + 1, Travel(m, paths, t))
  {
    hide LegsTime, Stop, OtherEnd, PathCfg;
    if t.idx < |ids| {
      NextLeg(m, home, ids, t.idx);
    }
  }

  // ----- route orders of the one Ring Bearer ---------------------------------

  ghost predicate OneRingBearer(g: GameConfig, ringBearerId: string) {
    forall id :: IsRingBearer(g, id) <==> id == ringBearerId
  }

  predicate RoutesRingBearer(g: GameConfig, o: Order) {
    IsRouteOrder(o) && IsRingBearer(g, o.unit)
  }

  /** A route order for the Ring Bearer waits for the next turn. */
  predicate Rerouted(g: GameConfig, n: Node, ids: seq<string>) {
    exists o :: o in n.pending && RoutesRingBearer(g, o) && o.pathIds == ids
  }

  predicate KeepsRoute(g: GameConfig, n: Node) {
    forall o | o in n.pending :: !RoutesRingBearer(g, o)
  }

  lemma {:induction false} StatusesThroughRoutes(
      g: GameConfig, units: Units, rb: RingBearerState, orders: seq<Order>, id: string)
    ensures var us := RouteOrders(g, units, rb, orders).0;
            (id in us <==> id in units) && (id in units ==> us[id].status == units[id].status)
  {
    if orders != [] { StatusesThroughRoutes(g, units, rb, orders[..|orders| - 1], id); }
  }

  lemma {:induction false} UnroutedKeeps(g: GameConfig, units: Units, rb: RingBearerState, orders: seq<Order>)
    requires forall o | o in orders :: !RoutesRingBearer(g, o)
    ensures RouteOrders(g, units, rb, orders).1 == rb
  {
    if orders != [] {
      assert orders[|orders| - 1] in orders;
      UnroutedKeeps(g, units, rb, orders[..|orders| - 1]);
    }
  }

  /** The one route order for the Ring Bearer takes effect. */
  lemma {:induction false} RoutedOnce(g: GameConfig, units: Units, rb: RingBearerState, orders: seq<Order>, i: nat)
    requires i < |orders| && RoutesRingBearer(g, orders[i]) && orders[i].unit in units
        && units[orders[i].unit].status == Active
    requires forall j | 0 <= j < |orders| && j != i :: !RoutesRingBearer(g, orders[j])
    ensures RouteOrders(g, units, rb, orders).1 == Routed(rb, orders[i].pathIds)
  {
    var init, last := orders[..|orders| - 1], orders[|orders| - 1];
    StatusesThroughRoutes(g, units, rb, init, last.unit);
    if i < |orders| - 1 {
      RoutedOnce(g, units, rb, init, i);
    } else {
      UnroutedKeeps(g, units, rb, init);
    }
  }

  lemma RerouteTakesEffect(r: Rules, ringBearerId: string, w: World, ids: seq<string>)
    requires BasicInv(r, w) && RingInv(r, w.node) && !Over(w.node)
    requires OneRingBearer(r.g, ringBearerId) && Rerouted(r.g, w.node, ids)
    ensures NextStages(r, w.node).rb2 == Routed(w.node.rb, ids)
    ensures Connected(r.m, w.node.rb.trueRegion, ids)
  {
    hide BasicInv, Connected, AcceptedNow, RouteOrders, StagesOf, OnCourse;
    var n := w.node;
    assert n.cache.lightView.ringBearerRegion == n.rb.trueRegion;
    hide RingInv;
    var i :| 0 <= i < |n.pending| && RoutesRingBearer(r.g, n.pending[i]) && n.pending[i].pathIds == ids;
    var o := n.pending[i];
    PendingIsAccepted(r, w, i);
    AcceptedRouteIsConnected(r, n.cache, o);
    AcceptedUnitIsActive(r, n.cache, o);
    forall j | 0 <= j < |n.pending| && j != i ensures !RoutesRingBearer(r.g, n.pending[j]) {
      PendingIsAccepted(r, w, j);
    }
    RoutedOnce(r.g, n.cache.units, n.rb, n.pending, i);
    RoutedInStages(r, n);
  }

  /** A pending order was accepted in the present state, and is its unit's only one. */
  lemma PendingIsAccepted(r: Rules, w: World, i: nat)
    requires BasicInv(r, w) && i < |w.node.pending|
    ensures AcceptedNow(r, w.node.cache, w.node.pending[i])
    ensures forall j | 0 <= j < |w.node.pending| && j != i :: w.node.pending[j].unit != w.node.pending[i].unit
  {
    hide AcceptedNow, Known, ClockInv;
    assert w.node.pending[i] in w.node.pending;
  }

  lemma RoutedInStages(r: Rules, n: Node)
    ensures NextStages(r, n).rb2 == RouteOrders(r.g, n.cache.units, n.rb, n.pending).1
  {
    hide RouteOrders, BlockAndSearch, MoveOrders, FortifyOrders, MaiaOrders, AttackOrders, AdvanceUnits,
      AdvanceRingBearer, TickPaths, TickRegions, TickUnits;
  }

  lemma AcceptedUnitIsActive(r: Rules, cache: Cache, o: Order)
    requires AcceptedNow(r, cache, o)
    ensures o.unit in cache.units && cache.units[o.unit].status == Active
  {}

  // ----- the timetable -------------------------------------------------------

  /** No path that starts a leg k turns after departure is blocked in this turn. */
  ghost predicate LegsFree(r: Rules, n: Node, ids: seq<string>, k: nat) {
    forall i | 0 <= i < |ids| && LegsTime(r.m, ids, i) == k ::
      ids[i] in NextStages(r, n).paths6 && NextStages(r, n).paths6[ids[i]].status != Blocked
  }

  /** He is about to leave on a new route, and its first path is free. */
  ghost predicate Departs(r: Rules, n: Node, ids: seq<string>) {
    !Over(n) && Rerouted(r.g, n, ids) && LegsFree(r, n, ids, 0)
  }

  /** In every later turn of the game he keeps his route and finds his legs free. */
  ghost predicate Unhindered(r: Rules, ringBearerId: string, start: seq<Action>, more: seq<Action>, ids: seq<string>) {
    forall j | 0 <= j < |more| && more[j] == EndOfTurn ::
      TravelsOn(r, Game(r, ringBearerId, start + [EndOfTurn] + more[..j]).node, ids, 1 + TurnsEnded(more[..j]))
  }

  ghost predicate TravelsOn(r: Rules, n: Node, ids: seq<string>, k: nat) {
    !Over(n) && KeepsRoute(r.g, n) && LegsFree(r, n, ids, k)
  }

  lemma {:induction false} ConnectedIsConfigured(m: MapConfig, region: string, ids: seq<string>)
    requires Connected(m, region, ids)
    ensures forall id | id in ids :: id in m.paths
    decreases |ids|
  {
    if ids != [] {
      ConnectedIsConfigured(m, OtherEnd(region, m.paths[ids[0]]), ids[1..]);
      assert ids == [ids[0]] + ids[1..];
    }
  }

  lemma OnTimeAfterTurn(r: Rules, w: World, home: string, ids: seq<string>, k: nat)
    requires BasicInv(r, w) && !Over(w.node)
    requires OnTime(r.m, home, ids, k, RbTraveller(NextStages(r, w.node).rb2))
    requires forall id | id in ids :: id in r.m.paths
    requires LegsFree(r, w.node, ids, k)
    ensures OnTime(r.m, home, ids, k + 1, RbTraveller(Advance(r, w.node).rb))
  {
    RingBearerAfterTurn(r, w.node);
    KeysOfStages(r, BoardOf(w.node), w.node.pending, w.node.currentTurn);
    var s := NextStages(r, w.node);
    hide StagesOf, Advance, OnTime, Travel;
    TravelsOnTime(r.m, s.paths6, home, ids, k, RbTraveller(s.rb2));
  }

  lemma DepartsOnTime(m: MapConfig, rb: RingBearerState, ids: seq<string>)
    ensures OnTime(m, rb.trueRegion, ids, 0, RbTraveller(Routed(rb, ids)))
  {}

  lemma FirstTurn(r: Rules, ringBearerId: string, w: World, ids: seq<string>)
    requires BasicInv(r, w) && RingInv(r, w.node) && OneRingBearer(r.g, ringBearerId) && Departs(r, w.node, ids)
    ensures OnTime(r.m, w.node.rb.trueRegion, ids, 1, RbTraveller(Advance(r, w.node).rb))
    ensures forall id | id in ids :: id in r.m.paths
  {
    hide BasicInv, RingInv, NextStages, Advance, Rerouted, LegsFree, OnTime, OneRingBearer, RbTraveller, Routed;
    RerouteTakesEffect(r, ringBearerId, w, ids);
    ConnectedIsConfigured(r.m, w.node.rb.trueRegion, ids);
    DepartsOnTime(r.m, w.node.rb, ids);
    OnTimeAfterTurn(r, w, w.node.rb.trueRegion, ids, 0);
  }

  lemma FirstTurnOnTime(r: Rules, ringBearerId: string, start: seq<Action>, ids: seq<string>)
    requires Playable(r) && OneRingBearer(r.g, ringBearerId)
    requires Departs(r, Game(r, ringBearerId, start).node, ids)
    ensures OnTime(r.m, Game(r, ringBearerId, start).node.rb.trueRegion, ids, 1,
                   RbTraveller(Game(r, ringBearerId, start + [EndOfTurn]).node.rb))
    ensures forall id | id in ids :: id in r.m.paths
  {
    hide Playable;
    var w := Game(r, ringBearerId, start);
    OneMoreAction(r, ringBearerId, start, EndOfTurn);
    hide Game, BasicInv, RingInv, Advance, Departs, OnTime, OneRingBearer, RbTraveller;
    BasicInvHolds(r, ringBearerId, start);
    JourneyInv(r, ringBearerId, start);
    FirstTurn(r, ringBearerId, w, ids);
  }

  lemma LaterActionOnTime(
      r: Rules, ringBearerId: string, actions: seq<Action>, a: Action, home: string, ids: seq<string>, k: nat)
    requires Playable(r)
    requires OnTime(r.m, home, ids, k, RbTraveller(Game(r, ringBearerId, actions).node.rb))
    requires forall id | id in ids :: id in r.m.paths
    requires a == EndOfTurn ==> TravelsOn(r, Game(r, ringBearerId, actions).node, ids, k)
    ensures OnTime(r.m, home, ids, if a == EndOfTurn then k + 1 else k,
        RbTraveller(Game(r, ringBearerId, actions + [a]).node.rb))
  {
    hide Playable;
    var w := Game(r, ringBearerId, actions);
    OneMoreAction(r, ringBearerId, actions, a);
    hide Game, Admit, Advance, OnTime, LegsFree;
    if a == EndOfTurn {
      BasicInvHolds(r, ringBearerId, actions);
      UnroutedKeeps(r.g, w.node.cache.units, w.node.rb, w.node.pending);
      assert NextStages(r, w.node).rb2 == w.node.rb;
      hide NextStages;
      OnTimeAfterTurn(r, w, home, ids, k);
    }
  }

  lemma UnhinderedSoFar(
      r: Rules, ringBearerId: string, start: seq<Action>, init: seq<Action>, last: Action, ids: seq<string>)
    requires Unhindered(r, ringBearerId, start, init + [last], ids)
    ensures Unhindered(r, ringBearerId, start, init, ids)
    ensures last == EndOfTurn ==>
              TravelsOn(r, Game(r, ringBearerId, start + [EndOfTurn] + init).node, ids, 1 + TurnsEnded(init))
  {
    var more := init + [last];
    hide Game, TravelsOn, TurnsEnded;
    assert more[..|init|] == init;
    forall j | 0 <= j < |init| ensures more[..j] == init[..j] && more[j] == init[j] {}
    assert more[|init|] == last;
  }

  lemma {:induction false} StaysOnTime(
      r: Rules, ringBearerId: string, start: seq<Action>, more: seq<Action>, ids: seq<string>)
    requires Playable(r) && OneRingBearer(r.g, ringBearerId)
    requires Departs(r, Game(r, ringBearerId, start).node, ids)
    requires Unhindered(r, ringBearerId, start, more, ids)
    ensures OnTime(r.m, Game(r, ringBearerId, start).node.rb.trueRegion, ids, 1 + TurnsEnded(more),
                   RbTraveller(Game(r, ringBearerId, start + [EndOfTurn] + more).node.rb))
  {
    hide Game, OnTime, TravelsOn, Departs, Unhindered, OneRingBearer, Playable;
    FirstTurnOnTime(r, ringBearerId, start, ids);
    if more == [] {
      assert start + [EndOfTurn] + more == start + [EndOfTurn];
    } else {
      var init, last := more[..|more| - 1], more[|more| - 1];
      assert more == init + [last];
      UnhinderedSoFar(r, ringBearerId, start, init, last, ids);
      StaysOnTime(r, ringBearerId, start, init, ids);
      LaterActionOnTime(r, ringBearerId, start + [EndOfTurn] + init, last,
                        Game(r, ringBearerId, start).node.rb.trueRegion, ids, 1 + TurnsEnded(init));
      assert (start + [EndOfTurn] + init) + [last] == start + [EndOfTurn] + more;
    }
  }

  /** On time, the i-th stop has been reached exactly if enough turns have passed. */
  lemma StopReached(m: MapConfig, home: string, ids: seq<string>, k: nat, t: Traveller, i: nat)
    requires OnTime(m, home, ids, k, t) && i <= |ids|
    ensures t.idx >= i <==> k >= LegsTime(m, ids, i)
    ensures k == LegsTime(m, ids, i) ==> t.region == Stop(m, home, ids, i)
  {
    if t.idx < i {
      if t.idx + 1 < i { LegsTimeGrows(m, ids, t.idx + 1, i); }
    } else if i < t.idx {
      LegsTimeGrows(m, ids, i, t.idx);
    }
  }

  /** Exact travel time: unhindered and without new orders, the Ring Bearer has
      the i-th region of his route behind or under him exactly from the turn on
      that the costs of the first i paths add up to, and stands in it in that turn. */
  lemma ExactTravelTime(
      r: Rules, ringBearerId: string, start: seq<Action>, more: seq<Action>, ids: seq<string>, i: nat)
    requires Playable(r) && OneRingBearer(r.g, ringBearerId)
    requires Departs(r, Game(r, ringBearerId, start).node, ids)
    requires Unhindered(r, ringBearerId, start, more, ids)
    requires i <= |ids|
    ensures var rb := Game(r, ringBearerId, start + [EndOfTurn] + more).node.rb;
            var played := 1 + TurnsEnded(more);
            && (rb.routeIdx >= i <==> played >= LegsTime(r.m, ids, i))
            && (played == LegsTime(r.m, ids, i) ==>
                  rb.trueRegion == Stop(r.m, Game(r, ringBearerId, start).node.rb.trueRegion, ids, i))
  {
    hide Game, Unhindered, Departs, OnTime, OneRingBearer, Playable;
    StaysOnTime(r, ringBearerId, start, more, ids);
    StopReached(r.m, Game(r, ringBearerId, start).node.rb.trueRegion, ids, 1 + TurnsEnded(more),
                RbTraveller(Game(r, ringBearerId, start + [EndOfTurn] + more).node.rb), i);
  }

  // ----- the speed limit is attained -----------------------------------------

  lemma {:induction false} StopOfPrefix(m: MapConfig, home: string, ids: seq<string>, n: nat, i: nat)
    requires i <= n <= |ids|
    ensures Stop(m, home, ids[..n], i) == Stop(m, home, ids, i)
    ensures LegsTime(m, ids[..n], i) == LegsTime(m, ids, i)
  {
    if i > 0 { StopOfPrefix(m, home, ids, n, i - 1); }
  }

  /** Along a walk the timetable adds up its cost and leads to its end. */
  lemma {:induction false} TimetableOfWalk(adj: Adjacency, m: MapConfig, home: string, es: seq<Edge>)
    requires Represents(adj, m) && FollowsEdges(adj, home, es)
    requires forall e | e in es :: e.cost >= 1
    ensures LegsTime(m, PathIdsOf(es), |es|) == Cost(es) && Stop(m, home, PathIdsOf(es), |es|) == End(home, es)
  {
    if es != [] {
      var init, last := es[..|es| - 1], es[|es| - 1];
      TimetableOfWalk(adj, m, home, init);
      assert PathIdsOf(es)[..|init|] == PathIdsOf(init);
      StopOfPrefix(m, home, PathIdsOf(es), |init|, |init|);
      assert IsPathEdge(m, End(home, init), last);
      hide FollowsEdges;
    }
  }

  /** On a cheapest walk with costs of at least 1, the Ring Bearer arrives after
      exactly the least travel time: no faster journey exists, and this one is it. */
  lemma SpeedLimitIsAttained(
      r: Rules, ringBearerId: string, start: seq<Action>, more: seq<Action>, es: seq<Edge>, dst: string)
    requires Playable(r) && OneRingBearer(r.g, ringBearerId)
    requires Departs(r, Game(r, ringBearerId, start).node, PathIdsOf(es))
    requires Unhindered(r, ringBearerId, start, more, PathIdsOf(es))
    requires IsWalk(r.adj, Game(r, ringBearerId, start).node.rb.trueRegion, es, dst)
    requires forall e | e in es :: e.cost >= 1
    requires Cost(es) == MinTurns(r.adj, Game(r, ringBearerId, start).node.rb.trueRegion, dst) == 1 + TurnsEnded(more)
    ensures Game(r, ringBearerId, start + [EndOfTurn] + more).node.rb.trueRegion == dst
  {
    hide Game, Departs, Unhindered, MinTurns;
    TimetableOfWalk(r.adj, r.m, Game(r, ringBearerId, start).node.rb.trueRegion, es);
    ExactTravelTime(r, ringBearerId, start, more, PathIdsOf(es), |es|);
  }
}
