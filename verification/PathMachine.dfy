/** The status machine of the paths over whole games. */
module PathMachine {
  import opened Config
  import opened State
  import opened Steps
  import opened Turn
  import opened Ingest
  import opened Processor
  import opened Runs

  // ----- the invariant of one path -------------------------------------------

  /** What holds of a path at every moment, within a turn as well. */
  predicate PathOk(p: Path) {
    && (p.blockedBy != "" <==> p.status == Blocked || p.status == TemporarilyOpen)
    && (p.status == Threatened ==> p.surveillance >= 1)
    && 0 <= p.surveillance <= 3
    && (p.status == TemporarilyOpen ==> 1 <= p.tempOpenTurns <= 2)
  }

  /** Between turns an opened path has exactly one turn left. */
  predicate PathOkBetweenTurns(p: Path) {
    PathOk(p) && (p.status == TemporarilyOpen ==> p.tempOpenTurns == 1)
  }

  predicate PathsOk(paths: Paths) {
    forall id | id in paths :: PathOk(paths[id])
  }

  predicate PathsOkBetweenTurns(paths: Paths) {
    forall id | id in paths :: PathOkBetweenTurns(paths[id])
  }

  predicate NoLessWatched(before: Paths, after: Paths) {
    before.Keys == after.Keys && forall id | id in before :: before[id].surveillance <= after[id].surveillance
  }

  /** A path that is open for a time has been so since before step 3. */
  predicate StillOpen(before: Paths, after: Paths) {
    && before.Keys == after.Keys
    && forall id | id in after && after[id].status == TemporarilyOpen ::
         before[id].status == TemporarilyOpen && before[id].tempOpenTurns == after[id].tempOpenTurns
         && before[id].blockedBy == after[id].blockedBy
  }

  predicate NamedOrders(orders: seq<Order>) {
    forall o | o in orders :: o.unit != ""
  }

  lemma PathOrderKeeps(g: GameConfig, m: MapConfig, units: Units, p: Path, o: Order)
    requires PathOk(p) && o.unit != ""
    ensures PathOk(BlockPathOrder(g, m, units, p, o)) && PathOk(SearchPathOrder(p))
    ensures BlockPathOrder(g, m, units, p, o).status == TemporarilyOpen ==> BlockPathOrder(g, m, units, p, o) == p
    ensures var q := SearchPathOrder(p);
            q.status == TemporarilyOpen ==>
              p.status == TemporarilyOpen && q.tempOpenTurns == p.tempOpenTurns && q.blockedBy == p.blockedBy
    ensures p.surveillance <= BlockPathOrder(g, m, units, p, o).surveillance
    ensures p.surveillance <= SearchPathOrder(p).surveillance
  {}

  lemma OnePathOrderKeeps(g: GameConfig, m: MapConfig, units: Units, paths: Paths, o: Order)
    requires PathsOk(paths) && o.unit != ""
    ensures var after := PathOrder(g, m, units, paths, o);
            PathsOk(after) && NoLessWatched(paths, after) && StillOpen(paths, after)
  {
    hide BlockPathOrder, SearchPathOrder, PathOk;
    if o.targetPath in paths {
      PathOrderKeeps(g, m, units, paths[o.targetPath], o);
    }
  }

  lemma StillOpenTransitive(a: Paths, b: Paths, c: Paths)
    requires NoLessWatched(a, b) && StillOpen(a, b) && NoLessWatched(b, c) && StillOpen(b, c)
    ensures NoLessWatched(a, c) && StillOpen(a, c)
  {}

  lemma {:induction false} PathOrdersKeep(g: GameConfig, m: MapConfig, units: Units, paths: Paths, orders: seq<Order>)
    requires PathsOk(paths) && NamedOrders(orders)
    ensures var after := PathOrders(g, m, units, paths, orders);
            PathsOk(after) && NoLessWatched(paths, after) && StillOpen(paths, after)
  {
    if orders != [] {
      hide PathOrder, PathsOk, NoLessWatched, StillOpen;
      var init, last := orders[..|orders| - 1], orders[|orders| - 1];
      assert last in orders;
      PathOrdersKeep(g, m, units, paths, init);
      var mid := PathOrders(g, m, units, paths, init);
      OnePathOrderKeeps(g, m, units, mid, last);
      StillOpenTransitive(paths, mid, PathOrder(g, m, units, mid, last));
    }
  }

  /** The order blocks the path: its unit stands at one end, and no enemy guard at either. */
  predicate Blocks(g: GameConfig, m: MapConfig, units: Units, o: Order, id: string) {
    && o.kind == BlockPath && o.targetPath == id
    && AtEndpoint(UnitAt(units, o.unit).region, PathCfg(m, id))
    && forall x | x in units && units[x].status == Active && AtEndpoint(units[x].region, PathCfg(m, id)) ::
         UnitCfg(g, x).class_ != FellowshipGuard || UnitCfg(g, x).side == UnitCfg(g, o.unit).side
  }

  predicate SomeBlock(g: GameConfig, m: MapConfig, units: Units, orders: seq<Order>, id: string) {
    exists o :: o in orders && Blocks(g, m, units, o, id)
  }

  /** How many of the orders search the path. */
  function Searches(orders: seq<Order>, id: string): nat {
    if orders == [] then 0
    else
      var last := orders[|orders| - 1];
      Searches(orders[..|orders| - 1], id) + if last.kind == SearchPath && last.targetPath == id then 1 else 0
  }

  /** What the orders of step 3 make of a path: each search raises its surveillance
      up to 3, and it is blocked by somebody at its end if one of them blocks it. */
  predicate Ordered(m: MapConfig, units: Units, id: string, blocked: bool, searches: nat, p: Path, q: Path) {
    && q.surveillance == (if p.surveillance + searches <= 3 then p.surveillance + searches else 3)
    && q.tempOpenTurns == p.tempOpenTurns
    && if blocked then q.status == Blocked && AtEndpoint(UnitAt(units, q.blockedBy).region, PathCfg(m, id))
       else q.blockedBy == p.blockedBy && q.status == if p.status == Open && searches > 0 then Threatened else p.status
  }

  lemma {:induction false} PathThroughOrders(
      g: GameConfig, m: MapConfig, units: Units, paths: Paths, orders: seq<Order>, id: string)
    requires id in paths && 0 <= paths[id].surveillance <= 3
    ensures id in PathOrders(g, m, units, paths, orders)
    ensures var after := PathOrders(g, m, units, paths, orders);
            Ordered(m, units, id, SomeBlock(g, m, units, orders, id), Searches(orders, id), paths[id], after[id])
  {
    if orders != [] {
      hide PathOrder, Blocks, SomeBlock, Ordered;
      var init, last := orders[..|orders| - 1], orders[|orders| - 1];
      assert orders == init + [last];
      PathThroughOrders(g, m, units, paths, init, id);
      OneMoreOrder(g, m, units, init, last, id);
      OneOrderOnPath(g, m, units, paths[id], PathOrders(g, m, units, paths, init), init, last, id);
    }
  }

  lemma OneOrderOnPath(
      g: GameConfig, m: MapConfig, units: Units, p: Path, mid: Paths, init: seq<Order>, last: Order, id: string)
    requires id in mid && 0 <= p.surveillance <= 3
    requires Ordered(m, units, id, SomeBlock(g, m, units, init, id), Searches(init, id), p, mid[id])
    ensures var searched := last.kind == SearchPath && last.targetPath == id;
            var after := PathOrder(g, m, units, mid, last);
            id in after &&
            Ordered(m, units, id, SomeBlock(g, m, units, init, id) || Blocks(g, m, units, last, id),
                    Searches(init, id) + if searched then 1 else 0, p, after[id])
  {
    hide SomeBlock, Searches;
  }

  lemma OneMoreOrder(g: GameConfig, m: MapConfig, units: Units, init: seq<Order>, last: Order, id: string)
    ensures SomeBlock(g, m, units, init + [last], id)
       <==> SomeBlock(g, m, units, init, id) || Blocks(g, m, units, last, id)
  {
    hide Blocks;
    if o :| o in init && Blocks(g, m, units, o, id) { assert o in init + [last]; }
    assert last in init + [last];
  }

  lemma ReleaseKeeps(m: MapConfig, units: Units, paths: Paths)
    requires PathsOk(paths)
    ensures var after := ReleasePaths(m, units, paths);
            PathsOk(after) && NoLessWatched(paths, after) && StillOpen(paths, after)
    ensures BlockersInPlace(m, units, ReleasePaths(m, units, paths))
  {}

  /** Every blocked path has its blocker standing at one of its ends. */
  predicate BlockersInPlace(m: MapConfig, units: Units, paths: Paths) {
    forall id | id in paths && paths[id].status == Blocked ::
      paths[id].blockedBy in units && AtEndpoint(units[paths[id].blockedBy].region, PathCfg(m, id))
  }

  /** A path that is open for a time either was so before, or has just been opened. */
  predicate OpenedOrStillOpen(before: Paths, after: Paths) {
    && before.Keys == after.Keys
    && forall id | id in after ::
         && (after[id].status == TemporarilyOpen ==> after[id].tempOpenTurns == 2 || after[id] == before[id])
         && (before[id].status == TemporarilyOpen ==> after[id] == before[id])
         && after[id].blockedBy == before[id].blockedBy
  }

  lemma {:induction false} MaiaOrdersKeep(
      g: GameConfig, m: MapConfig, units: Units, paths: Paths, disabled: set<string>, orders: seq<Order>)
    requires PathsOk(paths)
    ensures var after := MaiaOrders(g, m, units, paths, disabled, orders).1;
            PathsOk(after) && NoLessWatched(paths, after) && OpenedOrStillOpen(paths, after)
  {
    if orders != [] {
      var init, last := orders[..|orders| - 1], orders[|orders| - 1];
      MaiaOrdersKeep(g, m, units, paths, disabled, init);
      var us, mid := MaiaOrders(g, m, units, paths, disabled, init).0, MaiaOrders(g, m, units, paths, disabled, init).1;
      var after := MaiaOrder(g, m, us, mid, disabled, last).1;
      forall id | id in after
        ensures PathOk(after[id]) && mid[id].surveillance <= after[id].surveillance
        ensures after[id] == mid[id] || (mid[id].status != TemporarilyOpen && after[id].blockedBy == mid[id].blockedBy)
        ensures after[id].status == TemporarilyOpen ==> after[id].tempOpenTurns == 2 || after[id] == mid[id]
      {
        assert PathOk(mid[id]);
      }
    }
  }

  /** An opened path keeps its blocker, who gets it back after the last turn. */
  predicate Ticked(before: Paths, after: Paths) {
    && before.Keys == after.Keys
    && forall id | id in before && before[id].status == TemporarilyOpen ::
         && after[id].blockedBy == before[id].blockedBy != ""
         && after[id].status == if before[id].tempOpenTurns == 1 then Blocked else TemporarilyOpen
  }

  /** Expiry always finds a blocker: the path goes back to blocked, never to open. */
  lemma TickKeeps(paths: Paths)
    requires PathsOk(paths)
    ensures PathsOkBetweenTurns(TickPaths(paths)) && NoLessWatched(paths, TickPaths(paths))
    ensures Ticked(paths, TickPaths(paths))
  {}

  // ----- one turn ------------------------------------------------------------

  lemma PathsThroughTurn(r: Rules, b: Board, orders: seq<Order>, turn: int)
    requires PathsOkBetweenTurns(b.paths) && NamedOrders(orders)
    ensures var s := StagesOf(r, b, orders, turn);
            && PathsOk(s.paths3) && NoLessWatched(b.paths, s.paths3) && StillOpen(b.paths, s.paths3)
            && BlockersInPlace(r.m, s.units2, s.paths3)
            && PathsOk(s.paths6) && NoLessWatched(s.paths3, s.paths6) && OpenedOrStillOpen(s.paths3, s.paths6)
            && PathsOkBetweenTurns(s.paths9) && NoLessWatched(s.paths6, s.paths9)
            && s.paths9 == TickPaths(s.paths6)
  {
    var s := StagesOf(r, b, orders, turn);
    var ordered := PathOrders(r.g, r.m, s.units2, b.paths, orders);
    assert s.paths3 == ReleasePaths(r.m, s.units2, ordered);
    assert s.paths6 == MaiaOrders(r.g, r.m, s.units4, s.paths3, b.disabled, orders).1;
    assert s.paths9 == TickPaths(s.paths6);
    hide StagesOf, PathOrders, ReleasePaths, MaiaOrders, TickPaths, PathOk;
    PathOrdersKeep(r.g, r.m, s.units2, b.paths, orders);
    ReleaseKeeps(r.m, s.units2, ordered);
    MaiaOrdersKeep(r.g, r.m, s.units4, s.paths3, b.disabled, orders);
    TickKeeps(s.paths6);
  }

  lemma PendingIsNamed(r: Rules, w: World)
    requires BasicInv(r, w)
    ensures NamedOrders(w.node.pending)
  {}

  /** The stages of the turn that is played next. */
  ghost function NextStages(r: Rules, n: Node): Stages {
    StagesOf(r, BoardOf(n), n.pending, n.currentTurn)
  }

  lemma PathsAfterAdvance(r: Rules, n: Node)
    requires ClockInv(n) && !Over(n)
    ensures Advance(r, n).cache.paths == NextStages(r, n).paths9
  {
    hide RouteOrders, BlockAndSearch, MoveOrders, FortifyOrders, MaiaOrders, AttackOrders, AdvanceUnits,
      AdvanceRingBearer, TickPaths, TickRegions, TickUnits, RingBearerDetected, WinnerOf;
  }

  lemma PathInvariantNext(r: Rules, w: World, a: Action)
    requires BasicInv(r, w) && PathsOkBetweenTurns(w.node.cache.paths)
    ensures PathsOkBetweenTurns(Next(r, w, a).node.cache.paths)
    ensures NoLessWatched(w.node.cache.paths, Next(r, w, a).node.cache.paths)
  {
    hide Advance, Buffer, Admit, PathOkBetweenTurns, Known, LogInv, StagesOf;
    match a {
      case Submit(raw) =>
      case Deliver(i) =>
        if i < |w.validated| { ClockAfterBuffer(w.node, w.validated[i]); }
      case EndOfTurn =>
        ClockAfterAdvance(r, w.node);
        if !Over(w.node) {
          PendingIsNamed(r, w);
          PathsAfterAdvance(r, w.node);
          PathsThroughTurn(r, BoardOf(w.node), w.node.pending, w.node.currentTurn);
        }
    }
  }

  // ----- theorems about every game -------------------------------------------

  /** Between turns, in every game: a path names a blocker exactly while it is
      blocked or opened for a time, is marked threatened only under surveillance,
      and an opened path has one turn left. */
  lemma {:induction false} PathInvariant(r: Rules, ringBearerId: string, actions: seq<Action>)
    requires Playable(r)
    ensures PathsOkBetweenTurns(Game(r, ringBearerId, actions).node.cache.paths)
  {
    hide Playable;
    if actions != [] {
      var init, last := actions[..|actions| - 1], actions[|actions| - 1];
      PathInvariant(r, ringBearerId, init);
      BasicInvHolds(r, ringBearerId, init);
      PathInvariantNext(r, Game(r, ringBearerId, init), last);
    }
  }

  /** No action of any game lowers the surveillance of a path. */
  lemma SurveillanceNeverFalls(r: Rules, ringBearerId: string, actions: seq<Action>, a: Action)
    requires Playable(r)
    ensures NoLessWatched(Game(r, ringBearerId, actions).node.cache.paths,
        Game(r, ringBearerId, actions + [a]).node.cache.paths)
  {
    hide Playable;
    assert (actions + [a])[..|actions|] == actions;
    PathInvariant(r, ringBearerId, actions);
    BasicInvHolds(r, ringBearerId, actions);
    PathInvariantNext(r, Game(r, ringBearerId, actions), a);
  }

  /** Within every turn of every game: after step 3 each blocked path is held by a
      unit at one of its ends, and a path whose time runs out in step 9 goes back
      to its blocker, so the branch that would reopen it is never taken. */
  lemma BlockersHoldTheirPaths(r: Rules, ringBearerId: string, actions: seq<Action>)
    requires Playable(r)
    ensures var s := NextStages(r, Game(r, ringBearerId, actions).node);
            && BlockersInPlace(r.m, s.units2, s.paths3)
            && (forall id | id in s.paths6 && s.paths6[id].status == TemporarilyOpen :: s.paths6[id].blockedBy != "")
            && (forall id ::
                  id in s.paths6 && s.paths6[id].status == TemporarilyOpen && s.paths6[id].tempOpenTurns == 1 ==>
                    s.paths9[id].status == Blocked)
  {
    hide Playable;
    var w := Game(r, ringBearerId, actions);
    var s := NextStages(r, w.node);
    PathInvariant(r, ringBearerId, actions);
    BasicInvHolds(r, ringBearerId, actions);
    PendingIsNamed(r, w);
    PathsThroughTurn(r, BoardOf(w.node), w.node.pending, w.node.currentTurn);
    TickKeeps(s.paths6);
    hide Game, StagesOf, TickPaths;
    forall id | id in s.paths6 ensures PathOk(s.paths6[id]) {}
  }

  // ----- the two turns of an opened path -------------------------------------

  /** A path is passable when it is not blocked as units travel in step 7. */
  predicate Passable(s: Stages, id: string) {
    id in s.paths6 && s.paths6[id].status != Blocked
  }

  /** The named unit stands at an end of the path before the turn. */
  predicate StandsAt(r: Rules, n: Node, id: string, blocker: string) {
    blocker in n.cache.units && AtEndpoint(n.cache.units[blocker].region, PathCfg(r.m, id))
  }

  /** An order that blocks the path waits for the turn. */
  predicate BlockWaits(r: Rules, n: Node, id: string) {
    SomeBlock(r.g, r.m, n.cache.units, n.pending, id)
  }

  /** The world in which the next turn is played: only orders came in between. */
  ghost predicate FollowsTurn(r: Rules, w: World, w': World) {
    BasicInv(r, w') && !Over(w.node) && !Over(w'.node) && w'.node.cache == Advance(r, w.node).cache
  }

  predicate OnlyOrders(actions: seq<Action>) {
    EndOfTurn !in actions
  }

  lemma {:induction false} OrdersKeepTheCache(r: Rules, ringBearerId: string, actions: seq<Action>, more: seq<Action>)
    requires OnlyOrders(more)
    ensures Game(r, ringBearerId, actions + more).node.cache == Game(r, ringBearerId, actions).node.cache
  {
    hide Advance, Buffer, Admit, Start;
    if more == [] {
      assert actions + more == actions;
    } else {
      var init, last := more[..|more| - 1], more[|more| - 1];
      OrdersKeepTheCache(r, ringBearerId, actions, init);
      assert (actions + more)[..|actions + more| - 1] == actions + init;
      OrderKeepsTheCache(r, Game(r, ringBearerId, actions + init), last);
    }
  }

  lemma OrderKeepsTheCache(r: Rules, w: World, a: Action)
    requires a != EndOfTurn
    ensures Next(r, w, a).node.cache == w.node.cache
  {
    hide Buffer, Admit, Advance;
    if a.Deliver? && a.index < |w.validated| {
      BufferAddsOnly(w.node, w.validated[a.index]);
    }
  }

  /** Two turns of a game with nothing but orders in between follow each other. */
  lemma TurnFollows(r: Rules, ringBearerId: string, actions: seq<Action>, more: seq<Action>)
    requires Playable(r) && OnlyOrders(more)
    requires !Over(Game(r, ringBearerId, actions).node)
        && !Over(Game(r, ringBearerId, actions + [EndOfTurn] + more).node)
    ensures FollowsTurn(r, Game(r, ringBearerId, actions), Game(r, ringBearerId, actions + [EndOfTurn] + more))
  {
    hide Playable;
    OneMoreAction(r, ringBearerId, actions, EndOfTurn);
    hide Game, Advance, BasicInv;
    OrdersKeepTheCache(r, ringBearerId, actions + [EndOfTurn], more);
    BasicInvHolds(r, ringBearerId, actions + [EndOfTurn] + more);
  }

  lemma StagesOfWorld(r: Rules, w: World)
    requires BasicInv(r, w) && PathsOkBetweenTurns(w.node.cache.paths) && !Over(w.node)
    ensures var s := NextStages(r, w.node);
            && s.paths9 == Advance(r, w.node).cache.paths && Ticked(s.paths6, s.paths9)
            && PathsOk(s.paths3) && StillOpen(w.node.cache.paths, s.paths3)
            && PathsOk(s.paths6) && OpenedOrStillOpen(s.paths3, s.paths6)
            && PathsOkBetweenTurns(s.paths9)
            && s.paths3.Keys == s.paths6.Keys == w.node.cache.paths.Keys == r.m.paths.Keys
  {
    PendingIsNamed(r, w);
    PathsAfterAdvance(r, w.node);
    PathsThroughTurn(r, BoardOf(w.node), w.node.pending, w.node.currentTurn);
    TickKeeps(NextStages(r, w.node).paths6);
    hide StagesOf, Advance, TickPaths;
  }

  predicate SamePlaces(a: Units, b: Units) {
    a.Keys == b.Keys && forall id | id in a :: a[id].region == b[id].region && a[id].status == b[id].status
  }

  lemma {:induction false} RoutesKeepPlaces(g: GameConfig, units: Units, rb: RingBearerState, orders: seq<Order>)
    ensures SamePlaces(units, RouteOrders(g, units, rb, orders).0)
  {
    if orders != [] { RoutesKeepPlaces(g, units, rb, orders[..|orders| - 1]); }
  }

  lemma BlocksByPlaces(g: GameConfig, m: MapConfig, a: Units, b: Units, orders: seq<Order>, id: string)
    requires SamePlaces(a, b)
    ensures SomeBlock(g, m, a, orders, id) <==> SomeBlock(g, m, b, orders, id)
  {
    forall o ensures Blocks(g, m, a, o, id) <==> Blocks(g, m, b, o, id) {
      forall x | x in a
        ensures IsGuard(g, a, x, PathCfg(m, id), UnitCfg(g, o.unit).side)
           <==> IsGuard(g, b, x, PathCfg(m, id), UnitCfg(g, o.unit).side) {}
      hide IsGuard;
    }
    hide Blocks;
  }

  /** The path is blocked when step 3 is over: a waiting order blocks it, or it was
      blocked before and its blocker has stayed. */
  predicate BlockedThisTurn(r: Rules, n: Node, id: string) {
    || BlockWaits(r, n, id)
    || ( && id in n.cache.paths && n.cache.paths[id].status == Blocked
         && StandsAt(r, n, id, n.cache.paths[id].blockedBy) )
  }

  lemma StageThree(r: Rules, n: Node)
    ensures var s := NextStages(r, n);
            && s.units2 == RouteOrders(r.g, n.cache.units, n.rb, n.pending).0
            && s.paths3 == ReleasePaths(r.m, s.units2, PathOrders(r.g, r.m, s.units2, n.cache.paths, n.pending))
  {
    hide RouteOrders, PathOrders, ReleasePaths, MoveOrders, FortifyOrders, MaiaOrders, AttackOrders, AdvanceUnits,
      AdvanceRingBearer, TickPaths, TickRegions, TickUnits;
  }

  /** All that step 3 does to a path p, q being the outcome. */
  lemma StepThree(r: Rules, n: Node, id: string)
    requires Playable(r) && id in r.m.paths && id in n.cache.paths && PathOk(n.cache.paths[id])
    ensures id in NextStages(r, n).paths3
    ensures var p, q, k := n.cache.paths[id], NextStages(r, n).paths3[id], Searches(n.pending, id);
            && q.surveillance == (if p.surveillance + k <= 3 then p.surveillance + k else 3)
            && q.tempOpenTurns == p.tempOpenTurns
            && (q.status == Blocked <==> BlockedThisTurn(r, n, id))
            && (q.status == TemporarilyOpen <==> p.status == TemporarilyOpen && !BlockWaits(r, n, id))
            && (q.status == Threatened <==>
                  && !BlockedThisTurn(r, n, id)
                  && (|| p.status == Threatened
                      || (p.status == Open && k > 0)
                      || (p.status == Blocked && q.surveillance > 0)))
            && (p.blockedBy != "" && !BlockWaits(r, n, id) && (p.status == Blocked ==> BlockedThisTurn(r, n, id)) ==>
                  q.blockedBy == p.blockedBy)
  {
    var s := NextStages(r, n);
    assert PathCfg(r.m, id).from != "" && PathCfg(r.m, id).to != "";
    hide Playable, NextStages, PathOrders, RouteOrders, SomeBlock, PathCfg, Searches;
    StageThree(r, n);
    RoutesKeepPlaces(r.g, n.cache.units, n.rb, n.pending);
    BlocksByPlaces(r.g, r.m, n.cache.units, s.units2, n.pending, id);
    PathThroughOrders(r.g, r.m, s.units2, n.cache.paths, n.pending, id);
  }
}
