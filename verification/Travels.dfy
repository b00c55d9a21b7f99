/** One turn of travel in every game, for all units and for the hidden Ring Bearer:
    how far everybody gets, who is held up, and what gives the Ring Bearer away. */
module Travels {
  import opened Walks
  import opened Config
  import opened State
  import opened Steps
  import opened Turn
  import opened Ingest
  import opened Processor
  import opened Runs
  import opened Journey
  import opened PathMachine
  import opened OrderEffects
  import opened Lifecycle
  import opened Timetable

  // ----- one turn of travel --------------------------------------------------

  /** Whoever is between two regions is on the next path of his route. */
  predicate OnTrack(t: Traveller) {
    && 0 <= t.idx <= |t.route| && t.left >= 0
    && (t.left > 0 ==> t.idx < |t.route| && t.path == t.route[t.idx])
  }

  /** The turns to the end of the route, if nothing gets in the way. */
  function Remaining(m: MapConfig, t: Traveller): int
    requires OnTrack(t)
  {
    var ahead := LegsTime(m, t.route, |t.route|) - LegsTime(m, t.route, t.idx);
    if t.left > 0 then ahead - LegTime(PathCfg(m, t.path).cost) + t.left else ahead
  }

  /** He has not set out on his next path, and it is blocked or unknown. */
  predicate HeldUp(paths: Paths, t: Traveller)
    requires OnTrack(t)
  {
    && t.idx < |t.route|
    && (t.route[t.idx] !in paths || (t.left == 0 && paths[t.route[t.idx]].status == Blocked))
  }

  /** t becomes t': nothing happens at the end of the route or to who is held up;
      everybody else comes one turn nearer to the end, blocked path or not, and is in
      the next region exactly when the path's turns are over. */
  predicate Travelled(m: MapConfig, paths: Paths, t: Traveller, t': Traveller)
    requires OnTrack(t)
  {
    if t.idx == |t.route| || HeldUp(paths, t) then t' == t
    else
      var last := if t.left > 0 then t.left == 1 else PathCfg(m, t.route[t.idx]).cost <= 1;
      && OnTrack(t') && t'.route == t.route
      && Remaining(m, t') == Remaining(m, t) - 1
      && if last then t'.idx == t.idx + 1 && t'.region == OtherEnd(t.region, PathCfg(m, t.route[t.idx]))
         else t'.idx == t.idx && t'.region == t.region && t'.left > 0
  }

  lemma OneTurnOfTravel(m: MapConfig, paths: Paths, t: Traveller)
    requires OnTrack(t)
    ensures OnTrack(Travel(m, paths, t)) && Travelled(m, paths, t, Travel(m, paths, t))
  {
    hide OtherEnd, PathCfg;
    if t.idx < |t.route| { NextLeg(m, t.region, t.route, t.idx); }
  }

  // ----- units stay on their tracks ------------------------------------------

  predicate AllOnTrack(units: Units) {
    forall id | id in units :: OnTrack(UnitTraveller(units[id]))
  }

  lemma {:induction false} AbilitiesOnUnits(
      g: GameConfig, m: MapConfig, units: Units, paths: Paths, disabled: set<string>, orders: seq<Order>, id: string)
    requires id in units
    ensures var us := MaiaOrders(g, m, units, paths, disabled, orders).0;
            id in us && us[id] == units[id].(cooldown := us[id].cooldown)
  {
    if orders != [] { AbilitiesOnUnits(g, m, units, paths, disabled, orders[..|orders| - 1], id); }
  }

  lemma {:induction false} AttacksKeepTracks(g: GameConfig, m: MapConfig, f: Front, orders: seq<Order>)
    requires AllOnTrack(f.units)
    ensures AllOnTrack(AttackOrders(g, m, f, orders).units)
  {
    if orders != [] {
      hide BattleOf, AfterBattle, OnTrack;
      var init, last := orders[..|orders| - 1], orders[|orders| - 1];
      AttacksKeepTracks(g, m, f, init);
      var mid := AttackOrders(g, m, f, init);
      forall b: Battle, id | id in mid.units
        ensures OnTrack(UnitTraveller(AfterBattle(g, b, last.targetRegion, id, mid.units[id])))
      {
        BattleKeepsTrack(g, b, last.targetRegion, id, mid.units[id]);
      }
    }
  }

  lemma BattleKeepsTrack(g: GameConfig, b: Battle, target: string, id: string, u: Unit)
    requires OnTrack(UnitTraveller(u))
    ensures OnTrack(UnitTraveller(AfterBattle(g, b, target, id, u)))
  {}

  lemma LaterStages(r: Rules, n: Node)
    ensures var s := NextStages(r, n);
            && s.units6 == MaiaOrders(r.g, r.m, s.units4, s.paths3, n.disabled, n.pending).0
            && s.units7 == AdvanceUnits(r.m, s.paths6, s.units6)
            && s.front8 == AttackOrders(r.g, r.m, Front(s.units7, s.regions5, n.disabled), n.pending)
            && s.units11 == TickUnits(r.g, s.front8.units)
  {
    hide RouteOrders, BlockAndSearch, MoveOrders, FortifyOrders, MaiaOrders, AttackOrders, AdvanceUnits,
      AdvanceRingBearer, TickPaths, TickRegions, TickUnits;
  }

  /** A unit before it travels: it may have spent its ability, and had its order. */
  lemma BeforeTravel(r: Rules, n: Node, id: string)
    requires OneOrderPerUnit(n.pending) && id in n.cache.units && OnTrack(UnitTraveller(n.cache.units[id]))
    ensures var s := NextStages(r, n);
            && id in s.units4 && id in s.units6 && s.units6[id] == s.units4[id].(cooldown := s.units6[id].cooldown)
            && OnTrack(UnitTraveller(s.units6[id]))
  {
    LaterStages(r, n);
    UnitByItsOrder(r, n, id);
    var s := NextStages(r, n);
    hide NextStages, OneOrderPerUnit, Moves;
    AbilitiesOnUnits(r.g, r.m, s.units4, s.paths3, n.disabled, n.pending, id);
    if HasNoOrder(n.pending, id) {
    } else {
      var o :| o in n.pending && o.unit == id;
    }
  }

  lemma TracksUpToCombat(r: Rules, n: Node)
    requires OneOrderPerUnit(n.pending) && AllOnTrack(n.cache.units)
    ensures AllOnTrack(NextStages(r, n).units7)
  {
    hide StagesOf, OnTrack, Travel, OneOrderPerUnit, MaiaOrders, AttackOrders, TickUnits;
    LaterStages(r, n);
    KeysOfStages(r, BoardOf(n), n.pending, n.currentTurn);
    var s := NextStages(r, n);
    assert s.units7.Keys == n.cache.units.Keys;
    hide NextStages;
    forall id | id in s.units7 ensures OnTrack(UnitTraveller(s.units7[id])) {
      BeforeTravel(r, n, id);
      OneTurnOfTravel(r.m, s.paths6, UnitTraveller(s.units6[id]));
      TravelKeepsRoute(r.m, s.paths6, UnitTraveller(s.units6[id]));
    }
  }

  lemma TracksThroughTurn(r: Rules, n: Node)
    requires OneOrderPerUnit(n.pending) && AllOnTrack(n.cache.units)
    ensures AllOnTrack(NextStages(r, n).units11)
  {
    LaterStages(r, n);
    TracksUpToCombat(r, n);
    var s := NextStages(r, n);
    hide NextStages, OnTrack, AttackOrders, TickUnit;
    AttacksKeepTracks(r.g, r.m, Front(s.units7, s.regions5, n.disabled), n.pending);
    forall id | id in s.units11 ensures OnTrack(UnitTraveller(s.units11[id])) {
      TickKeepsTrack(UnitCfg(r.g, id), s.front8.units[id]);
    }
  }

  lemma TickKeepsTrack(cfg: UnitConfig, u: Unit)
    requires OnTrack(UnitTraveller(u))
    ensures OnTrack(UnitTraveller(TickUnit(cfg, u)))
  {}

  /** Between turns of every game every unit is on its track. */
  lemma {:induction false} TrackInvariant(r: Rules, ringBearerId: string, actions: seq<Action>)
    requires Playable(r)
    ensures AllOnTrack(Game(r, ringBearerId, actions).node.cache.units)
  {
    hide Playable;
    if actions != [] {
      var init, last := actions[..|actions| - 1], actions[|actions| - 1];
      var w := Game(r, ringBearerId, init);
      TrackInvariant(r, ringBearerId, init);
      BasicInvHolds(r, ringBearerId, init);
      hide Advance, Buffer, Admit, Known, LogInv, AllOnTrack, NextStages;
      match last {
        case Submit(raw) =>
        case Deliver(i) =>
          if i < |w.validated| { ClockAfterBuffer(w.node, w.validated[i]); }
        case EndOfTurn =>
          ClockAfterAdvance(r, w.node);
          if !Over(w.node) {
            UnitsAfterAdvance(r, w.node);
            TracksThroughTurn(r, w.node);
          }
      }
    }
  }

  /** In every turn of every game every active unit, once it has had its order, travels
      by one turn of its route or is held up, and changes in nothing else; the others
      stay as they are. */
  lemma UnitsTravel(r: Rules, ringBearerId: string, actions: seq<Action>, id: string)
    requires Playable(r) && id in r.g.units
    ensures var s := NextStages(r, Game(r, ringBearerId, actions).node);
            && id in s.units6 && id in s.units7 && OnTrack(UnitTraveller(s.units6[id]))
            && var u, v := s.units6[id], s.units7[id];
               if u.status != Active then v == u
               else && Travelled(r.m, s.paths6, UnitTraveller(u), UnitTraveller(v))
                    && v == u.(region := v.region, routeIdx := v.routeIdx, travelPath := v.travelPath,
                               travelLeft := v.travelLeft)
  {
    hide Playable;
    var n := Game(r, ringBearerId, actions).node;
    BasicInvHolds(r, ringBearerId, actions);
    TrackInvariant(r, ringBearerId, actions);
    hide Game, Known, LogInv, ClockInv;
    assert id in n.cache.units;
    LaterStages(r, n);
    BeforeTravel(r, n, id);
    var s := NextStages(r, n);
    hide NextStages, BasicInv, OnTrack, Travel, Travelled;
    OneTurnOfTravel(r.m, s.paths6, UnitTraveller(s.units6[id]));
    TravelKeepsRoute(r.m, s.paths6, UnitTraveller(s.units6[id]));
  }

  // ----- the hidden Ring Bearer ----------------------------------------------

  /** The Eye: an active Maia at home in Mordor. */
  predicate EyeWatches(g: GameConfig, units: Units) {
    exists x :: x in units && x in g.units
      && units[x].status == Active && units[x].region == "mordor"
      && g.units[x].maia && g.units[x].startRegion == "mordor"
  }

  /** An active unit has him within its range, which the Eye extends by one. */
  ghost predicate InSight(r: Rules, units: Units, region: string) {
    exists x :: x in units && Sees(r, units, x, region)
  }

  ghost predicate Sees(r: Rules, units: Units, x: string, region: string)
    requires x in units
  {
    var range := UnitCfg(r.g, x).detectionRange;
    && units[x].status == Active && range > 0
    && 0 <= MinHops(r.adj, units[x].region, region) <= if EyeWatches(r.g, units) then range + 1 else range
  }

  lemma SightIsDetection(r: Rules, units: Units, region: string, turn: int)
    ensures RingBearerDetected(r, units, region, turn) <==> turn > r.g.hiddenUntilTurn && InSight(r, units, region)
  {
    hide MinHops;
    EyeIsOpen(r.g, units);
    hide EyeOpen, EyeWatches;
    forall x | x in units ensures Detects(r.g, r.adj, units, x, region) <==> Sees(r, units, x, region) {}
    hide Detects, Sees;
  }

  lemma EyeIsOpen(g: GameConfig, units: Units)
    ensures EyeOpen(g, units) <==> EyeWatches(g, units)
  {
    if x :| x in units && IsEye(g, units, x) { assert x in g.units; }
    forall x | x in units && x in g.units && units[x].status == Active && units[x].region == "mordor"
        && g.units[x].maia && g.units[x].startRegion == "mordor"
      ensures EyeOpen(g, units)
    {
      assert IsEye(g, units, x);
    }
  }

  /** He travels like any unit, after his route order if there is one. */
  lemma RingBearerTravels(r: Rules, ringBearerId: string, actions: seq<Action>)
    requires Playable(r) && !Over(Game(r, ringBearerId, actions).node)
    ensures var n := Game(r, ringBearerId, actions).node;
            var s := NextStages(r, n);
            && OnTrack(RbTraveller(s.rb2))
            && Travelled(r.m, s.paths6, RbTraveller(s.rb2), RbTraveller(Advance(r, n).rb))
  {
    hide Playable;
    var w := Game(r, ringBearerId, actions);
    BasicInvHolds(r, ringBearerId, actions);
    JourneyInv(r, ringBearerId, actions);
    RingBearerOnCourse(r, w);
    RingBearerAfterTurn(r, w.node);
    hide Game, BasicInv, StagesOf, Advance, Travel, Travelled;
    OneTurnOfTravel(r.m, NextStages(r, w.node).paths6, RbTraveller(NextStages(r, w.node).rb2));
  }

  /** He crosses a path, which is the next one of his route. */
  predicate Crosses(before: RingBearerState, after: RingBearerState, path: string) {
    && 0 <= before.routeIdx < |before.route| && after.routeIdx == before.routeIdx + 1
    && path == before.route[before.routeIdx]
  }

  /** What steps 7 and 12 do to the hidden record and publish about it. */
  lemma SightingsOfTurn(r: Rules, b: Board, orders: seq<Order>, turn: int)
    requires OnTrack(RbTraveller(StagesOf(r, b, orders, turn).rb2))
    ensures var s, played := StagesOf(r, b, orders, turn), PlayTurn(r, b, orders, turn);
            var rb := played.0.rb;
            var seen := turn > r.g.hiddenUntilTurn && InSight(r, played.0.units, rb.trueRegion);
            && rb.lastDetectedTurn == (if seen then turn else s.rb2.lastDetectedTurn)
            && rb.lastDetectedRegion == (if seen then rb.trueRegion else s.rb2.lastDetectedRegion)
            && (rb.routeIdx == s.rb2.routeIdx ==>
                  (rb.exposed <==> s.rb2.exposed || seen)
                  && played.1 == if seen then [Detected(rb.trueRegion, turn)] else [])
            && (rb.routeIdx != s.rb2.routeIdx ==>
                  s.rb2.routeIdx < |s.rb2.route| &&
                  var path := s.rb2.route[s.rb2.routeIdx];
                  rb.routeIdx == s.rb2.routeIdx + 1 && path in s.paths6 &&
                  var spotted := turn > r.g.hiddenUntilTurn && s.paths6[path].surveillance >= 1;
                  (rb.exposed <==> s.rb2.exposed || spotted || seen)
                  && played.1 == (if spotted then [Spotted(path, turn)] else []) + [Moved(rb.trueRegion, turn)]
                                 + if seen then [Detected(rb.trueRegion, turn)] else [])
  {
    var s := StagesOf(r, b, orders, turn);
    hide RouteOrders, BlockAndSearch, MoveOrders, FortifyOrders, MaiaOrders, AttackOrders, AdvanceUnits, TickPaths,
      TickRegions, TickUnits, RingBearerDetected, InSight;
    SightIsDetection(r, s.units11, s.rb7.trueRegion, turn);
  }

  /** In every turn of every game: he is exposed exactly if it is late enough and he
      crosses a watched path or somebody has him in sight where he arrives. */
  lemma ExposedExactly(r: Rules, ringBearerId: string, actions: seq<Action>)
    requires Playable(r) && !Over(Game(r, ringBearerId, actions).node)
    ensures var n := Game(r, ringBearerId, actions).node;
            var s, b := NextStages(r, n), PlayTurn(r, BoardOf(n), n.pending, n.currentTurn).0;
            b.rb.exposed <==>
              && n.cache.turn > r.g.hiddenUntilTurn
              && (|| InSight(r, b.units, b.rb.trueRegion)
                  || exists path :: path in s.paths6 && Crosses(s.rb2, b.rb, path) && s.paths6[path].surveillance >= 1)
  {
    hide Playable;
    var w := Game(r, ringBearerId, actions);
    var n := w.node;
    BasicInvHolds(r, ringBearerId, actions);
    JourneyInv(r, ringBearerId, actions);
    RingBearerOnCourse(r, w);
    var s := NextStages(r, n);
    assert !s.rb2.exposed && OnTrack(RbTraveller(s.rb2));
    hide Game, BasicInv, StagesOf, PlayTurn, InSight, OnCourse;
    SightingsOfTurn(r, BoardOf(n), n.pending, n.currentTurn);
  }
}
