/** Timing laws over whole games: Maia cooldowns, fortifications, the fall of
    Isengard, and the region data that no turn changes. */
module Timers {
  import opened Config
  import opened State
  import opened Steps
  import opened Turn
  import opened Ingest
  import opened Processor
  import opened Runs
  import opened PathMachine
  import opened OrderEffects
  import opened Lifecycle

  // ----- cooldowns through the other steps -----------------------------------

  predicate SameCooldowns(a: Units, b: Units) {
    a.Keys == b.Keys && forall id | id in a :: a[id].cooldown == b[id].cooldown
  }

  lemma {:induction false} RoutesKeepCooldowns(g: GameConfig, units: Units, rb: RingBearerState, orders: seq<Order>)
    ensures SameCooldowns(units, RouteOrders(g, units, rb, orders).0)
  {
    if orders != [] { RoutesKeepCooldowns(g, units, rb, orders[..|orders| - 1]); }
  }

  lemma {:induction false} MovesKeepCooldowns(r: Rules, units: Units, orders: seq<Order>)
    ensures SameCooldowns(units, MoveOrders(r.g, r.adj, units, orders))
  {
    if orders != [] { MovesKeepCooldowns(r, units, orders[..|orders| - 1]); }
  }

  lemma {:induction false} AttacksKeepCooldowns(g: GameConfig, m: MapConfig, f: Front, orders: seq<Order>)
    ensures SameCooldowns(f.units, AttackOrders(g, m, f, orders).units)
  {
    if orders != [] {
      hide BattleOf;
      AttacksKeepCooldowns(g, m, f, orders[..|orders| - 1]);
    }
  }

  lemma TravelKeepsCooldowns(m: MapConfig, paths: Paths, units: Units)
    ensures SameCooldowns(units, AdvanceUnits(m, paths, units))
  {}

  // ----- Maia abilities ------------------------------------------------------

  /** The units and paths the i-th order of step 6 finds. */
  function BeforeMaia(r: Rules, s: Stages, disabled: set<string>, orders: seq<Order>, i: nat): (Units, Paths)
    requires i <= |orders|
  {
    MaiaOrders(r.g, r.m, s.units4, s.paths3, disabled, orders[..i])
  }

  ghost predicate UsesAt(r: Rules, s: Stages, disabled: set<string>, orders: seq<Order>, i: nat) {
    i < |orders| &&
    var found := BeforeMaia(r, s, disabled, orders, i);
    MaiaSucceeds(r.g, r.m, found.0, found.1, disabled, orders[i])
  }

  /** The unit `id` successfully uses its ability in the turn played next. */
  ghost predicate UsesAbility(r: Rules, n: Node, id: string) {
    exists i: nat :: i < |n.pending| && UsesAt(r, NextStages(r, n), n.disabled, n.pending, i) && n.pending[i].unit == id
  }

  /** The cooldown of `id` after the first k orders of step 6. */
  lemma {:induction false} CooldownAfterMaias(
      r: Rules, s: Stages, disabled: set<string>, orders: seq<Order>, k: nat, id: string)
    requires k <= |orders| && OneOrderPerUnit(orders) && id in s.units4
    ensures id in BeforeMaia(r, s, disabled, orders, k).0
    ensures var after := BeforeMaia(r, s, disabled, orders, k).0[id].cooldown;
            if exists i: nat :: i < k && UsesAt(r, s, disabled, orders, i) && orders[i].unit == id
            then s.units4[id].cooldown <= 0 && after == UnitCfg(r.g, id).cooldown
            else after == s.units4[id].cooldown
  {
    if k > 0 {
      CooldownAfterMaias(r, s, disabled, orders, k - 1, id);
      assert orders[..k][..k - 1] == orders[..k - 1];
      var found := BeforeMaia(r, s, disabled, orders, k - 1);
      var after := BeforeMaia(r, s, disabled, orders, k);
      assert after == MaiaOrder(r.g, r.m, found.0, found.1, disabled, orders[k - 1]);
      if UsesAt(r, s, disabled, orders, k - 1) && orders[k - 1].unit == id {
        assert forall i | 0 <= i < k - 1 :: orders[i].unit != id;
      }
      hide MaiaOrders, BeforeMaia;
    }
  }

  lemma CooldownAtStepSix(r: Rules, n: Node, id: string)
    requires OneOrderPerUnit(n.pending) && id in n.cache.units
    ensures var s := NextStages(r, n);
            && id in s.units6
            && s.units6[id].cooldown
               == if UsesAbility(r, n, id) then UnitCfg(r.g, id).cooldown else n.cache.units[id].cooldown
    ensures UsesAbility(r, n, id) ==> n.cache.units[id].cooldown <= 0
  {
    var s := NextStages(r, n);
    assert s.units2 == RouteOrders(r.g, n.cache.units, n.rb, n.pending).0;
    assert s.units4 == MoveOrders(r.g, r.adj, s.units2, n.pending);
    assert n.pending[..|n.pending|] == n.pending;
    assert s.units6 == BeforeMaia(r, s, n.disabled, n.pending, |n.pending|).0;
    hide StagesOf, RouteOrders, MoveOrders, BeforeMaia, UsesAt;
    RoutesKeepCooldowns(r.g, n.cache.units, n.rb, n.pending);
    MovesKeepCooldowns(r, s.units2, n.pending);
    CooldownAfterMaias(r, s, n.disabled, n.pending, |n.pending|, id);
  }

  lemma CooldownThroughTurn(r: Rules, n: Node, id: string)
    requires OneOrderPerUnit(n.pending) && id in n.cache.units
    ensures var s := NextStages(r, n);
            && id in s.units11
            && var start := if UsesAbility(r, n, id) then UnitCfg(r.g, id).cooldown else n.cache.units[id].cooldown;
               s.units11[id].cooldown == if start > 0 then start - 1 else start
    ensures UsesAbility(r, n, id) ==> n.cache.units[id].cooldown <= 0
  {
    var s := NextStages(r, n);
    CooldownAtStepSix(r, n, id);
    assert s.units7 == AdvanceUnits(r.m, s.paths6, s.units6);
    assert s.front8 == AttackOrders(r.g, r.m, Front(s.units7, s.regions5, n.disabled), n.pending);
    assert s.units11 == TickUnits(r.g, s.front8.units);
    hide StagesOf, AdvanceUnits, AttackOrders, UsesAbility;
    TravelKeepsCooldowns(r.m, s.paths6, s.units6);
    AttacksKeepCooldowns(r.g, r.m, Front(s.units7, s.regions5, n.disabled), n.pending);
  }

  /** The cooldown shown k turns after a use has come down by at most k turns. */
  lemma {:induction false} CooldownLeft(
      r: Rules, ringBearerId: string, actions: seq<Action>, more: seq<Action>, id: string)
    requires Playable(r) && id in r.g.units
    requires var n := Game(r, ringBearerId, actions).node; !Over(n) && UsesAbility(r, n, id)
    ensures var before := Game(r, ringBearerId, actions).node.cache.turn;
            var now := Game(r, ringBearerId, actions + [EndOfTurn] + more).node.cache.turn;
            && now >= before + 1
            && UnitIn(r, ringBearerId, actions + [EndOfTurn] + more, id).cooldown
               >= UnitCfg(r.g, id).cooldown - (now - before)
  {
    hide Playable, Game, UnitIn, UsesAbility;
    if more == [] {
      assert actions + [EndOfTurn] + more == actions + [EndOfTurn];
      CooldownNext(r, ringBearerId, actions, EndOfTurn, id);
    } else {
      var init, last := more[..|more| - 1], more[|more| - 1];
      assert actions + [EndOfTurn] + more == (actions + [EndOfTurn] + init) + [last];
      CooldownLeft(r, ringBearerId, actions, init, id);
      CooldownNext(r, ringBearerId, actions + [EndOfTurn] + init, last, id);
    }
  }

  lemma CooldownNext(r: Rules, ringBearerId: string, actions: seq<Action>, a: Action, id: string)
    requires Playable(r) && id in r.g.units
    ensures var w, w' := Game(r, ringBearerId, actions), Game(r, ringBearerId, actions + [a]);
            var u, v := UnitIn(r, ringBearerId, actions, id), UnitIn(r, ringBearerId, actions + [a], id);
            if a == EndOfTurn && !Over(w.node) then
              && w'.node.cache.turn == w.node.cache.turn + 1
              && (UsesAbility(r, w.node, id) ==> u.cooldown <= 0)
              && var start := if UsesAbility(r, w.node, id) then UnitCfg(r.g, id).cooldown else u.cooldown;
                 v.cooldown == if start > 0 then start - 1 else start
            else v.cooldown == u.cooldown && w'.node.cache.turn == w.node.cache.turn
  {
    hide Playable, Game, Advance, Buffer, Admit, LogInv, Known, StagesOf, UsesAbility;
    var w := Game(r, ringBearerId, actions);
    OneMoreAction(r, ringBearerId, actions, a);
    BasicInvHolds(r, ringBearerId, actions);
    match a {
      case Submit(raw) =>
      case Deliver(i) =>
        if i < |w.validated| { ClockAfterBuffer(w.node, w.validated[i]); }
      case EndOfTurn =>
        ClockAfterAdvance(r, w.node);
        if !Over(w.node) {
          UnitsAfterAdvance(r, w.node);
          CooldownThroughTurn(r, w.node, id);
        }
    }
  }

  /** Two successful uses of an ability with cooldown C are at least C turns apart,
      and never in the same turn, whatever happens in between. */
  lemma UsesAreApart(r: Rules, ringBearerId: string, actions: seq<Action>, more: seq<Action>, id: string)
    requires Playable(r) && id in r.g.units
    requires var n := Game(r, ringBearerId, actions).node; !Over(n) && UsesAbility(r, n, id)
    requires var n := Game(r, ringBearerId, actions + [EndOfTurn] + more).node; !Over(n) && UsesAbility(r, n, id)
    ensures var first := Game(r, ringBearerId, actions).node.cache.turn;
            var second := Game(r, ringBearerId, actions + [EndOfTurn] + more).node.cache.turn;
            second - first >= 1 && second - first >= UnitCfg(r.g, id).cooldown
  {
    hide Playable, Game, UnitIn, UsesAbility;
    CooldownLeft(r, ringBearerId, actions, more, id);
    CooldownNext(r, ringBearerId, actions + [EndOfTurn] + more, EndOfTurn, id);
  }

  // ----- regions -------------------------------------------------------------

  /** Between turns a fortification has one turn left, and the threat level of a
      region is the configured one. */
  predicate RegionOk(cfg: RegionConfig, reg: Region) {
    reg.threatLevel == cfg.startThreat && (reg.fortified ==> reg.fortifyTurns == 1)
  }

  predicate RegionsOk(m: MapConfig, regions: Regions) {
    regions.Keys == m.regions.Keys && forall id | id in regions :: RegionOk(m.regions[id], regions[id])
  }

  /** Only fortification changes in step 5, only control in step 8. */
  predicate FortifiedOrSame(before: Regions, after: Regions) {
    && before.Keys == after.Keys
    && forall id | id in before ::
         after[id] == before[id] || after[id] == before[id].(fortified := true, fortifyTurns := 2)
  }

  lemma {:induction false} FortifyOrdersKeep(g: GameConfig, units: Units, regions: Regions, orders: seq<Order>)
    ensures FortifiedOrSame(regions, FortifyOrders(g, units, regions, orders))
  {
    if orders != [] { FortifyOrdersKeep(g, units, regions, orders[..|orders| - 1]); }
  }

  predicate SameWalls(before: Regions, after: Regions) {
    && before.Keys == after.Keys
    && forall id | id in before :: after[id].(controlledBy := NoFaction) == before[id].(controlledBy := NoFaction)
  }

  lemma {:induction false} AttacksKeepWalls(g: GameConfig, m: MapConfig, f: Front, orders: seq<Order>)
    ensures SameWalls(f.regions, AttackOrders(g, m, f, orders).regions)
  {
    if orders != [] {
      hide BattleOf, AfterBattle;
      AttacksKeepWalls(g, m, f, orders[..|orders| - 1]);
    }
  }

  lemma RegionsThroughTurn(r: Rules, n: Node)
    ensures var s := NextStages(r, n);
            && FortifiedOrSame(n.cache.regions, s.regions5)
            && SameWalls(s.regions5, s.front8.regions)
            && s.regions10 == TickRegions(s.front8.regions)
  {
    var s := NextStages(r, n);
    assert s.regions5 == FortifyOrders(r.g, s.units4, n.cache.regions, n.pending);
    assert s.front8 == AttackOrders(r.g, r.m, Front(s.units7, s.regions5, n.disabled), n.pending);
    assert s.regions10 == TickRegions(s.front8.regions);
    hide StagesOf, FortifyOrders, AttackOrders, TickRegions;
    FortifyOrdersKeep(r.g, s.units4, n.cache.regions, n.pending);
    AttacksKeepWalls(r.g, r.m, Front(s.units7, s.regions5, n.disabled), n.pending);
  }

  lemma BoardAfterAdvance(r: Rules, n: Node)
    requires ClockInv(n) && !Over(n)
    ensures var n' := Advance(r, n);
            n'.cache.regions == NextStages(r, n).regions10 && n'.disabled == NextStages(r, n).front8.disabled
  {
    hide RouteOrders, BlockAndSearch, MoveOrders, FortifyOrders, MaiaOrders, AttackOrders, AdvanceUnits,
      AdvanceRingBearer, TickPaths, TickRegions, TickUnits, RingBearerDetected, WinnerOf;
  }

  lemma RegionsOkAfterTurn(r: Rules, n: Node)
    requires ClockInv(n) && !Over(n) && RegionsOk(r.m, n.cache.regions)
    ensures RegionsOk(r.m, Advance(r, n).cache.regions)
  {
    BoardAfterAdvance(r, n);
    RegionsThroughTurn(r, n);
    hide Advance, NextStages, ClockInv;
  }

  lemma {:induction false} RegionInvariant(r: Rules, ringBearerId: string, actions: seq<Action>)
    requires Playable(r)
    ensures RegionsOk(r.m, Game(r, ringBearerId, actions).node.cache.regions)
  {
    hide Playable;
    if actions != [] {
      var init, last := actions[..|actions| - 1], actions[|actions| - 1];
      var w := Game(r, ringBearerId, init);
      RegionInvariant(r, ringBearerId, init);
      BasicInvHolds(r, ringBearerId, init);
      hide Advance, Buffer, Admit, Known, LogInv, RegionsOk;
      match last {
        case Submit(raw) =>
        case Deliver(i) =>
          if i < |w.validated| { ClockAfterBuffer(w.node, w.validated[i]); }
        case EndOfTurn =>
          ClockAfterAdvance(r, w.node);
          if !Over(w.node) { RegionsOkAfterTurn(r, w.node); }
      }
    }
  }

  /** A region counts as fortified in combat. */
  predicate CountsFortified(s: Stages, id: string) {
    id in s.front8.regions && s.front8.regions[id].fortified
  }

  predicate IsFortified(regions: Regions, id: string) {
    id in regions && regions[id].fortified
  }

  /** One region in one turn: it counts as fortified if it still was or somebody
      fortifies it now, and it is fortified after the turn exactly if somebody does. */
  lemma FortificationOfTurn(r: Rules, w: World, id: string)
    requires BasicInv(r, w) && !Over(w.node) && RegionsOk(r.m, w.node.cache.regions) && id in r.m.regions
    ensures var n := w.node;
            var s, after := NextStages(r, n), Advance(r, n).cache.regions;
            && (CountsFortified(s, id) <==> IsFortified(n.cache.regions, id) || FortifierWaits(r, n, id))
            && (IsFortified(after, id) <==> FortifierWaits(r, n, id))
  {
    hide Advance, NextStages, ClockInv, PendingInv, LogInv, Known, FortifierWaits;
    RegionsThroughTurn(r, w.node);
    BoardAfterAdvance(r, w.node);
    StepFive(r, w, id);
    hide BasicInv;
    assert RegionOk(r.m.regions[id], w.node.cache.regions[id]);
  }

  /** A region that somebody fortifies counts as fortified in the combat of that turn
      and of the next one, and in the third exactly if somebody fortifies it in either
      of the later turns. */
  lemma FortifiedForTwoTurns(
      r: Rules, ringBearerId: string, a0: seq<Action>, more1: seq<Action>, more2: seq<Action>, id: string)
    requires Playable(r) && OnlyOrders(more1) && OnlyOrders(more2) && id in r.m.regions
    requires var a1 := a0 + [EndOfTurn] + more1;
             var a2 := a1 + [EndOfTurn] + more2;
             && !Over(Game(r, ringBearerId, a0).node)
             && !Over(Game(r, ringBearerId, a1).node)
             && !Over(Game(r, ringBearerId, a2).node)
    requires FortifierWaits(r, Game(r, ringBearerId, a0).node, id)
    ensures var a1 := a0 + [EndOfTurn] + more1;
            var a2 := a1 + [EndOfTurn] + more2;
            var n0, n1 := Game(r, ringBearerId, a0).node, Game(r, ringBearerId, a1).node;
            var n2 := Game(r, ringBearerId, a2).node;
            && CountsFortified(NextStages(r, n0), id) && CountsFortified(NextStages(r, n1), id)
            && (CountsFortified(NextStages(r, n2), id) <==> FortifierWaits(r, n1, id) || FortifierWaits(r, n2, id))
  {
    hide Playable;
    var a1 := a0 + [EndOfTurn] + more1;
    var a2 := a1 + [EndOfTurn] + more2;
    hide Game, Advance, NextStages, RegionsOk, IsFortified, CountsFortified, FortifierWaits, ClockInv,
      PendingInv, LogInv, Known;
    TurnFollows(r, ringBearerId, a0, more1);
    TurnFollows(r, ringBearerId, a1, more2);
    BasicInvHolds(r, ringBearerId, a0);
    BasicInvHolds(r, ringBearerId, a1);
    BasicInvHolds(r, ringBearerId, a2);
    RegionInvariant(r, ringBearerId, a0);
    RegionInvariant(r, ringBearerId, a1);
    RegionInvariant(r, ringBearerId, a2);
    FortificationOfTurn(r, Game(r, ringBearerId, a0), id);
    FortificationOfTurn(r, Game(r, ringBearerId, a1), id);
    FortificationOfTurn(r, Game(r, ringBearerId, a2), id);
  }

  // ----- the fall of Isengard ------------------------------------------------

  /** Once the Free Peoples hold Isengard, unless it was theirs to begin with,
      every Maia with a list of paths is disabled. */
  ghost predicate FallDisables(r: Rules, regions: Regions, disabled: set<string>) {
    && ISENGARD in regions && regions[ISENGARD].controlledBy == FreePeoples
    && RegionCfg(r.m, ISENGARD).startControl != FreePeoples
    ==> CorruptPathMaias(r.g) <= disabled
  }

  lemma {:induction false} AttacksDisable(r: Rules, f: Front, orders: seq<Order>)
    requires FallDisables(r, f.regions, f.disabled)
    ensures var f' := AttackOrders(r.g, r.m, f, orders);
            FallDisables(r, f'.regions, f'.disabled) && f.disabled <= f'.disabled
  {
    if orders != [] {
      hide BattleOf, AfterBattle, CorruptPathMaias;
      AttacksDisable(r, f, orders[..|orders| - 1]);
    }
  }

  lemma {:induction false} FortifyKeepsControl(
      g: GameConfig, units: Units, regions: Regions, orders: seq<Order>, id: string)
    ensures id in FortifyOrders(g, units, regions, orders) <==> id in regions
    ensures id in regions ==> FortifyOrders(g, units, regions, orders)[id].controlledBy == regions[id].controlledBy
  {
    if orders != [] { FortifyKeepsControl(g, units, regions, orders[..|orders| - 1], id); }
  }

  lemma DisabledAfterTurn(r: Rules, n: Node)
    requires ClockInv(n) && !Over(n) && FallDisables(r, n.cache.regions, n.disabled)
    ensures FallDisables(r, Advance(r, n).cache.regions, Advance(r, n).disabled) && n.disabled <= Advance(r, n).disabled
  {
    var s := NextStages(r, n);
    BoardAfterAdvance(r, n);
    assert s.regions5 == FortifyOrders(r.g, s.units4, n.cache.regions, n.pending);
    assert s.front8 == AttackOrders(r.g, r.m, Front(s.units7, s.regions5, n.disabled), n.pending);
    assert s.regions10 == TickRegions(s.front8.regions);
    hide Advance, StagesOf, FortifyOrders, AttackOrders, CorruptPathMaias;
    FortifyKeepsControl(r.g, s.units4, n.cache.regions, n.pending, ISENGARD);
    AttacksDisable(r, Front(s.units7, s.regions5, n.disabled), n.pending);
  }

  lemma {:induction false} FallInvariant(r: Rules, ringBearerId: string, actions: seq<Action>)
    requires Playable(r)
    ensures FallDisables(r, Game(r, ringBearerId, actions).node.cache.regions,
        Game(r, ringBearerId, actions).node.disabled)
  {
    hide Playable;
    if actions != [] {
      var init, last := actions[..|actions| - 1], actions[|actions| - 1];
      FallInvariant(r, ringBearerId, init);
      DisabledNext(r, ringBearerId, init, last);
      assert init + [last] == actions;
    }
  }

  lemma DisabledNext(r: Rules, ringBearerId: string, actions: seq<Action>, a: Action)
    requires Playable(r)
    requires FallDisables(r, Game(r, ringBearerId, actions).node.cache.regions,
        Game(r, ringBearerId, actions).node.disabled)
    ensures FallDisables(r, Game(r, ringBearerId, actions + [a]).node.cache.regions,
        Game(r, ringBearerId, actions + [a]).node.disabled)
    ensures Game(r, ringBearerId, actions).node.disabled <= Game(r, ringBearerId, actions + [a]).node.disabled
  {
    hide Playable;
    var w := Game(r, ringBearerId, actions);
    OneMoreAction(r, ringBearerId, actions, a);
    BasicInvHolds(r, ringBearerId, actions);
    hide Game, Advance, Buffer, Admit, LogInv, Known, FallDisables;
    match a {
      case Submit(raw) =>
      case Deliver(i) =>
        if i < |w.validated| { ClockAfterBuffer(w.node, w.validated[i]); }
      case EndOfTurn =>
        ClockAfterAdvance(r, w.node);
        if !Over(w.node) { DisabledAfterTurn(r, w.node); }
    }
  }

  lemma {:induction false} DisabledForGood(r: Rules, ringBearerId: string, actions: seq<Action>, more: seq<Action>)
    requires Playable(r)
    ensures Game(r, ringBearerId, actions).node.disabled <= Game(r, ringBearerId, actions + more).node.disabled
  {
    hide Playable;
    if more == [] {
      assert actions + more == actions;
    } else {
      var init, last := more[..|more| - 1], more[|more| - 1];
      assert actions + more == (actions + init) + [last];
      DisabledForGood(r, ringBearerId, actions, init);
      FallInvariant(r, ringBearerId, actions + init);
      DisabledNext(r, ringBearerId, actions + init, last);
    }
  }

  /** With all of them disabled, step 6 leaves the surveillance of every path alone. */
  lemma {:induction false} DisabledMaiasCorruptNothing(
      r: Rules, units: Units, paths: Paths, disabled: set<string>, orders: seq<Order>, id: string)
    requires CorruptPathMaias(r.g) <= disabled && id in paths
    ensures var after := MaiaOrders(r.g, r.m, units, paths, disabled, orders).1;
            id in after && after[id].surveillance == paths[id].surveillance
  {
    if orders != [] {
      var init, last := orders[..|orders| - 1], orders[|orders| - 1];
      DisabledMaiasCorruptNothing(r, units, paths, disabled, init, id);
      var mid := MaiaOrders(r.g, r.m, units, paths, disabled, init);
      if MaiaSucceeds(r.g, r.m, mid.0, mid.1, disabled, last) {
        assert IsCorruptPathMaia(r.g, last.unit) ==> last.unit in CorruptPathMaias(r.g);
      }
    }
  }

  /** Once Isengard has fallen to the Free Peoples, no ability corrupts a path in
      any later turn of the game, even if the Shadow takes Isengard back. */
  lemma NoCorruptionAfterTheFall(r: Rules, ringBearerId: string, actions: seq<Action>, more: seq<Action>, id: string)
    requires Playable(r) && id in r.m.paths
    requires RegionCfg(r.m, ISENGARD).startControl != FreePeoples
    requires var regions := Game(r, ringBearerId, actions).node.cache.regions;
             ISENGARD in regions && regions[ISENGARD].controlledBy == FreePeoples
    ensures var s := NextStages(r, Game(r, ringBearerId, actions + more).node);
            id in s.paths3 && id in s.paths6 && s.paths6[id].surveillance == s.paths3[id].surveillance
  {
    hide Playable;
    var n := Game(r, ringBearerId, actions + more).node;
    FallInvariant(r, ringBearerId, actions);
    DisabledForGood(r, ringBearerId, actions, more);
    BasicInvHolds(r, ringBearerId, actions + more);
    KeysOfStages(r, BoardOf(n), n.pending, n.currentTurn);
    var s := NextStages(r, n);
    assert s.paths6 == MaiaOrders(r.g, r.m, s.units4, s.paths3, n.disabled, n.pending).1;
    hide Game, StagesOf, MaiaOrders, CorruptPathMaias;
    DisabledMaiasCorruptNothing(r, s.units4, s.paths3, n.disabled, n.pending, id);
  }
}
