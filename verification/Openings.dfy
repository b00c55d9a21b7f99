/** Abilities over whole games: what a successful use does to its path, and when an
    opened path can be crossed. */
module Openings {
  import opened Config
  import opened State
  import opened Steps
  import opened Turn
  import opened Processor
  import opened Runs
  import opened PathMachine
  import opened OrderEffects
  import opened Timers

  // ----- successful uses -----------------------------------------------------

  lemma UseInState(g: GameConfig, m: MapConfig, units: Units, paths: Paths, disabled: set<string>, o: Order)
    ensures MaiaSucceeds(g, m, units, paths, disabled, o) <==>
              var id := o.targetPath;
              && id in paths
              && (|| (Opener(g, m, units, o, id) && paths[id].status == Blocked)
                  || (Corrupter(g, m, units, disabled, o, id) && paths[id].status != TemporarilyOpen))
  {}

  /** The i-th order is the first to open its path, which is p before step 6, or
      it corrupts it. */
  predicate TakesEffect(
      g: GameConfig, m: MapConfig, units: Units, disabled: set<string>, orders: seq<Order>, p: Path, i: nat)
    requires i < |orders|
  {
    var o := orders[i];
    || ( && p.status == Blocked && Opener(g, m, units, o, o.targetPath)
         && !SomeOpener(g, m, units, orders[..i], o.targetPath) )
    || CorruptsAt(g, m, units, disabled, orders, o.targetPath, p, i)
  }

  lemma UseInList(
      g: GameConfig, m: MapConfig, units: Units, paths: Paths, disabled: set<string>, orders: seq<Order>, i: nat)
    requires OneOrderPerUnit(orders) && i < |orders|
    ensures var o, found := orders[i], MaiaOrders(g, m, units, paths, disabled, orders[..i]);
            MaiaSucceeds(g, m, found.0, found.1, disabled, o) <==>
              o.targetPath in paths && TakesEffect(g, m, units, disabled, orders, paths[o.targetPath], i)
  {
    var o, before := orders[i], orders[..i];
    var found := MaiaOrders(g, m, units, paths, disabled, before);
    assert OneOrderPerUnit(before) && HasNoOrder(before, o.unit);
    hide HasNoOrder, OneOrderPerUnit, MaiaOrders, MaiaSucceeds, SomeOpener, SomeCorrupter;
    UseInState(g, m, found.0, found.1, disabled, o);
    KeysAfterMaias(Rules(g, m, map[]), units, paths, disabled, before);
    if o.targetPath in paths {
      AbilitiesOnPath(g, m, units, paths, disabled, before, o.targetPath);
    }
  }

  lemma EffectByPlaces(
      g: GameConfig, m: MapConfig, a: Units, b: Units, disabled: set<string>, orders: seq<Order>, p: Path, i: nat)
    requires i < |orders|
    requires forall o | o in orders && o.kind == MaiaAbility :: o.unit in a && o.unit in b && a[o.unit] == b[o.unit]
    ensures TakesEffect(g, m, a, disabled, orders, p, i) <==> TakesEffect(g, m, b, disabled, orders, p, i)
  {
    var before := orders[..i];
    forall o | o in before ensures o in orders {}
    assert orders[i] in orders;
    MaiasByPlaces(g, m, a, b, disabled, before, orders[i].targetPath, p);
    hide SomeOpener;
  }

  /** Exactly when a use succeeds, told from the state before the turn and the path
      after step 3. */
  lemma UseExactly(r: Rules, w: World, i: nat)
    requires BasicInv(r, w) && i < |w.node.pending|
    ensures var n, s, id := w.node, NextStages(r, w.node), w.node.pending[i].targetPath;
            UsesAt(r, s, n.disabled, n.pending, i) <==>
              id in s.paths3 && TakesEffect(r.g, r.m, n.cache.units, n.disabled, n.pending, s.paths3[id], i)
  {
    var n, s, id := w.node, NextStages(r, w.node), w.node.pending[i].targetPath;
    hide NextStages, MaiaOrders, ClockInv, LogInv, Known, TakesEffect, MaiaSucceeds;
    MaiasWaited(r, w);
    UseInList(r.g, r.m, s.units4, s.paths3, n.disabled, n.pending, i);
    if id in s.paths3 {
      EffectByPlaces(r.g, r.m, s.units4, n.cache.units, n.disabled, n.pending, s.paths3[id], i);
    }
  }

  /** A successful use takes effect and keeps it through the later orders of its
      step. A Maia without a list of paths opens a blocked path for two turns, still
      in the name of its blocker; one with a list raises the surveillance to 3, and
      the status is as before unless somebody else opens the path. */
  lemma UseTakesEffect(r: Rules, ringBearerId: string, actions: seq<Action>, i: nat)
    requires Playable(r)
    requires var n := Game(r, ringBearerId, actions).node;
             i < |n.pending| && UsesAt(r, NextStages(r, n), n.disabled, n.pending, i)
    ensures var n := Game(r, ringBearerId, actions).node;
            var s, id := NextStages(r, n), n.pending[i].targetPath;
            && id in s.paths3 && id in s.paths6
            && var p, q := s.paths3[id], s.paths6[id];
               && q.blockedBy == p.blockedBy
               && (if UnitCfg(r.g, n.pending[i].unit).maiaAbilityPaths == []
                   then p.status == Blocked && q.status == TemporarilyOpen && q.tempOpenTurns == 2 && q.blockedBy != ""
                   else ( && q.surveillance == 3
                          && q.status == if p.status == Blocked && OpenerWaits(r, n, id) then TemporarilyOpen
                                         else p.status ))
  {
    var w := Game(r, ringBearerId, actions);
    var n, o := w.node, w.node.pending[i];
    var s := NextStages(r, n);
    hide Playable, Game, StagesOf, UsesAt;
    BasicInvHolds(r, ringBearerId, actions);
    PathInvariant(r, ringBearerId, actions);
    PendingIsNamed(r, w);
    PathsThroughTurn(r, BoardOf(n), n.pending, n.currentTurn);
    hide NextStages, BasicInv;
    UseExactly(r, w, i);
    StepSix(r, w, o.targetPath);
    assert PathOk(s.paths3[o.targetPath]);
    EffectIsSeen(r.g, r.m, n.cache.units, n.disabled, n.pending, s.paths3[o.targetPath], i);
  }

  lemma EffectIsSeen(
      g: GameConfig, m: MapConfig, units: Units, disabled: set<string>, orders: seq<Order>, p: Path, i: nat)
    requires i < |orders| && TakesEffect(g, m, units, disabled, orders, p, i)
    ensures var o := orders[i];
            if UnitCfg(g, o.unit).maiaAbilityPaths == []
            then p.status == Blocked && SomeOpener(g, m, units, orders, o.targetPath)
            else SomeCorrupter(g, m, units, disabled, orders, o.targetPath, p)
  {}

  // ----- crossing an opened path ---------------------------------------------

  /** All that is left of a turn for a path after step 6: one turn less to be open,
      after the last of which its blocker has it again. */
  lemma StepNine(r: Rules, w: World, id: string)
    requires BasicInv(r, w) && PathsOkBetweenTurns(w.node.cache.paths) && !Over(w.node) && id in r.m.paths
    ensures id in NextStages(r, w.node).paths6 && id in Advance(r, w.node).cache.paths
    ensures var p, q := NextStages(r, w.node).paths6[id], Advance(r, w.node).cache.paths[id];
            if p.status == TemporarilyOpen
            then q == p.(tempOpenTurns := p.tempOpenTurns - 1,
                         status := if p.tempOpenTurns == 1 then Blocked else TemporarilyOpen)
            else q == p
  {
    hide StagesOf, Advance, ClockInv, PendingInv, LogInv, Known;
    StagesOfWorld(r, w);
    PendingIsNamed(r, w);
    PathsThroughTurn(r, BoardOf(w.node), w.node.pending, w.node.currentTurn);
    var s := NextStages(r, w.node);
    assert PathOk(s.paths6[id]);
  }

  /** In every state with the invariants of games: a path is passable as units travel
      exactly if it is not blocked in step 3, or somebody opens it in step 6. */
  lemma PassableExactly(r: Rules, w: World, id: string)
    requires Playable(r) && BasicInv(r, w) && PathsOkBetweenTurns(w.node.cache.paths) && id in r.m.paths
    ensures Passable(NextStages(r, w.node), id) <==> !BlockedThisTurn(r, w.node, id) || OpenerWaits(r, w.node, id)
  {
    hide Playable, NextStages, BlockedThisTurn, OpenerWaits, ClockInv, PendingInv, LogInv, Known;
    assert PathOkBetweenTurns(w.node.cache.paths[id]);
    StepThree(r, w.node, id);
    StepSix(r, w, id);
  }

  /** The turn a path is opened in: it is open once more afterwards, for its blocker. */
  lemma OpeningTurn(r: Rules, w: World, id: string)
    requires Playable(r) && BasicInv(r, w) && PathsOkBetweenTurns(w.node.cache.paths) && !Over(w.node)
    requires id in r.m.paths && BlockedThisTurn(r, w.node, id) && OpenerWaits(r, w.node, id)
    ensures var after := Advance(r, w.node).cache.paths;
            && id in after && after[id].status == TemporarilyOpen && after[id].tempOpenTurns == 1
            && after[id].blockedBy != ""
            && (!BlockWaits(r, w.node, id) ==> after[id].blockedBy == w.node.cache.paths[id].blockedBy)
  {
    hide Playable, StagesOf, Advance, BlockWaits, OpenerWaits, ClockInv, PendingInv, LogInv, Known;
    assert PathOkBetweenTurns(w.node.cache.paths[id]);
    StagesOfWorld(r, w);
    var s := NextStages(r, w.node);
    hide NextStages, BasicInv;
    StepThree(r, w.node, id);
    StepSix(r, w, id);
    assert PathOk(s.paths6[id]) && PathOkBetweenTurns(s.paths9[id]);
  }

  /** The turn after, if nobody blocks the path in it. */
  lemma ClosingTurn(r: Rules, w: World, id: string)
    requires Playable(r) && BasicInv(r, w) && PathsOkBetweenTurns(w.node.cache.paths) && !Over(w.node)
    requires id in r.m.paths && id in w.node.cache.paths && w.node.cache.paths[id].status == TemporarilyOpen
    requires !BlockWaits(r, w.node, id)
    ensures var after := Advance(r, w.node).cache.paths;
            id in after && after[id].status == Blocked && after[id].blockedBy == w.node.cache.paths[id].blockedBy
  {
    hide Playable, StagesOf, Advance, BlockWaits, OpenerWaits, ClockInv, PendingInv, LogInv, Known;
    assert PathOkBetweenTurns(w.node.cache.paths[id]);
    StagesOfWorld(r, w);
    var s := NextStages(r, w.node);
    hide NextStages, BasicInv;
    StepThree(r, w.node, id);
    StepSix(r, w, id);
    assert PathOk(s.paths6[id]) && PathOkBetweenTurns(s.paths9[id]);
  }

  /** A path opened in one turn is passable in that turn, and open for one more. In
      the next it is passable exactly if no waiting order blocks it, or somebody opens
      it anew; not blocked, it goes back to its old blocker, and is passable in the
      third turn exactly if he has left and no order blocks it, or it is opened anew. */
  lemma OpenedForTwoTurns(
      r: Rules, ringBearerId: string, a0: seq<Action>, more1: seq<Action>, more2: seq<Action>, id: string)
    requires Playable(r) && OnlyOrders(more1) && OnlyOrders(more2) && id in r.m.paths
    requires var a1 := a0 + [EndOfTurn] + more1;
             var a2 := a1 + [EndOfTurn] + more2;
             && !Over(Game(r, ringBearerId, a0).node)
             && !Over(Game(r, ringBearerId, a1).node)
             && !Over(Game(r, ringBearerId, a2).node)
    requires var n0 := Game(r, ringBearerId, a0).node; BlockedThisTurn(r, n0, id) && OpenerWaits(r, n0, id)
    ensures var a1 := a0 + [EndOfTurn] + more1;
            var n0, n1 := Game(r, ringBearerId, a0).node, Game(r, ringBearerId, a1).node;
            var n2 := Game(r, ringBearerId, a1 + [EndOfTurn] + more2).node;
            && Passable(NextStages(r, n0), id)
            && id in n1.cache.paths && n1.cache.paths[id].status == TemporarilyOpen
            && var blocker := n1.cache.paths[id].blockedBy;
               && blocker != ""
               && (!BlockWaits(r, n0, id) ==> blocker == n0.cache.paths[id].blockedBy)
               && (Passable(NextStages(r, n1), id) <==> !BlockWaits(r, n1, id) || OpenerWaits(r, n1, id))
               && (!BlockWaits(r, n1, id) ==>
                     && id in n2.cache.paths && n2.cache.paths[id].status == Blocked
                     && n2.cache.paths[id].blockedBy == blocker
                     && (Passable(NextStages(r, n2), id) <==>
                           !(BlockWaits(r, n2, id) || StandsAt(r, n2, id, blocker)) || OpenerWaits(r, n2, id)))
  {
    var a1 := a0 + [EndOfTurn] + more1;
    var a2 := a1 + [EndOfTurn] + more2;
    var w0, w1, w2 := Game(r, ringBearerId, a0), Game(r, ringBearerId, a1), Game(r, ringBearerId, a2);
    hide Playable, Game, NextStages, Advance, PathsOkBetweenTurns, BlockWaits, OpenerWaits, StandsAt, Passable;
    hide ClockInv, PendingInv, LogInv, Known;
    BasicInvHolds(r, ringBearerId, a0);
    PathInvariant(r, ringBearerId, a0);
    PathInvariant(r, ringBearerId, a1);
    PathInvariant(r, ringBearerId, a2);
    TurnFollows(r, ringBearerId, a0, more1);
    TurnFollows(r, ringBearerId, a1, more2);
    assert id in w0.node.cache.paths;
    hide BasicInv;
    OpeningTurn(r, w0, id);
    PassableExactly(r, w0, id);
    PassableExactly(r, w1, id);
    PassableExactly(r, w2, id);
    if !BlockWaits(r, w1.node, id) {
      ClosingTurn(r, w1, id);
    }
  }
}
