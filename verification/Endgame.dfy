/** How games end: once, in time, and for the reasons the rules give. */
module Endgame {
  import opened Walks
  import opened Config
  import opened State
  import opened Steps
  import opened Turn
  import opened Ingest
  import opened Processor
  import opened Runs
  import opened Journey

  // ----- exactly one announcement --------------------------------------------

  function Announcements(events: seq<Event>): nat {
    if events == [] then 0
    else Announcements(events[..|events| - 1]) + if events[|events| - 1].GameOver? then 1 else 0
  }

  lemma {:induction false} AnnouncementsAdd(a: seq<Event>, b: seq<Event>)
    ensures Announcements(a + b) == Announcements(a) + Announcements(b)
  {
    if b == [] {
      assert a + b == a;
    } else {
      assert (a + b)[..|a + b| - 1] == a + b[..|b| - 1];
      AnnouncementsAdd(a, b[..|b| - 1]);
    }
  }

  lemma {:induction false} NoAnnouncements(events: seq<Event>)
    requires forall e | e in events :: !e.GameOver?
    ensures Announcements(events) == 0
  {
    if events != [] {
      NoAnnouncements(events[..|events| - 1]);
    }
  }

  /** The steps of a turn announce nothing; its end does exactly if the game is over. */
  lemma AnnouncedAtEnd(r: Rules, n: Node)
    requires ClockInv(n) && !Over(n)
    ensures Announcements(Advance(r, n).events) == Announcements(n.events) + if Over(Advance(r, n)) then 1 else 0
  {
    hide StagesOf, RingBearerDetected, WinnerOf, Announcements;
    var played := PlayTurn(r, BoardOf(n), n.pending, n.currentTurn);
    var t := n.currentTurn;
    var over := Over(Advance(r, n));
    var winner := Advance(r, n).cache.session.winner;
    var last := if over then [GameOver(winner, t), SessionOver(winner, t)]
                else [WorldState(t + 1), SessionTurn(t + 1)];
    assert Advance(r, n).events == n.events + played.1 + last;
    StepEventsAnnounceNothing(r, BoardOf(n), n.pending, n.currentTurn);
    NoAnnouncements(played.1);
    AnnouncementsAdd(n.events + played.1, last);
    AnnouncementsAdd(n.events, played.1);
    ClosingEvents(last);
  }

  lemma ClosingEvents(last: seq<Event>)
    requires |last| == 2 && !last[1].GameOver?
    ensures Announcements(last) == if last[0].GameOver? then 1 else 0
  {
    var first := last[..|last| - 1];
    assert first == [last[0]] && first[..|first| - 1] == [];
    assert Announcements(first) == Announcements([]) + if last[0].GameOver? then 1 else 0;
  }

  lemma StepEventsAnnounceNothing(r: Rules, b: Board, orders: seq<Order>, turn: int)
    ensures forall e | e in PlayTurn(r, b, orders, turn).1 :: !e.GameOver?
  {
    hide RouteOrders, BlockAndSearch, MoveOrders, FortifyOrders, MaiaOrders, AttackOrders, AdvanceUnits, Travel,
      TickPaths, TickRegions, TickUnits, RingBearerDetected;
  }

  /** In every game the end is announced exactly once, when it comes. */
  lemma {:induction false} AnnouncedOnce(r: Rules, ringBearerId: string, actions: seq<Action>)
    requires Playable(r)
    ensures var n := Game(r, ringBearerId, actions).node;
            Announcements(n.events) == if Over(n) then 1 else 0
  {
    hide Playable, Advance, Buffer, Admit, Known, LogInv;
    if actions != [] {
      var init, last := actions[..|actions| - 1], actions[|actions| - 1];
      var w := Game(r, ringBearerId, init);
      AnnouncedOnce(r, ringBearerId, init);
      BasicInvHolds(r, ringBearerId, init);
      hide Announcements;
      match last {
        case Submit(raw) =>
        case Deliver(i) =>
          if i < |w.validated| { ClockAfterBuffer(w.node, w.validated[i]); }
        case EndOfTurn =>
          ClockAfterAdvance(r, w.node);
          if !Over(w.node) { AnnouncedAtEnd(r, w.node); }
      }
    }
  }

  // ----- in time, and for good -----------------------------------------------

  function LastTurn(g: GameConfig): int {
    if g.maxTurns > 1 then g.maxTurns else 1
  }

  lemma InTimeNext(r: Rules, n: Node)
    requires ClockInv(n) && PendingInv(n) && !Over(n)
    ensures !Over(Advance(r, n)) ==> n.cache.turn < r.g.maxTurns
  {
    hide PlayTurn, WinnerOf;
  }

  lemma {:induction false} ClockWithinLimit(r: Rules, ringBearerId: string, actions: seq<Action>)
    requires Playable(r)
    ensures var n := Game(r, ringBearerId, actions).node; !Over(n) ==> n.cache.turn <= LastTurn(r.g)
  {
    hide Playable;
    if actions != [] {
      var init, last := actions[..|actions| - 1], actions[|actions| - 1];
      var w := Game(r, ringBearerId, init);
      ClockWithinLimit(r, ringBearerId, init);
      BasicInvHolds(r, ringBearerId, init);
      hide Advance, Buffer, Admit, Known, LogInv;
      match last {
        case Submit(raw) =>
        case Deliver(i) =>
          if i < |w.validated| { ClockAfterBuffer(w.node, w.validated[i]); }
        case EndOfTurn =>
          ClockAfterAdvance(r, w.node);
          if !Over(w.node) { InTimeNext(r, w.node); }
      }
    }
  }

  /** Every game is over after the maximum number of turns. */
  lemma EndsInTime(r: Rules, ringBearerId: string, actions: seq<Action>)
    requires Playable(r) && TurnsEnded(actions) >= LastTurn(r.g)
    ensures Over(Game(r, ringBearerId, actions).node)
  {
    hide Playable, Game;
    ClockWithinLimit(r, ringBearerId, actions);
    ClockCountsTurns(r, ringBearerId, actions);
  }

  /** After the end nothing changes the board or publishes anything. */
  lemma {:induction false} OverForGood(r: Rules, ringBearerId: string, actions: seq<Action>, more: seq<Action>)
    requires Playable(r) && Over(Game(r, ringBearerId, actions).node)
    ensures var n, n' := Game(r, ringBearerId, actions).node, Game(r, ringBearerId, actions + more).node;
            Over(n') && n'.cache == n.cache && n'.rb == n.rb && n'.disabled == n.disabled && n'.events == n.events
  {
    hide Playable;
    if more == [] {
      assert actions + more == actions;
    } else {
      var init, last := more[..|more| - 1], more[|more| - 1];
      assert actions + more == (actions + init) + [last];
      assert (actions + init + [last])[..|actions + init|] == actions + init;
      var w := Game(r, ringBearerId, actions + init);
      OverForGood(r, ringBearerId, actions, init);
      BasicInvHolds(r, ringBearerId, actions + init);
      assert Game(r, ringBearerId, actions + more) == Next(r, w, last);
      hide Game, After, Advance, Buffer, Admit, Known, LogInv;
      match last {
        case Submit(raw) =>
        case Deliver(i) =>
          if i < |w.validated| { ClockAfterBuffer(w.node, w.validated[i]); }
        case EndOfTurn =>
          ClockAfterAdvance(r, w.node);
      }
    }
  }

  // ----- who wins ------------------------------------------------------------

  /** A hunter in the Ring Bearer's own region always detects him. */
  lemma HunterDetects(r: Rules, units: Units, region: string, turn: int)
    requires Known(r.g, units) && turn > r.g.hiddenUntilTurn
    requires HunterAt(r.g, units, region)
    ensures RingBearerDetected(r, units, region, turn)
  {
    var id :| id in units && IsHunterAt(r.g, units, id, region);
    assert IsWalk(r.adj, region, [], region);
    MinHopsIs(r.adj, region, region, 0);
    hide EyeOpen, MinHops;
    assert Detects(r.g, r.adj, units, id, region);
  }

  /** During the hidden turns nothing exposes the Ring Bearer. */
  lemma HiddenTurnsExposeNobody(r: Rules, b: Board, orders: seq<Order>, turn: int)
    requires turn <= r.g.hiddenUntilTurn && !b.rb.exposed
    ensures !PlayTurn(r, b, orders, turn).0.rb.exposed
  {
    var s := StagesOf(r, b, orders, turn);
    RouteOrdersOnRingBearer(r.g, b.units, b.rb, orders);
    assert !s.rb2.exposed;
    hide RouteOrders, BlockAndSearch, MoveOrders, FortifyOrders, MaiaOrders, AttackOrders, AdvanceUnits, Travel,
      TickPaths, TickRegions, TickUnits;
  }

  lemma HunterExposes(r: Rules, b: Board, orders: seq<Order>, turn: int)
    requires Known(r.g, b.units) && turn > r.g.hiddenUntilTurn
    ensures var b' := PlayTurn(r, b, orders, turn).0;
            HunterAt(r.g, b'.units, b'.rb.trueRegion) ==> b'.rb.exposed
  {
    KnownThroughStages(r, b, orders, turn);
    var s := StagesOf(r, b, orders, turn);
    hide StagesOf, RingBearerDetected, HunterAt, Known;
    if HunterAt(r.g, s.units11, s.rb7.trueRegion) {
      HunterDetects(r, s.units11, s.rb7.trueRegion, turn);
    }
  }

  /** The Ring is thrown into the fire: somebody was told to, the Ring Bearer ends the
      turn at Mount Doom, and no active unit of the Shadow does. */
  predicate RingThrown(r: Rules, orders: seq<Order>, after: Node) {
    && (exists o :: o in orders && o.kind == DestroyRing)
    && after.rb.trueRegion == "mount-doom"
    && forall id | id in after.cache.units && UnitCfg(r.g, id).side == Shadow ::
         after.cache.units[id].region != "mount-doom" || after.cache.units[id].status != Active
  }

  /** An active unit that can detect ends the turn where the Ring Bearer does. */
  predicate RingBearerMet(r: Rules, after: Node) {
    exists id :: id in after.cache.units && Meets(r, after, id)
  }

  predicate Meets(r: Rules, after: Node, id: string)
    requires id in after.cache.units
  {
    var u := after.cache.units[id];
    u.status == Active && u.region == after.rb.trueRegion && UnitCfg(r.g, id).detectionRange > 0
  }

  lemma LightWinsIsRingThrown(r: Rules, units: Units, rb: RingBearerState, orders: seq<Order>, after: Node)
    requires after.cache.units == units && after.rb.trueRegion == rb.trueRegion
    ensures LightWins(r.g, units, rb, orders) <==> RingThrown(r, orders, after)
    ensures HunterAt(r.g, units, rb.trueRegion) <==> RingBearerMet(r, after)
  {
    forall id | id in units
      ensures IsShadowAt(r.g, units, id, MOUNT_DOOM) <==>
                units[id].region == "mount-doom" && UnitCfg(r.g, id).side == Shadow && units[id].status == Active
      ensures IsHunterAt(r.g, units, id, rb.trueRegion) <==> Meets(r, after, id)
    {}
    hide IsShadowAt, IsHunterAt, Meets;
    if id :| id in units && IsHunterAt(r.g, units, id, rb.trueRegion) { assert Meets(r, after, id); }
    if id :| id in after.cache.units && Meets(r, after, id) { assert IsHunterAt(r.g, units, id, rb.trueRegion); }
  }

  /** What a turn that is played comes to. */
  lemma TurnOutcome(r: Rules, n: Node)
    requires ClockInv(n) && !Over(n)
    ensures var played, after, turn := PlayTurn(r, BoardOf(n), n.pending, n.currentTurn), Advance(r, n), n.cache.turn;
            var b, winner := played.0, after.cache.session.winner;
            && after.cache.units == b.units && after.rb.trueRegion == b.rb.trueRegion
            && winner == (if LightWins(r.g, b.units, b.rb, n.pending) then RingDestroyed
                          else if b.rb.exposed && HunterAt(r.g, b.units, b.rb.trueRegion) then RingBearerCaught
                          else if turn >= r.g.maxTurns then Draw else NoWinner)
            && (Over(after) <==> winner != NoWinner)
            && (Over(after) ==> after.cache.session.turn == turn)
            && after.events
               == n.events + played.1
                  + (if winner != NoWinner then [GameOver(winner, turn), SessionOver(winner, turn)]
                     else [WorldState(turn + 1), SessionTurn(turn + 1)])
  {
    hide PlayTurn, LightWins, HunterAt;
  }

  /** Every turn of every game has the outcome the rules give it, and announces it:
      the Light wins exactly if the Ring is thrown, whatever else happens; otherwise
      the Shadow wins exactly if it is late enough and a hunter meets the Ring Bearer,
      seen before or not; otherwise it is a draw exactly if no turn is left. */
  lemma Outcome(r: Rules, ringBearerId: string, actions: seq<Action>)
    requires Playable(r) && !Over(Game(r, ringBearerId, actions).node)
    ensures var n := Game(r, ringBearerId, actions).node;
            var after, turn := Advance(r, n), n.cache.turn;
            var winner, k := after.cache.session.winner, |after.events|;
            && (winner == RingDestroyed <==> RingThrown(r, n.pending, after))
            && (winner == RingBearerCaught <==>
                  !RingThrown(r, n.pending, after) && turn > r.g.hiddenUntilTurn && RingBearerMet(r, after))
            && (winner == Draw <==>
                  && !RingThrown(r, n.pending, after)
                  && !(turn > r.g.hiddenUntilTurn && RingBearerMet(r, after))
                  && turn >= r.g.maxTurns)
            && k >= |n.events| + 2
            && (if winner != NoWinner
                then after.events[k - 2..] == [GameOver(winner, turn), SessionOver(winner, turn)]
                else after.events[k - 2..] == [WorldState(turn + 1), SessionTurn(turn + 1)])
  {
    hide Playable;
    var n := Game(r, ringBearerId, actions).node;
    hide Game, Advance, PlayTurn, HunterAt, LightWins, RingThrown, RingBearerMet, LogInv, Known;
    BasicInvHolds(r, ringBearerId, actions);
    JourneyInv(r, ringBearerId, actions);
    TurnOutcome(r, n);
    var b := PlayTurn(r, BoardOf(n), n.pending, n.currentTurn).0;
    LightWinsIsRingThrown(r, b.units, b.rb, n.pending, Advance(r, n));
    if n.cache.turn > r.g.hiddenUntilTurn {
      HunterExposes(r, BoardOf(n), n.pending, n.currentTurn);
    } else {
      HiddenTurnsExposeNobody(r, BoardOf(n), n.pending, n.currentTurn);
    }
  }
}
