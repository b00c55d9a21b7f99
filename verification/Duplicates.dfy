/** No unit gets two orders of the same turn past validation in any game
    (the seenByTurn map of option-b/internal/kafkaclient/order_ingest.go). */
module Duplicates {
  import opened State
  import opened Steps
  import opened Turn
  import opened Ingest
  import opened Processor
  import opened Runs

  predicate NoDuplicates(log: seq<Order>) {
    forall i, j | 0 <= i < j < |log| :: log[i].turn != log[j].turn || log[i].unit != log[j].unit
  }

  predicate Logged(log: seq<Order>, turn: int, unit: string) {
    exists o :: o in log && o.turn == turn && o.unit == unit
  }

  /** The memory covers the orders of the current turn and holds one turn at most. */
  predicate Remembers(seen: map<int, set<string>>, log: seq<Order>, turn: int) {
    && (forall o | o in log :: o.turn <= turn && (o.turn == turn ==> o.unit in SeenAt(seen, turn)))
    && (forall t | t in seen :: t <= turn)
    && (forall t, u | t in seen && u in seen :: t == u)
    && (forall t, unit | t in seen && unit in seen[t] :: Logged(log, t, unit))
  }

  lemma AdmitRemembers(r: Rules, cache: Cache, seen: map<int, set<string>>, log: seq<Order>, raw: RawOrder)
    requires Remembers(seen, log, cache.turn) && NoDuplicates(log)
    ensures var (seen', code) := Admit(r, cache, seen, raw);
            var log' := if code == Accepted then log + [Parsed(raw)] else log;
            Remembers(seen', log', cache.turn) && NoDuplicates(log')
  {
    hide Validate;
    if Validate(r, cache, raw) == Accepted {
      AcceptedIsForThisTurn(r, cache, raw);
      assert SeenAt(Pruned(seen, cache.turn), cache.turn) == SeenAt(seen, cache.turn);
      forall i | 0 <= i < |log| && log[i].turn == cache.turn ensures log[i].unit in SeenAt(seen, cache.turn) {
        assert log[i] in log;
      }
      var (seen', code) := Admit(r, cache, seen, raw);
      var o, log' := Parsed(raw), log + [Parsed(raw)];
      forall t, unit | t in seen' && unit in seen'[t] && code == Accepted ensures Logged(log', t, unit) {
        if t in seen && unit in seen[t] {
          var p :| p in log && p.turn == t && p.unit == unit;
          assert p in log';
        } else {
          assert o in log' && o.turn == t && o.unit == unit;
        }
      }
    }
  }

  lemma {:induction false} NoDuplicatesInvariant(r: Rules, ringBearerId: string, actions: seq<Action>)
    requires Playable(r)
    ensures var w := Game(r, ringBearerId, actions);
            NoDuplicates(w.validated) && Remembers(w.seen, w.validated, w.node.cache.turn)
  {
    hide Playable;
    if actions != [] {
      var init, last := actions[..|actions| - 1], actions[|actions| - 1];
      var w := Game(r, ringBearerId, init);
      NoDuplicatesInvariant(r, ringBearerId, init);
      BasicInvHolds(r, ringBearerId, init);
      hide Advance, Buffer, Admit, Known, LogInv, NoDuplicates;
      match last {
        case Submit(raw) =>
          AdmitRemembers(r, w.node.cache, w.seen, w.validated, raw);
        case Deliver(i) =>
          if i < |w.validated| { ClockAfterBuffer(w.node, w.validated[i]); }
        case EndOfTurn =>
          ClockAfterAdvance(r, w.node);
      }
    }
  }

  /** A submission that validates is turned down as a duplicate exactly when an
      order of the same unit and turn is in the log already. */
  lemma DuplicateExactlyIfLogged(r: Rules, ringBearerId: string, actions: seq<Action>, raw: RawOrder)
    requires Playable(r)
    requires Validate(r, Game(r, ringBearerId, actions).node.cache, raw) == Accepted
    ensures var w := Game(r, ringBearerId, actions);
            Admit(r, w.node.cache, w.seen, raw).1 == DuplicateUnitOrder
            <==> Logged(w.validated, raw.turn, raw.unit)
  {
    hide Playable;
    var w := Game(r, ringBearerId, actions);
    NoDuplicatesInvariant(r, ringBearerId, actions);
    AcceptedIsForThisTurn(r, w.node.cache, raw);
    hide Game, Validate;
    assert SeenAt(Pruned(w.seen, raw.turn), raw.turn) == SeenAt(w.seen, raw.turn);
  }
}
