/** A whole turn and the state of one node, as functions (AdvanceTurn and
    bufferOrder in option-b/internal/engine/turn_processor.go). */
module Turn {
  import opened Config
  import opened State
  import opened Steps

  /** What the steps of one turn change. */
  datatype Board = Board(units: Units, regions: Regions, paths: Paths, rb: RingBearerState, disabled: set<string>)

  /** The intermediate results of steps 2 to 11, named after the steps. */
  datatype Stages = Stages(
    units2: Units, rb2: RingBearerState, paths3: Paths, units4: Units, regions5: Regions, units6: Units, paths6: Paths,
    units7: Units, rb7: RingBearerState, events7: seq<Event>, front8: Front, paths9: Paths, regions10: Regions,
    units11: Units)

  ghost function StagesOf(r: Rules, b: Board, orders: seq<Order>, turn: int): Stages {
    var routed := RouteOrders(r.g, b.units, b.rb, orders);
    var paths3 := BlockAndSearch(r.g, r.m, routed.0, b.paths, orders);
    var units4 := MoveOrders(r.g, r.adj, routed.0, orders);
    var regions5 := FortifyOrders(r.g, units4, b.regions, orders);
    var maia := MaiaOrders(r.g, r.m, units4, paths3, b.disabled, orders);
    var units7 := AdvanceUnits(r.m, maia.1, maia.0);
    var ring := AdvanceRingBearer(r.g, r.m, maia.1, routed.1, turn);
    var front8 := AttackOrders(r.g, r.m, Front(units7, regions5, b.disabled), orders);
    Stages(routed.0, routed.1, paths3, units4, regions5, maia.0, maia.1, units7, ring.0, ring.1, front8,
           TickPaths(maia.1), TickRegions(front8.regions), TickUnits(r.g, front8.units))
  }

  function Sighted(rb: RingBearerState, detected: bool, turn: int): RingBearerState {
    if detected then rb.(exposed := true, lastDetectedTurn := turn, lastDetectedRegion := rb.trueRegion) else rb
  }

  /** The board and the events after steps 2 to 12. */
  ghost function PlayTurn(r: Rules, b: Board, orders: seq<Order>, turn: int): (Board, seq<Event>) {
    var s := StagesOf(r, b, orders, turn);
    var detected := RingBearerDetected(r, s.units11, s.rb7.trueRegion, turn);
    ( Board(s.units11, s.regions10, s.paths9, Sighted(s.rb7, detected, turn), s.front8.disabled),
      s.events7 + if detected then [Detected(s.rb7.trueRegion, turn)] else [] )
  }

  datatype Cache = Cache(turn: int, session: Session, units: Units, regions: Regions, paths: Paths,
      lightView: LightView)

  /** The state of one node: its cache, the hidden Ring Bearer record, the
      disabled Maias, its turn processor, and everything it has published. */
  datatype Node = Node(
    cache: Cache, rb: RingBearerState, disabled: set<string>,
    currentTurn: int, pending: seq<Order>, gameOverSent: bool, events: seq<Event>)

  function BoardOf(n: Node): Board {
    Board(n.cache.units, n.cache.regions, n.cache.paths, n.rb, n.disabled)
  }

  function SyncTurn(n: Node): Node {
    if n.cache.turn <= 0 || n.cache.turn == n.currentTurn then n
    else n.(pending := if n.cache.turn < n.currentTurn then [] else n.pending, currentTurn := n.cache.turn)
  }

  predicate Over(n: Node) {
    n.gameOverSent || n.cache.session.gameOver
  }

  /** The winner a turn ends with, if it ends the game. */
  function Verdict(g: GameConfig, b: Board, orders: seq<Order>, turn: int): Winner {
    var w := WinnerOf(g, b.units, b.rb, orders);
    if w != NoWinner then w else if turn >= g.maxTurns then Draw else NoWinner
  }

  function LightViewOf(rb: RingBearerState): LightView {
    LightView(rb.trueRegion, rb.route, rb.routeIdx)
  }

  function EndTurn(g: GameConfig, n: Node, b: Board, events: seq<Event>): Node {
    var turn := n.currentTurn;
    var verdict := Verdict(g, b, n.pending, turn);
    var over := verdict != NoWinner;
    Node(
      Cache(turn + 1, if over then Session(true, verdict, turn) else n.cache.session,
            b.units, b.regions, b.paths, LightViewOf(b.rb)),
      if over then b.rb else b.rb.(exposed := false),
      b.disabled,
      if over then turn else turn + 1,
      [],
      over,
      n.events + events
      + if over then [GameOver(verdict, turn), SessionOver(verdict, turn)]
          else [WorldState(turn + 1), SessionTurn(turn + 1)])
  }

  ghost function Advance(r: Rules, n: Node): Node {
    var n1 := SyncTurn(n);
    if Over(n1) then n1
    else
      var played := PlayTurn(r, BoardOf(n1), n1.pending, n1.currentTurn);
      EndTurn(r.g, n1, played.0, played.1)
  }

  function Buffer(n: Node, o: Order): Node {
    var n1 := SyncTurn(n);
    if o.turn != n1.currentTurn || exists p :: p in n1.pending && p.unit == o.unit then n1
    else n1.(pending := n1.pending + [o])
  }
}
