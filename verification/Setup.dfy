/** Starting a node (option-b/cmd/server/main.go:48-66 and 151-240) and driving it:
    the object graph behaves as the runs of module Runs say. */
module Setup {
  import opened Walks
  import opened Graph
  import opened Config
  import opened Steps
  import opened Turn
  import opened CacheStore
  import opened Ingest
  import opened Processor
  import opened Runs

  // ----- the graph -----------------------------------------------------------

  /** `p` is a configured path that has been added already. */
  predicate Added(m: MapConfig, todo: set<string>, p: string) {
    p in m.paths && p !in todo
  }

  ghost predicate RepresentsAdded(adj: Adjacency, m: MapConfig, todo: set<string>) {
    forall r, e :: e in EdgesFrom(adj, r) <==> Added(m, todo, e.pathId) && IsPathEdge(m, r, e)
  }

  lemma NoneAdded(m: MapConfig)
    ensures RepresentsAdded(map[], m, m.paths.Keys)
  {}

  lemma OneMorePath(adj: Adjacency, m: MapConfig, todo: set<string>, id: string)
    requires RepresentsAdded(adj, m, todo) && id in todo && id in m.paths
    ensures RepresentsAdded(WithPath(adj, id, m.paths[id].from, m.paths[id].to, m.paths[id].cost), m, todo - {id})
  {}

  /** Whatever order the configured paths come in, the graph has exactly their
      edges and their costs. */
  method BuildGraph(m: MapConfig) returns (graph: MapGraph)
    ensures fresh(graph)
    ensures Represents(graph.adj, m) && Symmetric(graph.adj)
    ensures forall id :: graph.PathCost(id) == PathCfg(m, id).cost
  {
    hide RepresentsAdded, WithPath;
    graph := new MapGraph();
    var todo := m.paths.Keys;
    NoneAdded(m);
    while todo != {}
      invariant fresh(graph) && todo <= m.paths.Keys
      invariant RepresentsAdded(graph.adj, m, todo)
      invariant forall id :: id in graph.pathCosts <==> Added(m, todo, id)
      invariant forall id | id in graph.pathCosts :: graph.pathCosts[id] == m.paths[id].cost
      decreases |todo|
    {
      var id :| id in todo;
      OneMorePath(graph.adj, m, todo, id);
      graph.AddPath(id, m.paths[id].from, m.paths[id].to, m.paths[id].cost);
      todo := todo - {id};
    }
    AllAdded(graph.adj, m);
    RepresentsIsSymmetric(graph.adj, m);
  }

  lemma AllAdded(adj: Adjacency, m: MapConfig)
    requires RepresentsAdded(adj, m, {})
    ensures Represents(adj, m)
  {}

  // ----- the server ----------------------------------------------------------

  class Server {
    const graph: MapGraph
    const cache: WorldStateCache
    const processor: TurnProcessor
    const ingest: OrderIngest

    ghost predicate Valid()
      reads this, cache, processor, ingest
    {
      && processor.graph == graph == ingest.graph && processor.cache == cache == ingest.cache
      && processor.g == ingest.g && processor.m == ingest.m
      && processor.Valid()
      && forall o | o in ingest.validated :: KnownOrder(processor.g, o)
    }

    ghost function GameRules(): Rules
      reads this, processor, processor.graph
    {
      processor.GameRules()
    }

    ghost function Value(): World
      reads this, processor, processor.cache, ingest
    {
      World(processor.Value(), ingest.seenByTurn, ingest.validated)
    }

    constructor (g: GameConfig, m: MapConfig, ringBearerId: string)
      requires WellFormed(g, m)
      ensures Valid() && Playable(GameRules()) && GameRules().g == g && GameRules().m == m
      ensures Value() == Start(g, m, ringBearerId)
      ensures fresh(graph) && fresh(cache) && fresh(processor) && fresh(ingest)
    {
      hide WellFormed;
      var built := BuildGraph(m);
      var state := new WorldStateCache(g, m, ringBearerId, UnitCfg(g, ringBearerId).startRegion);
      graph, cache := built, state;
      processor := new TurnProcessor(g, m, built, state);
      ingest := new OrderIngest(g, m, built, state);
      new;
      StartIsKnown(g, m, ringBearerId);
    }

    /** One submission, one delivery or one end of turn. */
    method Handle(a: Action)
      requires Valid()
      modifies processor, cache, ingest
      ensures Valid() && GameRules() == old(GameRules())
      ensures Value() == Next(old(GameRules()), old(Value()), a)
    {
      hide Known, Validate, Advance, Buffer;
      if a.Submit? {
        var code := ingest.IngestOrder(a.raw);
        AcceptedIsKnown(GameRules(), cache.Value(), a.raw);
      } else if a.Deliver? {
        if a.index < |ingest.validated| {
          BufferAddsOnly(processor.Value(), ingest.validated[a.index]);
          processor.BufferOrder(ingest.validated[a.index]);
        }
      } else {
        processor.AdvanceTurn();
      }
    }

    /** A whole game: a node just started ends in the state the runs describe. */
    method Play(actions: seq<Action>, ghost ringBearerId: string)
      requires Valid() && Value() == Start(processor.g, processor.m, ringBearerId)
      modifies processor, cache, ingest
      ensures Valid() && GameRules() == old(GameRules())
      ensures Value() == Game(old(GameRules()), ringBearerId, actions)
    {
      hide Next;
      assert actions[..0] == [];
      for i := 0 to |actions|
        invariant Valid() && GameRules() == old(GameRules())
        invariant Value() == Game(old(GameRules()), ringBearerId, actions[..i])
      {
        assert actions[..i + 1][..i] == actions[..i];
        Handle(actions[i]);
      }
      assert actions[..|actions|] == actions;
    }
  }

  lemma StartIsKnown(g: GameConfig, m: MapConfig, ringBearerId: string)
    requires WellFormed(g, m)
    ensures Known(g, StartCache(g, m, ringBearerId, UnitCfg(g, ringBearerId).startRegion).units)
  {}

  lemma AcceptedIsKnown(r: Rules, cache: Cache, raw: RawOrder)
    ensures Validate(r, cache, raw) == Accepted ==> KnownOrder(r.g, Parsed(raw))
  {}
}
