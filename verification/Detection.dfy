/** The detection check (option-b/internal/engine/detection.go). */
module Detection {
  import opened Walks
  import opened Graph
  import opened Config
  import opened State
  import opened Steps

  datatype DetectionResult = DetectionResult(exposed: bool, detectedBy: string, trueRegion: string)

  /** Whether the Eye is open does not depend on the order of the scan. */
  method IsSauronEyeActive(units: Units, g: GameConfig) returns (b: bool)
    ensures b <==> EyeOpen(g, units)
  {
    var todo := units.Keys;
    while todo != {}
      invariant todo <= units.Keys
      invariant forall id | id in units && id !in todo :: !IsEye(g, units, id)
      decreases |todo|
    {
      var id :| id in todo;
      todo := todo - {id};
      var u := units[id];
      if u.status != Active || id !in g.units {
        continue;
      }
      var cfg := g.units[id];
      if cfg.maia && cfg.startRegion == MORDOR && u.region == MORDOR {
        assert IsEye(g, units, id);
        return true;
      }
    }
    b := false;
  }

  /** Which hunter reports first depends on the order of the scan; whether one
      does, and the region reported, do not. */
  method RunDetection(turn: int, hiddenUntil: int, rb: RingBearerState, units: Units, g: GameConfig, graph: MapGraph)
    returns (d: DetectionResult)
    ensures d.exposed <==>
              turn > hiddenUntil && exists id :: id in units && Detects(g, graph.adj, units, id, rb.trueRegion)
    ensures d.exposed ==> d.trueRegion == rb.trueRegion
    ensures d.exposed ==> d.detectedBy in units && Detects(g, graph.adj, units, d.detectedBy, rb.trueRegion)
  {
    hide MinHops;
    if turn <= hiddenUntil {
      return DetectionResult(false, "", "");
    }
    var sauronActive := IsSauronEyeActive(units, g);
    hide EyeOpen;
    var todo := units.Keys;
    while todo != {}
      invariant todo <= units.Keys
      invariant forall id | id in units && id !in todo :: !Detects(g, graph.adj, units, id, rb.trueRegion)
      decreases |todo|
    {
      var id :| id in todo;
      todo := todo - {id};
      var u := units[id];
      if u.status != Active || id !in g.units || g.units[id].detectionRange <= 0 {
        continue;
      }
      var effectiveRange := g.units[id].detectionRange;
      if sauronActive {
        effectiveRange := effectiveRange + 1;
      }
      var dist := graph.BFSDistance(u.region, rb.trueRegion);
      if dist >= 0 && dist <= effectiveRange {
        assert Detects(g, graph.adj, units, id, rb.trueRegion);
        return DetectionResult(true, id, rb.trueRegion);
      }
    }
    d := DetectionResult(false, "", "");
  }
}
