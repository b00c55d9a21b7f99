/** The ranking of scored routes (option-b/internal/pipeline/route_risk.go:168-176
    and 260-285): an insertion sort in place, and a recommendation. */
module Ranking {
  import opened RouteRisk
  import opened FanOut
  import opened Sequences

  /** `x` goes behind everything with the same or a lower risk. */
  function Insert(s: seq<RouteScore>, x: RouteScore): (r: seq<RouteScore>)
    ensures |r| == |s| + 1
  {
    if s != [] && x.riskScore < s[|s| - 1].riskScore
    then Insert(s[..|s| - 1], x) + [s[|s| - 1]]
    else s + [x]
  }

  function Ranked(s: seq<RouteScore>): (r: seq<RouteScore>)
    ensures |r| == |s|
  {
    if s == [] then [] else Insert(Ranked(s[..|s| - 1]), s[|s| - 1])
  }

  predicate ByRisk(s: seq<RouteScore>) {
    forall i, j | 0 <= i < j < |s| :: s[i].riskScore <= s[j].riskScore
  }

  lemma {:induction false} InsertAdds(s: seq<RouteScore>, x: RouteScore)
    ensures multiset(Insert(s, x)) == multiset(s) + multiset{x}
  {
    if s != [] && x.riskScore < s[|s| - 1].riskScore {
      InsertAdds(s[..|s| - 1], x);
      assert s == s[..|s| - 1] + [s[|s| - 1]];
    }
  }

  lemma {:induction false} InsertKeepsOrder(s: seq<RouteScore>, x: RouteScore)
    requires ByRisk(s)
    ensures ByRisk(Insert(s, x))
  {
    if s != [] && x.riskScore < s[|s| - 1].riskScore {
      var init, last := s[..|s| - 1], s[|s| - 1];
      var r := Insert(init, x);
      InsertKeepsOrder(init, x);
      InsertAdds(init, x);
      forall i | 0 <= i < |r| ensures r[i].riskScore <= last.riskScore {
        assert r[i] in multiset(r);
        assert r[i] == x || r[i] in init;
      }
    }
  }

  /** The ranking is sorted and has exactly the routes that were scored. */
  lemma {:induction false} RankedIsSorted(s: seq<RouteScore>)
    ensures ByRisk(Ranked(s)) && multiset(Ranked(s)) == multiset(s)
  {
    if s != [] {
      RankedIsSorted(s[..|s| - 1]);
      InsertKeepsOrder(Ranked(s[..|s| - 1]), s[|s| - 1]);
      InsertAdds(Ranked(s[..|s| - 1]), s[|s| - 1]);
      assert s == s[..|s| - 1] + [s[|s| - 1]];
    }
  }

  /** The routes of one risk, in order. */
  function OfRisk(s: seq<RouteScore>, risk: int): seq<RouteScore> {
    if s == [] then []
    else OfRisk(s[..|s| - 1], risk) + if s[|s| - 1].riskScore == risk then [s[|s| - 1]] else []
  }

  lemma {:induction false} InsertIsStable(s: seq<RouteScore>, x: RouteScore, risk: int)
    requires ByRisk(s)
    ensures OfRisk(Insert(s, x), risk) == OfRisk(s, risk) + if x.riskScore == risk then [x] else []
  {
    if s != [] && x.riskScore < s[|s| - 1].riskScore {
      var init, last := s[..|s| - 1], s[|s| - 1];
      InsertIsStable(init, x, risk);
      assert (Insert(init, x) + [last])[..|s|] == Insert(init, x);
    } else {
      assert (s + [x])[..|s|] == s;
    }
  }

  /** Routes of equal risk stay in the order in which their scores arrived. */
  lemma {:induction false} RankedIsStable(s: seq<RouteScore>, risk: int)
    ensures OfRisk(Ranked(s), risk) == OfRisk(s, risk)
  {
    if s != [] {
      RankedIsStable(s[..|s| - 1], risk);
      RankedIsSorted(s[..|s| - 1]);
      InsertIsStable(Ranked(s[..|s| - 1]), s[|s| - 1], risk);
    }
  }

  // ----- arrival order -------------------------------------------------------

  function Risks(s: seq<RouteScore>): (r: seq<int>)
    ensures |r| == |s|
    ensures forall i | 0 <= i < |s| :: r[i] == s[i].riskScore
  {
    Map((x: RouteScore) => x.riskScore, s)
  }

  predicate Ascending(s: seq<int>) {
    forall i, j | 0 <= i < j < |s| :: s[i] <= s[j]
  }

  lemma SameMaximum(s: seq<int>, t: seq<int>)
    requires Ascending(s) && Ascending(t) && multiset(s) == multiset(t) && s != []
    ensures t != [] && s[|s| - 1] == t[|t| - 1]
  {
    SameLength(s, t);
    assert s[|s| - 1] in multiset(t) && t[|t| - 1] in multiset(s);
  }

  lemma SameWithoutLast(s: seq<int>, t: seq<int>)
    requires s != [] && t != [] && s[|s| - 1] == t[|t| - 1] && multiset(s) == multiset(t)
    ensures multiset(s[..|s| - 1]) == multiset(t[..|t| - 1])
  {
    var last := s[|s| - 1];
    assert s == s[..|s| - 1] + [last] && t == t[..|t| - 1] + [last];
    assert multiset(s) == multiset(s[..|s| - 1]) + multiset{last};
    assert multiset(t) == multiset(t[..|t| - 1]) + multiset{last};
    SameRest(multiset(s[..|s| - 1]), multiset(t[..|t| - 1]), last);
  }

  lemma {:induction false} OneAscendingOrder(s: seq<int>, t: seq<int>)
    requires Ascending(s) && Ascending(t) && multiset(s) == multiset(t)
    ensures s == t
  {
    SameLength(s, t);
    if s != [] {
      SameMaximum(s, t);
      SameWithoutLast(s, t);
      OneAscendingOrder(s[..|s| - 1], t[..|t| - 1]);
      assert s == s[..|s| - 1] + [s[|s| - 1]] && t == t[..|t| - 1] + [t[|t| - 1]];
    }
  }

  /** The ranked risks do not depend on the order in which the scores arrive. */
  lemma RanksDependOnScoresOnly(s: seq<RouteScore>, t: seq<RouteScore>)
    requires multiset(s) == multiset(t)
    ensures Risks(Ranked(s)) == Risks(Ranked(t)) && multiset(Ranked(s)) == multiset(Ranked(t))
  {
    RankedIsSorted(s);
    RankedIsSorted(t);
    MapPermutes((x: RouteScore) => x.riskScore, Ranked(s), Ranked(t));
    OneAscendingOrder(Risks(Ranked(s)), Risks(Ranked(t)));
  }

  /** Whatever the scheduling of an analysis that was not cancelled, it ranks all
      the routes, and the risks come out the same as with any other scheduling. */
  lemma SchedulingDoesNotMatter(
      score: RouteWork -> RouteScore, works: seq<RouteWork>, cap: nat, workers: nat, one: seq<Step>, other: seq<Step>)
    requires workers > 0
    requires IsRun(NewPipeline(works, cap, workers), one) && IsRun(NewPipeline(works, cap, workers), other)
    requires var p := StateAfter(NewPipeline(works, cap, workers), one); !p.aggregating && !p.cancelled
    requires var p := StateAfter(NewPipeline(works, cap, workers), other); !p.aggregating && !p.cancelled
    ensures var s := Map(score, StateAfter(NewPipeline(works, cap, workers), one).collected);
            var t := Map(score, StateAfter(NewPipeline(works, cap, workers), other).collected);
            && multiset(s) == multiset(Map(score, works))
            && Risks(Ranked(s)) == Risks(Ranked(t))
  {
    OneScorePerWorkItem(works, cap, workers, one);
    OneScorePerWorkItem(works, cap, workers, other);
    var c := StateAfter(NewPipeline(works, cap, workers), one).collected;
    var d := StateAfter(NewPipeline(works, cap, workers), other).collected;
    MapPermutes(score, c, works);
    MapPermutes(score, d, works);
    RanksDependOnScoresOnly(Map(score, c), Map(score, d));
  }

  // ----- the code ------------------------------------------------------------

  datatype Warning = HeavilyContested | BlockedPaths

  datatype RankedRouteList = RankedRouteList(routes: seq<RouteScore>, recommended: string, warnings: seq<Warning>)

  /** `s` with `x` inserted before position j. */
  function With(s: seq<RouteScore>, x: RouteScore, j: nat): seq<RouteScore>
    requires j <= |s|
  {
    s[..j] + [x] + s[j..]
  }

  lemma {:induction false} InsertAt(s: seq<RouteScore>, x: RouteScore, j: nat)
    requires j <= |s|
    requires j > 0 ==> s[j - 1].riskScore <= x.riskScore
    requires forall k | j <= k < |s| :: x.riskScore < s[k].riskScore
    ensures Insert(s, x) == With(s, x, j)
  {
    if j < |s| {
      InsertAt(s[..|s| - 1], x, j);
      assert s[j..] == s[..|s| - 1][j..] + [s[|s| - 1]];
      assert s[..|s| - 1][..j] == s[..j];
    } else {
      assert s[..j] == s && s[j..] == [];
    }
  }

  /** One swap moves x one place forward. */
  lemma OnePlaceForward(s: seq<RouteScore>, x: RouteScore, j: nat)
    requires 0 < j <= |s|
    ensures |With(s, x, j)| == |s| + 1
    ensures With(s, x, j)[j] == x && With(s, x, j)[j - 1] == s[j - 1]
    ensures With(s, x, j - 1) == With(s, x, j)[j := s[j - 1]][j - 1 := x]
  {
    assert s[j - 1..] == [s[j - 1]] + s[j..];
  }

  /** Moves element i down to its place among the ones before it. */
  method SiftDown(scores: array<RouteScore>, i: nat)
    requires i < scores.Length
    modifies scores
    ensures scores[..i + 1] == Insert(old(scores[..i]), old(scores[i]))
    ensures scores[i + 1..] == old(scores[i + 1..])
  {
    ghost var s, x := scores[..i], scores[i];
    var j := i;
    assert scores[..i + 1] == With(s, x, i);
    hide With, Insert;
    while j > 0 && scores[j].riskScore < scores[j - 1].riskScore
      invariant j <= i && scores[..i + 1] == With(s, x, j)
      invariant forall k | j <= k < i :: x.riskScore < s[k].riskScore
      invariant scores[i + 1..] == old(scores[i + 1..])
    {
      OnePlaceForward(s, x, j);
      ghost var before := scores[..i + 1];
      assert before[j] == scores[j] && before[j - 1] == scores[j - 1];
      scores[j], scores[j - 1] := scores[j - 1], scores[j];
      assert scores[..i + 1] == before[j := s[j - 1]][j - 1 := x];
      j := j - 1;
    }
    if j > 0 {
      OnePlaceForward(s, x, j);
      assert scores[..i + 1][j] == scores[j] && scores[..i + 1][j - 1] == scores[j - 1];
    }
    InsertAt(s, x, j);
  }

  lemma FirstIsRanked(s: seq<RouteScore>)
    ensures s == [] || s[..1] == Ranked(s[..1])
  {}

  method Aggregate(scores: array<RouteScore>) returns (list: RankedRouteList)
    modifies scores
    ensures scores[..] == Ranked(old(scores[..])) == list.routes
    ensures list.recommended == if list.routes == [] then "" else list.routes[0].name
    ensures HeavilyContested in list.warnings <==> list.routes != [] && list.routes[0].riskScore > 20
    ensures BlockedPaths in list.warnings <==> list.routes != [] && list.routes[0].blockedPaths != []
  {
    ghost var s := scores[..];
    var i := 1;
    FirstIsRanked(s);
    while i < scores.Length
      invariant i == 1 || i <= scores.Length
      invariant i <= scores.Length ==> scores[..i] == Ranked(s[..i]) && scores[i..] == s[i..]
      invariant scores.Length == 0 ==> scores[..] == s
    {
      assert s[..i + 1][..i] == s[..i];
      assert scores[i] == scores[i..][0] && scores[i..][1..] == scores[i + 1..];
      SiftDown(scores, i);
      i := i + 1;
    }
    assert scores.Length > 0 ==> s[..i] == s && scores[..i] == scores[..];
    var warnings: seq<Warning> := [];
    var recommended := "";
    if scores.Length > 0 {
      recommended := scores[0].name;
      if scores[0].riskScore > 20 {
        warnings := warnings + [HeavilyContested];
      }
      if |scores[0].blockedPaths| > 0 {
        warnings := warnings + [BlockedPaths];
      }
    }
    list := RankedRouteList(scores[..], recommended, warnings);
  }

  /** The recommended route is one of the least risk, and the first to arrive of those. */
  lemma RecommendedIsBest(s: seq<RouteScore>)
    requires s != []
    ensures Ranked(s)[0] in s
    ensures forall x | x in s :: Ranked(s)[0].riskScore <= x.riskScore
    ensures OfRisk(s, Ranked(s)[0].riskScore) != [] && OfRisk(s, Ranked(s)[0].riskScore)[0] == Ranked(s)[0]
  {
    RankedIsSorted(s);
    var best := Ranked(s)[0];
    assert best in multiset(Ranked(s));
    forall x | x in s ensures best.riskScore <= x.riskScore {
      assert x in multiset(Ranked(s));
    }
    RankedIsStable(s, best.riskScore);
    FirstOfItsRisk(Ranked(s));
  }

  lemma {:induction false} FirstOfItsRisk(s: seq<RouteScore>)
    requires s != []
    ensures OfRisk(s, s[0].riskScore) != [] && OfRisk(s, s[0].riskScore)[0] == s[0]
  {
    if |s| > 1 { FirstOfItsRisk(s[..|s| - 1]); }
  }
}
