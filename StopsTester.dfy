/** The evaluation of a solver tour against the order in which the transport provider
    serves the same stops: the provider's own path costs, a verdict per stop of the
    tour, and the hit count. */
module StopsTester {
  import opened Exceptions
  import opened JavaLang
  import GM = GeographicMap
  import TSP = TSPSolutionWrapper

  // ---------------------------------------------------------------- provider costs

  /** Accumulated distance (metres) and time (milliseconds). */
  datatype Costs = Costs(distance: real, time: int)

  /** The costs of the first n legs (stop k to stop k+1) of the provider's list, each
      leg a best-path query by names; the first leg without a path aborts. */
  function ProviderCosts(ctx: GM.RouteContext, geocoder: string -> Result<GM.Coordinate>, stops: seq<string>, n: nat): Result<Costs>
    requires n < |stops|
    decreases n
  {
    if n == 0 then Ok(Costs(0.0, 0))
    else
      match ProviderCosts(ctx, geocoder, stops, n - 1)
      case Err(e) => Err(e)
      case Ok(c) =>
        match GM.BestPathBetween(ctx, geocoder, stops[n - 1], stops[n])
        case Err(e) => Err(e)
        case Ok(path) => Ok(Costs(c.distance + path.distance, c.time + path.time))
  }

  /** The sums exist exactly when every one of the n adjacent legs has a best path. */
  lemma {:induction false} ProviderCostsSucceedsIff(ctx: GM.RouteContext, geocoder: string -> Result<GM.Coordinate>, stops: seq<string>, n: nat)
    requires n < |stops|
    ensures ProviderCosts(ctx, geocoder, stops, n).Ok? <==>
      forall k :: 0 <= k < n ==> GM.BestPathBetween(ctx, geocoder, stops[k], stops[k + 1]).Ok?
    decreases n
  {
    if n > 0 {
      ProviderCostsSucceedsIff(ctx, geocoder, stops, n - 1);
    }
  }

  /** On failure the error is that of the first leg without a path. */
  lemma {:induction false} ProviderCostsFirstFailure(ctx: GM.RouteContext, geocoder: string -> Result<GM.Coordinate>, stops: seq<string>, n: nat)
    requires n < |stops| && ProviderCosts(ctx, geocoder, stops, n).Err?
    ensures exists k :: (0 <= k < n
      && (forall m :: 0 <= m < k ==> GM.BestPathBetween(ctx, geocoder, stops[m], stops[m + 1]).Ok?)
      && GM.BestPathBetween(ctx, geocoder, stops[k], stops[k + 1]) == Err(ProviderCosts(ctx, geocoder, stops, n).error))
    decreases n
  {
    if ProviderCosts(ctx, geocoder, stops, n - 1).Err? {
      ProviderCostsFirstFailure(ctx, geocoder, stops, n - 1);
    } else {
      ProviderCostsSucceedsIff(ctx, geocoder, stops, n - 1);
      var k := n - 1;
      assert forall m :: 0 <= m < k ==> GM.BestPathBetween(ctx, geocoder, stops[m], stops[m + 1]).Ok?;
      assert GM.BestPathBetween(ctx, geocoder, stops[k], stops[k + 1]) == Err(ProviderCosts(ctx, geocoder, stops, n).error);
    }
  }

  /** After a failed leg the later legs change nothing. */
  lemma {:induction false} ProviderCostsFailureIsFinal(ctx: GM.RouteContext, geocoder: string -> Result<GM.Coordinate>, stops: seq<string>, m: nat, n: nat)
    requires m <= n < |stops| && ProviderCosts(ctx, geocoder, stops, m).Err?
    ensures ProviderCosts(ctx, geocoder, stops, n) == ProviderCosts(ctx, geocoder, stops, m)
    decreases n - m
  {
    if m < n {
      ProviderCostsFailureIsFinal(ctx, geocoder, stops, m, n - 1);
    }
  }

  /** The costs of a list are those of its first part plus the legs of the rest: one
      more leg adds that leg's distance and time. */
  lemma ProviderCostsOneMoreLeg(ctx: GM.RouteContext, geocoder: string -> Result<GM.Coordinate>, stops: seq<string>, n: nat)
    requires n + 1 < |stops| && ProviderCosts(ctx, geocoder, stops, n + 1).Ok?
    ensures ProviderCosts(ctx, geocoder, stops, n).Ok?
    ensures GM.BestPathBetween(ctx, geocoder, stops[n], stops[n + 1]).Ok?
    ensures ProviderCosts(ctx, geocoder, stops, n + 1).value.distance
         == ProviderCosts(ctx, geocoder, stops, n).value.distance + GM.BestPathBetween(ctx, geocoder, stops[n], stops[n + 1]).value.distance
    ensures ProviderCosts(ctx, geocoder, stops, n + 1).value.time
         == ProviderCosts(ctx, geocoder, stops, n).value.time + GM.BestPathBetween(ctx, geocoder, stops[n], stops[n + 1]).value.time
  {
  }

  // ---------------------------------------------------------------- the comparison loop

  /** The loop state: the algorithm index, the provider index, the hits, the algorithm
      stops judged wrong, and the verdict written for every algorithm stop so far. */
  datatype Progress = Progress(i: nat, j: nat, hits: nat, wrongStops: set<string>, verdicts: seq<string>)

  const Start: Progress := Progress(0, 0, 0, {}, [])

  const CorrectChoice: string := "SCELTA CORRETTA\n\n"
  const WrongChoiceOpen: string := "SCELTA SBAGLIATA (\""
  const QuoteSpace: string := "\" "
  const CorrectChoiceNote: string := " E' LA SCELTA CORRETTA)\n\n"
  const WrongChoiceClose: string := QuoteSpace + CorrectChoiceNote

  /** The verdict on one algorithm stop compared with the current provider stop. */
  function Verdict(algLocationId: string, providerLocationId: string): (v: string)
    ensures StartsWith(v, algLocationId + ": ")
  {
    algLocationId + ": "
      + (if algLocationId == providerLocationId then CorrectChoice
         else WrongChoiceOpen + providerLocationId + WrongChoiceClose)
  }

  /** The four pieces of a wrong-choice verdict written one after the other. */
  lemma RegroupWrongChoice(head: string, providerLocationId: string)
    ensures head + WrongChoiceOpen + providerLocationId + QuoteSpace + CorrectChoiceNote
         == head + (WrongChoiceOpen + providerLocationId + WrongChoiceClose)
  {
  }

  /** A verdict written after earlier text: its id, the separator and the rest. */
  lemma RegroupVerdict(before: string, algLocationId: string, tail: string)
    ensures before + algLocationId + ": " + tail == before + (algLocationId + ": " + tail)
  {
  }

  /** The `while` loop from state p: a provider stop already judged wrong is skipped
      (j only); a match is a hit (i and j); a mismatch marks the algorithm stop wrong
      (i only). Running past the provider list is an index error. */
  function CompareFrom(alg: seq<string>, prov: seq<string>, p: Progress): Result<Progress>
    requires p.i <= |alg|
    decreases |alg| - p.i, |prov| - p.j
  {
    if p.i == |alg| then Ok(p)
    else if p.j >= |prov| then Err(IndexOutOfBounds)
    else CompareFrom(alg, prov, Advance(alg, prov, p))
  }

  /** One pass of the loop's body, both indices in range. */
  function Advance(alg: seq<string>, prov: seq<string>, p: Progress): (r: Progress)
    requires p.i < |alg| && p.j < |prov|
    ensures (r.i == p.i && r.j == p.j + 1) || (r.i == p.i + 1 && p.j <= r.j <= p.j + 1)
  {
    var a := alg[p.i];
    var q := prov[p.j];
    if q in p.wrongStops then p.(j := p.j + 1)
    else if a == q then Progress(p.i + 1, p.j + 1, p.hits + 1, p.wrongStops, p.verdicts + [Verdict(a, q)])
    else Progress(p.i + 1, p.j, p.hits, p.wrongStops + {a}, p.verdicts + [Verdict(a, q)])
  }

  /** A pass inside both lists leaves the rest of the loop's outcome unchanged. */
  lemma CompareFromAdvance(alg: seq<string>, prov: seq<string>, p: Progress)
    requires p.i < |alg| && p.j < |prov|
    ensures CompareFrom(alg, prov, p) == CompareFrom(alg, prov, Advance(alg, prov, p))
  {
  }

  /** A pass keeps the loop state consistent, never loses a hit and only appends to the
      verdicts. */
  lemma AdvanceKeepsConsistent(alg: seq<string>, prov: seq<string>, p: Progress)
    requires Consistent(alg, p) && p.i < |alg| && p.j < |prov|
    ensures var r := Advance(alg, prov, p);
      Consistent(alg, r) && p.hits <= r.hits && r.verdicts[..|p.verdicts|] == p.verdicts
  {
    var a := alg[p.i];
    var q := prov[p.j];
    if q !in p.wrongStops {
      var r := Advance(alg, prov, p);
      assert alg[..p.i + 1] == alg[..p.i] + [a];
      assert r.verdicts == p.verdicts + [Verdict(a, q)];
      forall k | 0 <= k < r.i
        ensures StartsWith(r.verdicts[k], alg[k] + ": ")
      {
        if k < p.i {
          assert r.verdicts[k] == p.verdicts[k];
        }
      }
      forall w | w in r.wrongStops
        ensures w in alg[..r.i]
      {
        if w in p.wrongStops {
          assert w in alg[..p.i];
        }
      }
    }
  }

  /** The whole comparison of the algorithm's stop ids with the provider's. */
  function Comparison(alg: seq<string>, prov: seq<string>): Result<Progress> {
    CompareFrom(alg, prov, Start)
  }

  /** What holds of every loop state: no more hits than stops processed, one verdict
      per processed stop opening with its id, and only processed algorithm stops
      marked wrong. */
  predicate Consistent(alg: seq<string>, p: Progress) {
    && p.i <= |alg|
    && p.hits <= p.i
    && |p.verdicts| == p.i
    && (forall k :: 0 <= k < p.i ==> StartsWith(p.verdicts[k], alg[k] + ": "))
    && (forall w :: w in p.wrongStops ==> w in alg[..p.i])
  }

  /** The loop ends with every algorithm stop judged, or with an index error. */
  lemma {:induction false} CompareFromOutcome(alg: seq<string>, prov: seq<string>, p: Progress)
    requires Consistent(alg, p)
    ensures CompareFrom(alg, prov, p).Err? ==> CompareFrom(alg, prov, p).error == IndexOutOfBounds
    ensures CompareFrom(alg, prov, p).Ok? ==>
      var q := CompareFrom(alg, prov, p).value;
      && Consistent(alg, q) && q.i == |alg| && p.hits <= q.hits
      && q.verdicts[..|p.verdicts|] == p.verdicts
    decreases |alg| - p.i, |prov| - p.j
  {
    if p.i < |alg| && p.j < |prov| {
      var next := Advance(alg, prov, p);
      AdvanceKeepsConsistent(alg, prov, p);
      CompareFromOutcome(alg, prov, next);
      if CompareFrom(alg, prov, next).Ok? {
        var r := CompareFrom(alg, prov, next).value;
        assert r.verdicts[..|p.verdicts|] == r.verdicts[..|next.verdicts|][..|p.verdicts|];
      }
    }
  }

  /** A finished comparison has one verdict per algorithm stop, each opening with that
      stop's id, at most as many hits as stops, and only algorithm stops marked wrong. */
  lemma ComparisonOutcome(alg: seq<string>, prov: seq<string>)
    ensures Comparison(alg, prov).Err? ==> Comparison(alg, prov).error == IndexOutOfBounds
    ensures Comparison(alg, prov).Ok? ==>
      var q := Comparison(alg, prov).value;
      && |q.verdicts| == |alg| && q.hits <= |alg| && q.i == |alg|
      && (forall k :: 0 <= k < |alg| ==> StartsWith(q.verdicts[k], alg[k] + ": "))
      && (forall w :: w in q.wrongStops ==> w in alg)
  {
    CompareFromOutcome(alg, prov, Start);
    if Comparison(alg, prov).Ok? {
      assert alg[..|alg|] == alg;
    }
  }

  /** The verdicts of a tour that follows the provider exactly. */
  function AllCorrect(ids: seq<string>): (vs: seq<string>)
    ensures |vs| == |ids| && forall k :: 0 <= k < |ids| ==> vs[k] == ids[k] + ": " + CorrectChoice
  {
    seq(|ids|, k requires 0 <= k < |ids| => ids[k] + ": " + CorrectChoice)
  }

  /** From position k of a tour equal to the provider's order, every remaining stop
      is a hit. */
  lemma {:induction false} IdenticalFrom(ids: seq<string>, k: nat, vs: seq<string>)
    requires k <= |ids|
    ensures CompareFrom(ids, ids, Progress(k, k, k, {}, vs))
         == Ok(Progress(|ids|, |ids|, |ids|, {}, vs + AllCorrect(ids[k..])))
    decreases |ids| - k
  {
    if k == |ids| {
      assert vs + AllCorrect(ids[k..]) == vs;
    } else {
      IdenticalFrom(ids, k + 1, vs + [Verdict(ids[k], ids[k])]);
      assert vs + [Verdict(ids[k], ids[k])] + AllCorrect(ids[k + 1..]) == vs + AllCorrect(ids[k..]);
    }
  }

  /** A tour in the provider's order scores a hit on every stop. */
  lemma IdenticalOrderAllHits(ids: seq<string>)
    ensures Comparison(ids, ids) == Ok(Progress(|ids|, |ids|, |ids|, {}, AllCorrect(ids)))
  {
    IdenticalFrom(ids, 0, []);
    assert [] + AllCorrect(ids[0..]) == AllCorrect(ids);
  }

  /** After a mismatch the provider index stays put: the tour [A, B, C] against the
      provider's [A, X, C] scores one hit, both B and C being judged against X. */
  lemma MismatchKeepsProviderStop()
    ensures Comparison(["A", "B", "C"], ["A", "X", "C"])
         == Ok(Progress(3, 1, 1, {"B", "C"}, [Verdict("A", "A"), Verdict("B", "X"), Verdict("C", "X")]))
  {
    var alg := ["A", "B", "C"];
    var prov := ["A", "X", "C"];
    var p1 := Progress(1, 1, 1, {}, [Verdict("A", "A")]);
    var p2 := Progress(2, 1, 1, {"B"}, [Verdict("A", "A"), Verdict("B", "X")]);
    var p3 := Progress(3, 1, 1, {"B", "C"}, [Verdict("A", "A"), Verdict("B", "X"), Verdict("C", "X")]);
    assert "X" != "B" && "X" != "C" && "B" != "X" && "C" != "X" by {
      assert "X"[0] != "B"[0] && "X"[0] != "C"[0];
    }
    assert CompareFrom(alg, prov, p3) == Ok(p3);
    assert {"B"} + {"C"} == {"B", "C"};
    assert p2.verdicts + [Verdict("C", "X")] == p3.verdicts;
    assert CompareFrom(alg, prov, p2) == CompareFrom(alg, prov, p3);
    assert p1.verdicts + [Verdict("B", "X")] == p2.verdicts;
    assert {} + {"B"} == {"B"};
    assert CompareFrom(alg, prov, p1) == CompareFrom(alg, prov, p2);
    assert [] + [Verdict("A", "A")] == [Verdict("A", "A")];
  }

  /** A provider stop the algorithm has already got wrong is skipped: [B, A, C] against
      [A, B, C] misses B, hits A, skips the provider's B and hits C. */
  lemma WrongStopIsSkipped()
    ensures Comparison(["B", "A", "C"], ["A", "B", "C"])
         == Ok(Progress(3, 3, 2, {"B"}, [Verdict("B", "A"), Verdict("A", "A"), Verdict("C", "C")]))
  {
    var alg := ["B", "A", "C"];
    var prov := ["A", "B", "C"];
    var p1 := Progress(1, 0, 0, {"B"}, [Verdict("B", "A")]);
    var p2 := Progress(2, 1, 1, {"B"}, [Verdict("B", "A"), Verdict("A", "A")]);
    var p2s := Progress(2, 2, 1, {"B"}, [Verdict("B", "A"), Verdict("A", "A")]);
    var p3 := Progress(3, 3, 2, {"B"}, [Verdict("B", "A"), Verdict("A", "A"), Verdict("C", "C")]);
    assert "A" != "B" && "B" != "A" && "C" != "B" by {
      assert "A"[0] != "B"[0] && "C"[0] != "B"[0];
    }
    assert CompareFrom(alg, prov, p3) == Ok(p3);
    assert p2s.verdicts + [Verdict("C", "C")] == p3.verdicts;
    assert CompareFrom(alg, prov, p2s) == CompareFrom(alg, prov, p3);
    assert "B" in p2.wrongStops;
    assert CompareFrom(alg, prov, p2) == CompareFrom(alg, prov, p2s);
    assert p1.verdicts + [Verdict("A", "A")] == p2.verdicts;
    assert CompareFrom(alg, prov, p1) == CompareFrom(alg, prov, p2);
    assert {} + {"B"} == {"B"};
    assert [] + [Verdict("B", "A")] == [Verdict("B", "A")];
  }

  /** A tour longer than the provider's list runs past it. */
  lemma TourLongerThanProviderFails()
    ensures Comparison(["A", "B"], ["A"]) == Err(IndexOutOfBounds)
  {
    var p1 := Progress(1, 1, 1, {}, [Verdict("A", "A")]);
    assert CompareFrom(["A", "B"], ["A"], p1) == Err(IndexOutOfBounds);
  }

  /** The location ids of tour activities, in order. */
  function ActivityIds(acts: seq<TSP.Activity>): (ids: seq<string>)
    ensures |ids| == |acts| && forall k :: 0 <= k < |acts| ==> ids[k] == acts[k].locationId
  {
    seq(|acts|, k requires 0 <= k < |acts| => acts[k].locationId)
  }

  /** The statistics written after the verdicts: the hits over the stops, then the
      solver's and the provider's distances in rounded metres. `percentages` is the
      rendering of the two floating-point percentages (hits, efficiency). */
  function Statistics(hits: int, totalProcessedStops: int, algDistance: real, providerDistance: real,
                      percentages: (string, string)): string {
    StatisticsOpen + IntToString(hits) + HitsLabel + IntToString(totalProcessedStops) + TotalLabel
    + percentages.0 + "%\n\n"
    + EfficiencyOpen + IntToString(GM.Round(algDistance)) + AlgDistanceLabel
    + IntToString(GM.Round(providerDistance)) + ProviderDistanceLabel + percentages.1 + "%"
  }

  const StatisticsOpen: string := "\n" + "Percentuale di fermate scelte correttamente dall' algoritmo Jsprit: ["
  const HitsLabel: string := ": scelte corrette] / ["
  const TotalLabel: string := ": numero totale fermate] = "
  const EfficiencyOpen: string := "Efficienza dell' algoritmo Jsprit: {["
  const AlgDistanceLabel: string := "m: distanza percorsa dall'algoritmo Jsprit] ; ["
  const ProviderDistanceLabel: string := "m: distanza percorsa dal fornitore del servizio]} --> "

  // ---------------------------------------------------------------- the tester object

  /** What a successful evaluation leaves in `checkSB`: one verdict per tour stop, then
      the statistics; or the error that stops it. The provider's costs come first, so
      their errors win over the null solution's (None), whose cost is read next, and
      over the comparison's. */
  function Evaluation(ctx: GM.RouteContext, geocoder: string -> Result<GM.Coordinate>, solution: Option<TSP.Solution>,
                      providerOrderedStops: seq<string>, showFigures: (int, int, real, real) -> (string, string)): Result<string>
  {
    if |providerOrderedStops| == 0 then Err(NoStopsFound)
    else
      var costs := ProviderCosts(ctx, geocoder, providerOrderedStops, |providerOrderedStops| - 1);
      if costs.Err? then Err(costs.error)
      else if solution.None? then Err(SolverFailure)
      else
        var acts := TSP.Flatten(solution.value.routes);
        var cmp := Comparison(ActivityIds(acts), providerOrderedStops[1..]);
        if cmp.Err? then Err(cmp.error)
        else Ok(Concat(cmp.value.verdicts)
                + Statistics(cmp.value.hits, |acts|, solution.value.cost, costs.value.distance,
                             showFigures(cmp.value.hits, |acts|, solution.value.cost, costs.value.distance)))
  }

  /** An evaluation succeeds exactly when the provider's list is not empty, every leg of
      it has a best path, there is a solution and its tour does not run past the list;
      a missing leg is reported before the null solution and before an index error; the
      text opens with one verdict per tour stop. */
  lemma EvaluationOutcome(ctx: GM.RouteContext, geocoder: string -> Result<GM.Coordinate>, solution: Option<TSP.Solution>,
                          providerOrderedStops: seq<string>, showFigures: (int, int, real, real) -> (string, string))
    ensures |providerOrderedStops| == 0 ==>
      Evaluation(ctx, geocoder, solution, providerOrderedStops, showFigures) == Err(NoStopsFound)
    ensures |providerOrderedStops| > 0 ==>
      var e := Evaluation(ctx, geocoder, solution, providerOrderedStops, showFigures);
      && (ProviderCosts(ctx, geocoder, providerOrderedStops, |providerOrderedStops| - 1).Err? ==>
            e == Err(ProviderCosts(ctx, geocoder, providerOrderedStops, |providerOrderedStops| - 1).error))
      && (ProviderCosts(ctx, geocoder, providerOrderedStops, |providerOrderedStops| - 1).Ok? && solution.None? ==>
            e == Err(SolverFailure))
    ensures |providerOrderedStops| > 0 && solution.Some? ==>
      var e := Evaluation(ctx, geocoder, solution, providerOrderedStops, showFigures);
      var acts := TSP.Flatten(solution.value.routes);
      var cmp := Comparison(ActivityIds(acts), providerOrderedStops[1..]);
      && (e.Ok? <==>
            && (forall k :: 0 <= k < |providerOrderedStops| - 1 ==>
                  GM.BestPathBetween(ctx, geocoder, providerOrderedStops[k], providerOrderedStops[k + 1]).Ok?)
            && cmp.Ok?)
      && (ProviderCosts(ctx, geocoder, providerOrderedStops, |providerOrderedStops| - 1).Err? ==>
            e == Err(ProviderCosts(ctx, geocoder, providerOrderedStops, |providerOrderedStops| - 1).error))
      && (ProviderCosts(ctx, geocoder, providerOrderedStops, |providerOrderedStops| - 1).Ok? && cmp.Err? ==>
            e == Err(IndexOutOfBounds))
      && (e.Ok? ==> |cmp.value.verdicts| == |acts| && StartsWith(e.value, Concat(cmp.value.verdicts)))
  {
    if |providerOrderedStops| > 0 && solution.Some? {
      var acts := TSP.Flatten(solution.value.routes);
      ProviderCostsSucceedsIff(ctx, geocoder, providerOrderedStops, |providerOrderedStops| - 1);
      ComparisonOutcome(ActivityIds(acts), providerOrderedStops[1..]);
    }
  }

  class StopsTester {
    const checkSB: StringBuilder
    var hits: int
    var totalProcessedStops: int
    var providerBestPathDistance: real
    var providerBestPathTime: int
    var algBestPathDistance: real

    /** The field initialisers: an empty builder and zero counters. */
    constructor Init()
      ensures checkSB.contents == "" && fresh(checkSB)
      ensures hits == 0 && totalProcessedStops == 0
      ensures providerBestPathDistance == 0.0 && providerBestPathTime == 0 && algBestPathDistance == 0.0
    {
      checkSB := new StringBuilder("");
      hits := 0;
      totalProcessedStops := 0;
      providerBestPathDistance := 0.0;
      providerBestPathTime := 0;
      algBestPathDistance := 0.0;
    }

    /** `calculateProviderBestPathCosts`: an empty list is refused; otherwise the best
        path of every adjacent pair is added to the provider's distance and time. */
    method CalculateProviderBestPathCosts(geoMap: GM.GeographicMap, providerTotalStops: seq<string>, btp: GM.BestPathChoice)
      returns (r: Result<()>)
      modifies this
      ensures |providerTotalStops| == 0 ==> r == Err(NoStopsFound)
      ensures |providerTotalStops| > 0 ==>
        var costs := ProviderCosts(geoMap.Context(btp), geoMap.geocoder, providerTotalStops, |providerTotalStops| - 1);
        && (r.Err? <==> costs.Err?)
        && (r.Err? ==> r.error == costs.error)
        && (r.Ok? ==> (providerBestPathDistance == old(providerBestPathDistance) + costs.value.distance
                       && providerBestPathTime == old(providerBestPathTime) + costs.value.time))
      ensures hits == old(hits) && totalProcessedStops == old(totalProcessedStops) && algBestPathDistance == old(algBestPathDistance)
    {
      var size := |providerTotalStops|;
      if size <= 0 {
        return Err(NoStopsFound);
      }
      ghost var ctx := geoMap.Context(btp);
      ghost var distance0 := providerBestPathDistance;
      ghost var time0 := providerBestPathTime;
      for i := 0 to size - 1
        invariant ProviderCosts(ctx, geoMap.geocoder, providerTotalStops, i)
               == Ok(Costs(providerBestPathDistance - distance0, providerBestPathTime - time0))
        invariant hits == old(hits) && totalProcessedStops == old(totalProcessedStops) && algBestPathDistance == old(algBestPathDistance)
      {
        var path := geoMap.GetBestPath(btp, providerTotalStops[i], providerTotalStops[i + 1]);
        if path.Err? {
          ProviderCostsFailureIsFinal(ctx, geoMap.geocoder, providerTotalStops, i + 1, size - 1);
          return Err(path.error);
        }
        providerBestPathDistance := providerBestPathDistance + path.value.distance;
        providerBestPathTime := providerBestPathTime + path.value.time;
      }
      r := Ok(());
    }

    /** `calculateProviderBestPathCosts(map, providerTotalStops)`: the FASTEST criterion. */
    method CalculateProviderFastestPathCosts(geoMap: GM.GeographicMap, providerTotalStops: seq<string>) returns (r: Result<()>)
      modifies this
      ensures |providerTotalStops| == 0 ==> r == Err(NoStopsFound)
      ensures |providerTotalStops| > 0 ==>
        var costs := ProviderCosts(geoMap.Context(GM.FASTEST), geoMap.geocoder, providerTotalStops, |providerTotalStops| - 1);
        && (r.Err? <==> costs.Err?)
        && (r.Err? ==> r.error == costs.error)
        && (r.Ok? ==> (providerBestPathDistance == old(providerBestPathDistance) + costs.value.distance
                       && providerBestPathTime == old(providerBestPathTime) + costs.value.time))
      ensures hits == old(hits) && totalProcessedStops == old(totalProcessedStops) && algBestPathDistance == old(algBestPathDistance)
    {
      r := CalculateProviderBestPathCosts(geoMap, providerTotalStops, GM.FASTEST);
    }

    /** The comparison `while` loop of the constructor: one verdict per algorithm stop
        written to the builder, and the hits counted. */
    method CompareStops(tspSolutionActivities: seq<TSP.Activity>, providerActivities: seq<string>) returns (r: Result<()>)
      modifies this, checkSB
      ensures var c := Comparison(ActivityIds(tspSolutionActivities), providerActivities);
        && (r.Err? <==> c.Err?)
        && (r.Err? ==> r.error == c.error)
        && (r.Ok? ==> hits == old(hits) + c.value.hits && checkSB.contents == old(checkSB.contents) + Concat(c.value.verdicts))
      ensures totalProcessedStops == old(totalProcessedStops)
      ensures providerBestPathDistance == old(providerBestPathDistance) && providerBestPathTime == old(providerBestPathTime)
      ensures algBestPathDistance == old(algBestPathDistance)
    {
      ghost var alg := ActivityIds(tspSolutionActivities);
      var wrongStops: set<string> := {};
      ghost var verdicts: seq<string> := [];
      ghost var written := checkSB.contents;
      ghost var hits0 := hits;
      var i: nat := 0;
      var j: nat := 0;
      var size := |tspSolutionActivities|;
      while i < size
        invariant 0 <= i <= size
        invariant hits >= hits0
        invariant CompareFrom(alg, providerActivities, Progress(i, j, hits - hits0, wrongStops, verdicts))
               == Comparison(alg, providerActivities)
        invariant checkSB.contents == written + Concat(verdicts)
        invariant totalProcessedStops == old(totalProcessedStops)
        invariant providerBestPathDistance == old(providerBestPathDistance) && providerBestPathTime == old(providerBestPathTime)
        invariant algBestPathDistance == old(algBestPathDistance)
        decreases size - i, |providerActivities| - j
      {
        var algLocationId := tspSolutionActivities[i].locationId;
        if j >= |providerActivities| {
          return Err(IndexOutOfBounds);
        }
        CompareFromAdvance(alg, providerActivities, Progress(i, j, hits - hits0, wrongStops, verdicts));
        i, j, wrongStops, verdicts := ComparePass(algLocationId, providerActivities[j], i, j, wrongStops,
                                                  alg, providerActivities, verdicts, hits0, written);
      }
      r := Ok(());
    }

    /** One pass of the comparison loop, both indices in range: a provider stop already
        judged wrong is skipped, otherwise the algorithm stop is judged. */
    method ComparePass(algLocationId: string, providerLocationId: string, i: nat, j: nat, wrongStops: set<string>,
                       ghost alg: seq<string>, ghost prov: seq<string>, ghost verdicts: seq<string>,
                       ghost hits0: int, ghost written: string)
      returns (i': nat, j': nat, wrongStops': set<string>, ghost verdicts': seq<string>)
      requires i < |alg| && j < |prov| && alg[i] == algLocationId && prov[j] == providerLocationId
      requires hits >= hits0 && checkSB.contents == written + Concat(verdicts)
      modifies this, checkSB
      ensures hits >= hits0 && checkSB.contents == written + Concat(verdicts')
      ensures Progress(i', j', hits - hits0, wrongStops', verdicts')
           == Advance(alg, prov, Progress(i, j, old(hits) - hits0, wrongStops, verdicts))
      ensures totalProcessedStops == old(totalProcessedStops)
      ensures providerBestPathDistance == old(providerBestPathDistance) && providerBestPathTime == old(providerBestPathTime)
      ensures algBestPathDistance == old(algBestPathDistance)
    {
      i', j', wrongStops', verdicts' := i, j, wrongStops, verdicts;
      if providerLocationId in wrongStops {
        j' := j + 1;
        return;
      }
      Judge(algLocationId, providerLocationId);
      if algLocationId == providerLocationId {
        j' := j + 1;
      } else {
        wrongStops' := wrongStops + {algLocationId};
      }
      ConcatSnoc(verdicts, Verdict(algLocationId, providerLocationId));
      verdicts' := verdicts + [Verdict(algLocationId, providerLocationId)];
      i' := i + 1;
    }

    /** The body of the comparison loop for a stop not skipped: the verdict is written
        and a match counts as a hit. */
    method Judge(algLocationId: string, providerLocationId: string)
      modifies this, checkSB
      ensures checkSB.contents == old(checkSB.contents) + Verdict(algLocationId, providerLocationId)
      ensures hits == old(hits) + (if algLocationId == providerLocationId then 1 else 0)
      ensures totalProcessedStops == old(totalProcessedStops)
      ensures providerBestPathDistance == old(providerBestPathDistance) && providerBestPathTime == old(providerBestPathTime)
      ensures algBestPathDistance == old(algBestPathDistance)
    {
      AppendVerdict(checkSB, algLocationId, providerLocationId);
      if algLocationId == providerLocationId {
        hits := hits + 1;
      }
    }

    /** Writes the verdict on one algorithm stop: its id, then the correct-choice text or
        the provider's stop that was expected. */
    static method AppendVerdict(sb: StringBuilder, algLocationId: string, providerLocationId: string)
      modifies sb
      ensures sb.contents == old(sb.contents) + Verdict(algLocationId, providerLocationId)
    {
      ghost var before := sb.contents;
      sb.Append(algLocationId);
      sb.Append(": ");
      ghost var head := sb.contents;
      ghost var tail := if algLocationId == providerLocationId then CorrectChoice
                        else WrongChoiceOpen + providerLocationId + WrongChoiceClose;
      if algLocationId == providerLocationId {
        sb.Append(CorrectChoice);
      } else {
        sb.Append(WrongChoiceOpen);
        sb.Append(providerLocationId);
        sb.Append(QuoteSpace);
        sb.Append(CorrectChoiceNote);
        RegroupWrongChoice(head, providerLocationId);
      }
      RegroupVerdict(before, algLocationId, tail);
    }

    /** The constructor: the provider's costs over its whole list (FASTEST), the
        solver's cost, the tour's activities compared with the provider's list minus
        its start, then the statistics. `showFigures` stands for the rendering of the
        two floating-point percentages, given hits, stops, the solver's and the
        provider's distances. */
    static method Create(geoMap: GM.GeographicMap, startPoint: string, solution: Option<TSP.Solution>,
                         providerOrderedStops: seq<string>, showFigures: (int, int, real, real) -> (string, string))
      returns (r: Result<StopsTester>)
      ensures r.Ok? ==> Evaluation(geoMap.Context(GM.FASTEST), geoMap.geocoder, solution, providerOrderedStops, showFigures)
                        == Ok(r.value.checkSB.contents)
      ensures r.Err? ==> Evaluation(geoMap.Context(GM.FASTEST), geoMap.geocoder, solution, providerOrderedStops, showFigures)
                         == Err(r.error)
      ensures r.Ok? ==>
        var costs := ProviderCosts(geoMap.Context(GM.FASTEST), geoMap.geocoder, providerOrderedStops, |providerOrderedStops| - 1);
        && solution.Some?
        && var acts := TSP.Flatten(solution.value.routes);
        var cmp := Comparison(ActivityIds(acts), providerOrderedStops[1..]);
        var t := r.value;
        && costs.Ok? && cmp.Ok?
        && t.providerBestPathDistance == costs.value.distance && t.providerBestPathTime == costs.value.time
        && t.algBestPathDistance == solution.value.cost
        && t.totalProcessedStops == |acts|
        && t.hits == cmp.value.hits
    {
      var t := new StopsTester.Init();
      var costs := t.CalculateProviderFastestPathCosts(geoMap, providerOrderedStops);
      if costs.Err? {
        return Err(costs.error);
      }
      if solution.None? {
        // the null solution is dereferenced at StopsTester.java:112
        return Err(SolverFailure);
      }
      ghost var acts := TSP.Flatten(solution.value.routes);
      ghost var spent := ProviderCosts(geoMap.Context(GM.FASTEST), geoMap.geocoder, providerOrderedStops, |providerOrderedStops| - 1);
      assert t.providerBestPathDistance == spent.value.distance && t.providerBestPathTime == spent.value.time;
      t.algBestPathDistance := solution.value.cost;
      var tspSolutionActivities := geoMap.GetTspSolutionActivities(startPoint, solution.value);
      t.totalProcessedStops := |tspSolutionActivities|;
      var providerActivities := providerOrderedStops[1..];
      var compared := t.CompareStops(tspSolutionActivities, providerActivities);
      ghost var cmp := Comparison(ActivityIds(acts), providerOrderedStops[1..]);
      if compared.Err? {
        return Err(compared.error);
      }
      assert t.hits == cmp.value.hits && t.checkSB.contents == Concat(cmp.value.verdicts);
      t.checkSB.Append(Statistics(t.hits, t.totalProcessedStops, t.algBestPathDistance, t.providerBestPathDistance,
                                  showFigures(t.hits, t.totalProcessedStops, t.algBestPathDistance, t.providerBestPathDistance)));
      r := Ok(t);
    }

    method GetCheckSB() returns (sb: StringBuilder)
      ensures sb == checkSB
    {
      sb := checkSB;
    }

    method GetProviderBestPathDistance() returns (d: real)
      ensures d == providerBestPathDistance
    {
      d := providerBestPathDistance;
    }

    method GetProviderBestPathTime() returns (t: int)
      ensures t == providerBestPathTime
    {
      t := providerBestPathTime;
    }

    method GetAlgBestPathDistance() returns (d: real)
      ensures d == algBestPathDistance
    {
      d := algBestPathDistance;
    }
  }
}
