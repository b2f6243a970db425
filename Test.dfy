/** The entry points the server calls for each kind of request: the direct best path
    between two names, the solver's itinerary for a bus, and the evaluation of the
    solver's stop order against the provider's. */
module Test {
  import opened Exceptions
  import Bus
  import GM = GeographicMap
  import ST = StopsTester
  import TSP = TSPSolutionWrapper

  /** `getJspritAlgorithmTestingInfo`: the intermediate stops are shuffled with the
      given draws, the solver runs on the shuffled list without a cache, and the
      evaluation compares its tour with the provider's list. */
  function TestingInfo(ctx: GM.RouteContext, geocoder: string -> Result<GM.Coordinate>, solver: GM.Problem -> GM.SolverAnswer,
                       startPoint: string, endPoint: string, intermediateStops: seq<string>,
                       providerOrderedStops: seq<string>, picks: seq<int>,
                       showFigures: (int, int, real, real) -> (string, string)): Result<string>
    requires |picks| == |intermediateStops| && Bus.PicksInRange(picks, |intermediateStops|)
  {
    var shuffled := Bus.Shuffled(intermediateStops, picks, |picks|);
    var solution := GM.SolveTspRun(ctx, geocoder, solver, map[], startPoint, endPoint, shuffled).result;
    if solution.Err? then Err(solution.error)
    else ST.Evaluation(ctx, geocoder, solution.value, providerOrderedStops, showFigures)
  }

  /** `testJspritAlgorithm`: shuffles the bus in place (the random draws are `picks`),
      solves the shuffled stops and evaluates the tour. */
  method TestJspritAlgorithm(geoMap: GM.GeographicMap, bus: Bus.Bus, picks: seq<int>,
                             showFigures: (int, int, real, real) -> (string, string))
    returns (r: Result<ST.StopsTester>)
    requires bus.Valid()
    requires |picks| == |bus.intermediateStopsToBeProcessed|
    requires Bus.PicksInRange(picks, |bus.intermediateStopsToBeProcessed|)
    modifies bus
    ensures bus.Valid()
    ensures bus.intermediateStopsToBeProcessed == Bus.Shuffled(old(bus.intermediateStopsToBeProcessed), picks, |picks|)
    ensures bus.startPoint == old(bus.startPoint) && bus.endPoint == old(bus.endPoint)
    ensures bus.providerOrderedTotalStops == old(bus.providerOrderedTotalStops)
    ensures var info := TestingInfo(geoMap.Context(GM.FASTEST), geoMap.geocoder, geoMap.solver,
                                    old(bus.startPoint), old(bus.endPoint), old(bus.intermediateStopsToBeProcessed),
                                    old(bus.providerOrderedTotalStops), picks, showFigures);
      && (r.Ok? ==> info == Ok(r.value.checkSB.contents))
      && (r.Err? ==> info == Err(r.error))
  {
    var startPoint := bus.GetStartPoint();
    var endPoint := bus.GetEndPoint();
    bus.ShuffleIntermediateStopsToBeProcessed(picks);
    var intermediateStops := bus.GetIntermediateStopsToBeProcessed();
    var solution := geoMap.SolveTspWithoutCache(startPoint, endPoint, intermediateStops);
    if solution.Err? {
      return Err(solution.error);
    }
    var providerOrderedStops := bus.GetProviderOrderedTotalStops();
    r := ST.StopsTester.Create(geoMap, startPoint, solution.value, providerOrderedStops, showFigures);
  }

  /** `getJspritAlgorithmTestingInfo`: the text of the evaluation. */
  method GetJspritAlgorithmTestingInfo(geoMap: GM.GeographicMap, bus: Bus.Bus, picks: seq<int>,
                                       showFigures: (int, int, real, real) -> (string, string))
    returns (r: Result<string>)
    requires bus.Valid()
    requires |picks| == |bus.intermediateStopsToBeProcessed|
    requires Bus.PicksInRange(picks, |bus.intermediateStopsToBeProcessed|)
    modifies bus
    ensures r == TestingInfo(geoMap.Context(GM.FASTEST), geoMap.geocoder, geoMap.solver,
                             old(bus.startPoint), old(bus.endPoint), old(bus.intermediateStopsToBeProcessed),
                             old(bus.providerOrderedTotalStops), picks, showFigures)
  {
    var tester := TestJspritAlgorithm(geoMap, bus, picks, showFigures);
    if tester.Err? {
      return Err(tester.error);
    }
    var checkSB := tester.value.GetCheckSB();
    r := Ok(checkSB.contents);
  }

  /** `getJspritAlgorithmSolutionInfo`: the itinerary text for the bus as it stands. */
  method GetJspritAlgorithmSolutionInfo(geoMap: GM.GeographicMap, bus: Bus.Bus) returns (r: Result<string>)
    ensures r == GM.ShowTspText(geoMap.Context(GM.FASTEST), geoMap.geocoder, geoMap.solver,
                                bus.startPoint, bus.endPoint, bus.intermediateStopsToBeProcessed)
  {
    var startPoint := bus.GetStartPoint();
    var endPoint := bus.GetEndPoint();
    var intermediateStops := bus.GetIntermediateStopsToBeProcessed();
    r := geoMap.ShowTspSolution(startPoint, endPoint, intermediateStops);
  }

  /** `getGraphHopperAlgorithmSolutionInfo(map, btp, from, to)`. */
  method GetGraphHopperAlgorithmSolutionInfo(geoMap: GM.GeographicMap, btp: GM.BestPathChoice, from: string, to: string)
    returns (r: Result<string>)
    ensures r == GM.BestPathText(geoMap.Context(btp), geoMap.geocoder, from, to)
  {
    r := geoMap.ShowBestPath(btp, from, to);
  }

  /** `getGraphHopperAlgorithmSolutionInfo(map, from, to)`: the FASTEST criterion. */
  method GetGraphHopperAlgorithmSolutionInfoFastest(geoMap: GM.GeographicMap, from: string, to: string)
    returns (r: Result<string>)
    ensures r == GM.BestPathText(geoMap.Context(GM.FASTEST), geoMap.geocoder, from, to)
  {
    r := GetGraphHopperAlgorithmSolutionInfo(geoMap, GM.FASTEST, from, to);
  }
}
