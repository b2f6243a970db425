/** The solver's answer as the server keeps it: the tour activities of every vehicle
    route, and optionally a text rendering of the tour in which every stop is followed
    by the cached narrative of the leg to the next stop. */
module TSPSolutionWrapper {
  import opened Exceptions
  import opened JavaLang
  import CMW = CostMatrixWrapper

  /** A tour activity: the visit of one location, known by its id (the stop name). */
  datatype Activity = Activity(locationId: string)

  /** The route one vehicle travels: its activities in visiting order. */
  datatype VehicleRoute = VehicleRoute(activities: seq<Activity>)

  /** The solver's solution: its routes and its total cost (metres). */
  datatype Solution = Solution(routes: seq<VehicleRoute>, cost: real)

  /** All activities of the routes, route after route. */
  function Flatten(routes: seq<VehicleRoute>): seq<Activity>
    decreases |routes|
  {
    if |routes| == 0 then [] else Flatten(routes[..|routes| - 1]) + routes[|routes| - 1].activities
  }

  /** The location ids of a tour: the start point, then the id of every activity. */
  function Locations(startPoint: string, acts: seq<Activity>): seq<string>
    decreases |acts|
  {
    if |acts| == 0 then [startPoint]
    else Locations(startPoint, acts[..|acts| - 1]) + [acts[|acts| - 1].locationId]
  }

  /** Text produced so far, and whether every leg narrative needed so far was found. */
  datatype Rendering = Rendering(text: string, complete: bool)

  /** The rendering after the first n rounds of the location loop: round i writes
      location i and, unless it is the last location, ":\n\n", the narrative of the
      leg to location i+1 and "\n\n". A missing narrative stops the rendering just
      after the ":\n\n". */
  function RenderLocations(locs: seq<string>, cache: map<seq<string>, string>, n: nat): Rendering
    requires n <= |locs|
    decreases n
  {
    if n == 0 then Rendering("", true)
    else
      var prev := RenderLocations(locs, cache, n - 1);
      if !prev.complete then prev
      else
        var i := n - 1;
        var t := prev.text + locs[i];
        if i < |locs| - 1 then
          match CMW.Lookup(cache, locs[i], locs[i + 1])
          case Ok(instructions) => Rendering(t + ":\n\n" + instructions + "\n\n", true)
          case Err(_) => Rendering(t + ":\n\n", false)
        else Rendering(t, true)
  }

  /** The rendering after the first n rounds of the route loop. Every route renders the
      tour of ALL activities gathered so far, earlier routes included. */
  function RenderRoutes(routes: seq<VehicleRoute>, startPoint: string, cache: map<seq<string>, string>, n: nat): Rendering
    requires n <= |routes|
    decreases n
  {
    if n == 0 then Rendering("", true)
    else
      var prev := RenderRoutes(routes, startPoint, cache, n - 1);
      if !prev.complete then prev
      else
        var locs := Locations(startPoint, Flatten(routes[..n]));
        var r := RenderLocations(locs, cache, |locs|);
        Rendering(prev.text + r.text, r.complete)
  }

  /** The cache key of the leg from stop i of a tour to stop i + 1. */
  function LegKey(locs: seq<string>, i: nat): seq<string>
    requires i + 1 < |locs|
  {
    CMW.CreateListPoints(locs[i], locs[i + 1])
  }

  /** Every consecutive pair of the tour has a cached narrative. */
  predicate AllLegsKnown(locs: seq<string>, cache: map<seq<string>, string>) {
    forall i :: 0 <= i < |locs| - 1 ==> LegKey(locs, i) in cache
  }

  /** Reference rendering, read from the front: stop i, its leg narrative, and the
      rendering of the rest of the tour; the last stop stands alone. */
  function ItineraryFrom(locs: seq<string>, cache: map<seq<string>, string>, i: nat): string
    requires i < |locs| && AllLegsKnown(locs, cache)
    decreases |locs| - i
  {
    if i == |locs| - 1 then locs[i]
    else locs[i] + ":\n\n" + cache[LegKey(locs, i)] + "\n\n" + ItineraryFrom(locs, cache, i + 1)
  }

  /** The location ids of a tour are its start point and its activities' ids, in order. */
  lemma {:induction false} LocationsIds(startPoint: string, acts: seq<Activity>)
    ensures |Locations(startPoint, acts)| == |acts| + 1
    ensures Locations(startPoint, acts)[0] == startPoint
    ensures forall k :: 0 <= k < |acts| ==> Locations(startPoint, acts)[k + 1] == acts[k].locationId
  {
    if |acts| > 0 {
      LocationsIds(startPoint, acts[..|acts| - 1]);
    }
  }

  /** Flattening keeps every activity: the count adds up route by route. */
  lemma {:induction false} FlattenLength(routes: seq<VehicleRoute>, k: nat)
    requires k < |routes|
    ensures |Flatten(routes[..k + 1])| == |Flatten(routes[..k])| + |routes[k].activities|
  {
    assert routes[..k + 1][..k] == routes[..k];
  }

  /** One round of the location loop after a complete prefix. */
  lemma RenderLocationsStep(locs: seq<string>, cache: map<seq<string>, string>, i: nat)
    requires i < |locs| && RenderLocations(locs, cache, i).complete
    ensures var t := RenderLocations(locs, cache, i).text + locs[i];
      && (i == |locs| - 1 ==> RenderLocations(locs, cache, i + 1) == Rendering(t, true))
      && (i < |locs| - 1 && CMW.Lookup(cache, locs[i], locs[i + 1]).Ok? ==>
            RenderLocations(locs, cache, i + 1)
            == Rendering(t + ":\n\n" + CMW.Lookup(cache, locs[i], locs[i + 1]).value + "\n\n", true))
      && (i < |locs| - 1 && CMW.Lookup(cache, locs[i], locs[i + 1]).Err? ==>
            RenderLocations(locs, cache, i + 1) == Rendering(t + ":\n\n", false))
  {
  }

  /** Once a narrative is missing, later rounds add nothing. */
  lemma {:induction false} IncompleteIsFinal(locs: seq<string>, cache: map<seq<string>, string>, m: nat, n: nat)
    requires m <= n <= |locs|
    requires !RenderLocations(locs, cache, m).complete
    ensures RenderLocations(locs, cache, n) == RenderLocations(locs, cache, m)
    decreases n - m
  {
    if m < n {
      IncompleteIsFinal(locs, cache, m, n - 1);
    }
  }

  /** After n rounds the rendering is complete exactly when the legs out of the first n
      locations (all but the last location) are cached. */
  lemma {:induction false} RenderCompleteUpTo(locs: seq<string>, cache: map<seq<string>, string>, n: nat)
    requires n <= |locs|
    ensures RenderLocations(locs, cache, n).complete
        <==> forall i :: 0 <= i < n && i < |locs| - 1 ==> LegKey(locs, i) in cache
  {
    if n > 0 {
      RenderCompleteUpTo(locs, cache, n - 1);
      if n < |locs| {
        assert LegKey(locs, n - 1) == CMW.CreateListPoints(locs[n - 1], locs[n]);
      }
    }
  }

  /** The whole tour renders completely if and only if every leg is cached. */
  lemma RenderComplete(locs: seq<string>, cache: map<seq<string>, string>)
    ensures RenderLocations(locs, cache, |locs|).complete <==> AllLegsKnown(locs, cache)
  {
    RenderCompleteUpTo(locs, cache, |locs|);
  }

  /** The loop's text so far followed by the reference rendering of the remaining stops
      is the reference rendering of the whole tour. */
  lemma {:induction false} RenderPrefix(locs: seq<string>, cache: map<seq<string>, string>, n: nat)
    requires AllLegsKnown(locs, cache) && n < |locs|
    ensures RenderLocations(locs, cache, n).complete
    ensures RenderLocations(locs, cache, n).text + ItineraryFrom(locs, cache, n) == ItineraryFrom(locs, cache, 0)
  {
    if n > 0 {
      RenderPrefix(locs, cache, n - 1);
      RenderLocationsStep(locs, cache, n - 1);
      var prev := RenderLocations(locs, cache, n - 1).text;
      var instructions := cache[LegKey(locs, n - 1)];
      assert RenderLocations(locs, cache, n).text == prev + locs[n - 1] + ":\n\n" + instructions + "\n\n";
      Regroup(prev, locs[n - 1], ":\n\n", instructions, "\n\n", ItineraryFrom(locs, cache, n));
    }
  }

  /** Concatenation regrouped: the text so far, then one leg, then the rest. */
  lemma Regroup(prev: string, a: string, b: string, c: string, d: string, rest: string)
    ensures prev + a + b + c + d + rest == prev + (a + b + c + d + rest)
  {
  }

  /** When every leg is cached, the loop writes exactly the reference rendering: every
      stop in tour order, each but the last followed by its leg narrative. */
  lemma RenderMatchesItinerary(locs: seq<string>, cache: map<seq<string>, string>)
    requires |locs| >= 1 && AllLegsKnown(locs, cache)
    ensures RenderLocations(locs, cache, |locs|) == Rendering(ItineraryFrom(locs, cache, 0), true)
  {
    RenderPrefix(locs, cache, |locs| - 1);
  }

  /** A tour without activities is the start point alone, whatever the cache holds. */
  lemma StartOnly(startPoint: string, cache: map<seq<string>, string>)
    ensures RenderLocations(Locations(startPoint, []), cache, 1) == Rendering(startPoint, true)
  {
  }

  /** The usual solution has one route; it renders as the tour from the start point
      through the route's activities. */
  lemma SingleRoute(route: VehicleRoute, startPoint: string, cache: map<seq<string>, string>)
    ensures var locs := Locations(startPoint, route.activities);
      RenderRoutes([route], startPoint, cache, 1) == RenderLocations(locs, cache, |locs|)
  {
    assert [route][..1] == [route];
    assert [route][..0] == [];
    assert Flatten([route]) == route.activities;
    var locs := Locations(startPoint, route.activities);
    assert RenderRoutes([route], startPoint, cache, 0) == Rendering("", true);
    assert "" + RenderLocations(locs, cache, |locs|).text == RenderLocations(locs, cache, |locs|).text;
  }

  class TSPSolutionWrapper {
    var solutionActivities: seq<Activity>
    var sbSolution: StringBuilder?

    constructor Init(solutionActivities: seq<Activity>, sbSolution: StringBuilder?)
      ensures this.solutionActivities == solutionActivities && this.sbSolution == sbSolution
    {
      this.solutionActivities := solutionActivities;
      this.sbSolution := sbSolution;
    }

    /** The four-argument constructor. When a builder is given it is written route by
        route; a leg missing from the cache throws NoInstructionsFound and leaves the
        builder holding the text written up to that leg. */
    static method Create(solution: Solution, startPoint: string, cmw: CMW.CostMatrixWrapper?, sbSolution: StringBuilder?)
      returns (r: Result<TSPSolutionWrapper>)
      requires sbSolution != null ==> cmw != null
      modifies sbSolution
      ensures sbSolution != null ==>
        var rendering := RenderRoutes(solution.routes, startPoint, cmw.instructionMap, |solution.routes|);
        && sbSolution.contents == old(sbSolution.contents) + rendering.text
        && (r.Ok? <==> rendering.complete)
      ensures sbSolution == null ==> r.Ok?
      ensures r.Err? ==> r.error == NoInstructionsFound
      ensures r.Ok? ==> r.value.solutionActivities == Flatten(solution.routes) && r.value.sbSolution == sbSolution
    {
      var routes := solution.routes;
      ghost var cache := if cmw != null then cmw.instructionMap else map[];
      var acts: seq<Activity> := [];
      for vi := 0 to |routes|
        invariant acts == Flatten(routes[..vi])
        invariant cmw != null ==> cmw.instructionMap == cache
        invariant sbSolution != null ==>
          && sbSolution.contents == old(sbSolution.contents) + RenderRoutes(routes, startPoint, cache, vi).text
          && RenderRoutes(routes, startPoint, cache, vi).complete
      {
        assert routes[..vi + 1][..vi] == routes[..vi];
        acts := acts + routes[vi].activities;
        if sbSolution == null {
          continue;
        }
        var complete := RenderRoute(routes, startPoint, cmw, sbSolution, vi, acts, old(sbSolution.contents));
        if !complete {
          IncompleteRoutesIsFinal(routes, startPoint, cache, vi + 1, |routes|);
          return Err(NoInstructionsFound);
        }
      }
      assert routes[..|routes|] == routes;
      var w := new TSPSolutionWrapper.Init(acts, sbSolution);
      r := Ok(w);
    }

    /** Round vi of the route loop: the tour of all activities gathered so far,
        rendered after what earlier rounds wrote. */
    static method RenderRoute(routes: seq<VehicleRoute>, startPoint: string, cmw: CMW.CostMatrixWrapper, sbSolution: StringBuilder,
                              vi: nat, acts: seq<Activity>, ghost before: string)
      returns (complete: bool)
      requires vi < |routes| && acts == Flatten(routes[..vi + 1])
      requires RenderRoutes(routes, startPoint, cmw.instructionMap, vi).complete
      requires sbSolution.contents == before + RenderRoutes(routes, startPoint, cmw.instructionMap, vi).text
      modifies sbSolution
      ensures sbSolution.contents == before + RenderRoutes(routes, startPoint, cmw.instructionMap, vi + 1).text
      ensures complete == RenderRoutes(routes, startPoint, cmw.instructionMap, vi + 1).complete
    {
      var locations := BuildLocations(startPoint, acts);
      complete := RenderTour(locations, cmw, sbSolution);
      RenderRoutesStep(routes, startPoint, cmw.instructionMap, vi, locations);
    }

    /** The location list of one route round: the start point, then every activity's id. */
    static method BuildLocations(startPoint: string, acts: seq<Activity>) returns (locations: seq<string>)
      ensures locations == Locations(startPoint, acts)
    {
      locations := [startPoint];
      for k := 0 to |acts|
        invariant locations == Locations(startPoint, acts[..k])
      {
        assert acts[..k + 1][..k] == acts[..k];
        locations := locations + [acts[k].locationId];
      }
      assert acts[..|acts|] == acts;
    }

    /** The location loop of one route round: appends the rendering of the tour to the
        builder, and reports whether every leg narrative was found. */
    static method RenderTour(locations: seq<string>, cmw: CMW.CostMatrixWrapper, sbSolution: StringBuilder)
      returns (complete: bool)
      modifies sbSolution
      ensures sbSolution.contents == old(sbSolution.contents) + RenderLocations(locations, cmw.instructionMap, |locations|).text
      ensures complete == RenderLocations(locations, cmw.instructionMap, |locations|).complete
    {
      ghost var before := sbSolution.contents;
      var size := |locations|;
      for i := 0 to size
        invariant sbSolution.contents == before + RenderLocations(locations, cmw.instructionMap, i).text
        invariant RenderLocations(locations, cmw.instructionMap, i).complete
      {
        var found := RenderStop(locations, i, cmw, sbSolution, before);
        if !found {
          IncompleteIsFinal(locations, cmw.instructionMap, i + 1, size);
          return false;
        }
      }
      complete := true;
    }

    /** Round i of the location loop: location i and, unless it is the last, the
        narrative of the leg to the next location, when the cache has it. */
    static method RenderStop(locations: seq<string>, i: nat, cmw: CMW.CostMatrixWrapper, sbSolution: StringBuilder,
                             ghost before: string)
      returns (found: bool)
      requires i < |locations| && RenderLocations(locations, cmw.instructionMap, i).complete
      requires sbSolution.contents == before + RenderLocations(locations, cmw.instructionMap, i).text
      modifies sbSolution
      ensures sbSolution.contents == before + RenderLocations(locations, cmw.instructionMap, i + 1).text
      ensures found == RenderLocations(locations, cmw.instructionMap, i + 1).complete
    {
      ghost var cache := cmw.instructionMap;
      RenderLocationsStep(locations, cache, i);
      var thisPoint := locations[i];
      sbSolution.Append(thisPoint);
      if i < |locations| - 1 {
        sbSolution.Append(":\n\n");
        var endPoint := locations[i + 1];
        var instructions := cmw.GetPathInstructions(thisPoint, endPoint);
        if instructions.Err? {
          return false;
        }
        sbSolution.Append(instructions.value);
        sbSolution.Append("\n\n");
      }
      found := true;
    }

    /** The two-argument constructor: nothing is rendered, so it cannot fail. */
    static method CreateWithoutRendering(solution: Solution, startPoint: string) returns (w: TSPSolutionWrapper)
      ensures w.solutionActivities == Flatten(solution.routes) && w.sbSolution == null
    {
      var r := Create(solution, startPoint, null, null);
      w := r.value;
    }

    method GetSolutionActivities() returns (acts: seq<Activity>)
      ensures acts == solutionActivities
    {
      acts := solutionActivities;
    }

    method GetSBSolution() returns (sb: StringBuilder?)
      ensures sb == sbSolution
    {
      sb := sbSolution;
    }
  }

  /** One round of the route loop, given the location list of the activities gathered
      after it. */
  lemma RenderRoutesStep(routes: seq<VehicleRoute>, startPoint: string, cache: map<seq<string>, string>, vi: nat, locs: seq<string>)
    requires vi < |routes| && RenderRoutes(routes, startPoint, cache, vi).complete
    requires locs == Locations(startPoint, Flatten(routes[..vi + 1]))
    ensures RenderRoutes(routes, startPoint, cache, vi + 1)
         == Rendering(RenderRoutes(routes, startPoint, cache, vi).text + RenderLocations(locs, cache, |locs|).text,
                      RenderLocations(locs, cache, |locs|).complete)
  {
  }

  /** Once a route's rendering is incomplete, later routes add nothing. */
  lemma {:induction false} IncompleteRoutesIsFinal(routes: seq<VehicleRoute>, startPoint: string, cache: map<seq<string>, string>, m: nat, n: nat)
    requires m <= n <= |routes|
    requires !RenderRoutes(routes, startPoint, cache, m).complete
    ensures RenderRoutes(routes, startPoint, cache, n) == RenderRoutes(routes, startPoint, cache, m)
    decreases n - m
  {
    if m < n {
      IncompleteRoutesIsFinal(routes, startPoint, cache, m, n - 1);
    }
  }
}
