# VRP-Server core, modelled in Dafny

VRP-Server answers bus-routing questions from socket clients. A client sends stop names
one per line and ends with `END`. It may add the output type it wants: `ShowSolution`
for the itinerary jsprit computes, or `ShowTestSolution` to compare jsprit's order of
the intermediate stops with the order the transport provider serves them. A line
starting with `ShowSingleSourceBestPath` asks instead for the GraphHopper best path
between two stops. The server geocodes each stop through a Nominatim server. It builds
an asymmetric cost matrix of best paths between every ordered pair of stops, and
caches each leg's turn-by-turn narrative so the itinerary can be written out. It hands
the problem to jsprit and renders the solution. In test mode it shuffles the stops,
solves, and counts how many stops the solver puts in the provider's position.

The model has one module per core Java file, plus two shared modules:

- `Exceptions` holds the checked-exception taxonomy as an `Error` datatype, with
  `Result` and `Option`.
- `JavaLang` holds the Java library behaviour the core relies on:
  - `String.split` on one character, trailing empty strings dropped;
  - `StringBuilder` as a class;
  - `String.valueOf` on integers;
  - integer `/` and `%`, which truncate toward zero.

Java's classes become Dafny classes with the same fields. Methods that throw a checked
exception return a `Result`. Each loop of the source stays a `while`/`for` loop, proved
against a function that defines the loop's result.

GraphHopper, jsprit, the HTTP connection and the JSON parser are modelled as function
values. jsprit may answer with a solution, with none, or with an unchecked failure. The map's geocoder is a function value too; `GeographicMap.OsmGeocoder` builds
it from the search service of `OpenStreetMapUtils`, errors included. The map's router, geocoder and solver, the server's random source,
and the floating-point rendering of figures are all given as parameters.

## Model

| member | source | states |
|---|---|---|
| Bus.SwapAtExchanges | src/test/Bus.java:38-43 | the two positions trade their elements and every other position keeps its own |
| Bus.Shuffled | src/test/Bus.java:97-106 | after any number of rounds, the shuffled list has the original length and the same elements with the same multiplicities |
| Bus.SwapPreservesMultiset | src/test/Bus.java:38-43 | one exchange is a permutation |
| Bus.Bus.constructor | src/test/Bus.java:51-69 | the provider list is start, every stop in order, end; the list to be processed is the stops; the bus invariant holds |
| Bus.Bus.Swap | src/test/Bus.java:38-43 | only the list to be processed changes, by the exchange of the two positions |
| Bus.Bus.ShuffleIntermediateStopsToBeProcessed | src/test/Bus.java:97-106 | given one in-range random draw per position, the list to be processed becomes a permutation of itself (the result of the draws); start, end and provider list are untouched; the invariant is kept |
| Bus.Bus.ShuffleRounds | src/test/Bus.java:101-105 | the loop applies round after round, exchanging position i with draw i |
| Bus.Bus.ShuffleRound | src/test/Bus.java:103-104 | one round advances the shuffle by exactly one exchange |
| Bus.ShuffleOfFixedPicks | src/test/Bus.java:101-105 | rounds whose draw is their own position leave the list as it is |
| Bus.ShuffleOfAtMostOne | src/test/Bus.java:97-106 | a list of at most one intermediate stop keeps its order, whatever the draws |
| Bus.Bus.GetStartPoint | src/test/Bus.java:72-75 | returns the start |
| Bus.Bus.GetEndPoint | src/test/Bus.java:78-81 | returns the end |
| Bus.Bus.GetProviderOrderedTotalStops | src/test/Bus.java:84-87 | returns the provider's whole list |
| Bus.Bus.GetIntermediateStopsToBeProcessed | src/test/Bus.java:89-92 | returns the list to be processed |
| ClientBusParser.Parse | src/server/ClientBusParser.java:18-39 | fails with NoSpecifiedJobs exactly when the split query has at most three lines; otherwise the bus goes from the first line to the last line through the lines between, and its provider list is every line in order |
| ClientBusParser.FourLineQuerySplits | src/server/ClientBusParser.java:21 | a newline-terminated query of four stops splits into exactly those four stops |
| ClientBusParser.ThreeLineQuerySplits | src/server/ClientBusParser.java:21-25 | three buffered stop lines split into three stops, which is too few |
| CostMatrixWrapper.CreateListPoints | src/core/CostMatrixWrapper.java:26-35 | a leg's key is the two-element list [start, end] |
| CostMatrixWrapper.KeysAreDirected | src/core/CostMatrixWrapper.java:26-35 | two legs share a key exactly when they share both start and end, so a leg and its reverse are different keys |
| CostMatrixWrapper.CostMatrixWrapper.constructor | src/core/CostMatrixWrapper.java:40 | no leg is known |
| CostMatrixWrapper.CostMatrixWrapper.FromMap | src/core/CostMatrixWrapper.java:46-49 | the wrapper starts with the entries of the given map (a copy, not the shared object) |
| CostMatrixWrapper.CostMatrixWrapper.AddPathInstructions | src/core/CostMatrixWrapper.java:57-67 | the map gets the leg's narrative, replacing any earlier one for that leg, and nothing else changes |
| CostMatrixWrapper.CostMatrixWrapper.GetPathInstructions | src/core/CostMatrixWrapper.java:76-90 | succeeds exactly when the leg is in the map, returning its narrative; otherwise fails with NoInstructionsFound |
| CostMatrixWrapper.AddThenGet | src/core/CostMatrixWrapper.java:57-90 | a lookup after an add returns what was added |
| CostMatrixWrapper.LastWriteWins | src/core/CostMatrixWrapper.java:63-66 | adding the same leg twice keeps only the second narrative |
| CostMatrixWrapper.AddLeavesOthers | src/core/CostMatrixWrapper.java:57-67 | adding a leg leaves the lookup of every other leg as it was, the reverse leg included |
| CostMatrixWrapper.MissingLegFails | src/core/CostMatrixWrapper.java:82-85 | a leg not in the map fails with NoInstructionsFound |
| GeographicMap.VehicleNameIsLowerCaseName | src/core/GeographicMap.java:181-199 | every vehicle type is passed to the router by its enum name in lower case, except MOUNTAINBIKE, which is "mtb" |
| GeographicMap.VehicleNameInjective | src/core/GeographicMap.java:181-199 | different vehicle types get different router names |
| GeographicMap.WeightingInjective | src/core/GeographicMap.java:311-315 | FASTEST and SHORTEST ask for different weightings |
| GeographicMap.Route | src/core/GeographicMap.java:305-327 | the coordinate query fails with PathNotFound exactly when the router's response has errors |
| GeographicMap.BestPathToString | src/core/GeographicMap.java:364-396 | the text opens with the estimated-time label |
| GeographicMap.BestPathToStringFields | src/core/GeographicMap.java:376-378 | for a non-negative duration the text is the label, the whole minutes, "min e ", the milliseconds modulo 60 as seconds, "s " and a newline, then the path's details |
| GeographicMap.CorrectedBestPathToString | src/core/GeographicMap.java:376-378 | the intended text also opens with the estimated-time label |
| GeographicMap.CorrectedBestPathToStringFields | src/core/GeographicMap.java:376-378 | the intended text shows minutes m and seconds s that read back with m * 60 + s the whole seconds of the duration and s below 60 |
| GeographicMap.TimeFieldsSplitSeconds | src/core/GeographicMap.java:377-378 | the intended minute and second fields split the whole seconds of a non-negative duration, with seconds below 60 |
| GeographicMap.TimeFieldsAsWrittenWrong | src/core/GeographicMap.java:378 | a path of 61000 ms is printed "Tempo stimato: 1min e 40s " then its details, which does not add up to 61 s; the intended text prints "1min e 1s " |
| GeographicMap.FailureIsFinal | src/core/GeographicMap.java:122-162 | once a routing query of the cost-matrix loop fails, no later iteration changes anything |
| GeographicMap.BuildAtSucceedsIff | src/core/GeographicMap.java:122-151 | the loop gets past a position exactly when every earlier pair of different locations has a path |
| GeographicMap.BuildAtQueried | src/core/GeographicMap.java:122-139 | the pairs queried before a position are exactly the earlier pairs of different locations |
| GeographicMap.BuildAtCount | src/core/GeographicMap.java:122-139 | one query per earlier pair of different locations |
| GeographicMap.RowsBeforeIsProduct | src/core/GeographicMap.java:122-126 | i full rows hold i·(n − 1) pairs |
| GeographicMap.AllPairs | src/core/GeographicMap.java:122-126 | the whole loop over n positions visits n·(n − 1) pairs of different positions |
| GeographicMap.DifferentBeforeOfDistinct | src/core/GeographicMap.java:126 | with distinct locations, the pairs skipped are exactly those on the diagonal |
| GeographicMap.BuildAtRecords | src/core/GeographicMap.java:142-155 | after a run with distinct ids, every earlier pair has its distance, time and narrative recorded |
| GeographicMap.BuildAtNoDiagonal | src/core/GeographicMap.java:126-151 | with distinct ids, no key (id, id) is ever written |
| GeographicMap.StepKeepsRecords | src/core/GeographicMap.java:124-158 | one iteration keeps every earlier record and adds its own pair's |
| GeographicMap.BuildSucceedsIff | src/core/GeographicMap.java:116-163 | the matrix is built exactly when every ordered pair of different stops has a path |
| GeographicMap.BuildQueryCount | src/core/GeographicMap.java:116-163 | a successful build over n stops asks the router n·(n − 1) times |
| GeographicMap.BuildQueriesEveryPair | src/core/GeographicMap.java:122-139 | a successful build queries exactly the ordered pairs of different positions |
| GeographicMap.BuildRecordsAll | src/core/GeographicMap.java:150-155 | a successful build records every pair and writes no diagonal key |
| GeographicMap.BuildRecordsEveryPair | src/core/GeographicMap.java:116-163 | the build succeeds iff every leg has a path; it then queries n·(n − 1) pairs, records every pair's distance, time and cached narrative, and has no (id, id) entry |
| GeographicMap.Geocode | src/core/GeographicMap.java:91-94 | a stop geocodes exactly when the geocoder succeeds on it, its location named after it; otherwise the geocoder's error |
| GeographicMap.OsmGeocoderOutcome | src/core/GeographicMap.java:91-94 | geocoding through the search service succeeds exactly when the lookup does, with the lookup's "lat" and "lon"; it fails only with NotExistingCoordinates or the unchecked MalformedAnswer, the lookup's own error |
| GeographicMap.BestPathBetweenOutcome | src/core/GeographicMap.java:285-293 | a start that does not geocode gives its error, then an end that does not; otherwise the result is the coordinate query; it succeeds exactly when both names geocode and the router finds a path |
| GeographicMap.LocateAllOutcome | src/core/GeographicMap.java:419-465 | the stops geocode exactly when each one does, giving one location per name with the name as id and in order; otherwise the error is that of the first stop that does not geocode |
| GeographicMap.LocateAllSnoc | src/core/GeographicMap.java:445-465 | geocoding one more stop extends the list by its location, or fails |
| GeographicMap.LocateAllPrefixFails | src/core/GeographicMap.java:419-465 | a list whose beginning fails to geocode fails with the same error, whatever follows |
| GeographicMap.JobsLocations | src/core/GeographicMap.java:441-465 | one jsprit service per location, in order, with the location's id |
| GeographicMap.SolveTspErrors | src/core/GeographicMap.java:409-488 | UncorrectQuery when there is no intermediate stop; otherwise the geocoding of the stops fails exactly when some stop does not geocode, with that failure as the result; once all geocode, PathNotFound exactly when the cost matrix fails, and never UncorrectQuery; once the matrix is built, the unchecked SolverFailure exactly when jsprit fails, the null solution (None) exactly when it finds none, and its best solution otherwise |
| GeographicMap.SolveTspProblem | src/core/GeographicMap.java:414-487 | the solver gets one vehicle from the start to the end with capacity Integer.MAX_VALUE, jobs [end, intermediates...], an infinite fleet and 2000 iterations |
| GeographicMap.Round | src/core/GeographicMap.java:543 | `Math.round` gives the integer nearest its argument, halves rounded up |
| GeographicMap.GeographicMap.constructor | src/core/GeographicMap.java:207-227 | the vehicle is the router name of the type; the OSM file sits under the maps path; the default geocoding server is used |
| GeographicMap.GeographicMap.ParseVehicle | src/core/GeographicMap.java:181-199 | stores the vehicle type's router name and changes nothing else |
| GeographicMap.GeographicMap.GetBestPathAt | src/core/GeographicMap.java:305-327 | asks the router with the criterion's weighting, the vehicle and the area; PathNotFound exactly when the response has errors, else the router's path |
| GeographicMap.GeographicMap.GetDirectGeocoding | src/core/GeographicMap.java:91-94 | the geocoder's coordinates for the name, or the geocoder's error |
| GeographicMap.GeographicMap.SetGeocodingServer | src/core/GeographicMap.java:271-274 | the server name becomes the given one; the vehicle is untouched |
| GeographicMap.GeographicMap.GetBestPath | src/core/GeographicMap.java:285-293 | geocodes both names, then queries the router |
| GeographicMap.GeographicMap.GetBestPathFastest | src/core/GeographicMap.java:338-341 | the same with the FASTEST criterion |
| GeographicMap.GeographicMap.ShowBestPath | src/core/GeographicMap.java:352-356 | succeeds exactly when the best path exists, with that path's text; otherwise the best path's error |
| GeographicMap.GeographicMap.CreateCostMatrix | src/core/GeographicMap.java:116-163 | PathNotFound exactly when the double loop hits a pair without path; otherwise the distances and times it recorded; a given wrapper ends with every queried leg's narrative |
| GeographicMap.GeographicMap.CostMatrixRows | src/core/GeographicMap.java:122-159 | the outer loop computes the double loop, row after row |
| GeographicMap.GeographicMap.CostMatrixRow | src/core/GeographicMap.java:123-159 | the inner loop computes row i |
| GeographicMap.GeographicMap.QueryPair | src/core/GeographicMap.java:129-155 | one iteration for two different locations: query, record distance and time, cache the narrative |
| GeographicMap.GeographicMap.CreateCostMatrixFastest | src/core/GeographicMap.java:172-175 | the cost matrix with the FASTEST criterion |
| GeographicMap.GeographicMap.SolveTsp | src/core/GeographicMap.java:409-488 | returns the run's result (the best solution, the null one, or SolverFailure when jsprit fails) and leaves the run's cache in the wrapper, if one is given |
| GeographicMap.GeographicMap.LocateStops | src/core/GeographicMap.java:419-465 | geocodes start, end and intermediates in order, and builds one job per location after the start |
| GeographicMap.GeographicMap.SolveTspWithoutCache | src/core/GeographicMap.java:500-503 | solveTsp without a wrapper |
| GeographicMap.GeographicMap.GetTspSolutionActivities | src/core/GeographicMap.java:512-516 | every activity of the solution, route after route |
| GeographicMap.GeographicMap.ShowTspSolution | src/core/GeographicMap.java:529-548 | the run's error; SolverFailure for a null solution, whose cost is read first; or the distance header in rounded kilometres followed by the rendering of every route from the run's cache, NoInstructionsFound if a leg is missing |
| GeographicMap.GeographicMap.RenderTspSolution | src/core/GeographicMap.java:538-547 | the text part of showTspSolution for a solved run |
| JavaLang.JavaSplit | src/server/ClientBusParser.java:21 | no piece holds the separator; a string without separator is its own only piece; trailing empty pieces are dropped |
| JavaLang.JoinJavaSplit | src/core/OpenStreetMapUtils.java:171-195 | joining the pieces of a split with d gives the string with its trailing separators dropped and every other separator turned into d |
| JavaLang.LinesRoundTrip | src/server/Server.java:135 | lines buffered each with a newline split back into the same lines, except trailing empty lines are lost |
| JavaLang.JavaRem | src/core/GeographicMap.java:378 | Java's `%`: dividend = divisor · quotient + remainder, with the remainder smaller than the divisor and of the dividend's sign |
| NominatimReverseGeocodingJAPI.ClampedZoom | src/core/NominatimReverseGeocodingJAPI.java:285-297 | the level kept is in 0..18: the requested level when valid, else 18 |
| NominatimReverseGeocodingJAPI.ClampedZoomIdempotent | src/core/NominatimReverseGeocodingJAPI.java:285-297 | setting the kept level again keeps it |
| NominatimReverseGeocodingJAPI.NominatimReverseGeocodingJAPI.constructor | src/core/NominatimReverseGeocodingJAPI.java:72-75 | the given server with zoom 18 |
| NominatimReverseGeocodingJAPI.NominatimReverseGeocodingJAPI.SetServer | src/core/NominatimReverseGeocodingJAPI.java:276-279 | changes the server only |
| NominatimReverseGeocodingJAPI.NominatimReverseGeocodingJAPI.SetZoomLevel | src/core/NominatimReverseGeocodingJAPI.java:285-297 | the zoom becomes the clamped level; the server is untouched |
| NominatimReverseGeocodingJAPI.NominatimReverseGeocodingJAPI.GetJSON | src/core/NominatimReverseGeocodingJAPI.java:83-129 | a non-empty body made of the answer's lines, or NotExistingCoordinates for a failed connection or an empty answer |
| NominatimReverseGeocodingJAPI.NominatimReverseGeocodingJAPI.GetAdress | src/core/NominatimReverseGeocodingJAPI.java:306-315 | the address built from the JSON of the reverse URL at the current zoom, or that request's error |
| NominatimReverseGeocodingJAPI.Registry.GetInstance | src/core/NominatimReverseGeocodingJAPI.java:256-260 | the first call creates the instance for its server at zoom 18; every later call returns that same instance |
| NominatimReverseGeocodingJAPI.Registry.GetDefaultInstance | src/core/NominatimReverseGeocodingJAPI.java:267-270 | the same with the default server |
| OpenStreetMapUtils.SearchUrlReplacesSpaces | src/core/OpenStreetMapUtils.java:171-198 | the search URL is the address with trailing spaces dropped and every other space turned into "+" |
| OpenStreetMapUtils.NoWordIffBlank | src/core/OpenStreetMapUtils.java:171-183 | an address has no word exactly when it is non-empty and all spaces |
| OpenStreetMapUtils.CoordinatesOfFirstPlace | src/core/OpenStreetMapUtils.java:209-242 | a successful lookup holds exactly "lon" and "lat", those of the answer's first place |
| OpenStreetMapUtils.OpenStreetMapUtils.constructor | src/core/OpenStreetMapUtils.java:57-61 | keeps the server |
| OpenStreetMapUtils.OpenStreetMapUtils.GetRequest | src/core/OpenStreetMapUtils.java:99-150 | succeeds exactly on status 200, with every line of the body appended; otherwise NotExistingCoordinates |
| OpenStreetMapUtils.OpenStreetMapUtils.GetCoordinates | src/core/OpenStreetMapUtils.java:158-247 | an address without words is NotExistingCoordinates; a success has keys "lon" and "lat"; the result is the URL, then the request, then the decoding of the first place |
| OpenStreetMapUtils.OpenStreetMapUtils.BuildQuery | src/core/OpenStreetMapUtils.java:171-198 | the loop writes the server's search path, the words joined by "+", then the format options |
| OpenStreetMapUtils.Registry.GetInstance | src/core/OpenStreetMapUtils.java:69-80 | the first call creates the instance for its server; every later call returns that same instance, whatever server it names |
| OpenStreetMapUtils.Registry.GetDefaultInstance | src/core/OpenStreetMapUtils.java:86-89 | the same with the default server |
| Server.EndAt | src/server/Server.java:113 | the lines read are those before the first "END" |
| Server.EndAtIsFirstEnd | src/server/Server.java:113 | reading stops at the first "END" and nowhere else |
| Server.ReadAllStep | src/server/Server.java:113-136 | each line read is classified after the earlier ones |
| Server.Picks | src/test/Bus.java:103 | the random draws are indices of the list |
| Server.Server.constructor | src/server/Server.java:65-75 | both output types present, neither asked for, no best-path points |
| Server.Server.Run | src/server/Server.java:89-222 | the lines written are the session's: the answer or the caught exception's message, then "END"; the state afterwards is that of the read loop |
| Server.Server.ReadRequest | src/server/Server.java:109-136 | the loop reads up to the first "END", sets the flags, keeps the last directive and buffers every other line; IOFailure exactly when the stream fails before any "END" |
| Server.Server.Receive | src/server/Server.java:117-135 | one pass of the loop body classifies one line |
| Server.Server.MarkOutputType | src/server/Server.java:117-127 | a line equal to an output type sets that flag; nothing else changes |
| Server.Server.Respond | src/server/Server.java:139-165 | the dispatch after reading: the best path for a directive, else the parse and the requested solution, else the no-valid-type message |
| Server.Buffered | src/server/Server.java:131-135 | no buffered line is an output type or a directive |
| Server.ReadAllAppend | src/server/Server.java:113-136 | reading two runs of lines is reading them one after the other |
| Server.ReadAllKeepsKeys | src/server/Server.java:117-127 | reading never adds or removes an output type |
| Server.FlagSetIffRequested | src/server/Server.java:117-127 | an output type is asked for exactly when it was before or one of the lines names it |
| Server.RepeatedFlagChangesNothing | src/server/Server.java:124 | a flag line read twice leaves the state of one read |
| Server.FlagsNeverEmpty | src/server/Server.java:147 | the flag map never becomes empty, so the no-valid-type branch is not reached |
| Server.BufferedInOrder | src/server/Server.java:135 | the buffer gets exactly the lines that are neither output types nor directives, in order |
| Server.NoDirectiveKeepsPoints | src/server/Server.java:131 | without a directive line the best-path points stay as they were |
| Server.LastDirectiveWins | src/server/Server.java:131 | the last directive line decides the best-path points |
| Server.QueryStopsAreBufferedLines | src/server/Server.java:135 | the parser sees the buffered lines, less trailing empty ones |
| Server.BufferedLinesOf | src/server/Server.java:135 | every buffered line is one of the client's lines |
| Server.EndIsAlwaysLast | src/server/Server.java:198-201 | every session writes at most two lines, with "END" last |
| Server.LaterLinesIgnored | src/server/Server.java:113 | the lines after the first "END", and whether the stream fails then, change nothing |
| Server.ReadFailureIsReported | src/server/Server.java:169-172 | a read failure before any "END" writes its message and "END" |
| Server.FreshSessionReads | src/server/Server.java:113-136 | a fresh session with no "END" so far sets its flags from the lines and buffers the rest |
| Server.DirectiveDecides | src/server/Server.java:143 | with a directive line, only the best path between the directive's second and third words is answered |
| Server.ShortQueryIsRefused | src/server/Server.java:150 | without a directive, fewer than four stops write the NoSpecifiedJobs message |
| Server.FreshSessionFacts | src/server/Server.java:113-136 | without a directive a fresh session has no points, a non-empty flag map, each flag set iff its line was sent, and the filtered lines buffered |
| Server.ShowSolutionTakesPrecedence | src/server/Server.java:153 | when "ShowSolution" was sent, the itinerary is answered |
| Server.TestSolutionWhenAskedAlone | src/server/Server.java:154 | "ShowTestSolution" alone answers the evaluation of a shuffled copy of the stops |
| Server.NoFlagNoSolution | src/server/Server.java:147-165 | without a flag or a directive, a query is still parsed but only its error (if any) and "END" are written |
| Server.SilentErrors | src/server/Server.java:169-196 | each checked exception has a message; only the unchecked ones (index, geocoding answer, jsprit) are not caught |
| Server.MessagesIdentifyErrors | src/server/Server.java:169-196 | different caught exceptions write different messages |
| StopsTester.ProviderCostsSucceedsIff | src/test/StopsTester.java:62-77 | the provider's costs exist exactly when every adjacent leg of its list has a best path |
| StopsTester.ProviderCostsFirstFailure | src/test/StopsTester.java:71-76 | on failure, the error is that of the first leg without a path |
| StopsTester.ProviderCostsFailureIsFinal | src/test/StopsTester.java:71-76 | after a failed leg, the later legs change nothing |
| StopsTester.ProviderCostsOneMoreLeg | src/test/StopsTester.java:71-76 | one more leg adds its distance and its time |
| StopsTester.Verdict | src/test/StopsTester.java:151-168 | each verdict opens with the algorithm stop's id |
| StopsTester.Advance | src/test/StopsTester.java:135-171 | one loop iteration: a skip moves only the provider index; a judgement adds one verdict and moves the algorithm index |
| StopsTester.CompareFromAdvance | src/test/StopsTester.java:135-171 | the loop from a state equals the loop from one iteration later |
| StopsTester.AdvanceKeepsConsistent | src/test/StopsTester.java:135-171 | an iteration keeps the loop invariant: hits at most stops processed, one verdict per processed stop, only processed stops marked wrong |
| StopsTester.CompareFromOutcome | src/test/StopsTester.java:135-171 | the loop ends with every algorithm stop judged and the earlier verdicts kept, or with IndexOutOfBounds |
| StopsTester.ComparisonOutcome | src/test/StopsTester.java:135-171 | a finished comparison has one verdict per tour stop, each opening with that stop's id, at most as many hits as stops, and only tour stops marked wrong; it can only fail with IndexOutOfBounds |
| StopsTester.AllCorrect | src/test/StopsTester.java:155-160 | a tour that follows the provider gets the correct-choice verdict on every stop |
| StopsTester.IdenticalOrderAllHits | src/test/StopsTester.java:135-171 | a tour in the provider's order scores a hit on every stop and marks nothing wrong |
| StopsTester.MismatchKeepsProviderStop | src/test/StopsTester.java:161-168 | after a miss the provider index stays put: [A, B, C] against [A, X, C] scores one hit |
| StopsTester.WrongStopIsSkipped | src/test/StopsTester.java:144-148 | a provider stop already judged wrong is skipped: [B, A, C] against [A, B, C] scores two hits |
| StopsTester.TourLongerThanProviderFails | src/test/StopsTester.java:141 | a tour longer than the provider's list runs past it |
| StopsTester.ActivityIds | src/test/StopsTester.java:115-118 | the tour's location ids, in order |
| StopsTester.EvaluationOutcome | src/test/StopsTester.java:105-178 | evaluation succeeds exactly when the provider list is non-empty, every leg has a path, there is a solution and its tour does not run past the list; a missing leg's error is reported before the null solution's SolverFailure and before an index error; the text opens with one verdict per tour stop |
| StopsTester.StopsTester.Init | src/test/StopsTester.java:26-51 | an empty builder and zero counters |
| StopsTester.StopsTester.CalculateProviderBestPathCosts | src/test/StopsTester.java:62-77 | an empty list is NoStopsFound; otherwise the counters grow by the provider's costs, or the first missing leg's error is returned |
| StopsTester.StopsTester.CalculateProviderFastestPathCosts | src/test/StopsTester.java:87-90 | the same with the FASTEST criterion |
| StopsTester.StopsTester.CompareStops | src/test/StopsTester.java:135-171 | the loop computes the comparison: hits and verdicts as defined, or IndexOutOfBounds |
| StopsTester.StopsTester.ComparePass | src/test/StopsTester.java:141-170 | one pass of the loop body is one iteration of the comparison |
| StopsTester.StopsTester.Judge | src/test/StopsTester.java:151-168 | appends the verdict and counts a hit exactly when the two stops agree |
| StopsTester.StopsTester.AppendVerdict | src/test/StopsTester.java:151-168 | the builder gets exactly the verdict text |
| StopsTester.StopsTester.Create | src/test/StopsTester.java:105-178 | the evaluation's text or error, with provider costs, solver cost, number of stops and hits as computed; a success needs a solution |
| StopsTester.StopsTester.GetCheckSB | src/test/StopsTester.java:184-187 | returns the builder |
| StopsTester.StopsTester.GetProviderBestPathDistance | src/test/StopsTester.java:193-196 | returns the provider's distance |
| StopsTester.StopsTester.GetProviderBestPathTime | src/test/StopsTester.java:202-205 | returns the provider's time |
| StopsTester.StopsTester.GetAlgBestPathDistance | src/test/StopsTester.java:211-214 | returns the solver's distance |
| TSPSolutionWrapper.LocationsIds | src/core/TSPSolutionWrapper.java:50-54 | the tour's locations are the start, then every activity's id |
| TSPSolutionWrapper.FlattenLength | src/core/TSPSolutionWrapper.java:41-44 | flattening keeps every activity of every route |
| TSPSolutionWrapper.RenderLocationsStep | src/core/TSPSolutionWrapper.java:61-74 | one round writes the location, then the leg's narrative or stops at a missing one |
| TSPSolutionWrapper.IncompleteIsFinal | src/core/TSPSolutionWrapper.java:61-74 | once a narrative is missing, later rounds add nothing |
| TSPSolutionWrapper.RenderCompleteUpTo | src/core/TSPSolutionWrapper.java:61-74 | after n rounds the rendering is complete exactly when the legs out of the first n stops are cached |
| TSPSolutionWrapper.RenderComplete | src/core/TSPSolutionWrapper.java:61-74 | a tour renders completely exactly when every leg is cached |
| TSPSolutionWrapper.RenderPrefix | src/core/TSPSolutionWrapper.java:61-74 | the loop's text so far followed by the reference rendering of the rest is the whole reference rendering |
| TSPSolutionWrapper.RenderMatchesItinerary | src/core/TSPSolutionWrapper.java:61-74 | with every leg cached, the loop writes exactly the reference itinerary |
| TSPSolutionWrapper.StartOnly | src/core/TSPSolutionWrapper.java:50-74 | a tour without activities is the start point alone |
| TSPSolutionWrapper.SingleRoute | src/core/TSPSolutionWrapper.java:37-78 | a one-route solution renders as its tour from the start point |
| TSPSolutionWrapper.RenderRoutesStep | src/core/TSPSolutionWrapper.java:41-74 | one route round renders the activities gathered so far |
| TSPSolutionWrapper.IncompleteRoutesIsFinal | src/core/TSPSolutionWrapper.java:41-74 | once a route renders incompletely, later routes add nothing |
| TSPSolutionWrapper.TSPSolutionWrapper.Init | src/core/TSPSolutionWrapper.java:77 | keeps the activities and the builder |
| TSPSolutionWrapper.TSPSolutionWrapper.Create | src/core/TSPSolutionWrapper.java:37-78 | without a builder it always succeeds; with one, the builder gets the routes' rendering and the call succeeds exactly when every leg is cached, else NoInstructionsFound; the activities are every route's, in order |
| TSPSolutionWrapper.TSPSolutionWrapper.RenderRoute | src/core/TSPSolutionWrapper.java:41-74 | one round of the route loop |
| TSPSolutionWrapper.TSPSolutionWrapper.BuildLocations | src/core/TSPSolutionWrapper.java:50-54 | the start point, then every activity's id |
| TSPSolutionWrapper.TSPSolutionWrapper.RenderTour | src/core/TSPSolutionWrapper.java:61-74 | the location loop appends the tour's rendering and reports whether it was complete |
| TSPSolutionWrapper.TSPSolutionWrapper.RenderStop | src/core/TSPSolutionWrapper.java:62-73 | one round of the location loop |
| TSPSolutionWrapper.TSPSolutionWrapper.CreateWithoutRendering | src/core/TSPSolutionWrapper.java:86-89 | every activity, no builder, no failure |
| TSPSolutionWrapper.TSPSolutionWrapper.GetSolutionActivities | src/core/TSPSolutionWrapper.java:95-98 | returns the activities |
| TSPSolutionWrapper.TSPSolutionWrapper.GetSBSolution | src/core/TSPSolutionWrapper.java:105-108 | returns the builder |
| Test.TestJspritAlgorithm | src/test/Test.java:32-49 | shuffles the bus in place into a permutation, keeping its start, end and provider list, then returns the tester built on the solver's tour of the shuffled stops, or its error |
| Test.GetJspritAlgorithmTestingInfo | src/test/Test.java:78-81 | the evaluation text of a shuffled copy of the stops |
| Test.GetJspritAlgorithmSolutionInfo | src/test/Test.java:93-96 | the itinerary text of the bus as it stands |
| Test.GetGraphHopperAlgorithmSolutionInfo | src/test/Test.java:108-111 | the best-path text between the two stops |
| Test.GetGraphHopperAlgorithmSolutionInfoFastest | src/test/Test.java:122-125 | the same with the FASTEST criterion |

Note: `StopsTester.Advance` puts the algorithm's stop id into `wrongStops` after a miss, not
the provider's (src/test/StopsTester.java:161-168). It then skips a provider stop only
when the algorithm has already got that id wrong.

## Left out

- Floating point follows the source in three ways. Distances are `real`. `Math.round`
  is modelled only where an integer is printed (`GeographicMap.Round`). The statistics'
  percentages (`getHitsPercentual`, `getEfficiencyPercentual`) are rendered by a
  parameter (`showFigures`); the labels and the rounded distances around them are
  written out (`StopsTester.Statistics`).
- GraphHopper (`importOrLoad`, `route`), jsprit (`createAlgorithm`, `searchSolutions`,
  `bestOf`), the HTTP connections, the JSON parser and `Double.parseDouble` are given
  as function values. Their internal behaviour is not modelled.
- GeographicMap.BestPathToString: the distance line and the translated turn
  instructions (TranslationMap, Normalizer, `trim`, non-ASCII replacement) are a
  `details` text of the path. Only the time line is written out, with the seconds
  as the code prints them. The map's text (`describe`) is this as-written text.
- Logging calls (`log.debug`, `log.info`) and console prints are left out: they do
  not change the result. That includes the debug line of `createCostMatrix` (line
  158), which has the same seconds error as `bestPathToString`.
- Server: the socket streams, the accept loop of `main`, the thread start in the
  constructor, and the reading of the client's acknowledgement after "END" are I/O.
  The model takes the client's lines and whether the stream fails after them.
- Server: `new Server(socket)` with the default map `Italy` is not part of this model.
  Italy, Address, BusFlagEncoder and BusFlagEncoderFactory are context classes.
- NominatimReverseGeocodingJAPI: the command-line `main` (lines 138-248) is a
  demonstration program and is left out. `new Address(json, zoom)` is represented by
  its arguments (`AddressSource`).
- StopsTester: `getHitsPercentual` and `getEfficiencyPercentual` are floating-point
  divisions and are left out. So is `Test.getJspritAlgorithmHitsPercentual`, which
  only returns `getHitsPercentual`.
- Java `long` overflow of the time and distance sums is not modelled; integers are
  unbounded.
- GeographicMap: the getters of `osmFile`, `area` and `geocodingServer` are left
  out; they return a field.
- GeographicMap.SolveTspRun: when jsprit fails or finds nothing is not modelled. Its
  answer (`SolverAnswer`) is a parameter: a best solution, none (the null that
  `Solutions.bestOf` returns) or an unchecked exception, for instance from `addJob`
  (line 475). The reasons jsprit has for each are its own.
- CostMatrixWrapper.CostMatrixWrapper.FromMap copies the given map into the wrapper.
  The Java wrapper keeps the caller's map object, so later additions and the caller's
  own changes are shared; the model does not capture that aliasing. The core only
  builds wrappers with the no-argument constructor (GeographicMap.java:532).
- GeographicMap.GeographicMap.SetGeocodingServer changes only the field. The map's
  geocoder is a value fixed by the constructor and does not read it. In Java the
  field reaches `OpenStreetMapUtils.getInstance` (line 93), whose shared instance keeps
  the server of its first request (`OpenStreetMapUtils.Registry.GetInstance`), so a
  later change has no effect either once a stop has been geocoded.
- GeographicMap.CreateCostMatrix: the model's build state always tracks a leg cache,
  even when no wrapper is given. The postcondition speaks about the wrapper only when
  there is one.
- TSPSolutionWrapper.TSPSolutionWrapper.Create requires a cost-matrix wrapper whenever
  a builder is given. With a builder and no wrapper, the Java code dereferences null
  and fails with an unchecked exception that nothing catches.
- Bus.Bus.Swap requires both indices to be within the list. The Java method is private
  and is only called that way.
- Server.Flag reads a missing key of the flag map as false. In Java that read would
  unbox null; the flag map always holds both keys (`Server.FlagsNeverEmpty`).
- Bus.Bus.ShuffleIntermediateStopsToBeProcessed takes its random draws as a
  parameter, one per position and each in range. That is the range
  `Random.nextInt(size)` guarantees; the generator itself is not modelled.

## Findings

| source | as written | input that shows it | evidently intended | confidence | as-written member | corrected member |
|---|---|---|---|---|---|---|
| src/core/GeographicMap.java:378 | the seconds field of the estimated time prints `path.getTime() % 60`, the milliseconds modulo 60 | a path of 61000 ms prints "1min e 40s" | the seconds past the whole minutes, `(time / 1000) % 60`, which prints "1min e 1s" | not executed | GeographicMap.TimeFieldsAsWrittenWrong | GeographicMap.CorrectedBestPathToStringFields |

The map, the server and the tester print the text as the code writes it
(`GeographicMap.BestPathToString`); the intended text is `GeographicMap.CorrectedBestPathToString`.
