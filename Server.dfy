/** One client session of the VRP server: the client's lines are read up to "END",
    each one either sets an output flag, asks for a direct best path, or is a stop of
    the query; then one answer (or one error message) is written, and always "END". */
module Server {
  import opened Exceptions
  import opened JavaLang
  import Bus
  import ClientBusParser
  import GM = GeographicMap
  import TSP = TSPSolutionWrapper
  import Test

  // ---------------------------------------------------------------- the protocol

  const ShowSolution: string := "ShowSolution"
  const ShowTestSolution: string := "ShowTestSolution"
  const BestPathDirective: string := "ShowSingleSourceBestPath"
  const EndMarker: string := "END"

  /** The output types a client can ask for, in the key order of the flag map. */
  const OutputTypes: seq<string> := [ShowSolution, ShowTestSolution]

  /** The flag map of a new server: both output types present, neither asked for. */
  const InitialFlags: map<string, bool> := map[ShowSolution := false, ShowTestSolution := false]

  const NoValidRequest: string := "Non hai specificato una tipologia di richiesta valida!"

  /** What the socket delivers: the client's lines, then either the end of the stream
      or, when `failsAfterLines` holds, a read failure. */
  datatype Incoming = Incoming(lines: seq<string>, failsAfterLines: bool)

  /** `BufferedReader.readLine` at position k of the stream. */
  function ReadLineAt(incoming: Incoming, k: nat): Result<Option<string>> {
    if k < |incoming.lines| then Ok(Some(incoming.lines[k]))
    else if incoming.failsAfterLines then Err(IOFailure)
    else Ok(None)
  }

  /** The number of lines read before the first "END" (all of them when there is none). */
  function EndAt(lines: seq<string>): (n: nat)
    ensures n <= |lines|
    ensures forall m :: 0 <= m < n ==> lines[m] != EndMarker
    ensures n < |lines| ==> lines[n] == EndMarker
  {
    if |lines| == 0 then 0
    else if lines[0] == EndMarker then 0
    else 1 + EndAt(lines[1..])
  }

  /** The first "END" is the only place reading can stop. */
  lemma EndAtIsFirstEnd(lines: seq<string>, k: nat)
    requires k <= |lines|
    requires forall m :: 0 <= m < k ==> lines[m] != EndMarker
    requires k == |lines| || lines[k] == EndMarker
    ensures EndAt(lines) == k
  {
  }

  // ---------------------------------------------------------------- reading

  /** The state the read loop builds: the flag map, the split directive last seen and
      the buffered query lines. */
  datatype Reading = Reading(vrpTypes: map<string, bool>, bestPathPoints: Option<seq<string>>, queryLines: seq<string>)

  predicate IsDirective(stop: string) {
    StartsWith(stop, BestPathDirective)
  }

  /** One iteration of the read loop: a line naming an output type sets its flag; a
      directive line replaces the best-path points; any other line that is not an
      output type is buffered. */
  function Classify(r: Reading, stop: string): Reading {
    var isType := stop in r.vrpTypes;
    var flags := if isType then r.vrpTypes[stop := true] else r.vrpTypes;
    if IsDirective(stop) then Reading(flags, Some(JavaSplit(stop, ' ')), r.queryLines)
    else if isType then Reading(flags, r.bestPathPoints, r.queryLines)
    else Reading(flags, r.bestPathPoints, r.queryLines + [stop])
  }

  /** The read loop over `lines`, in order. */
  function ReadAll(r: Reading, lines: seq<string>): Reading
    decreases |lines|
  {
    if |lines| == 0 then r else Classify(ReadAll(r, lines[..|lines| - 1]), lines[|lines| - 1])
  }

  /** Reading one more line classifies it after the earlier ones. */
  lemma ReadAllStep(r: Reading, lines: seq<string>, k: nat)
    requires k < |lines|
    ensures ReadAll(r, lines[..k + 1]) == Classify(ReadAll(r, lines[..k]), lines[k])
  {
    assert lines[..k + 1][..k] == lines[..k];
  }

  /** `vrpTypesMap.get(key)`, a missing key read as false. */
  function Flag(vrpTypes: map<string, bool>, key: string): bool {
    key in vrpTypes && vrpTypes[key]
  }

  // ---------------------------------------------------------------- answering

  /** The k-th random draw reduced to an index of a list of the given size, as
      `nextInt(size)` returns. */
  function Picks(random: nat -> nat, size: nat): (picks: seq<int>)
    ensures |picks| == size && Bus.PicksInRange(picks, size)
  {
    seq(size, k => if k < 0 || size == 0 then 0 else random(k) % size)
  }

  /** The services behind the map of a server, together with the random source and
      the floating-point part of the evaluation statistics. */
  datatype Backend = Backend(ctx: GM.RouteContext, geocoder: string -> Result<GM.Coordinate>,
                             solver: GM.Problem -> GM.SolverAnswer, random: nat -> nat,
                             showFigures: (int, int, real, real) -> (string, string))

  /** The text a successful request prints, none, or the exception it raises. */
  function Answer(b: Backend, vrpTypes: map<string, bool>, bestPathPoints: Option<seq<string>>, query: string)
    : Result<Option<string>>
  {
    if bestPathPoints.Some? then
      var points := bestPathPoints.value;
      if |points| < 3 then Err(IndexOutOfBounds)
      else AsAnswer(GM.BestPathText(b.ctx, b.geocoder, points[1], points[2]))
    else if |vrpTypes| == 0 then Ok(Some(NoValidRequest))
    else
      var stops := JavaSplit(query, '\n');
      if |stops| <= 3 then Err(NoSpecifiedJobs)
      else
        var startPoint := stops[0];
        var endPoint := stops[|stops| - 1];
        var intermediateStops := stops[1..|stops| - 1];
        if Flag(vrpTypes, ShowSolution) then
          AsAnswer(GM.ShowTspText(b.ctx, b.geocoder, b.solver, startPoint, endPoint, intermediateStops))
        else if Flag(vrpTypes, ShowTestSolution) then
          AsAnswer(Test.TestingInfo(b.ctx, b.geocoder, b.solver, startPoint, endPoint, intermediateStops, stops,
                                 Picks(b.random, |intermediateStops|), b.showFigures))
        else Ok(None)
  }

  function AsAnswer(r: Result<string>): Result<Option<string>> {
    if r.Err? then Err(r.error) else Ok(Some(r.value))
  }

  /** The line each caught exception prints; unchecked errors are not caught. */
  function Message(e: Error): Option<string> {
    match e
    case IOFailure => Some(IOFailureMessage)
    case NoSpecifiedJobs => Some(NoSpecifiedJobsMessage)
    case NoStopsFound => Some(NoStopsFoundMessage)
    case UncorrectQuery => Some(UncorrectQueryMessage)
    case NotExistingCoordinates => Some(NotExistingCoordinatesMessage)
    case PathNotFound => Some(PathNotFoundMessage)
    case NoInstructionsFound => Some(NoInstructionsFoundMessage)
    case IndexOutOfBounds => None
    case MalformedAnswer => None
    case SolverFailure => None
  }

  const IOFailureMessage: string := "Non sono riuscito a processare la tua richiesta!"
  const NoSpecifiedJobsMessage: string := "Specificare almeno 3 fermate!"
  const NoStopsFoundMessage: string := "Non ho trovato fermate!"
  const UncorrectQueryMessage: string := "Richiesta non formulata correttamente!"
  const NotExistingCoordinatesMessage: string := "Attenzione: 1 o piu' fermate richieste non sono presenti nel database!"
  const PathNotFoundMessage: string := "Non ho trovato alcun percorso!"
  const NoInstructionsFoundMessage: string := "Non ho trovato istruzioni!"

  /** The lines written for an outcome: the answer or the message, if any, then "END". */
  function Reply(outcome: Result<Option<string>>): seq<string> {
    match outcome
    case Ok(Some(text)) => [text, EndMarker]
    case Ok(None) => [EndMarker]
    case Err(e) => if Message(e).Some? then [Message(e).value, EndMarker] else [EndMarker]
  }

  /** The lines a session writes, given the flags and best-path points it starts with. */
  function Session(b: Backend, vrpTypes: map<string, bool>, bestPathPoints: Option<seq<string>>, incoming: Incoming)
    : seq<string>
  {
    var n := EndAt(incoming.lines);
    var reading := ReadAll(Reading(vrpTypes, bestPathPoints, []), incoming.lines[..n]);
    if n == |incoming.lines| && incoming.failsAfterLines then Reply(Err(IOFailure))
    else Reply(Answer(b, reading.vrpTypes, reading.bestPathPoints, ConcatLines(reading.queryLines)))
  }

  // ---------------------------------------------------------------- the server object

  class Server {
    const geoMap: GM.GeographicMap
    var vrpTypesMap: map<string, bool>
    var bestPathPoints: Option<seq<string>>

    /** The flag map always holds exactly the two output types. */
    ghost predicate Valid()
      reads this
    {
      vrpTypesMap.Keys == InitialFlags.Keys
    }

    ghost function Services(random: nat -> nat, showFigures: (int, int, real, real) -> (string, string)): Backend
      reads this, geoMap
    {
      Backend(geoMap.Context(GM.FASTEST), geoMap.geocoder, geoMap.solver, random, showFigures)
    }

    /** `new Server(socket, map)`: both output types present and not asked for. */
    constructor (geoMap: GM.GeographicMap)
      ensures Valid()
      ensures this.geoMap == geoMap && vrpTypesMap == InitialFlags && bestPathPoints == None
    {
      this.geoMap := geoMap;
      bestPathPoints := None;
      vrpTypesMap := map[];
      new;
      vrpTypesMap := vrpTypesMap[ShowSolution := false];
      vrpTypesMap := vrpTypesMap[ShowTestSolution := false];
    }

    /** `run`: reads the client's lines up to "END", then writes the answer or the
        message of the exception raised, and "END" last. */
    method Run(incoming: Incoming, random: nat -> nat, showFigures: (int, int, real, real) -> (string, string))
      returns (output: seq<string>)
      requires Valid()
      modifies this
      ensures Valid()
      ensures var reading := ReadAll(Reading(old(vrpTypesMap), old(bestPathPoints), []),
                                     incoming.lines[..EndAt(incoming.lines)]);
        vrpTypesMap == reading.vrpTypes && bestPathPoints == reading.bestPathPoints
      ensures output == Session(old(Services(random, showFigures)), old(vrpTypesMap), old(bestPathPoints), incoming)
    {
      ghost var services := Services(random, showFigures);
      var line, query, reading := ReadRequest(incoming);
      if line.Err? {
        output := Reply(Err(line.error));
        return;
      }
      assert Services(random, showFigures) == services;
      var outcome := Respond(query, random, showFigures);
      output := Reply(outcome);
    }

    /** The read loop of `run`: every line up to the first "END" or the end of the
        stream goes through `Receive`; the last read is returned. */
    method ReadRequest(incoming: Incoming) returns (line: Result<Option<string>>, query: string, ghost reading: Reading)
      requires Valid()
      modifies this
      ensures Valid()
      ensures reading == ReadAll(Reading(old(vrpTypesMap), old(bestPathPoints), []), incoming.lines[..EndAt(incoming.lines)])
      ensures vrpTypesMap == reading.vrpTypes && bestPathPoints == reading.bestPathPoints
      ensures query == ConcatLines(reading.queryLines)
      ensures line.Err? <==> EndAt(incoming.lines) == |incoming.lines| && incoming.failsAfterLines
      ensures line.Err? ==> line.error == IOFailure
    {
      ghost var r0 := Reading(vrpTypesMap, bestPathPoints, []);
      reading := r0;
      var sb := new StringBuilder("");
      var k := 0;
      line := ReadLineAt(incoming, 0);
      while line.Ok? && line.value.Some? && line.value.value != EndMarker
        invariant Valid()
        invariant 0 <= k <= |incoming.lines| && line == ReadLineAt(incoming, k)
        invariant forall m :: 0 <= m < k ==> incoming.lines[m] != EndMarker
        invariant reading == ReadAll(r0, incoming.lines[..k])
        invariant reading.vrpTypes == vrpTypesMap && reading.bestPathPoints == bestPathPoints
        invariant sb.contents == ConcatLines(reading.queryLines)
        decreases |incoming.lines| - k
      {
        reading := Receive(line.value.value, sb, reading);
        ReadAllStep(r0, incoming.lines, k);
        k := k + 1;
        line := ReadLineAt(incoming, k);
      }
      EndAtIsFirstEnd(incoming.lines, k);
      query := sb.contents;
    }

    /** One pass of the read loop's body. */
    method Receive(stop: string, query: StringBuilder, ghost before: Reading) returns (ghost after: Reading)
      requires Valid()
      requires before.vrpTypes == vrpTypesMap && before.bestPathPoints == bestPathPoints
      requires query.contents == ConcatLines(before.queryLines)
      modifies this, query
      ensures Valid()
      ensures after == Classify(before, stop)
      ensures after.vrpTypes == vrpTypesMap && after.bestPathPoints == bestPathPoints
      ensures query.contents == ConcatLines(after.queryLines)
    {
      var isType := MarkOutputType(stop);
      after := Classify(before, stop);
      if IsDirective(stop) {
        bestPathPoints := Some(JavaSplit(stop, ' '));
      } else if !isType {
        query.Append(stop);
        query.Append("\n");
      }
    }

    /** The loop over the keys of the flag map: a line equal to a key sets its flag. */
    method MarkOutputType(stop: string) returns (isType: bool)
      requires Valid()
      modifies this
      ensures Valid()
      ensures isType <==> stop in old(vrpTypesMap)
      ensures vrpTypesMap == if isType then old(vrpTypesMap)[stop := true] else old(vrpTypesMap)
      ensures bestPathPoints == old(bestPathPoints)
    {
      isType := false;
      for t := 0 to |OutputTypes|
        invariant Valid()
        invariant isType <==> stop in OutputTypes[..t]
        invariant vrpTypesMap == if isType then old(vrpTypesMap)[stop := true] else old(vrpTypesMap)
        invariant bestPathPoints == old(bestPathPoints)
      {
        var outputType := OutputTypes[t];
        if stop == outputType {
          if !vrpTypesMap[outputType] {
            vrpTypesMap := vrpTypesMap[outputType := true];
          }
          isType := true;
        }
        assert OutputTypes[..t + 1] == OutputTypes[..t] + [outputType];
      }
      assert OutputTypes[..|OutputTypes|] == OutputTypes;
    }

    /** The dispatch after reading: the best path when a directive was seen, otherwise
        the parsed query answered as the flags ask. */
    method Respond(query: string, random: nat -> nat, showFigures: (int, int, real, real) -> (string, string))
      returns (outcome: Result<Option<string>>)
      ensures outcome == Answer(Services(random, showFigures), vrpTypesMap, bestPathPoints, query)
    {
      if bestPathPoints.Some? {
        var points := bestPathPoints.value;
        if |points| < 3 {
          return Err(IndexOutOfBounds);
        }
        var text := Test.GetGraphHopperAlgorithmSolutionInfoFastest(geoMap, points[1], points[2]);
        return AsAnswer(text);
      } else if |vrpTypesMap| != 0 {
        var bus := ClientBusParser.Parse(query);
        if bus.Err? {
          return Err(bus.error);
        }
        if Flag(vrpTypesMap, ShowSolution) {
          var text := Test.GetJspritAlgorithmSolutionInfo(geoMap, bus.value);
          return AsAnswer(text);
        } else if Flag(vrpTypesMap, ShowTestSolution) {
          var picks := Picks(random, |bus.value.intermediateStopsToBeProcessed|);
          var text := Test.GetJspritAlgorithmTestingInfo(geoMap, bus.value, picks, showFigures);
          return AsAnswer(text);
        }
        return Ok(None);
      }
      outcome := Ok(Some(NoValidRequest));
    }
  }

  // ---------------------------------------------------------------- properties of a session

  predicate NoDirective(lines: seq<string>) {
    forall k :: 0 <= k < |lines| ==> !IsDirective(lines[k])
  }

  /** The lines a session buffers, by filtering: those that neither name an output
      type nor are a directive, in input order. */
  function Buffered(types: set<string>, lines: seq<string>): (b: seq<string>)
    ensures forall k :: 0 <= k < |b| ==> b[k] !in types && !IsDirective(b[k])
    decreases |lines|
  {
    if |lines| == 0 then []
    else
      var last := lines[|lines| - 1];
      Buffered(types, lines[..|lines| - 1]) + (if last in types || IsDirective(last) then [] else [last])
  }

  lemma {:induction false} ReadAllAppend(r: Reading, xs: seq<string>, ys: seq<string>)
    ensures ReadAll(r, xs + ys) == ReadAll(ReadAll(r, xs), ys)
    decreases |ys|
  {
    if |ys| == 0 {
      assert xs + ys == xs;
    } else {
      var last := |ys| - 1;
      assert (xs + ys)[..|xs + ys| - 1] == xs + ys[..last];
      assert (xs + ys)[|xs + ys| - 1] == ys[last];
      ReadAllAppend(r, xs, ys[..last]);
    }
  }

  /** Reading never adds or removes an output type. */
  lemma {:induction false} ReadAllKeepsKeys(r: Reading, lines: seq<string>)
    ensures ReadAll(r, lines).vrpTypes.Keys == r.vrpTypes.Keys
    decreases |lines|
  {
    if |lines| > 0 {
      ReadAllKeepsKeys(r, lines[..|lines| - 1]);
    }
  }

  /** After reading, an output type is asked for exactly when it was before or one of
      the lines names it; naming it again changes nothing. */
  lemma {:induction false} FlagSetIffRequested(r: Reading, lines: seq<string>, outputType: string)
    requires outputType in r.vrpTypes
    ensures outputType in ReadAll(r, lines).vrpTypes
    ensures ReadAll(r, lines).vrpTypes[outputType] <==> r.vrpTypes[outputType] || outputType in lines
    decreases |lines|
  {
    if |lines| > 0 {
      var init := lines[..|lines| - 1];
      FlagSetIffRequested(r, init, outputType);
      assert lines == init + [lines[|lines| - 1]];
      assert outputType in lines <==> outputType in init || outputType == lines[|lines| - 1];
    }
  }

  /** A flag line read twice in a row leaves the same state as read once. */
  lemma RepeatedFlagChangesNothing(r: Reading, outputType: string)
    requires outputType in r.vrpTypes
    ensures Classify(Classify(r, outputType), outputType) == Classify(r, outputType)
  {
  }

  /** The flag map of a valid server is never empty, so the "no valid request type"
      message can never be printed. */
  lemma FlagsNeverEmpty(r: Reading, lines: seq<string>)
    requires r.vrpTypes.Keys == InitialFlags.Keys
    ensures ShowSolution in ReadAll(r, lines).vrpTypes && ShowTestSolution in ReadAll(r, lines).vrpTypes
    ensures |ReadAll(r, lines).vrpTypes| != 0
  {
    ReadAllKeepsKeys(r, lines);
    assert ShowSolution in ReadAll(r, lines).vrpTypes.Keys;
  }

  /** The buffer receives exactly the lines that are neither output types nor
      directives, in the order they were read. */
  lemma {:induction false} BufferedInOrder(r: Reading, lines: seq<string>)
    ensures ReadAll(r, lines).queryLines == r.queryLines + Buffered(r.vrpTypes.Keys, lines)
    decreases |lines|
  {
    if |lines| > 0 {
      var init := lines[..|lines| - 1];
      BufferedInOrder(r, init);
      ReadAllKeepsKeys(r, init);
    }
  }

  /** Without a directive line, the best-path points stay as they were. */
  lemma {:induction false} NoDirectiveKeepsPoints(r: Reading, lines: seq<string>)
    requires NoDirective(lines)
    ensures ReadAll(r, lines).bestPathPoints == r.bestPathPoints
    decreases |lines|
  {
    if |lines| > 0 {
      NoDirectiveKeepsPoints(r, lines[..|lines| - 1]);
    }
  }

  /** The last directive line decides the best-path points. */
  lemma LastDirectiveWins(r: Reading, before: seq<string>, directive: string, after: seq<string>)
    requires IsDirective(directive) && NoDirective(after)
    ensures ReadAll(r, before + [directive] + after).bestPathPoints == Some(JavaSplit(directive, ' '))
  {
    ReadAllAppend(r, before + [directive], after);
    ReadAllAppend(r, before, [directive]);
    assert ReadAll(ReadAll(r, before), [directive]) == Classify(ReadAll(r, before), directive) by {
      assert [directive][..0] == [];
    }
    NoDirectiveKeepsPoints(ReadAll(r, before + [directive]), after);
  }

  /** The query the parser sees: the buffered lines, less trailing empty ones. */
  lemma QueryStopsAreBufferedLines(types: set<string>, lines: seq<string>)
    requires forall k :: 0 <= k < |lines| ==> '\n' !in lines[k]
    ensures var buffered := Buffered(types, lines);
      JavaSplit(ConcatLines(buffered), '\n') == if buffered == [] then [""] else DropTrailingEmpty(buffered)
  {
    BufferedLinesOf(types, lines);
    LinesRoundTrip(Buffered(types, lines));
  }

  lemma {:induction false} BufferedLinesOf(types: set<string>, lines: seq<string>)
    ensures forall k :: 0 <= k < |Buffered(types, lines)| ==> Buffered(types, lines)[k] in lines
    decreases |lines|
  {
    if |lines| > 0 {
      var init := lines[..|lines| - 1];
      BufferedLinesOf(types, init);
      forall k | 0 <= k < |Buffered(types, lines)|
        ensures Buffered(types, lines)[k] in lines
      {
        if k < |Buffered(types, init)| {
          assert Buffered(types, lines)[k] == Buffered(types, init)[k];
          assert Buffered(types, init)[k] in init;
        } else {
          assert Buffered(types, lines)[k] == lines[|lines| - 1];
        }
      }
    }
  }

  /** Whatever a session reads or computes, it writes at most two lines and "END" is
      the last of them. */
  lemma EndIsAlwaysLast(b: Backend, vrpTypes: map<string, bool>, bestPathPoints: Option<seq<string>>, incoming: Incoming)
    ensures var output := Session(b, vrpTypes, bestPathPoints, incoming);
      1 <= |output| <= 2 && output[|output| - 1] == EndMarker
  {
  }

  /** The lines after the first "END" are never read: neither they nor the state of
      the stream after them change what is written. */
  lemma LaterLinesIgnored(b: Backend, vrpTypes: map<string, bool>, bestPathPoints: Option<seq<string>>,
                          lines: seq<string>, rest: seq<string>, fails: bool, fails': bool)
    requires EndMarker !in lines
    ensures Session(b, vrpTypes, bestPathPoints, Incoming(lines + [EndMarker] + rest, fails))
            == Session(b, vrpTypes, bestPathPoints, Incoming(lines + [EndMarker], fails'))
  {
    var long := lines + [EndMarker] + rest;
    var short := lines + [EndMarker];
    EndAtIsFirstEnd(long, |lines|);
    EndAtIsFirstEnd(short, |lines|);
    assert long[..|lines|] == lines && short[..|lines|] == lines;
  }

  /** A read failure before any "END" is reported with its message, whatever was read. */
  lemma ReadFailureIsReported(b: Backend, vrpTypes: map<string, bool>, bestPathPoints: Option<seq<string>>,
                              lines: seq<string>)
    requires EndMarker !in lines
    ensures Session(b, vrpTypes, bestPathPoints, Incoming(lines, true))
            == [IOFailureMessage, EndMarker]
  {
    EndAtIsFirstEnd(lines, |lines|);
  }

  /** A fresh session's state after reading `lines` (no "END" among them). */
  function FreshReading(lines: seq<string>): Reading {
    ReadAll(Reading(InitialFlags, None, []), lines)
  }

  lemma FreshSessionReads(b: Backend, lines: seq<string>, fails: bool)
    requires EndMarker !in lines
    ensures var reading := FreshReading(lines);
      Session(b, InitialFlags, None, Incoming(lines + [EndMarker], fails))
      == Reply(Answer(b, reading.vrpTypes, reading.bestPathPoints, ConcatLines(reading.queryLines)))
  {
    EndAtIsFirstEnd(lines + [EndMarker], |lines|);
    assert (lines + [EndMarker])[..|lines|] == lines;
  }

  /** With a directive line, only the direct best path between its second and third
      words is computed, whatever the flags and the other lines; the last directive
      counts, and one with fewer than three words ends the session with just "END". */
  lemma DirectiveDecides(b: Backend, before: seq<string>, directive: string, after: seq<string>, fails: bool)
    requires IsDirective(directive) && NoDirective(after)
    requires EndMarker !in before + [directive] + after
    ensures var points := JavaSplit(directive, ' ');
      Session(b, InitialFlags, None, Incoming(before + [directive] + after + [EndMarker], fails))
      == if |points| < 3 then [EndMarker]
         else Reply(AsAnswer(GM.BestPathText(b.ctx, b.geocoder, points[1], points[2])))
  {
    FreshSessionReads(b, before + [directive] + after, fails);
    LastDirectiveWins(Reading(InitialFlags, None, []), before, directive, after);
  }

  /** The stops of the query a fresh session parses after reading `lines`. */
  function QueryStops(lines: seq<string>): seq<string> {
    JavaSplit(ConcatLines(Buffered(InitialFlags.Keys, lines)), '\n')
  }

  /** Without a directive the query is always parsed: fewer than four stops give the
      "at least 3 stops" message, whichever flags were set. */
  lemma ShortQueryIsRefused(b: Backend, lines: seq<string>, fails: bool)
    requires EndMarker !in lines && NoDirective(lines)
    requires |QueryStops(lines)| <= 3
    ensures Session(b, InitialFlags, None, Incoming(lines + [EndMarker], fails))
            == [NoSpecifiedJobsMessage, EndMarker]
  {
    FreshSessionFacts(lines);
    FreshSessionReads(b, lines, fails);
  }

  lemma FreshSessionFacts(lines: seq<string>)
    requires NoDirective(lines)
    ensures FreshReading(lines).bestPathPoints == None
    ensures |FreshReading(lines).vrpTypes| != 0
    ensures Flag(FreshReading(lines).vrpTypes, ShowSolution) <==> ShowSolution in lines
    ensures Flag(FreshReading(lines).vrpTypes, ShowTestSolution) <==> ShowTestSolution in lines
    ensures ConcatLines(FreshReading(lines).queryLines) == ConcatLines(Buffered(InitialFlags.Keys, lines))
  {
    var r0 := Reading(InitialFlags, None, []);
    NoDirectiveKeepsPoints(r0, lines);
    FlagsNeverEmpty(r0, lines);
    FlagSetIffRequested(r0, lines, ShowSolution);
    FlagSetIffRequested(r0, lines, ShowTestSolution);
    BufferedInOrder(r0, lines);
    assert [] + Buffered(InitialFlags.Keys, lines) == Buffered(InitialFlags.Keys, lines);
  }

  /** "ShowSolution" wins over "ShowTestSolution": when it was sent, the itinerary is
      written, whether or not the test was asked for too. */
  lemma ShowSolutionTakesPrecedence(b: Backend, lines: seq<string>, fails: bool)
    requires EndMarker !in lines && NoDirective(lines) && ShowSolution in lines
    requires |QueryStops(lines)| > 3
    ensures var stops := QueryStops(lines);
      Session(b, InitialFlags, None, Incoming(lines + [EndMarker], fails))
      == Reply(AsAnswer(GM.ShowTspText(b.ctx, b.geocoder, b.solver, stops[0], stops[|stops| - 1], stops[1..|stops| - 1])))
  {
    FreshSessionFacts(lines);
    FreshSessionReads(b, lines, fails);
  }

  /** "ShowTestSolution" alone gives the evaluation of a shuffled copy of the stops. */
  lemma TestSolutionWhenAskedAlone(b: Backend, lines: seq<string>, fails: bool)
    requires EndMarker !in lines && NoDirective(lines)
    requires ShowSolution !in lines && ShowTestSolution in lines
    requires |QueryStops(lines)| > 3
    ensures var stops := QueryStops(lines);
      var intermediateStops := stops[1..|stops| - 1];
      Session(b, InitialFlags, None, Incoming(lines + [EndMarker], fails))
      == Reply(AsAnswer(Test.TestingInfo(b.ctx, b.geocoder, b.solver, stops[0], stops[|stops| - 1], intermediateStops,
                                         stops, Picks(b.random, |intermediateStops|), b.showFigures)))
  {
    FreshSessionFacts(lines);
    FreshSessionReads(b, lines, fails);
  }

  /** Without a flag and without a directive, no solution line is written: only "END",
      after the parse error when the query is too short. */
  lemma NoFlagNoSolution(b: Backend, lines: seq<string>, fails: bool)
    requires EndMarker !in lines && NoDirective(lines)
    requires ShowSolution !in lines && ShowTestSolution !in lines
    ensures Session(b, InitialFlags, None, Incoming(lines + [EndMarker], fails))
            == if |QueryStops(lines)| <= 3 then [NoSpecifiedJobsMessage, EndMarker] else [EndMarker]
  {
    FreshSessionFacts(lines);
    FreshSessionReads(b, lines, fails);
  }

  /** Each caught exception has its own message, and only the unchecked errors go
      uncaught. */
  lemma SilentErrors(e: Error)
    ensures Message(e).None? <==> e == IndexOutOfBounds || e == MalformedAnswer || e == SolverFailure
  {
  }

  /** Different reported errors write different messages. */
  lemma MessagesIdentifyErrors(e: Error, e': Error)
    ensures Message(e).Some? && Message(e) == Message(e') ==> e == e'
  {
    MessageLength(e);
    MessageLength(e');
  }

  /** The messages have pairwise different lengths. */
  lemma MessageLength(e: Error)
    ensures Message(e).Some? ==> |Message(e).value| == match e
      case IOFailure => 48
      case NoSpecifiedJobs => 29
      case NoStopsFound => 23
      case UncorrectQuery => 38
      case NotExistingCoordinates => 70
      case PathNotFound => 30
      case NoInstructionsFound => 26
      case _ => 0
  {
  }
}
