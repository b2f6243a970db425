/** The road map: best paths between two points (GraphHopper, abstract), the cost
    matrix over every ordered pair of stops together with the path-instruction cache,
    and the set-up of the travelling salesman problem handed to the solver (jsprit,
    abstract). */
module GeographicMap {
  import opened Exceptions
  import opened JavaLang
  import CMW = CostMatrixWrapper
  import TSP = TSPSolutionWrapper
  import OSM = OpenStreetMapUtils

  // ---------------------------------------------------------------- enumerations

  datatype AllowedVehicleTypes =
    GENERIC | CAR | CAR4WD | BIKE | BIKE2 | RACINGBIKE | MOUNTAINBIKE | FOOT | HIKE | MOTORCYCLE | BUS

  datatype BestPathChoice = FASTEST | SHORTEST

  /** The GraphHopper vehicle name `parseVehicle` assigns to each vehicle type. */
  function VehicleName(v: AllowedVehicleTypes): string {
    match v
    case CAR => "car"
    case CAR4WD => "car4wd"
    case BIKE => "bike"
    case BIKE2 => "bike2"
    case RACINGBIKE => "racingbike"
    case MOUNTAINBIKE => "mtb"
    case FOOT => "foot"
    case HIKE => "hike"
    case MOTORCYCLE => "motorcycle"
    case BUS => "bus"
    case GENERIC => "generic"
  }

  /** The Java name of each enum constant. */
  function EnumName(v: AllowedVehicleTypes): string {
    match v
    case GENERIC => "GENERIC"
    case CAR => "CAR"
    case CAR4WD => "CAR4WD"
    case BIKE => "BIKE"
    case BIKE2 => "BIKE2"
    case RACINGBIKE => "RACINGBIKE"
    case MOUNTAINBIKE => "MOUNTAINBIKE"
    case FOOT => "FOOT"
    case HIKE => "HIKE"
    case MOTORCYCLE => "MOTORCYCLE"
    case BUS => "BUS"
  }

  function LowerChar(ch: char): char {
    if 'A' <= ch <= 'Z' then (ch - 'A' + 'a') as char else ch
  }

  /** ASCII lower case. */
  function Lower(s: string): (r: string)
    ensures |r| == |s| && forall k :: 0 <= k < |s| ==> r[k] == LowerChar(s[k])
  {
    seq(|s|, k requires 0 <= k < |s| => LowerChar(s[k]))
  }

  /** Every vehicle type but MOUNTAINBIKE is passed to the router under its own name in
      lower case; MOUNTAINBIKE becomes "mtb". */
  lemma VehicleNameIsLowerCaseName(v: AllowedVehicleTypes)
    ensures v != MOUNTAINBIKE ==> VehicleName(v) == Lower(EnumName(v))
    ensures v == MOUNTAINBIKE ==> VehicleName(v) == "mtb"
  {
    match v
    case GENERIC => assert Lower("GENERIC") == "generic";
    case CAR => assert Lower("CAR") == "car";
    case CAR4WD => assert Lower("CAR4WD") == "car4wd";
    case BIKE => assert Lower("BIKE") == "bike";
    case BIKE2 => assert Lower("BIKE2") == "bike2";
    case RACINGBIKE => assert Lower("RACINGBIKE") == "racingbike";
    case MOUNTAINBIKE =>
    case FOOT => assert Lower("FOOT") == "foot";
    case HIKE => assert Lower("HIKE") == "hike";
    case MOTORCYCLE => assert Lower("MOTORCYCLE") == "motorcycle";
    case BUS => assert Lower("BUS") == "bus";
  }

  /** Distinct vehicle types are given distinct router names. */
  lemma VehicleNameInjective(v: AllowedVehicleTypes, w: AllowedVehicleTypes)
    ensures VehicleName(v) == VehicleName(w) <==> v == w
  {
  }

  /** The weighting `getBestPath` puts in the routing request. */
  function Weighting(btp: BestPathChoice): string {
    match btp
    case FASTEST => "fastest"
    case SHORTEST => "shortest"
  }

  lemma WeightingInjective(a: BestPathChoice, b: BestPathChoice)
    ensures Weighting(a) == Weighting(b) <==> a == b
  {
  }

  // ---------------------------------------------------------------- paths and their text

  datatype Coordinate = Coordinate(lat: real, lon: real)

  /** A jsprit location: its id (the stop name) and its coordinate. */
  datatype Location = Location(id: string, coordinate: Coordinate)

  /** A best path: length in metres, duration in milliseconds, and the text of its
      distance line and turn instructions (translated and normalised by libraries
      that are not part of this model). */
  datatype Path = Path(distance: real, time: int, details: string)

  /** What `getBestPath` asks GraphHopper for. */
  datatype RouteRequest = RouteRequest(from: Coordinate, to: Coordinate, weighting: string, vehicle: string, area: string)

  /** The router and the request fields fixed by the map and the criterion, and the
      map's way of writing a path as text (`bestPathToString`). */
  datatype RouteContext = RouteContext(router: RouteRequest -> Option<Path>, weighting: string, vehicle: string, area: string,
                                       describe: Path -> string)

  /** `getBestPath` on coordinates: the router's best path, or PathNotFound when the
      response has errors (None). */
  function Route(ctx: RouteContext, from: Coordinate, to: Coordinate): (r: Result<Path>)
    ensures r.Err? <==> ctx.router(RouteRequest(from, to, ctx.weighting, ctx.vehicle, ctx.area)).None?
    ensures r.Err? ==> r.error == PathNotFound
  {
    match ctx.router(RouteRequest(from, to, ctx.weighting, ctx.vehicle, ctx.area))
    case None => Err(PathNotFound)
    case Some(path) => Ok(path)
  }

  /** Whole minutes of a duration in milliseconds, as printed: `(time / 1000) / 60`. */
  function ShownMinutes(time: int): int {
    JavaDiv(JavaDiv(time, 1000), 60)
  }

  /** Seconds as printed by the code: `time % 60`, the milliseconds modulo 60. */
  function ShownSecondsAsWritten(time: int): int {
    JavaRem(time, 60)
  }

  /** Seconds past the whole minutes: `(time / 1000) % 60`. */
  function ShownSeconds(time: int): int {
    JavaRem(JavaDiv(time, 1000), 60)
  }

  /** The first line of `bestPathToString`, as the code prints it: whole minutes, then
      the milliseconds modulo 60 as the seconds. */
  function TimeLine(time: int): string {
    "Tempo stimato: " + IntToString(ShownMinutes(time)) + "min e " + IntToString(ShownSecondsAsWritten(time)) + "s \n"
  }

  /** `bestPathToString`: the time line followed by the distance and instruction text. */
  function BestPathToString(path: Path): (s: string)
    ensures StartsWith(s, "Tempo stimato: ")
  {
    TimeLine(path.time) + path.details
  }

  /** For a path of non-negative duration the text shows the whole minutes of the
      duration and, as seconds, its milliseconds modulo 60, then the path's details. */
  lemma BestPathToStringFields(path: Path)
    requires path.time >= 0
    ensures BestPathToString(path) ==
      "Tempo stimato: " + NatToString(path.time / 60000) + "min e " + NatToString(path.time % 60) + "s \n" + path.details
  {
    JavaDivOfNonNegative(path.time, 1000);
    JavaDivOfNonNegative(path.time / 1000, 60);
    JavaDivOfNonNegative(path.time, 60);
    assert path.time / 1000 / 60 == path.time / 60000;
  }

  /** The time line with the seconds past the whole minutes, `(time / 1000) % 60`. */
  function CorrectedTimeLine(time: int): string {
    "Tempo stimato: " + IntToString(ShownMinutes(time)) + "min e " + IntToString(ShownSeconds(time)) + "s \n"
  }

  /** `bestPathToString` as intended: the corrected time line, then the details. */
  function CorrectedBestPathToString(path: Path): (s: string)
    ensures StartsWith(s, "Tempo stimato: ")
  {
    CorrectedTimeLine(path.time) + path.details
  }

  /** For a non-negative duration the corrected fields are a minutes-and-seconds split
      of the whole seconds. */
  lemma TimeFieldsSplitSeconds(time: int)
    requires time >= 0
    ensures ShownMinutes(time) * 60 + ShownSeconds(time) == time / 1000
    ensures 0 <= ShownSeconds(time) < 60
  {
    JavaDivOfNonNegative(time, 1000);
    JavaDivOfNonNegative(time / 1000, 60);
  }

  /** The corrected text of a path of non-negative duration reads back as minutes m and
      seconds s with m * 60 + s the whole seconds of the duration and s below 60. */
  lemma CorrectedBestPathToStringFields(path: Path)
    requires path.time >= 0
    ensures var m := path.time / 60000; var sec := (path.time / 1000) % 60;
      && CorrectedBestPathToString(path) ==
           "Tempo stimato: " + NatToString(m) + "min e " + NatToString(sec) + "s \n" + path.details
      && ParseDigits(NatToString(m)) * 60 + ParseDigits(NatToString(sec)) == path.time / 1000
      && ParseDigits(NatToString(sec)) < 60
  {
    TimeFieldsSplitSeconds(path.time);
    JavaDivOfNonNegative(path.time, 1000);
    JavaDivOfNonNegative(path.time / 1000, 60);
    assert path.time / 1000 / 60 == path.time / 60000;
    NatToStringRoundTrip(path.time / 60000);
    NatToStringRoundTrip((path.time / 1000) % 60);
  }

  /** A path of 61 seconds (61000 ms) is printed by the code as 1 min 40 s, which does
      not add up to 61 s; the corrected text gives 1 min 1 s. */
  lemma TimeFieldsAsWrittenWrong(distance: real, details: string)
    ensures BestPathToString(Path(distance, 61000, details)) == "Tempo stimato: 1min e 40s \n" + details
    ensures ShownMinutes(61000) * 60 + ShownSecondsAsWritten(61000) != 61000 / 1000
    ensures CorrectedBestPathToString(Path(distance, 61000, details)) == "Tempo stimato: 1min e 1s \n" + details
  {
    JavaDivOfNonNegative(61000, 1000);
    JavaDivOfNonNegative(61, 60);
    JavaDivOfNonNegative(61000, 60);
    assert NatToString(40) == "40";
  }

  // ---------------------------------------------------------------- the cost matrix

  /** No two stops share a name. */
  predicate IdsDistinct(locs: seq<Location>) {
    forall a, b :: 0 <= a < b < |locs| ==> locs[a].id != locs[b].id
  }

  /** No two stops are the same location. */
  predicate LocationsDistinct(locs: seq<Location>) {
    forall a, b :: 0 <= a < b < |locs| ==> locs[a] != locs[b]
  }

  /** The matrix builder's entries, keyed by (from id, to id), the cache, whether a
      routing query has failed, and the pairs of positions queried so far. */
  datatype BuildState = BuildState(
    distances: map<(string, string), real>,
    times: map<(string, string), int>,
    cache: map<seq<string>, string>,
    failed: bool,
    queried: seq<(nat, nat)>)

  /** The cost matrix built: distances in metres and times in milliseconds. */
  datatype CostMatrix = CostMatrix(distances: map<(string, string), real>, times: map<(string, string), int>)

  /** The state a build starts from: empty matrix, the cache as given. */
  function InitialState(cache: map<seq<string>, string>): BuildState {
    BuildState(map[], map[], cache, false, [])
  }

  /** The best path from stop a to stop b. */
  function Leg(ctx: RouteContext, locs: seq<Location>, a: nat, b: nat): Result<Path>
    requires a < |locs| && b < |locs|
  {
    Route(ctx, locs[a].coordinate, locs[b].coordinate)
  }

  /** Iteration (i, j) of the double loop: equal locations are skipped; otherwise the
      best path is queried and its distance, time and text recorded under the ids. */
  function Step(ctx: RouteContext, locs: seq<Location>, st: BuildState, i: nat, j: nat): BuildState
    requires i < |locs| && j < |locs|
  {
    if st.failed || locs[i] == locs[j] then st
    else
      var queried := st.queried + [(i, j)];
      match Leg(ctx, locs, i, j)
      case Err(_) => st.(failed := true, queried := queried)
      case Ok(path) =>
        var fromId := locs[i].id;
        var toId := locs[j].id;
        BuildState(st.distances[(fromId, toId) := path.distance],
                   st.times[(fromId, toId) := path.time],
                   st.cache[CMW.CreateListPoints(fromId, toId) := ctx.describe(path)],
                   false, queried)
  }

  /** The state after the rows before i and the first j columns of row i. */
  function BuildAt(ctx: RouteContext, locs: seq<Location>, st0: BuildState, i: nat, j: nat): BuildState
    requires i < |locs| && j <= |locs|
    decreases i, j
  {
    if j == 0 then (if i == 0 then st0 else BuildAt(ctx, locs, st0, i - 1, |locs|))
    else Step(ctx, locs, BuildAt(ctx, locs, st0, i, j - 1), i, j - 1)
  }

  /** The whole double loop over `locs`, starting from the given cache. */
  function BuildCostMatrix(ctx: RouteContext, locs: seq<Location>, cache: map<seq<string>, string>): BuildState {
    if |locs| == 0 then InitialState(cache) else BuildAt(ctx, locs, InitialState(cache), |locs| - 1, |locs|)
  }

  /** Iteration (a, b) comes before position (i, j) of the loop. */
  predicate Before(a: nat, b: nat, i: nat, j: nat) {
    a < i || (a == i && b < j)
  }

  /** The entries of one pair: its path's distance and time in the matrix and its
      text in the cache. */
  ghost predicate Recorded(ctx: RouteContext, locs: seq<Location>, st: BuildState, a: nat, b: nat)
    requires a < |locs| && b < |locs|
  {
    var fromId := locs[a].id;
    var toId := locs[b].id;
    && Leg(ctx, locs, a, b).Ok?
    && (fromId, toId) in st.distances && st.distances[(fromId, toId)] == Leg(ctx, locs, a, b).value.distance
    && (fromId, toId) in st.times && st.times[(fromId, toId)] == Leg(ctx, locs, a, b).value.time
    && CMW.CreateListPoints(fromId, toId) in st.cache
    && st.cache[CMW.CreateListPoints(fromId, toId)] == ctx.describe(Leg(ctx, locs, a, b).value)
  }

  /** Once a query fails, the rest of the loop changes nothing. */
  lemma {:induction false} FailureIsFinal(ctx: RouteContext, locs: seq<Location>, st0: BuildState, i: nat, j: nat, i2: nat, j2: nat)
    requires i < |locs| && j <= |locs| && i2 < |locs| && j2 <= |locs|
    requires Before(i, j, i2, j2) || (i == i2 && j == j2)
    requires BuildAt(ctx, locs, st0, i, j).failed
    ensures BuildAt(ctx, locs, st0, i2, j2) == BuildAt(ctx, locs, st0, i, j)
    decreases i2, j2
  {
    if i2 == i && j2 == j {
    } else if j2 > 0 {
      FailureIsFinal(ctx, locs, st0, i, j, i2, j2 - 1);
    } else {
      FailureIsFinal(ctx, locs, st0, i, j, i2 - 1, |locs|);
    }
  }

  /** The loop gets past position (i, j) without failure exactly when every earlier
      pair of different locations has a path. */
  lemma {:induction false} BuildAtSucceedsIff(ctx: RouteContext, locs: seq<Location>, st0: BuildState, i: nat, j: nat)
    requires i < |locs| && j <= |locs| && !st0.failed
    ensures !BuildAt(ctx, locs, st0, i, j).failed <==>
      forall a, b :: 0 <= a < |locs| && 0 <= b < |locs| && Before(a, b, i, j) && locs[a] != locs[b] ==> Leg(ctx, locs, a, b).Ok?
    decreases i, j
  {
    if j == 0 {
      if i > 0 {
        BuildAtSucceedsIff(ctx, locs, st0, i - 1, |locs|);
      }
    } else {
      BuildAtSucceedsIff(ctx, locs, st0, i, j - 1);
    }
  }

  /** The pairs queried before position (i, j), in loop order, are exactly the earlier
      pairs of different locations. */
  lemma {:induction false} BuildAtQueried(ctx: RouteContext, locs: seq<Location>, st0: BuildState, i: nat, j: nat)
    requires i < |locs| && j <= |locs| && st0.queried == [] && !st0.failed
    requires !BuildAt(ctx, locs, st0, i, j).failed
    ensures forall p :: p in BuildAt(ctx, locs, st0, i, j).queried <==>
      p.0 < |locs| && p.1 < |locs| && Before(p.0, p.1, i, j) && locs[p.0] != locs[p.1]
    decreases i, j
  {
    if j == 0 {
      if i > 0 {
        BuildAtQueried(ctx, locs, st0, i - 1, |locs|);
      }
    } else {
      BuildAtQueried(ctx, locs, st0, i, j - 1);
    }
  }

  /** The number of pairs of different positions in the first i rows among n
      distinct locations: n - 1 per row. */
  function RowsBefore(n: nat, i: nat): nat
  {
    if i == 0 || n == 0 then 0 else RowsBefore(n, i - 1) + (n - 1)
  }

  /** Each row contributes n - 1 pairs. */
  lemma {:induction false} RowsBeforeIsProduct(n: nat, i: nat)
    requires n > 0
    ensures RowsBefore(n, i) == i * (n - 1)
  {
    if i > 0 {
      RowsBeforeIsProduct(n, i - 1);
      assert i * (n - 1) == (i - 1) * (n - 1) + (n - 1);
    }
  }

  /** The number of pairs of different positions before (i, j): the full rows, and
      the columns of row i other than i. */
  function PairsBefore(n: nat, i: nat, j: nat): nat
    requires i < n && j <= n
  {
    RowsBefore(n, i) + (if i < j then j - 1 else j)
  }

  /** The number of pairs of different locations before position (i, j), in loop
      order. */
  function DifferentBefore(locs: seq<Location>, i: nat, j: nat): nat
    requires i < |locs| && j <= |locs|
    decreases i, j
  {
    if j == 0 then (if i == 0 then 0 else DifferentBefore(locs, i - 1, |locs|))
    else DifferentBefore(locs, i, j - 1) + (if locs[i] != locs[j - 1] then 1 else 0)
  }

  /** A run that gets past position (i, j) has queried one path per earlier pair of
      different locations. */
  lemma {:induction false} BuildAtCount(ctx: RouteContext, locs: seq<Location>, st0: BuildState, i: nat, j: nat)
    requires i < |locs| && j <= |locs| && st0.queried == [] && !st0.failed
    requires !BuildAt(ctx, locs, st0, i, j).failed
    ensures |BuildAt(ctx, locs, st0, i, j).queried| == DifferentBefore(locs, i, j)
    decreases i, j
  {
    if j == 0 {
      if i > 0 {
        BuildAtCount(ctx, locs, st0, i - 1, |locs|);
      }
    } else {
      BuildAtNotFailedBefore(ctx, locs, st0, i, j);
      BuildAtCount(ctx, locs, st0, i, j - 1);
    }
  }

  /** The whole loop over n distinct locations visits n * (n - 1) pairs. */
  lemma AllPairs(n: nat)
    requires n > 0
    ensures PairsBefore(n, n - 1, n) == n * (n - 1)
  {
    RowsBeforeIsProduct(n, n - 1);
    assert (n - 1) * (n - 1) + (n - 1) == n * (n - 1);
  }

  /** With distinct locations, row i of N holds N - 1 pairs of different locations. */
  lemma {:induction false} DifferentBeforeOfDistinct(locs: seq<Location>, i: nat, j: nat)
    requires i < |locs| && j <= |locs| && LocationsDistinct(locs)
    ensures DifferentBefore(locs, i, j) == PairsBefore(|locs|, i, j)
    decreases i, j
  {
    if j == 0 {
      if i > 0 {
        DifferentBeforeOfDistinct(locs, i - 1, |locs|);
      }
    } else {
      DifferentBeforeOfDistinct(locs, i, j - 1);
      if i < j - 1 {
        assert locs[i] != locs[j - 1];
      } else if j - 1 < i {
        assert locs[j - 1] != locs[i];
      }
    }
  }

  /** A position the loop gets past without failure was also passed one step earlier
      without failure. */
  lemma BuildAtNotFailedBefore(ctx: RouteContext, locs: seq<Location>, st0: BuildState, i: nat, j: nat)
    requires i < |locs| && 0 < j <= |locs|
    requires !BuildAt(ctx, locs, st0, i, j).failed
    ensures !BuildAt(ctx, locs, st0, i, j - 1).failed
  {
  }

  /** Every pair of different positions before (i, j) is recorded in `st`. */
  ghost predicate RecordedBefore(ctx: RouteContext, locs: seq<Location>, st: BuildState, i: nat, j: nat) {
    forall a, b {:trigger Recorded(ctx, locs, st, a, b)} ::
      0 <= a < |locs| && 0 <= b < |locs| && Before(a, b, i, j) && a != b ==> Recorded(ctx, locs, st, a, b)
  }

  /** No key (id, id) is in the matrix. */
  predicate NoDiagonal(locs: seq<Location>, st: BuildState) {
    forall k :: 0 <= k < |locs| ==> (locs[k].id, locs[k].id) !in st.distances && (locs[k].id, locs[k].id) !in st.times
  }

  /** After a successful run with distinct ids, every earlier pair of different stops
      is recorded. */
  lemma {:induction false} BuildAtRecords(ctx: RouteContext, locs: seq<Location>, st0: BuildState, i: nat, j: nat)
    requires i < |locs| && j <= |locs| && !st0.failed && IdsDistinct(locs)
    requires !BuildAt(ctx, locs, st0, i, j).failed
    ensures RecordedBefore(ctx, locs, BuildAt(ctx, locs, st0, i, j), i, j)
    decreases i, j
  {
    if j == 0 {
      if i > 0 {
        BuildAtRecords(ctx, locs, st0, i - 1, |locs|);
        RowEndIsNextRowStart(ctx, locs, BuildAt(ctx, locs, st0, i - 1, |locs|), i);
      }
    } else {
      var prev := BuildAt(ctx, locs, st0, i, j - 1);
      BuildAtNotFailedBefore(ctx, locs, st0, i, j);
      BuildAtRecords(ctx, locs, st0, i, j - 1);
      StepKeepsRecords(ctx, locs, prev, i, j - 1);
    }
  }

  /** With distinct ids the loop never writes a key (id, id). */
  lemma {:induction false} BuildAtNoDiagonal(ctx: RouteContext, locs: seq<Location>, st0: BuildState, i: nat, j: nat)
    requires i < |locs| && j <= |locs| && IdsDistinct(locs) && NoDiagonal(locs, st0)
    ensures NoDiagonal(locs, BuildAt(ctx, locs, st0, i, j))
    decreases i, j
  {
    if j == 0 {
      if i > 0 {
        BuildAtNoDiagonal(ctx, locs, st0, i - 1, |locs|);
      }
    } else {
      BuildAtNoDiagonal(ctx, locs, st0, i, j - 1);
      StepNoDiagonal(ctx, locs, BuildAt(ctx, locs, st0, i, j - 1), i, j - 1);
    }
  }

  /** The end of row i − 1 and the start of row i are the same loop position. */
  lemma RowEndIsNextRowStart(ctx: RouteContext, locs: seq<Location>, st: BuildState, i: nat)
    requires 0 < i
    requires RecordedBefore(ctx, locs, st, i - 1, |locs|)
    ensures RecordedBefore(ctx, locs, st, i, 0)
  {
  }

  /** One iteration keeps every record made so far and adds the record of its own
      pair. */
  lemma StepKeepsRecords(ctx: RouteContext, locs: seq<Location>, st: BuildState, i: nat, c: nat)
    requires i < |locs| && c < |locs| && IdsDistinct(locs)
    requires RecordedBefore(ctx, locs, st, i, c)
    requires !Step(ctx, locs, st, i, c).failed
    ensures RecordedBefore(ctx, locs, Step(ctx, locs, st, i, c), i, c + 1)
  {
    if i != c {
      DistinctStopsIds(locs, i, c);
      var next := Step(ctx, locs, st, i, c);
      forall a, b | 0 <= a < |locs| && 0 <= b < |locs| && Before(a, b, i, c + 1) && a != b
        ensures Recorded(ctx, locs, next, a, b)
      {
        if a != i || b != c {
          DistinctPairsKeys(locs, a, b, i, c);
          CMW.KeysAreDirected(locs[a].id, locs[b].id, locs[i].id, locs[c].id);
          assert Recorded(ctx, locs, st, a, b);
        }
      }
    }
  }

  /** One iteration writes no key (id, id): the pair it writes has two different ids. */
  lemma StepNoDiagonal(ctx: RouteContext, locs: seq<Location>, st: BuildState, i: nat, c: nat)
    requires i < |locs| && c < |locs| && IdsDistinct(locs) && NoDiagonal(locs, st)
    ensures NoDiagonal(locs, Step(ctx, locs, st, i, c))
  {
    if i != c {
      DistinctStopsIds(locs, i, c);
    }
  }

  lemma DistinctStopsIds(locs: seq<Location>, a: nat, b: nat)
    requires a < |locs| && b < |locs| && a != b && IdsDistinct(locs)
    ensures locs[a].id != locs[b].id && locs[a] != locs[b]
  {
    if a < b { assert locs[a].id != locs[b].id; } else { assert locs[b].id != locs[a].id; }
  }

  lemma DistinctPairsKeys(locs: seq<Location>, a: nat, b: nat, c: nat, d: nat)
    requires a < |locs| && b < |locs| && c < |locs| && d < |locs| && IdsDistinct(locs)
    requires a != c || b != d
    ensures locs[a].id != locs[c].id || locs[b].id != locs[d].id
  {
    if a != c { DistinctStopsIds(locs, a, c); } else { DistinctStopsIds(locs, b, d); }
  }

  /** With distinct names, different positions are different locations. */
  lemma PositionsDistinct(locs: seq<Location>)
    requires IdsDistinct(locs)
    ensures forall a, b :: 0 <= a < |locs| && 0 <= b < |locs| ==> (locs[a] != locs[b] <==> a != b)
  {
    forall a, b | 0 <= a < |locs| && 0 <= b < |locs|
      ensures locs[a] != locs[b] <==> a != b
    {
      if a != b { DistinctStopsIds(locs, a, b); }
    }
  }

  /** The end of the double loop comes after every pair. */
  lemma EveryPairBeforeEnd(last: nat, n: nat)
    requires last + 1 == n
    ensures forall a, b :: 0 <= a < n && 0 <= b < n ==> Before(a, b, last, n)
  {
  }

  lemma BuildSucceedsIff(ctx: RouteContext, locs: seq<Location>, cache: map<seq<string>, string>)
    requires IdsDistinct(locs)
    ensures !BuildCostMatrix(ctx, locs, cache).failed <==>
      forall a, b :: 0 <= a < |locs| && 0 <= b < |locs| && a != b ==> Leg(ctx, locs, a, b).Ok?
  {
    var n := |locs|;
    if n > 0 {
      PositionsDistinct(locs);
      EveryPairBeforeEnd(n - 1, n);
      BuildAtSucceedsIff(ctx, locs, InitialState(cache), n - 1, n);
    }
  }

  lemma BuildQueryCount(ctx: RouteContext, locs: seq<Location>, cache: map<seq<string>, string>)
    requires IdsDistinct(locs) && !BuildCostMatrix(ctx, locs, cache).failed
    ensures |BuildCostMatrix(ctx, locs, cache).queried| == |locs| * (|locs| - 1)
  {
    var n := |locs|;
    if n > 0 {
      PositionsDistinct(locs);
      assert LocationsDistinct(locs);
      BuildAtCount(ctx, locs, InitialState(cache), n - 1, n);
      DifferentBeforeOfDistinct(locs, n - 1, n);
      AllPairs(n);
    }
  }

  lemma BuildQueriesEveryPair(ctx: RouteContext, locs: seq<Location>, cache: map<seq<string>, string>)
    requires IdsDistinct(locs) && !BuildCostMatrix(ctx, locs, cache).failed
    ensures forall p :: p in BuildCostMatrix(ctx, locs, cache).queried <==> p.0 < |locs| && p.1 < |locs| && p.0 != p.1
  {
    var n := |locs|;
    if n > 0 {
      PositionsDistinct(locs);
      EveryPairBeforeEnd(n - 1, n);
      BuildAtQueried(ctx, locs, InitialState(cache), n - 1, n);
    }
  }

  lemma BuildRecordsAll(ctx: RouteContext, locs: seq<Location>, cache: map<seq<string>, string>)
    requires IdsDistinct(locs) && !BuildCostMatrix(ctx, locs, cache).failed
    ensures RecordedBefore(ctx, locs, BuildCostMatrix(ctx, locs, cache), |locs|, 0)
    ensures NoDiagonal(locs, BuildCostMatrix(ctx, locs, cache))
  {
    var n := |locs|;
    if n > 0 {
      BuildAtRecords(ctx, locs, InitialState(cache), n - 1, n);
      BuildAtNoDiagonal(ctx, locs, InitialState(cache), n - 1, n);
    }
  }

  /** Main properties of a build over N stops with distinct names: it succeeds exactly
      when every ordered pair of different stops is routable; it then makes N·(N−1)
      queries, one per such pair, and the matrix and the cache hold the best path of
      every such pair, with no diagonal entry in the matrix. */
  lemma BuildRecordsEveryPair(ctx: RouteContext, locs: seq<Location>, cache: map<seq<string>, string>)
    requires IdsDistinct(locs)
    ensures var st := BuildCostMatrix(ctx, locs, cache);
      && (!st.failed <==> forall a, b :: 0 <= a < |locs| && 0 <= b < |locs| && a != b ==> Leg(ctx, locs, a, b).Ok?)
      && (!st.failed ==> |st.queried| == |locs| * (|locs| - 1))
      && (!st.failed ==> forall p :: p in st.queried <==> p.0 < |locs| && p.1 < |locs| && p.0 != p.1)
      && (!st.failed ==> forall a, b :: 0 <= a < |locs| && 0 <= b < |locs| && a != b ==> Recorded(ctx, locs, st, a, b))
      && (!st.failed ==> forall k :: 0 <= k < |locs| ==> (locs[k].id, locs[k].id) !in st.distances && (locs[k].id, locs[k].id) !in st.times)
  {
    BuildSucceedsIff(ctx, locs, cache);
    if !BuildCostMatrix(ctx, locs, cache).failed {
      BuildQueryCount(ctx, locs, cache);
      BuildQueriesEveryPair(ctx, locs, cache);
      BuildRecordsAll(ctx, locs, cache);
    }
  }

  // ---------------------------------------------------------------- best path by stop names

  /** Direct geocoding of a stop name (the geocoder stands for the OpenStreetMap
      search service): its location, or the geocoder's error. */
  function Geocode(geocoder: string -> Result<Coordinate>, id: string): (r: Result<Location>)
    ensures r.Ok? <==> geocoder(id).Ok?
    ensures r.Ok? ==> r.value == Location(id, geocoder(id).value)
    ensures r.Err? ==> r.error == geocoder(id).error
  {
    match geocoder(id)
    case Err(e) => Err(e)
    case Ok(c) => Ok(Location(id, c))
  }

  /** The OpenStreetMap search service as a geocoder: the "lat" and "lon" entries of a
      successful lookup; a lookup without them would unbox null, an unchecked failure. */
  function OsmGeocoder(server: string, http: string -> HttpResponse, parseJson: string -> OSM.Json,
                       parseDouble: string -> Option<real>): string -> Result<Coordinate>
  {
    address =>
      match OSM.Coordinates(server, http, parseJson, parseDouble, address)
      case Err(e) => Err(e)
      case Ok(m) => if "lat" in m && "lon" in m then Ok(Coordinate(m["lat"], m["lon"])) else Err(MalformedAnswer)
  }

  /** Geocoding through the search service fails only with NotExistingCoordinates (no
      word, no answer, no place) or with the unchecked MalformedAnswer (a coordinate that
      is missing or not a number); a success is the first place's latitude and longitude. */
  lemma OsmGeocoderOutcome(server: string, http: string -> HttpResponse, parseJson: string -> OSM.Json,
                           parseDouble: string -> Option<real>, address: string)
    ensures var r := OsmGeocoder(server, http, parseJson, parseDouble)(address);
      var c := OSM.Coordinates(server, http, parseJson, parseDouble, address);
      && (r.Ok? <==> c.Ok?)
      && (r.Err? ==> r.error == NotExistingCoordinates || r.error == MalformedAnswer)
      && (r.Err? ==> r.error == c.error)
      && (r.Ok? ==> r.value == Coordinate(c.value["lat"], c.value["lon"]))
  {
    OSM.CoordinatesOfFirstPlace(server, http, parseJson, parseDouble, address);
  }

  /** `getBestPath(btp, from, to)`: geocode the start, then the end, then route
      between the two coordinates. */
  function BestPathBetween(ctx: RouteContext, geocoder: string -> Result<Coordinate>, from: string, to: string): Result<Path> {
    match Geocode(geocoder, from)
    case Err(e) => Err(e)
    case Ok(a) =>
      match Geocode(geocoder, to)
      case Err(e) => Err(e)
      case Ok(b) => Route(ctx, a.coordinate, b.coordinate)
  }

  /** A best path by names exists exactly when both names geocode and the router
      finds a path; a geocoding error is reported before any routing, the start's first. */
  lemma BestPathBetweenOutcome(ctx: RouteContext, geocoder: string -> Result<Coordinate>, from: string, to: string)
    ensures var r := BestPathBetween(ctx, geocoder, from, to);
      && (geocoder(from).Err? ==> r == Err(geocoder(from).error))
      && (geocoder(from).Ok? && geocoder(to).Err? ==> r == Err(geocoder(to).error))
      && (geocoder(from).Ok? && geocoder(to).Ok? ==>
            r == Route(ctx, geocoder(from).value, geocoder(to).value))
      && (r.Ok? <==> geocoder(from).Ok? && geocoder(to).Ok?
                     && ctx.router(RouteRequest(geocoder(from).value, geocoder(to).value, ctx.weighting, ctx.vehicle, ctx.area)).Some?)
  {
  }

  /** `showBestPath`: the text of the best path between two names, or the error that
      prevented it. */
  function BestPathText(ctx: RouteContext, geocoder: string -> Result<Coordinate>, from: string, to: string): Result<string> {
    match BestPathBetween(ctx, geocoder, from, to)
    case Err(e) => Err(e)
    case Ok(path) => Ok(ctx.describe(path))
  }

  // ---------------------------------------------------------------- the salesman problem

  /** Geocodes every name, in order; the first name that does not geocode fails the
      whole list with its error. */
  function LocateAll(geocoder: string -> Result<Coordinate>, ids: seq<string>): Result<seq<Location>>
    decreases |ids|
  {
    if |ids| == 0 then Ok([])
    else
      match LocateAll(geocoder, ids[..|ids| - 1])
      case Err(e) => Err(e)
      case Ok(ls) =>
        match Geocode(geocoder, ids[|ids| - 1])
        case Err(e) => Err(e)
        case Ok(l) => Ok(ls + [l])
  }

  /** The list geocodes exactly when every name does, and then it gives one location
      per name, in order, named after it; otherwise the error is the first failing
      name's. */
  lemma {:induction false} LocateAllOutcome(geocoder: string -> Result<Coordinate>, ids: seq<string>)
    ensures LocateAll(geocoder, ids).Ok? <==> forall k :: 0 <= k < |ids| ==> geocoder(ids[k]).Ok?
    ensures LocateAll(geocoder, ids).Err? ==>
      exists k :: 0 <= k < |ids| && (forall m :: 0 <= m < k ==> geocoder(ids[m]).Ok?)
                  && geocoder(ids[k]) == Err(LocateAll(geocoder, ids).error)
    ensures LocateAll(geocoder, ids).Ok? ==>
      var ls := LocateAll(geocoder, ids).value;
      |ls| == |ids| && forall k :: 0 <= k < |ids| ==> ls[k] == Location(ids[k], geocoder(ids[k]).value)
    decreases |ids|
  {
    if |ids| > 0 {
      var front := ids[..|ids| - 1];
      LocateAllOutcome(geocoder, front);
      assert forall k :: 0 <= k < |front| ==> front[k] == ids[k];
    }
  }

  /** Geocoding one more name extends the list by its location, or fails. */
  lemma LocateAllSnoc(geocoder: string -> Result<Coordinate>, ids: seq<string>, id: string)
    ensures LocateAll(geocoder, ids + [id]) ==
      match LocateAll(geocoder, ids)
      case Err(e) => Err(e)
      case Ok(ls) => (match Geocode(geocoder, id) case Err(e) => Err(e) case Ok(l) => Ok(ls + [l]))
  {
    assert (ids + [id])[..|ids|] == ids;
  }

  /** A list whose beginning fails to geocode fails, however it goes on. */
  lemma {:induction false} LocateAllPrefixFails(geocoder: string -> Result<Coordinate>, xs: seq<string>, ys: seq<string>)
    requires LocateAll(geocoder, xs).Err?
    ensures LocateAll(geocoder, xs + ys) == LocateAll(geocoder, xs)
    decreases |ys|
  {
    if |ys| > 0 {
      LocateAllPrefixFails(geocoder, xs, ys[..|ys| - 1]);
      assert (xs + ys)[..|xs + ys| - 1] == xs + ys[..|ys| - 1];
    } else {
      assert xs + ys == xs;
    }
  }

  /** A jsprit service: a job at a location, with the location's id. */
  datatype Service = Service(id: string, location: Location)

  /** The vehicle type: its id, and one capacity dimension (index and value). */
  datatype VehicleType = VehicleType(typeId: string, capacityIndex: nat, capacity: int)

  datatype Vehicle = Vehicle(vehicleId: string, vehicleType: VehicleType, startLocation: Location, endLocation: Location)

  datatype FleetSize = INFINITE | FINITE

  /** The vehicle routing problem handed to the solver. */
  datatype Problem = Problem(fleetSize: FleetSize, costs: CostMatrix, vehicles: seq<Vehicle>, jobs: seq<Service>, maxIterations: nat)

  /** Integer.MAX_VALUE, the capacity of the only vehicle type. */
  const IntegerMaxValue: int := 0x7fff_ffff

  const SolverMaxIterations: nat := 2000

  const DefaultGeocodingServer: string := "http://racomaps.ns0.it/nominatim/"

  /** One service per location, in order. */
  function Jobs(ls: seq<Location>): seq<Service>
    decreases |ls|
  {
    if |ls| == 0 then [] else Jobs(ls[..|ls| - 1]) + [Service(ls[|ls| - 1].id, ls[|ls| - 1])]
  }

  lemma {:induction false} JobsLocations(ls: seq<Location>)
    ensures |Jobs(ls)| == |ls|
    ensures forall k :: 0 <= k < |ls| ==> Jobs(ls)[k] == Service(ls[k].id, ls[k])
    decreases |ls|
  {
    if |ls| > 0 {
      JobsLocations(ls[..|ls| - 1]);
    }
  }

  /** The problem for located stops [start, end, intermediates...]: one vehicle from
      the start to the end, and a job at the end and at every intermediate stop. */
  function TspProblem(locs: seq<Location>, costs: CostMatrix): Problem
    requires |locs| >= 2
  {
    Problem(INFINITE, costs,
            [Vehicle("vehicle", VehicleType("vehicleType", 0, IntegerMaxValue), locs[0], locs[1])],
            Jobs(locs[1..]), SolverMaxIterations)
  }

  /** What jsprit gives back for a problem (`addJob`, `build`, `searchSolutions`, then
      `Solutions.bestOf`): the best solution; no solution, for which `bestOf` returns
      null; or an unchecked exception raised while the problem is built or solved. */
  datatype SolverAnswer = Best(solution: TSP.Solution) | NoneFound | Refused

  /** What `solveTsp` returns (None for the null solution), and the cache it leaves
      behind. */
  datatype TspRun = TspRun(result: Result<Option<TSP.Solution>>, cache: map<seq<string>, string>)

  /** `solveTsp`: refuse an empty list of intermediate stops, geocode the start, the end
      and every intermediate stop, build the cost matrix over [start, end,
      intermediates...] (recording every leg in the cache), then solve. */
  function SolveTspRun(ctx: RouteContext, geocoder: string -> Result<Coordinate>, solver: Problem -> SolverAnswer,
                       cache: map<seq<string>, string>, startPoint: string, endPoint: string,
                       intermediateLocations: seq<string>): TspRun
  {
    if |intermediateLocations| == 0 then TspRun(Err(UncorrectQuery), cache)
    else
      var ids := [startPoint, endPoint] + intermediateLocations;
      LocateAllOutcome(geocoder, ids);
      match LocateAll(geocoder, ids)
      case Err(e) => TspRun(Err(e), cache)
      case Ok(locs) =>
        var build := BuildCostMatrix(ctx, locs, cache);
        if build.failed then TspRun(Err(PathNotFound), build.cache)
        else
          match solver(TspProblem(locs, CostMatrix(build.distances, build.times)))
          case Best(s) => TspRun(Ok(Some(s)), build.cache)
          case NoneFound => TspRun(Ok(None), build.cache)
          case Refused => TspRun(Err(SolverFailure), build.cache)
  }

  /** The outcomes of `solveTsp`: no intermediate stop, then the error of the first
      stop that does not geocode, then a leg without a path, then jsprit's answer: an
      unchecked failure, the null solution, or the best solution. */
  lemma SolveTspErrors(ctx: RouteContext, geocoder: string -> Result<Coordinate>, solver: Problem -> SolverAnswer,
                       cache: map<seq<string>, string>, startPoint: string, endPoint: string, intermediateLocations: seq<string>)
    ensures var ids := [startPoint, endPoint] + intermediateLocations;
      var r := SolveTspRun(ctx, geocoder, solver, cache, startPoint, endPoint, intermediateLocations).result;
      && (|intermediateLocations| == 0 ==> r == Err(UncorrectQuery))
      && (|intermediateLocations| > 0 && LocateAll(geocoder, ids).Ok? ==> r != Err(UncorrectQuery))
      && (|intermediateLocations| > 0 ==>
            (LocateAll(geocoder, ids).Err? <==> exists k :: 0 <= k < |ids| && geocoder(ids[k]).Err?))
      && (|intermediateLocations| > 0 && LocateAll(geocoder, ids).Err? ==> r == Err(LocateAll(geocoder, ids).error))
      && (|intermediateLocations| > 0 && LocateAll(geocoder, ids).Ok? ==>
            (r == Err(PathNotFound) <==> BuildCostMatrix(ctx, LocateAll(geocoder, ids).value, cache).failed))
      && (LocateAll(geocoder, ids).Ok? ==> |LocateAll(geocoder, ids).value| == |ids|)
      && (|intermediateLocations| > 0 && LocateAll(geocoder, ids).Ok?
          && !BuildCostMatrix(ctx, LocateAll(geocoder, ids).value, cache).failed ==>
            var build := BuildCostMatrix(ctx, LocateAll(geocoder, ids).value, cache);
            var answer := solver(TspProblem(LocateAll(geocoder, ids).value, CostMatrix(build.distances, build.times)));
            && (r == Err(SolverFailure) <==> answer.Refused?)
            && (r == Ok(None) <==> answer.NoneFound?)
            && (answer.Best? <==> r.Ok? && r.value.Some?)
            && (answer.Best? ==> r.value.value == answer.solution))
  {
    var ids := [startPoint, endPoint] + intermediateLocations;
    LocateAllOutcome(geocoder, ids);
    if LocateAll(geocoder, ids).Err? {
      var k :| 0 <= k < |ids| && !geocoder(ids[k]).Ok?;
      assert geocoder(ids[k]).Err?;
    }
  }

  /** The problem `solveTsp` hands to the solver: a vehicle from the start to the end
      with capacity Integer.MAX_VALUE, jobs [end, intermediates...] and the matrix over
      locations [start, end, intermediates...], in input order. */
  lemma SolveTspProblem(geocoder: string -> Result<Coordinate>, startPoint: string, endPoint: string,
                        intermediateLocations: seq<string>, costs: CostMatrix)
    requires LocateAll(geocoder, [startPoint, endPoint] + intermediateLocations).Ok?
    ensures |LocateAll(geocoder, [startPoint, endPoint] + intermediateLocations).value| == 2 + |intermediateLocations|
    ensures var locs := LocateAll(geocoder, [startPoint, endPoint] + intermediateLocations).value;
      var problem := TspProblem(locs, costs);
      && Ids(locs) == [startPoint, endPoint] + intermediateLocations
      && |problem.vehicles| == 1
      && problem.vehicles[0].startLocation.id == startPoint && problem.vehicles[0].endLocation.id == endPoint
      && problem.vehicles[0].vehicleType.capacity == IntegerMaxValue
      && |problem.jobs| == 1 + |intermediateLocations|
      && (forall k :: 0 <= k < |problem.jobs| ==>
            problem.jobs[k] == Service(([endPoint] + intermediateLocations)[k], locs[k + 1]))
      && problem.fleetSize == INFINITE && problem.maxIterations == 2000
  {
    var ids := [startPoint, endPoint] + intermediateLocations;
    LocateAllOutcome(geocoder, ids);
    var locs := LocateAll(geocoder, ids).value;
    JobsLocations(locs[1..]);
  }

  function Ids(ls: seq<Location>): (r: seq<string>)
    ensures |r| == |ls| && forall k :: 0 <= k < |ls| ==> r[k] == ls[k].id
  {
    seq(|ls|, k requires 0 <= k < |ls| => ls[k].id)
  }

  /** `Math.round`: the nearest integer, halves rounded up. */
  function Round(x: real): (r: int)
    ensures x - 1.0 / 2.0 < r as real <= x + 1.0 / 2.0
  {
    (x + 1.0 / 2.0).Floor
  }

  /** The header line `showTspSolution` writes before the itinerary; `km` is the
      rounded cost in kilometres. */
  function DistanceHeader(km: int): string {
    "Distanza percorsa: " + IntToString(km) + "km\n\n"
  }

  /** The text `showTspSolution` makes of a run: its error; SolverFailure for the null
      solution, whose cost is read at once; or the distance header and the rendering
      of every route from the cache the run left, a missing leg being
      NoInstructionsFound. */
  function TspText(run: TspRun, startPoint: string): Result<string> {
    if run.result.Err? then Err(run.result.error)
    else if run.result.value.None? then Err(SolverFailure)
    else
      var solution := run.result.value.value;
      var rendering := TSP.RenderRoutes(solution.routes, startPoint, run.cache, |solution.routes|);
      if rendering.complete then Ok(DistanceHeader(Round(solution.cost / 1000.0)) + rendering.text)
      else Err(NoInstructionsFound)
  }

  /** `showTspSolution`: the run with a fresh cache, then its text. */
  function ShowTspText(ctx: RouteContext, geocoder: string -> Result<Coordinate>, solver: Problem -> SolverAnswer,
                       startPoint: string, endPoint: string, intermediateLocations: seq<string>): Result<string>
  {
    TspText(SolveTspRun(ctx, geocoder, solver, map[], startPoint, endPoint, intermediateLocations), startPoint)
  }

  // ---------------------------------------------------------------- the map object

  class GeographicMap {
    var vehicle: string
    var geocodingServer: string
    const osmFile: string
    const area: string
    /** GraphHopper's `route` after `importOrLoad`; None when the response has errors. */
    const router: RouteRequest -> Option<Path>
    /** Direct geocoding through the search service (`OsmGeocoder` of the shared
        OpenStreetMapUtils instance); the error when it fails. */
    const geocoder: string -> Result<Coordinate>
    /** jsprit: the problem built, then `Solutions.bestOf(Jsprit.createAlgorithm(vrp).searchSolutions())`. */
    const solver: Problem -> SolverAnswer
    /** `bestPathToString`, fixed by the constructor. */
    const describe: Path -> string

    /** The routing context of a criterion: this map's router, vehicle and area. */
    function Context(btp: BestPathChoice): RouteContext
      reads this
    {
      RouteContext(router, Weighting(btp), vehicle, area, describe)
    }

    /** `new GeographicMap(osmFile, area, vehicle)`; `mapsPath` stands for the class-path
        directory of the maps. */
    constructor (osmFile: string, area: string, vehicleType: AllowedVehicleTypes, mapsPath: string,
                 router: RouteRequest -> Option<Path>, geocoder: string -> Result<Coordinate>,
                 solver: Problem -> SolverAnswer)
      ensures vehicle == VehicleName(vehicleType)
      ensures this.osmFile == mapsPath + osmFile && this.area == area
      ensures geocodingServer == DefaultGeocodingServer
      ensures this.router == router && this.geocoder == geocoder && this.solver == solver
      ensures describe == BestPathToString
    {
      this.osmFile := mapsPath + osmFile;
      this.area := area;
      this.router := router;
      this.geocoder := geocoder;
      this.solver := solver;
      describe := BestPathToString;
      geocodingServer := DefaultGeocodingServer;
      vehicle := "";
      new;
      ParseVehicle(vehicleType);
    }

    /** `parseVehicle`: stores the router name of the vehicle type. */
    method ParseVehicle(v: AllowedVehicleTypes)
      modifies this
      ensures vehicle == VehicleName(v)
      ensures geocodingServer == old(geocodingServer)
    {
      match v {
        case CAR => vehicle := "car";
        case CAR4WD => vehicle := "car4wd";
        case BIKE => vehicle := "bike";
        case BIKE2 => vehicle := "bike2";
        case RACINGBIKE => vehicle := "racingbike";
        case MOUNTAINBIKE => vehicle := "mtb";
        case FOOT => vehicle := "foot";
        case HIKE => vehicle := "hike";
        case MOTORCYCLE => vehicle := "motorcycle";
        case BUS => vehicle := "bus";
        case GENERIC => vehicle := "generic";
      }
    }

    /** `setGeocodingServer`: replaces the server name and nothing else. */
    method SetGeocodingServer(server: string)
      modifies this
      ensures geocodingServer == server
      ensures vehicle == old(vehicle)
    {
      geocodingServer := server;
    }

    /** `getBestPath` on coordinates: asks the router with the criterion's weighting,
        this map's vehicle and area. */
    method GetBestPathAt(btp: BestPathChoice, from: Coordinate, to: Coordinate) returns (r: Result<Path>)
      ensures r.Err? <==> router(RouteRequest(from, to, Weighting(btp), vehicle, area)).None?
      ensures r.Err? ==> r.error == PathNotFound
      ensures r.Ok? ==> r.value == router(RouteRequest(from, to, Weighting(btp), vehicle, area)).value
      ensures r == Route(Context(btp), from, to)
    {
      var weighting: string;
      match btp {
        case FASTEST => weighting := "fastest";
        case SHORTEST => weighting := "shortest";
      }
      var rsp := router(RouteRequest(from, to, weighting, vehicle, area));
      if rsp.None? {
        return Err(PathNotFound);
      }
      r := Ok(rsp.value);
    }

    /** `getDirectGeocoding`, with the stop name kept as the location id. */
    method GetDirectGeocoding(address: string) returns (r: Result<Location>)
      ensures r == Geocode(geocoder, address)
    {
      var coords := geocoder(address);
      if coords.Err? {
        return Err(coords.error);
      }
      r := Ok(Location(address, coords.value));
    }

    /** `getBestPath(btp, from, to)` by stop names. */
    method GetBestPath(btp: BestPathChoice, from: string, to: string) returns (r: Result<Path>)
      ensures r == BestPathBetween(Context(btp), geocoder, from, to)
    {
      var fromCoords := GetDirectGeocoding(from);
      if fromCoords.Err? {
        return Err(fromCoords.error);
      }
      var toCoords := GetDirectGeocoding(to);
      if toCoords.Err? {
        return Err(toCoords.error);
      }
      r := GetBestPathAt(btp, fromCoords.value.coordinate, toCoords.value.coordinate);
    }

    /** `getBestPath(from, to)`: the FASTEST criterion. */
    method GetBestPathFastest(from: string, to: string) returns (r: Result<Path>)
      ensures r == BestPathBetween(Context(FASTEST), geocoder, from, to)
    {
      r := GetBestPath(FASTEST, from, to);
    }

    /** `showBestPath`: the text of the best path between two stop names. */
    method ShowBestPath(btp: BestPathChoice, from: string, to: string) returns (r: Result<string>)
      ensures var path := BestPathBetween(Context(btp), geocoder, from, to);
        && (r.Ok? <==> path.Ok?)
        && (r.Err? ==> r.error == path.error)
        && (r.Ok? ==> r.value == describe(path.value))
      ensures r == BestPathText(Context(btp), geocoder, from, to)
    {
      var path := GetBestPath(btp, from, to);
      if path.Err? {
        return Err(path.error);
      }
      r := Ok(describe(path.value));
    }

    /** `createCostMatrix`: one routing query per ordered pair of different locations,
        row by row; each result goes into the matrix and, when a wrapper is given,
        its text into the cache. The first failing query aborts with PathNotFound,
        leaving the cache as filled so far. */
    method CreateCostMatrix(btp: BestPathChoice, locations: seq<Location>, cmw: CMW.CostMatrixWrapper?)
      returns (r: Result<CostMatrix>)
      modifies cmw
      ensures var st := BuildCostMatrix(Context(btp), locations, if cmw != null then old(cmw.instructionMap) else map[]);
        && (r.Err? <==> st.failed)
        && (r.Err? ==> r.error == PathNotFound)
        && (r.Ok? ==> r.value == CostMatrix(st.distances, st.times))
        && (cmw != null ==> cmw.instructionMap == st.cache)
    {
      ghost var cache := if cmw != null then cmw.instructionMap else map[];
      var failed, distances, times := CostMatrixRows(btp, locations, cache, cmw);
      if failed {
        return Err(PathNotFound);
      }
      r := Ok(CostMatrix(distances, times));
    }

    /** The double loop of `createCostMatrix`, row after row until a query fails. */
    method CostMatrixRows(btp: BestPathChoice, locations: seq<Location>, ghost cache0: map<seq<string>, string>,
                          cmw: CMW.CostMatrixWrapper?)
      returns (failed: bool, distances: map<(string, string), real>, times: map<(string, string), int>)
      requires cmw != null ==> cmw.instructionMap == cache0
      modifies cmw
      ensures var st := BuildCostMatrix(Context(btp), locations, cache0);
        && failed == st.failed
        && (!failed ==> distances == st.distances && times == st.times)
        && (cmw != null ==> cmw.instructionMap == st.cache)
    {
      ghost var ctx := Context(btp);
      ghost var st0 := InitialState(cache0);
      distances, times := map[], map[];
      ghost var cache := cache0;
      ghost var queried: seq<(nat, nat)> := [];
      var n := |locations|;
      for i := 0 to n
        invariant i < n ==> BuildAt(ctx, locations, st0, i, 0) == BuildState(distances, times, cache, false, queried)
        invariant i == n && n > 0 ==> BuildAt(ctx, locations, st0, n - 1, n) == BuildState(distances, times, cache, false, queried)
        invariant n == 0 ==> st0 == BuildState(distances, times, cache, false, queried)
        invariant cmw != null ==> cmw.instructionMap == cache
      {
        failed, distances, times, cache, queried := CostMatrixRow(btp, locations, st0, i, cmw, distances, times, cache, queried);
        if failed {
          FailureIsFinal(ctx, locations, st0, i, n, n - 1, n);
          return;
        }
        ghost var st := BuildAt(ctx, locations, st0, i, n);
        assert st == BuildState(distances, times, cache, false, queried);
        if i + 1 < n {
          assert BuildAt(ctx, locations, st0, i + 1, 0) == st;
        }
      }
      failed := false;
    }

    /** Row i of the double loop: stop i against every stop, in order, until a query fails. */
    method CostMatrixRow(btp: BestPathChoice, locations: seq<Location>, ghost st0: BuildState, i: nat, cmw: CMW.CostMatrixWrapper?,
                         distances: map<(string, string), real>, times: map<(string, string), int>,
                         ghost cache: map<seq<string>, string>, ghost queried: seq<(nat, nat)>)
      returns (failed: bool, distances': map<(string, string), real>, times': map<(string, string), int>,
               ghost cache': map<seq<string>, string>, ghost queried': seq<(nat, nat)>)
      requires i < |locations|
      requires BuildAt(Context(btp), locations, st0, i, 0) == BuildState(distances, times, cache, false, queried)
      requires cmw != null ==> cmw.instructionMap == cache
      modifies cmw
      ensures var st := BuildAt(Context(btp), locations, st0, i, |locations|);
        && failed == st.failed
        && (cmw != null ==> cmw.instructionMap == st.cache)
        && (!failed ==> st == BuildState(distances', times', cache', false, queried'))
    {
      ghost var ctx := Context(btp);
      distances', times', cache', queried' := distances, times, cache, queried;
      var n := |locations|;
      for j := 0 to n
        invariant BuildAt(ctx, locations, st0, i, j) == BuildState(distances', times', cache', false, queried')
        invariant cmw != null ==> cmw.instructionMap == cache'
      {
        if locations[i] == locations[j] {
          continue;
        }
        failed, distances', times', cache', queried' := QueryPair(btp, locations, i, j, cmw, distances', times', cache', queried');
        if failed {
          FailureIsFinal(ctx, locations, st0, i, j + 1, i, n);
          return;
        }
      }
      failed := false;
    }

    /** The body of the double loop for a pair of different locations: query the best
        path; on success add its distance and time to the matrix and, when a wrapper
        is given, its text to the cache. */
    method QueryPair(btp: BestPathChoice, locations: seq<Location>, i: nat, j: nat, cmw: CMW.CostMatrixWrapper?,
                     distances: map<(string, string), real>, times: map<(string, string), int>,
                     ghost cache: map<seq<string>, string>, ghost queried: seq<(nat, nat)>)
      returns (failed: bool, distances': map<(string, string), real>, times': map<(string, string), int>,
               ghost cache': map<seq<string>, string>, ghost queried': seq<(nat, nat)>)
      requires i < |locations| && j < |locations| && locations[i] != locations[j]
      requires cmw != null ==> cmw.instructionMap == cache
      modifies cmw
      ensures var st' := Step(Context(btp), locations, BuildState(distances, times, cache, false, queried), i, j);
        && failed == st'.failed
        && (!failed ==> st' == BuildState(distances', times', cache', false, queried'))
        && (cmw != null ==> cmw.instructionMap == (if failed then cache else cache'))
    {
      var from := locations[i];
      var to := locations[j];
      var path := GetBestPathAt(btp, from.coordinate, to.coordinate);
      if path.Err? {
        return true, distances, times, cache, queried;
      }
      var fromId := from.id;
      var toId := to.id;
      distances' := distances[(fromId, toId) := path.value.distance];
      times' := times[(fromId, toId) := path.value.time];
      cache' := cache[CMW.CreateListPoints(fromId, toId) := describe(path.value)];
      queried' := queried + [(i, j)];
      if cmw != null {
        cmw.AddPathInstructions(fromId, toId, describe(path.value));
      }
      failed := false;
    }

    /** `createCostMatrix(locations, cmw)`: the FASTEST criterion. */
    method CreateCostMatrixFastest(locations: seq<Location>, cmw: CMW.CostMatrixWrapper?) returns (r: Result<CostMatrix>)
      modifies cmw
      ensures var st := BuildCostMatrix(Context(FASTEST), locations, if cmw != null then old(cmw.instructionMap) else map[]);
        && (r.Err? <==> st.failed)
        && (r.Err? ==> r.error == PathNotFound)
        && (r.Ok? ==> r.value == CostMatrix(st.distances, st.times))
        && (cmw != null ==> cmw.instructionMap == st.cache)
    {
      r := CreateCostMatrix(FASTEST, locations, cmw);
    }

    /** `solveTsp`: an empty list of intermediate stops is refused; otherwise the start,
        the end and every intermediate stop are geocoded in that order, the cost matrix
        is built over [start, end, intermediates...] with the FASTEST criterion, and
        the solver is run on the problem of one vehicle from the start to the end. */
    method SolveTsp(cmw: CMW.CostMatrixWrapper?, startPoint: string, endPoint: string, intermediateLocations: seq<string>)
      returns (r: Result<Option<TSP.Solution>>)
      modifies cmw
      ensures var run := SolveTspRun(Context(FASTEST), geocoder, solver, if cmw != null then old(cmw.instructionMap) else map[],
                                     startPoint, endPoint, intermediateLocations);
        && r == run.result
        && (cmw != null ==> cmw.instructionMap == run.cache)
    {
      if |intermediateLocations| == 0 {
        return Err(UncorrectQuery);
      }
      var vehicleType := VehicleType("vehicleType", 0, IntegerMaxValue);
      var locations, jobs := LocateStops(startPoint, endPoint, intermediateLocations);
      if locations.Err? {
        return Err(locations.error);
      }
      LocateAllOutcome(geocoder, [startPoint, endPoint] + intermediateLocations);
      var vehicle := Vehicle("vehicle", vehicleType, locations.value[0], locations.value[1]);
      var costMatrix := CreateCostMatrixFastest(locations.value, cmw);
      if costMatrix.Err? {
        return Err(costMatrix.error);
      }
      var problem := Problem(INFINITE, costMatrix.value, [vehicle], jobs, SolverMaxIterations);
      var answer := solver(problem);
      match answer {
        case Best(s) => r := Ok(Some(s));
        case NoneFound => r := Ok(None);
        case Refused => r := Err(SolverFailure);
      }
    }

    /** The geocoding part of `solveTsp`: the start, the end and every intermediate stop
        in order, the first failure aborting; the jobs are the end and the intermediate
        stops. */
    method LocateStops(startPoint: string, endPoint: string, intermediateLocations: seq<string>)
      returns (r: Result<seq<Location>>, jobs: seq<Service>)
      ensures r == LocateAll(geocoder, [startPoint, endPoint] + intermediateLocations)
      ensures r.Ok? ==> |r.value| >= 2 && jobs == Jobs(r.value[1..])
    {
      ghost var ids := [startPoint, endPoint] + intermediateLocations;
      LocateAllSnoc(geocoder, [], startPoint);
      assert [] + [startPoint] == [startPoint];
      var startLocation := GetDirectGeocoding(startPoint);
      if startLocation.Err? {
        LocateAllPrefixFails(geocoder, [startPoint], [endPoint] + intermediateLocations);
        assert [startPoint] + ([endPoint] + intermediateLocations) == ids;
        return Err(startLocation.error), [];
      }
      assert [] + [startLocation.value] == [startLocation.value];
      assert LocateAll(geocoder, [startPoint]) == Ok([startLocation.value]);
      LocateAllSnoc(geocoder, [startPoint], endPoint);
      assert [startPoint] + [endPoint] == [startPoint, endPoint];
      var endLocation := GetDirectGeocoding(endPoint);
      if endLocation.Err? {
        assert LocateAll(geocoder, [startPoint, endPoint]).Err?;
        LocateAllPrefixFails(geocoder, [startPoint, endPoint], intermediateLocations);
        return Err(endLocation.error), [];
      }
      assert [startLocation.value] + [endLocation.value] == [startLocation.value, endLocation.value];
      jobs := [Service(endPoint, endLocation.value)];
      var locations := [startLocation.value, endLocation.value];
      assert jobs == Jobs(locations[1..]) by {
        assert locations[1..] == [endLocation.value];
        assert [endLocation.value][..0] == [];
      }
      assert [startPoint, endPoint] + intermediateLocations[..0] == [startPoint, endPoint];
      for k := 0 to |intermediateLocations|
        invariant LocateAll(geocoder, [startPoint, endPoint] + intermediateLocations[..k]) == Ok(locations)
        invariant |locations| >= 2 && jobs == Jobs(locations[1..])
      {
        var id := intermediateLocations[k];
        assert [startPoint, endPoint] + intermediateLocations[..k + 1]
            == ([startPoint, endPoint] + intermediateLocations[..k]) + [id];
        LocateAllSnoc(geocoder, [startPoint, endPoint] + intermediateLocations[..k], id);
        var l := GetDirectGeocoding(id);
        if l.Err? {
          LocateAllPrefixFails(geocoder, [startPoint, endPoint] + intermediateLocations[..k + 1], intermediateLocations[k + 1..]);
          assert ([startPoint, endPoint] + intermediateLocations[..k + 1]) + intermediateLocations[k + 1..] == ids;
          return Err(l.error), [];
        }
        assert (locations + [l.value])[1..] == locations[1..] + [l.value];
        assert (locations[1..] + [l.value])[..|locations| - 1] == locations[1..];
        locations := locations + [l.value];
        jobs := jobs + [Service(id, l.value)];
      }
      assert intermediateLocations[..|intermediateLocations|] == intermediateLocations;
      r := Ok(locations);
    }

    /** `solveTsp(startPoint, endPoint, intermediateLocations)`: no cache is kept. */
    method SolveTspWithoutCache(startPoint: string, endPoint: string, intermediateLocations: seq<string>)
      returns (r: Result<Option<TSP.Solution>>)
      ensures r == SolveTspRun(Context(FASTEST), geocoder, solver, map[], startPoint, endPoint, intermediateLocations).result
    {
      r := SolveTsp(null, startPoint, endPoint, intermediateLocations);
    }

    /** `getTspSolutionActivities`: every activity of the solution, route after route. */
    method GetTspSolutionActivities(startPoint: string, solution: TSP.Solution) returns (acts: seq<TSP.Activity>)
      ensures acts == TSP.Flatten(solution.routes)
    {
      var w := TSP.TSPSolutionWrapper.CreateWithoutRendering(solution, startPoint);
      acts := w.GetSolutionActivities();
    }

    /** `showTspSolution`: solves with a fresh cache, then writes the distance header and
        the rendering of every route from that cache. */
    method ShowTspSolution(startPoint: string, endPoint: string, intermediateLocations: seq<string>)
      returns (r: Result<string>)
      ensures r == TspText(SolveTspRun(Context(FASTEST), geocoder, solver, map[], startPoint, endPoint, intermediateLocations), startPoint)
    {
      ghost var run := SolveTspRun(Context(FASTEST), geocoder, solver, map[], startPoint, endPoint, intermediateLocations);
      var cmw := new CMW.CostMatrixWrapper();
      var solution := SolveTsp(cmw, startPoint, endPoint, intermediateLocations);
      if solution.Err? {
        return Err(solution.error);
      }
      if solution.value.None? {
        // the null solution is dereferenced at GeographicMap.java:543
        return Err(SolverFailure);
      }
      assert run == TspRun(Ok(solution.value), cmw.instructionMap);
      r := RenderTspSolution(startPoint, solution.value.value, cmw);
    }

    /** The text part of `showTspSolution`: a fresh builder gets the distance header,
        then the rendering of every route from the cache; a missing leg gives
        NoInstructionsFound. */
    method RenderTspSolution(startPoint: string, solution: TSP.Solution, cmw: CMW.CostMatrixWrapper)
      returns (r: Result<string>)
      ensures r == TspText(TspRun(Ok(Some(solution)), cmw.instructionMap), startPoint)
    {
      ghost var text := TspText(TspRun(Ok(Some(solution)), cmw.instructionMap), startPoint);
      var km := Round(solution.cost / 1000.0);
      var tspBuilder := new StringBuilder("");
      tspBuilder.Append("Distanza percorsa: ");
      tspBuilder.Append(IntToString(km));
      tspBuilder.Append("km\n\n");
      assert tspBuilder.contents == DistanceHeader(km);
      ghost var header := tspBuilder.contents;
      var w := TSP.TSPSolutionWrapper.Create(solution, startPoint, cmw, tspBuilder);
      ghost var rendering := TSP.RenderRoutes(solution.routes, startPoint, cmw.instructionMap, |solution.routes|);
      if w.Err? {
        assert !rendering.complete && w.error == NoInstructionsFound;
        return Err(w.error);
      }
      var sb := w.value.GetSBSolution();
      assert rendering.complete && sb.contents == header + rendering.text;
      assert text == Ok(DistanceHeader(km) + rendering.text);
      r := Ok(sb.contents);
    }
  }
}
