/** Reverse geocoding through a Nominatim server: the URL for a coordinate pair at
    the configured zoom level, and the request that must return a non-empty body.
    One instance per process, fixed by the first request for it. */
module NominatimReverseGeocodingJAPI {
  import opened Exceptions
  import opened JavaLang

  const DefaultServer: string := "http://racomaps.ns0.it/nominatim/"

  /** The street level, the most detailed zoom and the default. */
  const MaxZoom: int := 18

  /** The zoom level `setZoomLevel` keeps: the requested one when it lies in
      [0, 18], otherwise the default. */
  function ClampedZoom(zoomLevel: int): (z: int)
    ensures 0 <= z <= MaxZoom
    ensures 0 <= zoomLevel <= MaxZoom ==> z == zoomLevel
    ensures zoomLevel < 0 || zoomLevel > MaxZoom ==> z == MaxZoom
  {
    if zoomLevel < 0 || zoomLevel > MaxZoom then MaxZoom else zoomLevel
  }

  /** Clamping twice is clamping once. */
  lemma ClampedZoomIdempotent(zoomLevel: int)
    ensures ClampedZoom(ClampedZoom(zoomLevel)) == ClampedZoom(zoomLevel)
  {
  }

  /** The reverse-geocoding URL; `show` stands for `String.valueOf(double)`. */
  function ReverseUrl(server: string, lat: real, lon: real, zoomLevel: int, show: real -> string): string {
    server + "/reverse?format=json&addressdetails=1&lat=" + show(lat) + "&lon=" + show(lon)
      + "&zoom=" + IntToString(zoomLevel)
  }

  /** What `getJSON` reads: the lines of the body concatenated, unless the connection
      fails or the body is empty. A status of 400 or more makes the input stream throw. */
  function JsonText(http: string -> HttpResponse, url: string): Result<string> {
    match http(url)
    case Unreachable => Err(NotExistingCoordinates)
    case Response(status, lines) =>
      if status >= 400 || Concat(lines) == "" then Err(NotExistingCoordinates) else Ok(Concat(lines))
  }

  /** The arguments of `new Address(json, zoomLevel)`: the answer's text and the zoom
      level it was asked for. */
  datatype AddressSource = AddressSource(json: string, zoomLevel: int)

  class NominatimReverseGeocodingJAPI {
    var nominatimInstance: string
    var zoomLevel: int

    ghost predicate Valid()
      reads this
    {
      0 <= zoomLevel <= MaxZoom
    }

    /** The private constructor: the given server and zoom 18. */
    constructor (nominatimInstance: string)
      ensures Valid()
      ensures this.nominatimInstance == nominatimInstance && zoomLevel == MaxZoom
    {
      this.nominatimInstance := nominatimInstance;
      zoomLevel := MaxZoom;
    }

    /** `setServer`: the zoom level is untouched. */
    method SetServer(server: string)
      modifies this
      ensures nominatimInstance == server && zoomLevel == old(zoomLevel)
    {
      nominatimInstance := server;
    }

    /** `setZoomLevel`: an out-of-range level falls back to 18, so the level always
        stays in [0, 18]. */
    method SetZoomLevel(zoomLevel: int)
      modifies this
      ensures Valid()
      ensures this.zoomLevel == ClampedZoom(zoomLevel)
      ensures nominatimInstance == old(nominatimInstance)
    {
      var level := zoomLevel;
      if level < 0 || level > MaxZoom {
        level := MaxZoom;
      }
      this.zoomLevel := level;
    }

    /** `getJSON`: every line of the answer appended; a failed connection or an empty
        body is NotExistingCoordinates. */
    method GetJSON(http: string -> HttpResponse, urlString: string) returns (r: Result<string>)
      ensures r.Ok? ==> r.value != "" && http(urlString).Response? && r.value == Concat(http(urlString).lines)
      ensures r.Err? ==> r.error == NotExistingCoordinates
      ensures r == JsonText(http, urlString)
    {
      var result := new StringBuilder("");
      var answer := http(urlString);
      if answer.Unreachable? || answer.status >= 400 {
        return Err(NotExistingCoordinates);
      }
      var lines := answer.lines;
      for k := 0 to |lines|
        invariant result.contents == Concat(lines[..k])
      {
        result.Append(lines[k]);
        assert lines[..k + 1][..k] == lines[..k];
      }
      assert lines[..|lines|] == lines;
      var resultString := result.contents;
      if resultString == "" {
        return Err(NotExistingCoordinates);
      }
      r := Ok(resultString);
    }

    /** `getAdress`: requests the URL for the coordinates at the current zoom level. */
    method GetAdress(http: string -> HttpResponse, show: real -> string, lat: real, lon: real)
      returns (r: Result<AddressSource>)
      ensures var text := JsonText(http, ReverseUrl(nominatimInstance, lat, lon, zoomLevel, show));
        && (r.Ok? <==> text.Ok?)
        && (r.Ok? ==> r.value == AddressSource(text.value, zoomLevel))
        && (r.Err? ==> r.error == text.error)
    {
      var urlString := nominatimInstance + "/reverse?format=json&addressdetails=1&lat=" + show(lat) + "&lon=" + show(lon)
                       + "&zoom=" + IntToString(zoomLevel);
      var json := GetJSON(http, urlString);
      if json.Err? {
        return Err(json.error);
      }
      r := Ok(AddressSource(json.value, zoomLevel));
    }
  }

  /** The static `instance` field: empty until the first `getInstance`. */
  class Registry {
    var instance: NominatimReverseGeocodingJAPI?

    constructor ()
      ensures instance == null
    {
      instance := null;
    }

    /** `getInstance(server)`: the first call creates the instance for its server;
        every later call returns that same instance, whatever server it names. */
    method GetInstance(server: string) returns (n: NominatimReverseGeocodingJAPI)
      modifies this
      ensures old(instance) == null ==> fresh(n) && n.nominatimInstance == server && n.zoomLevel == MaxZoom
      ensures old(instance) != null ==> n == old(instance)
      ensures instance == n
    {
      if instance == null {
        instance := new NominatimReverseGeocodingJAPI(server);
      }
      n := instance;
    }

    /** `getInstance()`: the default server, if no instance exists yet. */
    method GetDefaultInstance() returns (n: NominatimReverseGeocodingJAPI)
      modifies this
      ensures old(instance) == null ==> fresh(n) && n.nominatimInstance == DefaultServer && n.zoomLevel == MaxZoom
      ensures old(instance) != null ==> n == old(instance)
      ensures instance == n
    {
      n := GetInstance(DefaultServer);
    }
  }

  /** A new instance zooms at 18; an invalid level falls back to 18, a valid one is
      kept, and changing the server keeps the level. */
  method ZoomScenario(server: string)
  {
    var registry := new Registry();
    var nominatim := registry.GetDefaultInstance();
    assert nominatim.zoomLevel == 18;
    nominatim.SetZoomLevel(10);
    assert nominatim.zoomLevel == 10;
    nominatim.SetServer(server);
    assert nominatim.zoomLevel == 10 && nominatim.nominatimInstance == server;
    nominatim.SetZoomLevel(19);
    assert nominatim.zoomLevel == 18;
    nominatim.SetZoomLevel(-1);
    assert nominatim.zoomLevel == 18;
    var again := registry.GetInstance(server + "/other");
    assert again == nominatim;
  }
}
