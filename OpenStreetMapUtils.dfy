/** Direct geocoding through a Nominatim search server: the search URL built from an
    address, the HTTP request, and the reading of the first answer's latitude and
    longitude. One instance per process, fixed by the first request for it. */
module OpenStreetMapUtils {
  import opened Exceptions
  import opened JavaLang

  const DefaultServer: string := "http://racomaps.ns0.it/nominatim/"
  const SearchPath: string := "/search?q="
  const SearchOptions: string := "&format=json&addressdetails=1"

  /** One element of the server's JSON answer, as far as it is read: the text under
      "lon" and under "lat", when present. */
  datatype Place = Place(lon: Option<string>, lat: Option<string>)

  /** The parsed answer: an array of places, or any other JSON value. */
  datatype Json = JsonArray(places: seq<Place>) | OtherJson

  /** The search URL for an address: its space-separated words joined by "+", or
      NotExistingCoordinates when the address has no word. */
  function SearchUrl(server: string, address: string): Result<string> {
    var words := JavaSplit(address, ' ');
    if |words| == 0 then Err(NotExistingCoordinates)
    else Ok(server + SearchPath + Join(words, "+") + SearchOptions)
  }

  /** The coordinates read from an answer: those of its first place, keyed "lon" and
      "lat". A missing or unreadable number is an unchecked failure; an answer with no
      place is NotExistingCoordinates. */
  function Decode(json: Json, parseDouble: string -> Option<real>): Result<map<string, real>> {
    if json.JsonArray? && |json.places| > 0 then
      var place := json.places[0];
      if place.lon.None? || parseDouble(place.lon.value).None? then Err(MalformedAnswer)
      else if place.lat.None? || parseDouble(place.lat.value).None? then Err(MalformedAnswer)
      else Ok(map["lon" := parseDouble(place.lon.value).value, "lat" := parseDouble(place.lat.value).value])
    else Err(NotExistingCoordinates)
  }

  /** The body of a successful request: every line, concatenated without separator. */
  function Body(http: string -> HttpResponse, url: string): Result<string> {
    match http(url)
    case Unreachable => Err(NotExistingCoordinates)
    case Response(status, lines) => if status != 200 then Err(NotExistingCoordinates) else Ok(Concat(lines))
  }

  /** `getCoordinates` from address to coordinates. */
  function Coordinates(server: string, http: string -> HttpResponse, parseJson: string -> Json,
                       parseDouble: string -> Option<real>, address: string): Result<map<string, real>>
  {
    var url :- SearchUrl(server, address);
    var body :- Body(http, url);
    Decode(parseJson(body), parseDouble)
  }

  /** The words of the search are the address with its trailing spaces dropped and
      every other space turned into "+". */
  lemma SearchUrlReplacesSpaces(server: string, address: string)
    requires |JavaSplit(address, ' ')| > 0
    ensures SearchUrl(server, address)
            == Ok(server + SearchPath + Replace(DropTrailingChar(address, ' '), ' ', '+') + SearchOptions)
  {
    JoinJavaSplit(address, ' ', '+');
  }

  /** An address has no word exactly when it is made of spaces only (and is not empty:
      the empty address is one empty word). */
  lemma NoWordIffBlank(address: string)
    ensures |JavaSplit(address, ' ')| == 0 <==> |address| > 0 && forall k :: 0 <= k < |address| ==> address[k] == ' '
  {
    var words := JavaSplit(address, ' ');
    var t := DropTrailingChar(address, ' ');
    JoinJavaSplit(address, ' ', '+');
    if |address| > 0 && forall k :: 0 <= k < |address| ==> address[k] == ' ' {
      assert address[0] in address;
      assert |t| == 0;
      if |words| > 0 {
        JoinNonEmpty(words, "+");
      }
    }
    if |words| == 0 && |address| > 0 {
      assert Join(words, "+") == "";
      forall k | 0 <= k < |address|
        ensures address[k] == ' '
      {
        assert |t| == 0;
      }
    }
  }

  /** A join of words whose last word is not empty is not empty. */
  lemma JoinNonEmpty(ws: seq<string>, sep: string)
    requires |ws| > 0 && ws[|ws| - 1] != ""
    ensures Join(ws, sep) != ""
  {
    if |ws| > 1 {
      assert |Join(ws, sep)| >= |ws[|ws| - 1]|;
    }
  }

  /** A successful lookup holds exactly the two coordinates of the answer's first place. */
  lemma CoordinatesOfFirstPlace(server: string, http: string -> HttpResponse, parseJson: string -> Json,
                                parseDouble: string -> Option<real>, address: string)
    ensures var r := Coordinates(server, http, parseJson, parseDouble, address);
      r.Ok? ==>
        && r.value.Keys == {"lon", "lat"}
        && var json := parseJson(Body(http, SearchUrl(server, address).value).value);
           && json.JsonArray? && |json.places| > 0
           && r.value["lon"] == parseDouble(json.places[0].lon.value).value
           && r.value["lat"] == parseDouble(json.places[0].lat.value).value
  {
  }

  /** What the URL loop has written after i words: those words, each followed by "+"
      unless it is the last word of the address. */
  function JoinedPrefix(words: seq<string>, i: nat): string
    requires i <= |words|
  {
    if i == 0 then "" else Join(words[..i], "+") + (if i < |words| then "+" else "")
  }

  /** One more word of the loop. */
  lemma JoinedPrefixStep(words: seq<string>, i: nat)
    requires i < |words|
    ensures JoinedPrefix(words, i + 1) == JoinedPrefix(words, i) + words[i] + (if i < |words| - 1 then "+" else "")
  {
    if i > 0 {
      JoinSnoc(words[..i], words[i], "+");
      assert words[..i + 1] == words[..i] + [words[i]];
    } else {
      assert words[..1] == [words[0]];
    }
  }

  /** After every word the loop has written the words joined by "+". */
  lemma JoinedPrefixAll(words: seq<string>)
    requires |words| > 0
    ensures JoinedPrefix(words, |words|) == Join(words, "+")
  {
    assert words[..|words|] == words;
  }

  /** Concatenation regrouped: the fixed start, then the words so far and one more. */
  lemma Regroup(base: string, written: string, word: string, separator: string)
    ensures base + written + word + separator == base + (written + word + separator)
  {
  }

  class OpenStreetMapUtils {
    const server: string

    constructor (server: string)
      ensures this.server == server
    {
      this.server := server;
    }

    /** `getRequest`: the body of a 200 answer, its lines appended one after another;
        a failed request or any other status is NotExistingCoordinates. */
    method GetRequest(http: string -> HttpResponse, url: string) returns (r: Result<string>)
      ensures r.Ok? <==> http(url).Response? && http(url).status == 200
      ensures r.Ok? ==> r.value == Concat(http(url).lines)
      ensures r.Err? ==> r.error == NotExistingCoordinates
    {
      var response := new StringBuilder("");
      var answer := http(url);
      if answer.Unreachable? || answer.status != 200 {
        return Err(NotExistingCoordinates);
      }
      var lines := answer.lines;
      for k := 0 to |lines|
        invariant response.contents == Concat(lines[..k])
      {
        response.Append(lines[k]);
        assert lines[..k + 1][..k] == lines[..k];
      }
      assert lines[..|lines|] == lines;
      r := Ok(response.contents);
    }

    /** `getCoordinates`: builds the search URL word by word, requests it and reads the
        first place of the answer. */
    method GetCoordinates(http: string -> HttpResponse, parseJson: string -> Json,
                          parseDouble: string -> Option<real>, address: string)
      returns (r: Result<map<string, real>>)
      ensures |JavaSplit(address, ' ')| == 0 ==> r == Err(NotExistingCoordinates)
      ensures r.Ok? ==> r.value.Keys == {"lon", "lat"}
      ensures r == Coordinates(server, http, parseJson, parseDouble, address)
    {
      var query := BuildQuery(address);
      if query.Err? {
        return Err(query.error);
      }
      var queryResult := GetRequest(http, query.value);
      if queryResult.Err? {
        return Err(queryResult.error);
      }
      var obj := parseJson(queryResult.value);
      var res: map<string, real> := map[];
      if obj.JsonArray? && |obj.places| > 0 {
        var place := obj.places[0];
        if place.lon.None? || parseDouble(place.lon.value).None? {
          return Err(MalformedAnswer);
        }
        res := res["lon" := parseDouble(place.lon.value).value];
        if place.lat.None? || parseDouble(place.lat.value).None? {
          return Err(MalformedAnswer);
        }
        res := res["lat" := parseDouble(place.lat.value).value];
      }
      if |res| == 0 {
        return Err(NotExistingCoordinates);
      }
      r := Ok(res);
    }

    /** The URL part of `getCoordinates`: the server's search path, every word of the
        address followed by "+" except the last, then the format options. */
    method BuildQuery(address: string) returns (r: Result<string>)
      ensures r == SearchUrl(server, address)
    {
      var split := JavaSplit(address, ' ');
      ghost var base := server + SearchPath;
      var query := new StringBuilder("");
      query.Append(server + SearchPath);
      if |split| == 0 {
        return Err(NotExistingCoordinates);
      }
      for i := 0 to |split|
        invariant query.contents == base + JoinedPrefix(split, i)
      {
        ghost var written := JoinedPrefix(split, i);
        ghost var separator := if i < |split| - 1 then "+" else "";
        query.Append(split[i]);
        if i < |split| - 1 {
          query.Append("+");
        }
        assert query.contents == base + written + split[i] + separator;
        JoinedPrefixStep(split, i);
        Regroup(base, written, split[i], separator);
      }
      JoinedPrefixAll(split);
      query.Append(SearchOptions);
      assert query.contents == base + Join(split, "+") + SearchOptions;
      r := Ok(query.contents);
    }
  }

  /** The static `instance` field: empty until the first `getInstance`. */
  class Registry {
    var instance: OpenStreetMapUtils?

    constructor ()
      ensures instance == null
    {
      instance := null;
    }

    /** `getInstance(server)`: the first call creates the instance for its server;
        every later call returns that same instance, whatever server it names. */
    method GetInstance(server: string) returns (u: OpenStreetMapUtils)
      modifies this
      ensures old(instance) == null ==> fresh(u) && u.server == server
      ensures old(instance) != null ==> u == old(instance)
      ensures instance == u
    {
      if instance == null {
        instance := new OpenStreetMapUtils(server);
      }
      u := instance;
    }

    /** `getInstance()`: the default server, if no instance exists yet. */
    method GetDefaultInstance() returns (u: OpenStreetMapUtils)
      modifies this
      ensures old(instance) == null ==> fresh(u) && u.server == DefaultServer
      ensures old(instance) != null ==> u == old(instance)
      ensures instance == u
    {
      u := GetInstance(DefaultServer);
    }
  }

  /** Two requests in a row give the same instance, and the second server is ignored. */
  method FirstServerWins(a: string, b: string)
    requires a != b
  {
    var registry := new Registry();
    var first := registry.GetInstance(a);
    var second := registry.GetInstance(b);
    assert second == first && second.server == a;
    var third := registry.GetDefaultInstance();
    assert third == first;
  }
}
