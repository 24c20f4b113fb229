/**
  The satellite API client: five path builders, one per query shape, and
  fetch_api_data, which turns the outcome of one GET request into either the
  decoded payload or a failure descriptor. The HTTP call itself is a
  parameter: a function from (full URL, timeout) to what the transport did.
 */
module Client {
  import opened Values
  import IntText

  const BaseUrl := "https://api.n2yo.com/rest/v1/satellite/"
  const RequestTimeout := 30
  const MissingKeyError := "N2YO_API_KEY is not configured."
  const DecodeErrorPrefix := "JSON Decode Error: "

  /**
    What one GET request did: a decoded body; a requests exception (connection
    error, timeout, or a non-2xx status from raise_for_status); or a body that
    json() could not decode, with the decoder's message and the raw text.
   */
  datatype Transport =
    | Ok(body: Json)
    | TransportError(message: string)
    | DecodeError(message: string, text: string)

  /**
    What fetch_api_data returns: the payload, or the failure dict
    {"error", "url", "content"?} with its optional keys as Options.
   */
  datatype QueryResult =
    | Payload(v: Json)
    | Failure(error: string, url: Option<string>, content: Option<string>)

  /** How the API key is written into the f-string of the full URL. */
  function KeyText(apiKey: PyValue): string
  {
    match apiKey
    case Str(s) => s
    case Int(n) => IntText.IntToString(n)
    case PyNone => "None"
  }

  function FullUrl(endpoint: string, apiKey: PyValue): (u: string)
    ensures |u| > |BaseUrl| + |endpoint| && u[..|BaseUrl|] == BaseUrl
    ensures u[|BaseUrl|..|BaseUrl| + |endpoint|] == endpoint
    ensures u[|BaseUrl| + |endpoint|..] == "&apiKey=" + KeyText(apiKey)
  {
    BaseUrl + endpoint + "&apiKey=" + KeyText(apiKey)
  }

  /**
    fetch_api_data(endpoint_url): without a (truthy) API key, a failure naming
    the missing key and the bare endpoint; otherwise one request to the full
    URL with a 30-second timeout, whose outcome is returned as the payload or
    converted into a failure carrying the full URL.
   */
  function FetchApiData(apiKey: PyValue, endpoint: string, transport: (string, int) -> Transport): (r: QueryResult)
    ensures !Truthy(apiKey) ==> r == Failure(MissingKeyError, Some(endpoint), None)
    ensures r.Payload? <==> Truthy(apiKey) && transport(FullUrl(endpoint, apiKey), RequestTimeout).Ok?
    ensures r.Payload? ==> transport(FullUrl(endpoint, apiKey), RequestTimeout) == Ok(r.v)
    ensures r.Failure? ==> r.url.Some?
    ensures r.Failure? && r.content.Some? <==>
              Truthy(apiKey) && transport(FullUrl(endpoint, apiKey), RequestTimeout).DecodeError?
  {
    if !Truthy(apiKey) then
      Failure(MissingKeyError, Some(endpoint), None)
    else
      var fullUrl := FullUrl(endpoint, apiKey);
      match transport(fullUrl, RequestTimeout)
      case Ok(body) => Payload(body)
      case TransportError(message) => Failure(message, Some(fullUrl), None)
      case DecodeError(message, text) => Failure(DecodeErrorPrefix + message, Some(fullUrl), Some(text))
  }

  /** Without an API key no request is made: the result is the same whatever the transport would do. */
  lemma NoRequestWithoutKey(apiKey: PyValue, endpoint: string, t1: (string, int) -> Transport, t2: (string, int) -> Transport)
    requires !Truthy(apiKey)
    ensures FetchApiData(apiKey, endpoint, t1) == FetchApiData(apiKey, endpoint, t2)
  {
  }

  /** With a key, the result depends on the transport only through the one request to the full URL. */
  lemma OneRequestWithKey(apiKey: PyValue, endpoint: string, t1: (string, int) -> Transport, t2: (string, int) -> Transport)
    requires Truthy(apiKey)
    requires t1(FullUrl(endpoint, apiKey), RequestTimeout) == t2(FullUrl(endpoint, apiKey), RequestTimeout)
    ensures FetchApiData(apiKey, endpoint, t1) == FetchApiData(apiKey, endpoint, t2)
  {
  }

  /** Each failed request becomes the failure descriptor with exactly the keys the source builds. */
  lemma FailureShapes(apiKey: PyValue, endpoint: string, transport: (string, int) -> Transport)
    requires Truthy(apiKey)
    ensures var outcome := transport(FullUrl(endpoint, apiKey), RequestTimeout);
            var r := FetchApiData(apiKey, endpoint, transport);
            && (outcome.TransportError? ==>
                  r == Failure(outcome.message, Some(FullUrl(endpoint, apiKey)), None))
            && (outcome.DecodeError? ==>
                  r == Failure(DecodeErrorPrefix + outcome.message, Some(FullUrl(endpoint, apiKey)), Some(outcome.text)))
  {
  }

  // ---------------------------------------------------------------------------
  // Path builders

  function TlePath(satId: string): (p: string)
    ensures |p| >= 4 && p[..4] == "tle/" && p[4..] == satId
  {
    "tle/" + satId
  }

  function PositionsPath(satId: string, lat: string, lng: string, alt: string, seconds: string := "5"): (p: string)
    ensures |p| > 10 && p[..10] == "positions/" && p[|p| - 1] == '/'
  {
    "positions/" + satId + "/" + lat + "/" + lng + "/" + alt + "/" + seconds + "/"
  }

  function VisualPassesPath(satId: string, lat: string, lng: string, alt: string, days: string, minVisibility: string): (p: string)
    ensures |p| > 13 && p[..13] == "visualpasses/" && p[|p| - 1] == '/'
  {
    "visualpasses/" + satId + "/" + lat + "/" + lng + "/" + alt + "/" + days + "/" + minVisibility + "/"
  }

  function RadioPassesPath(satId: string, lat: string, lng: string, alt: string, days: string, minElevation: string): (p: string)
    ensures |p| > 12 && p[..12] == "radiopasses/" && p[|p| - 1] == '/'
  {
    "radiopasses/" + satId + "/" + lat + "/" + lng + "/" + alt + "/" + days + "/" + minElevation + "/"
  }

  function WhatsUpPath(lat: string, lng: string, alt: string, searchRadius: string, categoryId: string): (p: string)
    ensures |p| > 6 && p[..6] == "above/" && p[|p| - 1] == '/'
  {
    "above/" + lat + "/" + lng + "/" + alt + "/" + searchRadius + "/" + categoryId + "/"
  }

  // ---------------------------------------------------------------------------
  // Reading a path back: str.split("/")

  /** Python's s.split("/"): the pieces between slashes, always at least one. */
  function Split(s: string): (parts: seq<string>)
    ensures |parts| >= 1
    decreases |s|
  {
    if s == [] then [""]
    else if s[0] == '/' then [""] + Split(s[1..])
    else
      var rest := Split(s[1..]);
      [[s[0]] + rest[0]] + rest[1..]
  }

  predicate NoSlash(s: string)
  {
    forall i :: 0 <= i < |s| ==> s[i] != '/'
  }

  lemma {:induction false} SplitNoSlash(s: string)
    requires NoSlash(s)
    ensures Split(s) == [s]
    decreases |s|
  {
    if s != [] {
      SplitNoSlash(s[1..]);
      assert [s[0]] + s[1..] == s;
    }
  }

  /** Splitting "x/rest" gives x followed by the pieces of rest. */
  lemma {:induction false} SplitCons(x: string, rest: string)
    requires NoSlash(x)
    ensures Split(x + "/" + rest) == [x] + Split(rest)
    decreases |x|
  {
    if x == [] {
      assert x + "/" + rest == "/" + rest;
      assert ("/" + rest)[1..] == rest;
    } else {
      assert (x + "/" + rest)[1..] == x[1..] + "/" + rest;
      SplitCons(x[1..], rest);
      assert [x[0]] + x[1..] == x;
    }
  }

  /** The TLE path is "tle" and the satellite id, with no trailing "/". */
  lemma TleSegments(satId: string)
    requires NoSlash(satId)
    ensures Split(TlePath(satId)) == ["tle", satId]
  {
    SplitNoSlash(satId);
    SplitCons("tle", satId);
    assert TlePath(satId) == "tle" + "/" + satId;
  }

  /** Split of "x1/.../xn/": the pieces in order, then an empty piece for the trailing "/". */
  lemma {:induction false} SplitTrailing(xs: seq<string>)
    requires forall k :: 0 <= k < |xs| ==> NoSlash(xs[k])
    ensures Split(Trailing(xs)) == xs + [""]
  {
    if xs == [] {
    } else {
      SplitTrailing(xs[1..]);
      SplitCons(xs[0], Trailing(xs[1..]));
      assert [xs[0]] + xs[1..] == xs;
    }
  }

  /** Each piece followed by "/": the shape of every path but the TLE one. */
  function Trailing(xs: seq<string>): string
  {
    if xs == [] then "" else xs[0] + "/" + Trailing(xs[1..])
  }

  /** The first six pieces of Trailing written out. */
  lemma TrailingUnfold(xs: seq<string>)
    requires |xs| == 6
    ensures Trailing(xs) == xs[0] + "/" + xs[1] + "/" + xs[2] + "/" + xs[3] + "/" + xs[4] + "/" + xs[5] + "/"
  {
    var t5 := xs[5] + "/";
    assert Trailing(xs[5..]) == t5 by { assert xs[5..][1..] == []; }
    var t4 := xs[4] + "/" + t5;
    assert Trailing(xs[4..]) == t4 by { assert xs[4..][1..] == xs[5..]; }
    var t3 := xs[3] + "/" + t4;
    assert Trailing(xs[3..]) == t3 by { assert xs[3..][1..] == xs[4..]; }
    var t2 := xs[2] + "/" + t3;
    assert Trailing(xs[2..]) == t2 by { assert xs[2..][1..] == xs[3..]; }
    var t1 := xs[1] + "/" + t2;
    assert Trailing(xs[1..]) == t1 by { assert xs[1..][1..] == xs[2..]; }
    assert Trailing(xs) == xs[0] + "/" + t1;
  }

  lemma PositionsSegments(satId: string, lat: string, lng: string, alt: string, seconds: string)
    requires NoSlash(satId) && NoSlash(lat) && NoSlash(lng) && NoSlash(alt) && NoSlash(seconds)
    ensures Split(PositionsPath(satId, lat, lng, alt, seconds)) == ["positions", satId, lat, lng, alt, seconds, ""]
  {
    var xs := ["positions", satId, lat, lng, alt, seconds];
    TrailingUnfold(xs);
    assert PositionsPath(satId, lat, lng, alt, seconds) == Trailing(xs);
    SplitTrailing(xs);
  }

  lemma VisualPassesSegments(satId: string, lat: string, lng: string, alt: string, days: string, minVisibility: string)
    requires NoSlash(satId) && NoSlash(lat) && NoSlash(lng) && NoSlash(alt) && NoSlash(days) && NoSlash(minVisibility)
    ensures Split(VisualPassesPath(satId, lat, lng, alt, days, minVisibility)) ==
              ["visualpasses", satId, lat, lng, alt, days, minVisibility, ""]
  {
    var xs := ["visualpasses", satId, lat, lng, alt, days, minVisibility];
    TrailingUnfold(xs[1..]);
    assert Trailing(xs) == xs[0] + "/" + Trailing(xs[1..]);
    assert VisualPassesPath(satId, lat, lng, alt, days, minVisibility) == Trailing(xs);
    SplitTrailing(xs);
  }

  lemma RadioPassesSegments(satId: string, lat: string, lng: string, alt: string, days: string, minElevation: string)
    requires NoSlash(satId) && NoSlash(lat) && NoSlash(lng) && NoSlash(alt) && NoSlash(days) && NoSlash(minElevation)
    ensures Split(RadioPassesPath(satId, lat, lng, alt, days, minElevation)) ==
              ["radiopasses", satId, lat, lng, alt, days, minElevation, ""]
  {
    var xs := ["radiopasses", satId, lat, lng, alt, days, minElevation];
    TrailingUnfold(xs[1..]);
    assert Trailing(xs) == xs[0] + "/" + Trailing(xs[1..]);
    assert RadioPassesPath(satId, lat, lng, alt, days, minElevation) == Trailing(xs);
    SplitTrailing(xs);
  }

  lemma WhatsUpSegments(lat: string, lng: string, alt: string, searchRadius: string, categoryId: string)
    requires NoSlash(lat) && NoSlash(lng) && NoSlash(alt) && NoSlash(searchRadius) && NoSlash(categoryId)
    ensures Split(WhatsUpPath(lat, lng, alt, searchRadius, categoryId)) ==
              ["above", lat, lng, alt, searchRadius, categoryId, ""]
  {
    var xs := ["above", lat, lng, alt, searchRadius, categoryId];
    TrailingUnfold(xs);
    assert WhatsUpPath(lat, lng, alt, searchRadius, categoryId) == Trailing(xs);
    SplitTrailing(xs);
  }
}
