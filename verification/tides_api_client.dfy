/** The tides API client: its error type, the query it sends for
    predictions, and how it turns the outcome of one HTTP exchange into a
    value or an error. The transfer itself (URLSession) is not modelled:
    each operation takes the exchange's outcome as input. */
module TidesApiClient {
  import opened Outcomes
  import opened JsonTree
  import opened Coding
  import opened TideModels
  import opened Text

  datatype TidesAPIError =
    | InvalidURL
    | NetworkError(cause: Cause)
    | InvalidResponse
    | HttpError(statusCode: int, message: string)
    | DecodingError(cause: Cause)

  /** `TidesAPIError.errorDescription`, which is also the error's
      `localizedDescription`. */
  function ErrorDescription(e: TidesAPIError): (d: string)
    ensures e.InvalidURL? ==> d == "Invalid API URL"
    ensures e.InvalidResponse? ==> d == "Invalid response from API"
    ensures StartsWith(d, "Network error: ") <==> e.NetworkError?
    ensures StartsWith(d, "Failed to decode response: ") <==> e.DecodingError?
    ensures StartsWith(d, "HTTP error ") <==> e.HttpError?
    ensures e.NetworkError? ==> d[15..] == e.cause.description
    ensures e.DecodingError? ==> d[27..] == e.cause.description
    ensures e.HttpError? ==> d[11..] == Decimal(e.statusCode) + ": " + e.message
  {
    var d :=
      match e
      case InvalidURL => "Invalid API URL"
      case NetworkError(c) => Prefixed("Network error: ", c.description)
      case InvalidResponse => "Invalid response from API"
      case HttpError(code, message) => Prefixed("HTTP error ", Decimal(code) + ": " + message)
      case DecodingError(c) => Prefixed("Failed to decode response: ", c.description);
    FirstLetterDecides(d);
    d
  }

  predicate StartsWith(s: string, prefix: string) {
    |prefix| <= |s| && s[..|prefix|] == prefix
  }

  /** `prefix` followed by `rest`. */
  function Prefixed(prefix: string, rest: string): (s: string)
    requires |prefix| > 0
    ensures StartsWith(s, prefix) && s[|prefix|..] == rest && s[0] == prefix[0]
  {
    prefix + rest
  }

  /** The three variable descriptions begin with different letters. */
  lemma FirstLetterDecides(d: string)
    requires |d| > 0
    ensures d[0] != 'N' ==> !StartsWith(d, "Network error: ")
    ensures d[0] != 'F' ==> !StartsWith(d, "Failed to decode response: ")
    ensures d[0] != 'H' ==> !StartsWith(d, "HTTP error ")
  {
  }

  /** The `localizedDescription` Foundation gives a `DecodingError`. */
  function DecodeFailureCause(e: DecodeError): Cause {
    match e
    case KeyNotFound(_) => Cause("The data couldn’t be read because it is missing.")
    case ValueNotFound(_) => Cause("The data couldn’t be read because it is missing.")
    case TypeMismatch(_) => Cause("The data couldn’t be read because it isn’t in the correct format.")
    case DataCorrupted => Cause("The data couldn’t be read because it isn’t in the correct format.")
  }

  /** A URL query item. */
  datatype QueryItem = QueryItem(name: string, value: string)

  /** The query of `GET /v1/tides/predictions`. The four values are taken
      already rendered: `String(Double)` and ISO 8601 formatting are not
      modelled. */
  function PredictionQuery(lat: string, lon: string, start: string, end: string, interval: string := "30m", source: string := "fes"): (q: seq<QueryItem>)
    ensures |q| == 6
    ensures forall i :: 0 <= i < 6 ==> q[i].name == ["lat", "lon", "start", "end", "interval", "source"][i]
    ensures forall i :: 0 <= i < 6 ==> q[i].value == [lat, lon, start, end, interval, source][i]
  {
    [ QueryItem("lat", lat), QueryItem("lon", lon),
      QueryItem("start", start), QueryItem("end", end),
      QueryItem("interval", interval), QueryItem("source", source) ]
  }

  /** The value a server reads for `name`: that of the first item so named. */
  function QueryValue(q: seq<QueryItem>, name: string): (v: Option<string>)
    ensures v.None? <==> forall i :: 0 <= i < |q| ==> q[i].name != name
  {
    if |q| == 0 then None
    else if q[0].name == name then Some(q[0].value)
    else QueryValue(q[1..], name)
  }

  /** Each parameter reads back as the value passed for it, and no other
      name is present. */
  lemma PredictionQueryReadsBack(lat: string, lon: string, start: string, end: string, interval: string, source: string, other: string)
    requires other !in {"lat", "lon", "start", "end", "interval", "source"}
    ensures var q := PredictionQuery(lat, lon, start, end, interval, source);
      && QueryValue(q, "lat") == Some(lat) && QueryValue(q, "lon") == Some(lon)
      && QueryValue(q, "start") == Some(start) && QueryValue(q, "end") == Some(end)
      && QueryValue(q, "interval") == Some(interval) && QueryValue(q, "source") == Some(source)
      && QueryValue(q, other) == None
  {
    QueryHeadReadsBack(lat, lon, start, end, interval, source);
    QueryTailReadsBack(lat, lon, start, end, interval, source);
    QueryHasNoOtherName(lat, lon, start, end, interval, source, other);
  }

  lemma QueryHasNoOtherName(lat: string, lon: string, start: string, end: string, interval: string, source: string, other: string)
    requires other !in {"lat", "lon", "start", "end", "interval", "source"}
    ensures QueryValue(PredictionQuery(lat, lon, start, end, interval, source), other) == None
  {
  }

  lemma QueryHeadReadsBack(lat: string, lon: string, start: string, end: string, interval: string, source: string)
    ensures var q := PredictionQuery(lat, lon, start, end, interval, source);
      QueryValue(q, "lat") == Some(lat) && QueryValue(q, "lon") == Some(lon) && QueryValue(q, "start") == Some(start)
  {
    var q := PredictionQuery(lat, lon, start, end, interval, source);
    FirstNamedItem(q, "lat", 0);
    FirstNamedItem(q, "lon", 1);
    FirstNamedItem(q, "start", 2);
  }

  lemma QueryTailReadsBack(lat: string, lon: string, start: string, end: string, interval: string, source: string)
    ensures var q := PredictionQuery(lat, lon, start, end, interval, source);
      QueryValue(q, "end") == Some(end) && QueryValue(q, "interval") == Some(interval) && QueryValue(q, "source") == Some(source)
  {
    var q := PredictionQuery(lat, lon, start, end, interval, source);
    FirstNamedItem(q, "end", 3);
    FirstNamedItem(q, "interval", 4);
    FirstNamedItem(q, "source", 5);
  }

  /** `QueryValue` finds the first item with the name. */
  lemma {:induction false} FirstNamedItem(q: seq<QueryItem>, name: string, k: nat)
    requires k < |q| && q[k].name == name
    requires forall i :: 0 <= i < k ==> q[i].name != name
    ensures QueryValue(q, name) == Some(q[k].value)
  {
    if k > 0 {
      FirstNamedItem(q[1..], name, k - 1);
    }
  }

  /** The response metadata of an exchange: an `HTTPURLResponse` or some
      other `URLResponse`. */
  datatype Response = HttpResponse(statusCode: int) | OtherResponse

  /** The response body as the client reads it: its UTF-8 text, if it is
      valid UTF-8, and its JSON tree, if it is a JSON text. */
  datatype Body = Body(utf8: Option<string>, json: Option<Json>)

  /** Something thrown inside the client's `do` block. */
  datatype Thrown = ApiError(error: TidesAPIError) | OtherError(cause: Cause)

  /** The outcome of one request: the URL could not be built, the transfer
      threw, or a body and response arrived. */
  datatype Exchange = UrlNotBuilt | Threw(thrown: Thrown) | Received(body: Body, response: Response)

  /** The body the API answered with, as a value, or why not. */
  function Classify<T>(x: Exchange, decode: Json -> Result<T, DecodeError>): (r: Result<T, TidesAPIError>)
    ensures r.Ok? <==>
      && x.Received? && x.response == HttpResponse(200)
      && x.body.json.Some? && decode(x.body.json.value).Ok?
    ensures r.Ok? ==> decode(x.body.json.value) == Ok(r.value)
    ensures x.UrlNotBuilt? ==> r == Err(InvalidURL)
    ensures x.Threw? && x.thrown.ApiError? ==> r == Err(x.thrown.error)
    ensures x.Threw? && x.thrown.OtherError? ==> r == Err(NetworkError(x.thrown.cause))
    ensures x.Received? && x.response.OtherResponse? ==> r == Err(InvalidResponse)
    ensures x.Received? && x.response.HttpResponse? && x.response.statusCode != 200 ==>
      r == Err(HttpError(x.response.statusCode, x.body.utf8.GetOr("Unknown error")))
    ensures x.Received? && x.response == HttpResponse(200) && r.Err? ==> r.error.DecodingError?
  {
    match x
    case UrlNotBuilt => Err(InvalidURL)
    case Threw(ApiError(e)) => Err(e)
    case Threw(OtherError(c)) => Err(NetworkError(c))
    case Received(body, OtherResponse) => Err(InvalidResponse)
    case Received(body, HttpResponse(code)) =>
      if code != 200 then Err(HttpError(code, body.utf8.GetOr("Unknown error")))
      else
        match body.json
        case None => Err(DecodingError(DecodeFailureCause(DataCorrupted)))
        case Some(j) =>
          match decode(j)
          case Ok(v) => Ok(v)
          case Err(e) => Err(DecodingError(DecodeFailureCause(e)))
  }

  /** `fetchTidePredictions`. */
  function FetchTidePredictions(x: Exchange): (r: Result<TidePredictionsResponse, TidesAPIError>)
    ensures r.Ok? <==>
      && x.Received? && x.response == HttpResponse(200)
      && x.body.json.Some? && DecodeResponse(x.body.json.value).Ok?
    ensures r.Ok? ==> DecodeResponse(x.body.json.value) == Ok(r.value)
    ensures x.Received? && x.response.HttpResponse? && x.response.statusCode != 200 ==>
      r == Err(HttpError(x.response.statusCode, x.body.utf8.GetOr("Unknown error")))
  {
    Classify(x, DecodeResponse)
  }

  /** `fetchConstituents`. */
  function FetchConstituents(x: Exchange): (r: Result<seq<Constituent>, TidesAPIError>)
    ensures r.Ok? <==>
      && x.Received? && x.response == HttpResponse(200)
      && x.body.json.Some? && DecodeConstituentList(x.body.json.value).Ok?
    ensures r.Ok? ==> DecodeConstituentList(x.body.json.value) == Ok(r.value)
    ensures x.Received? && x.response.HttpResponse? && x.response.statusCode != 200 ==>
      r == Err(HttpError(x.response.statusCode, x.body.utf8.GetOr("Unknown error")))
  {
    Classify(x, DecodeConstituentList)
  }

  /** `checkHealth`: healthy exactly when an HTTP response with status 200
      arrived; the body is never read. */
  function CheckHealth(x: Exchange): (healthy: bool)
    ensures healthy <==> x.Received? && x.response == HttpResponse(200)
  {
    match x
    case UrlNotBuilt => false
    case Threw(_) => false
    case Received(_, OtherResponse) => false
    case Received(_, HttpResponse(code)) => code == 200
  }

  // ---- properties ----

  /** A non-200 answer is never decoded: its JSON reading does not matter. */
  lemma ErrorStatusIgnoresJson<T>(body: Body, code: int, json: Option<Json>, decode: Json -> Result<T, DecodeError>)
    requires code != 200
    ensures Classify(Received(body, HttpResponse(code)), decode)
         == Classify(Received(body.(json := json), HttpResponse(code)), decode)
  {
  }

  /** Both fetches classify their exchange identically: they agree on
      every failure and differ only in what a 200 body decodes to. */
  lemma FetchesClassifyAlike(x: Exchange)
    requires !(x.Received? && x.response == HttpResponse(200))
    ensures FetchTidePredictions(x).Err? && FetchConstituents(x).Err?
    ensures FetchTidePredictions(x).error == FetchConstituents(x).error
  {
  }

  /** The position of the first `:` in `s`, or `|s|` when there is none. */
  function FirstColon(s: string): (k: nat)
    ensures k <= |s|
    ensures k < |s| ==> s[k] == ':'
    ensures forall i :: 0 <= i < k ==> s[i] != ':'
  {
    if |s| == 0 || s[0] == ':' then 0 else 1 + FirstColon(s[1..])
  }

  lemma {:induction false} ColonEndsNumber(d: string, t: string)
    requires forall i :: 0 <= i < |d| ==> d[i] != ':'
    ensures FirstColon(d + ": " + t) == |d|
  {
    if |d| > 0 {
      assert (d + ": " + t)[1..] == d[1..] + ": " + t;
      ColonEndsNumber(d[1..], t);
    }
  }

  /** "HTTP error c: m" determines both `c` and `m`: status codes never
      contain the colon that ends them. */
  lemma HttpDescriptionInjective(c1: int, m1: string, c2: int, m2: string)
    requires ErrorDescription(HttpError(c1, m1)) == ErrorDescription(HttpError(c2, m2))
    ensures c1 == c2 && m1 == m2
  {
    var p := "HTTP error ";
    var d1, d2 := Decimal(c1), Decimal(c2);
    var s1, s2 := d1 + ": " + m1, d2 + ": " + m2;
    assert ErrorDescription(HttpError(c1, m1)) == p + s1;
    assert ErrorDescription(HttpError(c2, m2)) == p + s2;
    assert s1 == (p + s1)[|p|..];
    assert s1 == s2;
    ColonEndsNumber(d1, m1);
    ColonEndsNumber(d2, m2);
    assert d1 == s1[..|d1|];
    assert d2 == s2[..|d2|];
    DecimalInjective(c1, c2);
    assert m1 == s1[|d1| + 2..];
    assert m2 == s2[|d2| + 2..];
  }

  /** Different errors are described differently, so the message the view
      model shows identifies the error. */
  lemma DescriptionIdentifiesError(a: TidesAPIError, b: TidesAPIError)
    requires ErrorDescription(a) == ErrorDescription(b)
    ensures a == b
  {
    var d := ErrorDescription(a);
    if a.HttpError? && b.HttpError? {
      HttpDescriptionInjective(a.statusCode, a.message, b.statusCode, b.message);
    } else if a.NetworkError? && b.NetworkError? {
      assert a.cause.description == d[15..];
    } else if a.DecodingError? && b.DecodingError? {
      assert a.cause.description == d[27..];
    } else {
      assert d[0] == ErrorDescription(b)[0];
      if a.InvalidURL? || a.InvalidResponse? {
        assert d[8] == ErrorDescription(b)[8];
      }
    }
  }
}
