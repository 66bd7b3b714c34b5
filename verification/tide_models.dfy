/** The records the tides API returns and the map position the app keeps,
    with the JSON decoding and encoding Swift synthesises for them. */
module TideModels {
  import opened Outcomes
  import opened Floats
  import opened JsonTree
  import opened Coding

  /** One point of the predicted series. `time` is ISO 8601 text; parsing
      it into a date is not modelled. */
  datatype TidePrediction = TidePrediction(time: string, heightM: Double, depthM: Option<Double>) {
    /** `Identifiable.id`. */
    function Id(): string { time }
  }

  /** A high or low tide. */
  datatype TideExtreme = TideExtreme(time: string, heightM: Double) {
    function Id(): string { time }
  }

  datatype TideExtrema = TideExtrema(highs: seq<TideExtreme>, lows: seq<TideExtreme>)

  datatype TidePredictionsResponse = TidePredictionsResponse(
    predictions: seq<TidePrediction>,
    extrema: Option<TideExtrema>,
    source: string,
    datum: Option<string>,
    timezone: Option<string>,
    constituents: Option<seq<string>>,
    mslM: Option<Double>)

  /** A tidal constituent as listed by the API. */
  datatype Constituent = Constituent(name: string, description: string, speed: Double) {
    function Id(): string { name }
  }

  /** The centre and zoom level of the map. */
  datatype MapPosition = MapPosition(lat: Double, lon: Double, zoom: Double)

  /** Tokyo Bay. */
  const DefaultPosition := MapPosition(Finite(35.6), Finite(139.8), Finite(10.0))

  /** The synthesised `==` of `MapPosition`: `==` on each of the three fields. */
  predicate SamePosition(a: MapPosition, b: MapPosition)
    ensures SamePosition(a, b) <==> a == b && !HasNaN(a)
  {
    Equal(a.lat, b.lat) && Equal(a.lon, b.lon) && Equal(a.zoom, b.zoom)
  }

  predicate HasNaN(p: MapPosition) {
    p.lat.NaN? || p.lon.NaN? || p.zoom.NaN?
  }

  predicate IsFinitePosition(p: MapPosition) {
    p.lat.Finite? && p.lon.Finite? && p.zoom.Finite?
  }

  // ---- decoding ----

  function DecodePrediction(j: Json): (r: Result<TidePrediction, DecodeError>)
    ensures r.Ok? <==>
      && j.JObject?
      && "time" in j.members && j.members["time"].JString?
      && "height_m" in j.members && j.members["height_m"].JNumber?
      && (Absent(j.members, "depth_m") || j.members["depth_m"].JNumber?)
    ensures r.Ok? ==>
      && r.value.Id() == j.members["time"].s
      && r.value.heightM == Finite(j.members["height_m"].n)
      && (r.value.depthM.None? <==> Absent(j.members, "depth_m"))
      && (r.value.depthM.Some? ==> r.value.depthM.value == Finite(j.members["depth_m"].n))
  {
    var m :- AsObject(j);
    var time :- Required(m, "time", AsString);
    var height :- Required(m, "height_m", AsDouble);
    var depth :- Optional(m, "depth_m", AsDouble);
    Ok(TidePrediction(time, height, depth))
  }

  function DecodeExtreme(j: Json): (r: Result<TideExtreme, DecodeError>)
    ensures r.Ok? <==>
      && j.JObject?
      && "time" in j.members && j.members["time"].JString?
      && "height_m" in j.members && j.members["height_m"].JNumber?
    ensures r.Ok? ==>
      && r.value.Id() == j.members["time"].s
      && r.value.heightM == Finite(j.members["height_m"].n)
  {
    var m :- AsObject(j);
    var time :- Required(m, "time", AsString);
    var height :- Required(m, "height_m", AsDouble);
    Ok(TideExtreme(time, height))
  }

  function DecodeExtrema(j: Json): (r: Result<TideExtrema, DecodeError>)
    ensures r.Ok? ==>
      && j.JObject? && "highs" in j.members && "lows" in j.members
      && ArrayOf(j.members["highs"], DecodeExtreme) == Ok(r.value.highs)
      && ArrayOf(j.members["lows"], DecodeExtreme) == Ok(r.value.lows)
  {
    var m :- AsObject(j);
    var highs :- Required(m, "highs", (v: Json) => ArrayOf(v, DecodeExtreme));
    var lows :- Required(m, "lows", (v: Json) => ArrayOf(v, DecodeExtreme));
    Ok(TideExtrema(highs, lows))
  }

  function DecodePredictionList(j: Json): Result<seq<TidePrediction>, DecodeError> {
    ArrayOf(j, DecodePrediction)
  }

  function DecodeStringList(j: Json): Result<seq<string>, DecodeError> {
    ArrayOf(j, AsString)
  }

  /** `predictions` and `source` are required; every other member may be
      missing or `null`, which decodes to `nil`. Unknown members are ignored. */
  function DecodeResponse(j: Json): (r: Result<TidePredictionsResponse, DecodeError>)
    ensures r.Ok? ==> j.JObject? && "predictions" in j.members && "source" in j.members
    ensures r.Ok? ==>
      var m := j.members;
      && DecodePredictionList(m["predictions"]) == Ok(r.value.predictions)
      && m["source"] == JString(r.value.source)
      && (r.value.extrema.None? <==> Absent(m, "extrema"))
      && (r.value.datum.None? <==> Absent(m, "datum"))
      && (r.value.timezone.None? <==> Absent(m, "timezone"))
      && (r.value.constituents.None? <==> Absent(m, "constituents"))
      && (r.value.mslM.None? <==> Absent(m, "msl_m"))
    ensures r.Ok? ==>
      var m := j.members;
      && (!Absent(m, "extrema") ==> r.value.extrema.Some? && DecodeExtrema(m["extrema"]) == Ok(r.value.extrema.value))
      && (!Absent(m, "datum") ==> r.value.datum.Some? && m["datum"] == JString(r.value.datum.value))
      && (!Absent(m, "timezone") ==> r.value.timezone.Some? && m["timezone"] == JString(r.value.timezone.value))
      && (!Absent(m, "constituents") ==> r.value.constituents.Some? && DecodeStringList(m["constituents"]) == Ok(r.value.constituents.value))
      && (!Absent(m, "msl_m") ==> r.value.mslM.Some? && AsDouble(m["msl_m"]) == Ok(r.value.mslM.value))
  {
    var m :- AsObject(j);
    var predictions :- Required(m, "predictions", DecodePredictionList);
    var extrema :- Optional(m, "extrema", DecodeExtrema);
    var source :- Required(m, "source", AsString);
    var datum :- Optional(m, "datum", AsString);
    var timezone :- Optional(m, "timezone", AsString);
    var constituents :- Optional(m, "constituents", DecodeStringList);
    var mslM :- Optional(m, "msl_m", AsDouble);
    Ok(TidePredictionsResponse(predictions, extrema, source, datum, timezone, constituents, mslM))
  }

  function DecodeConstituent(j: Json): (r: Result<Constituent, DecodeError>)
    ensures r.Ok? <==>
      && j.JObject?
      && "name" in j.members && j.members["name"].JString?
      && "description" in j.members && j.members["description"].JString?
      && "speed" in j.members && j.members["speed"].JNumber?
    ensures r.Ok? ==>
      && r.value.Id() == j.members["name"].s
      && r.value.description == j.members["description"].s
      && r.value.speed == Finite(j.members["speed"].n)
  {
    var m :- AsObject(j);
    var name :- Required(m, "name", AsString);
    var description :- Required(m, "description", AsString);
    var speed :- Required(m, "speed", AsDouble);
    Ok(Constituent(name, description, speed))
  }

  /** The body of `GET /v1/constituents`: a bare array. */
  function DecodeConstituentList(j: Json): Result<seq<Constituent>, DecodeError> {
    ArrayOf(j, DecodeConstituent)
  }

  function DecodePosition(j: Json): (r: Result<MapPosition, DecodeError>)
    ensures r.Ok? <==>
      && j.JObject?
      && "lat" in j.members && j.members["lat"].JNumber?
      && "lon" in j.members && j.members["lon"].JNumber?
      && "zoom" in j.members && j.members["zoom"].JNumber?
    ensures r.Ok? ==>
      && r.value.lat == Finite(j.members["lat"].n)
      && r.value.lon == Finite(j.members["lon"].n)
      && r.value.zoom == Finite(j.members["zoom"].n)
  {
    var m :- AsObject(j);
    var lat :- Required(m, "lat", AsDouble);
    var lon :- Required(m, "lon", AsDouble);
    var zoom :- Required(m, "zoom", AsDouble);
    Ok(MapPosition(lat, lon, zoom))
  }

  // ---- encoding: each encoder's output decodes back to its input ----

  function EncodePrediction(p: TidePrediction): (r: Result<Json, EncodeError>)
    ensures r.Ok? <==> p.heightM.Finite? && (p.depthM.Some? ==> p.depthM.value.Finite?)
    ensures r.Ok? ==> DecodePrediction(r.value) == Ok(p)
  {
    var height :- EncodeDouble(p.heightM);
    var depth :- EncodeIfPresent(p.depthM, EncodeDouble);
    Ok(JObject(Put(map["time" := JString(p.time), "height_m" := height], "depth_m", depth)))
  }

  function EncodeExtreme(e: TideExtreme): (r: Result<Json, EncodeError>)
    ensures r.Ok? <==> e.heightM.Finite?
    ensures r.Ok? ==> DecodeExtreme(r.value) == Ok(e)
  {
    var height :- EncodeDouble(e.heightM);
    Ok(JObject(map["time" := JString(e.time), "height_m" := height]))
  }

  function EncodeExtrema(x: TideExtrema): (r: Result<Json, EncodeError>)
    ensures r.Ok? ==> DecodeExtrema(r.value) == Ok(x)
  {
    var highs :- EncodeEach(x.highs, EncodeExtreme);
    var lows :- EncodeEach(x.lows, EncodeExtreme);
    EachRoundTrip(x.highs, EncodeExtreme, DecodeExtreme);
    EachRoundTrip(x.lows, EncodeExtreme, DecodeExtreme);
    Ok(JObject(map["highs" := JArray(highs), "lows" := JArray(lows)]))
  }

  function EncodePosition(p: MapPosition): (r: Result<Json, EncodeError>)
    ensures r.Ok? <==> IsFinitePosition(p)
    ensures r.Ok? ==> DecodePosition(r.value) == Ok(p)
  {
    var lat :- EncodeDouble(p.lat);
    var lon :- EncodeDouble(p.lon);
    var zoom :- EncodeDouble(p.zoom);
    Ok(JObject(map["lat" := lat, "lon" := lon, "zoom" := zoom]))
  }

  function EncodePredictionList(ps: seq<TidePrediction>): (r: Result<Json, EncodeError>)
    ensures r.Ok? ==> DecodePredictionList(r.value) == Ok(ps)
  {
    var items :- EncodeEach(ps, EncodePrediction);
    EachRoundTrip(ps, EncodePrediction, DecodePrediction);
    Ok(JArray(items))
  }

  function EncodeStringList(ss: seq<string>): (r: Json)
    ensures DecodeStringList(r) == Ok(ss)
  {
    var items := seq(|ss|, i requires 0 <= i < |ss| => JString(ss[i]));
    var d := DecodeEach(items, AsString);
    assert forall i :: 0 <= i < |items| ==> AsString(items[i]) == Ok(ss[i]);
    assert d.Ok? && d.value == ss;
    JArray(items)
  }

  function EncodeResponse(x: TidePredictionsResponse): (r: Result<Json, EncodeError>)
    ensures r.Ok? ==> DecodeResponse(r.value) == Ok(x)
  {
    var predictions :- EncodePredictionList(x.predictions);
    var extrema :- EncodeIfPresent(x.extrema, EncodeExtrema);
    var mslM :- EncodeIfPresent(x.mslM, EncodeDouble);
    var m := ResponseMembers(x, predictions, extrema, mslM);
    ResponseMembersDecode(x, predictions, extrema, mslM);
    Ok(JObject(m))
  }

  /** The members `EncodeResponse` writes, once the fallible ones are encoded. */
  function ResponseMembers(x: TidePredictionsResponse, predictions: Json, extrema: Option<Json>, mslM: Option<Json>): map<string, Json>
  {
    var m := map["predictions" := predictions, "source" := JString(x.source)];
    var m := Put(m, "extrema", extrema);
    var m := Put(m, "datum", if x.datum.Some? then Some(JString(x.datum.value)) else None);
    var m := Put(m, "timezone", if x.timezone.Some? then Some(JString(x.timezone.value)) else None);
    var m := Put(m, "constituents", if x.constituents.Some? then Some(EncodeStringList(x.constituents.value)) else None);
    Put(m, "msl_m", mslM)
  }

  lemma ResponseMembersDecode(x: TidePredictionsResponse, predictions: Json, extrema: Option<Json>, mslM: Option<Json>)
    requires DecodePredictionList(predictions) == Ok(x.predictions)
    requires EncodeIfPresent(x.extrema, EncodeExtrema) == Ok(extrema)
    requires EncodeIfPresent(x.mslM, EncodeDouble) == Ok(mslM)
    ensures DecodeResponse(JObject(ResponseMembers(x, predictions, extrema, mslM))) == Ok(x)
  {
    var m := ResponseMembers(x, predictions, extrema, mslM);
    RequiredMembersDecode(x, predictions, extrema, mslM);
    OptionalValuesDecode(x, predictions, extrema, mslM);
    OptionalTextsDecode(x, predictions, extrema, mslM);
    DecodeFromMembers(x, m);
  }

  lemma RequiredMembersDecode(x: TidePredictionsResponse, predictions: Json, extrema: Option<Json>, mslM: Option<Json>)
    requires DecodePredictionList(predictions) == Ok(x.predictions)
    ensures var m := ResponseMembers(x, predictions, extrema, mslM);
      && Required(m, "predictions", DecodePredictionList) == Ok(x.predictions)
      && Required(m, "source", AsString) == Ok(x.source)
  {
  }

  lemma OptionalValuesDecode(x: TidePredictionsResponse, predictions: Json, extrema: Option<Json>, mslM: Option<Json>)
    requires EncodeIfPresent(x.extrema, EncodeExtrema) == Ok(extrema)
    requires EncodeIfPresent(x.mslM, EncodeDouble) == Ok(mslM)
    ensures var m := ResponseMembers(x, predictions, extrema, mslM);
      && Optional(m, "extrema", DecodeExtrema) == Ok(x.extrema)
      && Optional(m, "msl_m", AsDouble) == Ok(x.mslM)
  {
    var m := ResponseMembers(x, predictions, extrema, mslM);
    if x.extrema.Some? {
      assert m["extrema"] == EncodeExtrema(x.extrema.value).value;
    }
    if x.mslM.Some? {
      assert m["msl_m"] == EncodeDouble(x.mslM.value).value;
    }
  }

  lemma OptionalTextsDecode(x: TidePredictionsResponse, predictions: Json, extrema: Option<Json>, mslM: Option<Json>)
    ensures var m := ResponseMembers(x, predictions, extrema, mslM);
      && Optional(m, "datum", AsString) == Ok(x.datum)
      && Optional(m, "timezone", AsString) == Ok(x.timezone)
      && Optional(m, "constituents", DecodeStringList) == Ok(x.constituents)
  {
  }

  /** What `DecodeResponse` needs of an object's members to rebuild `x`. */
  lemma DecodeFromMembers(x: TidePredictionsResponse, m: map<string, Json>)
    requires Required(m, "predictions", DecodePredictionList) == Ok(x.predictions)
    requires Optional(m, "extrema", DecodeExtrema) == Ok(x.extrema)
    requires Required(m, "source", AsString) == Ok(x.source)
    requires Optional(m, "datum", AsString) == Ok(x.datum)
    requires Optional(m, "timezone", AsString) == Ok(x.timezone)
    requires Optional(m, "constituents", DecodeStringList) == Ok(x.constituents)
    requires Optional(m, "msl_m", AsDouble) == Ok(x.mslM)
    ensures DecodeResponse(JObject(m)) == Ok(x)
  {
  }

  function EncodeConstituent(c: Constituent): (r: Result<Json, EncodeError>)
    ensures r.Ok? <==> c.speed.Finite?
    ensures r.Ok? ==> DecodeConstituent(r.value) == Ok(c)
  {
    var speed :- EncodeDouble(c.speed);
    Ok(JObject(map["name" := JString(c.name), "description" := JString(c.description), "speed" := speed]))
  }

  // ---- properties ----

  /** An extreme reads only `time` and `height_m`: any other member, a
      `depth_m` included, leaves the result unchanged. */
  lemma ExtremeReadsOnlyTimeAndHeight(m: map<string, Json>, key: string, v: Json)
    requires key != "time" && key != "height_m"
    ensures DecodeExtreme(JObject(m[key := v])) == DecodeExtreme(JObject(m))
  {
  }

  /** A response with only `source` and `predictions` decodes, with every
      optional field `nil`; so does one whose `extrema` is `null`. */
  lemma MinimalResponseDecodes(time: string, height: real, extrema: Option<Json>)
    requires extrema.None? || extrema == Some(JNull)
    ensures
      var point := JObject(map["time" := JString(time), "height_m" := JNumber(height)]);
      var body := Put(map["source" := JString("fes"), "predictions" := JArray([point])], "extrema", extrema);
      DecodeResponse(JObject(body))
        == Ok(TidePredictionsResponse([TidePrediction(time, Finite(height), None)], None, "fes", None, None, None, None))
  {
    var point := JObject(map["time" := JString(time), "height_m" := JNumber(height)]);
    assert DecodePrediction(point) == Ok(TidePrediction(time, Finite(height), None));
    var d := DecodeEach([point], DecodePrediction);
    assert d.Ok? && |d.value| == 1 && d.value[0] == TidePrediction(time, Finite(height), None);
    assert d.value == [TidePrediction(time, Finite(height), None)];
    assert ArrayOf(JArray([point]), DecodePrediction) == d;
    assert DecodePredictionList(JArray([point])) == Ok([TidePrediction(time, Finite(height), None)]);
  }

  /** A two-point series with its extrema, as the ocean endpoint returns it. */
  function OceanBody(): Json {
    var p0 := JObject(map["time" := JString("2025-10-28T09:00:00+09:00"), "height_m" := JNumber(3.024)]);
    var p1 := JObject(map["time" := JString("2025-10-28T09:30:00+09:00"), "height_m" := JNumber(3.039)]);
    var high := JObject(map["time" := JString("2025-10-28T09:42:46+09:00"), "height_m" := JNumber(3.04)]);
    var low := JObject(map["time" := JString("2025-10-28T13:56:58+09:00"), "height_m" := JNumber(2.883)]);
    JObject(map[
      "source" := JString("fes"),
      "datum" := JString("MSL"),
      "timezone" := JString("+09:00"),
      "constituents" := JArray([JString("M2"), JString("S2"), JString("N2")]),
      "predictions" := JArray([p0, p1]),
      "extrema" := JObject(map["highs" := JArray([high]), "lows" := JArray([low])]),
      "msl_m" := JNumber(0.3309021362306339)])
  }

  /** What the ocean body decodes to. */
  function OceanResponse(): TidePredictionsResponse {
    TidePredictionsResponse(
      [TidePrediction("2025-10-28T09:00:00+09:00", Finite(3.024), None),
       TidePrediction("2025-10-28T09:30:00+09:00", Finite(3.039), None)],
      Some(TideExtrema([TideExtreme("2025-10-28T09:42:46+09:00", Finite(3.04))],
                       [TideExtreme("2025-10-28T13:56:58+09:00", Finite(2.883))])),
      "fes", Some("MSL"), Some("+09:00"), Some(["M2", "S2", "N2"]), Some(Finite(0.3309021362306339)))
  }

  /** The ocean body decodes field for field: every optional member present
      is carried over, and `depthM` is `nil` where `depth_m` is missing. */
  lemma OceanResponseDecodes()
    ensures DecodeResponse(OceanBody()) == Ok(OceanResponse())
    ensures OceanResponse().datum == Some("MSL") && OceanResponse().timezone == Some("+09:00")
    ensures |OceanResponse().constituents.value| == 3 && |OceanResponse().predictions| == 2
    ensures OceanResponse().predictions[0].depthM.None?
  {
    OceanSeriesDecodes();
    OceanExtremaDecode();
    OceanTextsDecode();
    DecodeFromMembers(OceanResponse(), OceanBody().members);
  }

  lemma OceanSeriesDecodes()
    ensures Required(OceanBody().members, "predictions", DecodePredictionList) == Ok(OceanResponse().predictions)
  {
    var m := OceanBody().members;
    var p0 := TidePrediction("2025-10-28T09:00:00+09:00", Finite(3.024), None);
    var p1 := TidePrediction("2025-10-28T09:30:00+09:00", Finite(3.039), None);
    var ps := m["predictions"].items;
    assert DecodePrediction(ps[0]) == Ok(p0);
    assert DecodePrediction(ps[1]) == Ok(p1);
    var d := DecodeEach(ps, DecodePrediction);
    assert d.Ok? && |d.value| == 2 && d.value[0] == p0 && d.value[1] == p1;
    assert d.value == [p0, p1];
    assert DecodePredictionList(m["predictions"]) == Ok([p0, p1]);
  }

  lemma OceanExtremaDecode()
    ensures Optional(OceanBody().members, "extrema", DecodeExtrema) == Ok(OceanResponse().extrema)
  {
    var m := OceanBody().members;
    var high := TideExtreme("2025-10-28T09:42:46+09:00", Finite(3.04));
    var low := TideExtreme("2025-10-28T13:56:58+09:00", Finite(2.883));
    var x := m["extrema"].members;
    assert DecodeExtreme(x["highs"].items[0]) == Ok(high);
    assert DecodeExtreme(x["lows"].items[0]) == Ok(low);
    var hs := DecodeEach(x["highs"].items, DecodeExtreme);
    assert hs.Ok? && hs.value == [high];
    var ls := DecodeEach(x["lows"].items, DecodeExtreme);
    assert ls.Ok? && ls.value == [low];
    assert DecodeExtrema(m["extrema"]) == Ok(TideExtrema([high], [low]));
  }

  lemma OceanTextsDecode()
    ensures var m := OceanBody().members;
      && Required(m, "source", AsString) == Ok("fes")
      && Optional(m, "datum", AsString) == Ok(Some("MSL"))
      && Optional(m, "timezone", AsString) == Ok(Some("+09:00"))
      && Optional(m, "constituents", DecodeStringList) == Ok(Some(["M2", "S2", "N2"]))
      && Optional(m, "msl_m", AsDouble) == Ok(Some(Finite(0.3309021362306339)))
  {
    var m := OceanBody().members;
    var cs := DecodeEach(m["constituents"].items, AsString);
    assert cs.Ok? && |cs.value| == 3 && cs.value[0] == "M2" && cs.value[1] == "S2" && cs.value[2] == "N2";
    assert cs.value == ["M2", "S2", "N2"];
    assert DecodeStringList(m["constituents"]) == Ok(["M2", "S2", "N2"]);
  }

  /** A land point: `depth_m` is `null`, so `depthM` is `nil`, and empty
      extrema lists decode to empty lists. */
  lemma LandResponseDecodes(time: string, height: real)
    ensures
      var point := JObject(map["time" := JString(time), "height_m" := JNumber(height), "depth_m" := JNull]);
      var extrema := JObject(map["highs" := JArray([]), "lows" := JArray([])]);
      var body := map["source" := JString("fes"), "predictions" := JArray([point]), "extrema" := extrema];
      DecodeResponse(JObject(body))
        == Ok(TidePredictionsResponse([TidePrediction(time, Finite(height), None)], Some(TideExtrema([], [])), "fes", None, None, None, None))
  {
    var point := JObject(map["time" := JString(time), "height_m" := JNumber(height), "depth_m" := JNull]);
    assert DecodePrediction(point) == Ok(TidePrediction(time, Finite(height), None));
    var d := DecodeEach([point], DecodePrediction);
    assert d.Ok? && |d.value| == 1 && d.value[0] == TidePrediction(time, Finite(height), None);
    assert d.value == [TidePrediction(time, Finite(height), None)];
    assert ArrayOf(JArray([point]), DecodePrediction) == d;
    assert DecodePredictionList(JArray([point])) == Ok([TidePrediction(time, Finite(height), None)]);
  }
}
