/** What Swift's synthesised `Codable` conformances do with a JSON tree:
    the keyed-container reads used by `JSONDecoder` and the writes used by
    `JSONEncoder` with its default strategies. */
module Coding {
  import opened Outcomes
  import opened Floats
  import opened JsonTree

  /** The `DecodingError` cases a decode can throw; the type names are the
      ones Swift reports. */
  datatype DecodeError =
    | KeyNotFound(key: string)
    | ValueNotFound(typeName: string)
    | TypeMismatch(typeName: string)
    | DataCorrupted

  /** `EncodingError.invalidValue`: the default float strategy refuses
      NaN and the infinities. */
  datatype EncodeError = InvalidFloat(value: Double)

  function AsString(j: Json): (r: Result<string, DecodeError>)
    ensures r.Ok? <==> j.JString?
    ensures r.Ok? ==> j == JString(r.value)
  {
    match j
    case JString(s) => Ok(s)
    case JNull => Err(ValueNotFound("String"))
    case _ => Err(TypeMismatch("String"))
  }

  function AsDouble(j: Json): (r: Result<Double, DecodeError>)
    ensures r.Ok? <==> j.JNumber?
    ensures r.Ok? ==> r.value.Finite? && j == JNumber(r.value.value)
  {
    match j
    case JNumber(n) => Ok(Finite(n))
    case JNull => Err(ValueNotFound("Double"))
    case _ => Err(TypeMismatch("Double"))
  }

  function AsObject(j: Json): (r: Result<map<string, Json>, DecodeError>)
    ensures r.Ok? <==> j.JObject?
    ensures r.Ok? ==> j == JObject(r.value)
  {
    match j
    case JObject(m) => Ok(m)
    case JNull => Err(ValueNotFound("Dictionary"))
    case _ => Err(TypeMismatch("Dictionary"))
  }

  function AsArray(j: Json): (r: Result<seq<Json>, DecodeError>)
    ensures r.Ok? <==> j.JArray?
    ensures r.Ok? ==> j == JArray(r.value)
  {
    match j
    case JArray(items) => Ok(items)
    case JNull => Err(ValueNotFound("Array"))
    case _ => Err(TypeMismatch("Array"))
  }

  /** `container.decode(T.self, forKey: key)`: the member must be there and
      must not be `null`. */
  function Required<T>(m: map<string, Json>, key: string, decode: Json -> Result<T, DecodeError>): (r: Result<T, DecodeError>)
    ensures key !in m ==> r == Err(KeyNotFound(key))
    ensures key in m ==> r == decode(m[key])
  {
    if key in m then decode(m[key]) else Err(KeyNotFound(key))
  }

  /** `container.decodeIfPresent(T.self, forKey: key)`: a missing member
      and an explicit `null` both give `nil`. */
  function Optional<T>(m: map<string, Json>, key: string, decode: Json -> Result<T, DecodeError>): (r: Result<Option<T>, DecodeError>)
    ensures Absent(m, key) ==> r == Ok(None)
    ensures !Absent(m, key) ==> (r.Ok? <==> decode(m[key]).Ok?)
    ensures !Absent(m, key) && r.Ok? ==> r.value.Some? && decode(m[key]) == Ok(r.value.value)
  {
    if Absent(m, key) then Ok(None)
    else
      var v :- decode(m[key]);
      Ok(Some(v))
  }

  /** Decoding `[T]`: every element in order; the first failure is thrown. */
  function DecodeEach<T>(items: seq<Json>, decode: Json -> Result<T, DecodeError>): (r: Result<seq<T>, DecodeError>)
    ensures r.Ok? <==> forall i :: 0 <= i < |items| ==> decode(items[i]).Ok?
    ensures r.Ok? ==> |r.value| == |items|
    ensures r.Ok? ==> forall i :: 0 <= i < |items| ==> decode(items[i]) == Ok(r.value[i])
    ensures r.Err? ==> exists i :: 0 <= i < |items| && decode(items[i]) == Err(r.error)
  {
    if |items| == 0 then Ok([])
    else
      var head :- decode(items[0]);
      var tail :- DecodeEach(items[1..], decode);
      Ok([head] + tail)
  }

  /** Decoding an array-valued member. */
  function ArrayOf<T>(j: Json, decode: Json -> Result<T, DecodeError>): (r: Result<seq<T>, DecodeError>)
    ensures r.Ok? ==> j.JArray?
    ensures j.JArray? ==> r == DecodeEach(j.items, decode)
  {
    var items :- AsArray(j);
    DecodeEach(items, decode)
  }

  /** `encode(_: Double)` with the default non-conforming-float strategy. */
  function EncodeDouble(d: Double): (r: Result<Json, EncodeError>)
    ensures r.Ok? <==> d.Finite?
    ensures r.Ok? ==> AsDouble(r.value) == Ok(d)
  {
    if d.Finite? then Ok(JNumber(d.value)) else Err(InvalidFloat(d))
  }

  /** The value `encodeIfPresent` writes for an optional, if any. */
  function EncodeIfPresent<T>(x: Option<T>, encode: T -> Result<Json, EncodeError>): (r: Result<Option<Json>, EncodeError>)
    ensures r.Ok? <==> (x.Some? ==> encode(x.value).Ok?)
    ensures r.Ok? ==> (r.value.Some? <==> x.Some?)
    ensures r.Ok? && x.Some? ==> encode(x.value) == Ok(r.value.value)
  {
    match x
    case None => Ok(None)
    case Some(v) =>
      var j :- encode(v);
      Ok(Some(j))
  }

  /** Writes `key` only when there is a value: the effect of `encodeIfPresent`. */
  function Put(m: map<string, Json>, key: string, v: Option<Json>): (r: map<string, Json>)
    ensures v.None? ==> r == m
    ensures v.Some? ==> r == m[key := v.value]
  {
    match v
    case None => m
    case Some(j) => m[key := j]
  }

  /** Encoding `[T]`: every element in order; the first failure is thrown. */
  function EncodeEach<T>(xs: seq<T>, encode: T -> Result<Json, EncodeError>): (r: Result<seq<Json>, EncodeError>)
    ensures r.Ok? <==> forall i :: 0 <= i < |xs| ==> encode(xs[i]).Ok?
    ensures r.Ok? ==> |r.value| == |xs|
    ensures r.Ok? ==> forall i :: 0 <= i < |xs| ==> encode(xs[i]) == Ok(r.value[i])
  {
    if |xs| == 0 then Ok([])
    else
      var head :- encode(xs[0]);
      var tail :- EncodeEach(xs[1..], encode);
      Ok([head] + tail)
  }

  /** An array encodes and decodes back to itself when each element does. */
  lemma EachRoundTrip<T>(xs: seq<T>, encode: T -> Result<Json, EncodeError>, decode: Json -> Result<T, DecodeError>)
    requires forall x :: encode(x).Ok? ==> decode(encode(x).value) == Ok(x)
    requires EncodeEach(xs, encode).Ok?
    ensures DecodeEach(EncodeEach(xs, encode).value, decode) == Ok(xs)
  {
    var js := EncodeEach(xs, encode).value;
    var r := DecodeEach(js, decode);
    forall i | 0 <= i < |js|
      ensures decode(js[i]) == Ok(xs[i])
    {
      assert encode(xs[i]) == Ok(js[i]);
    }
    assert r.Ok?;
    assert r.value == xs;
  }
}
