/** Reverse geocoding with a memo table. The geocoder (CLGeocoder) is not
    modelled: a lookup takes its reply as input. The cache key is the
    coordinates printed with `%.4f`; that formatting is not modelled either,
    so callers pass the key. */
module GeocodingService {
  import opened Outcomes
  import opened Text

  /** The fields of a `CLPlacemark` the name is built from. */
  datatype Placemark = Placemark(
    subLocality: Option<string>,
    locality: Option<string>,
    administrativeArea: Option<string>,
    country: Option<string>)

  /** What `reverseGeocodeLocation` gave back: placemarks, or a thrown error. */
  datatype GeocodeReply = Placemarks(found: seq<Placemark>) | GeocodeFailed(cause: Cause)

  /** Cache key to location name. */
  type Cache = map<string, string>

  const UnknownLocation := "Unknown Location"

  function Present(x: Option<string>): seq<string> {
    if x.Some? then [x.value] else []
  }

  /** The parts of the name: sub-locality and locality when either is
      there; otherwise the administrative area; otherwise the country. */
  function Components(p: Placemark): (parts: seq<string>)
    ensures p.subLocality.Some? || p.locality.Some? ==> parts == Present(p.subLocality) + Present(p.locality)
    ensures p.subLocality.None? && p.locality.None? ==>
      parts == if p.administrativeArea.Some? then [p.administrativeArea.value] else Present(p.country)
  {
    var parts := Present(p.subLocality) + Present(p.locality);
    var parts := if |parts| == 0 then Present(p.administrativeArea) else parts;
    if |parts| == 0 then Present(p.country) else parts
  }

  /** The name shown for a placemark. */
  function LocationName(p: Placemark): (name: string)
    ensures p.subLocality.Some? && p.locality.Some? ==> name == p.subLocality.value + ", " + p.locality.value
    ensures p.subLocality.Some? && p.locality.None? ==> name == p.subLocality.value
    ensures p.subLocality.None? && p.locality.Some? ==> name == p.locality.value
    ensures p.subLocality.None? && p.locality.None? && p.administrativeArea.Some? ==> name == p.administrativeArea.value
    ensures p.subLocality.None? && p.locality.None? && p.administrativeArea.None? && p.country.Some? ==> name == p.country.value
    ensures p == Placemark(None, None, None, None) ==> name == UnknownLocation
  {
    var parts := Components(p);
    if |parts| == 0 then UnknownLocation else Join(parts, ", ")
  }

  /** The cache check `getLocationName` makes when it is called, before
      it awaits the geocoder. */
  function CachedName(cache: Cache, key: string): (hit: Option<string>)
    ensures hit.Some? <==> key in cache
    ensures hit.Some? ==> hit.value == cache[key]
  {
    if key in cache then Some(cache[key]) else None
  }

  /** `getLocationName` when the geocoder's reply arrives. `hit` is what
      the cache held for `key` at the call; on a miss the reply decides,
      even if another lookup has cached `key` since, and a found name is
      written into the cache as it stands now. */
  function CompleteLookup(cache: Cache, key: string, hit: Option<string>, reply: GeocodeReply): (out: (Result<string, Cause>, Cache))
    ensures hit.Some? ==> out == (Ok(hit.value), cache)
    ensures hit.None? && reply.GeocodeFailed? ==> out == (Err(reply.cause), cache)
    ensures hit.None? && reply == Placemarks([]) ==> out == (Ok(UnknownLocation), cache)
    ensures hit.None? && reply.Placemarks? && |reply.found| > 0 ==>
      var name := LocationName(reply.found[0]);
      out == (Ok(name), cache[key := name])
  {
    match hit
    case Some(name) => (Ok(name), cache)
    case None =>
      match reply
      case GeocodeFailed(c) => (Err(c), cache)
      case Placemarks(found) =>
        if |found| == 0 then (Ok(UnknownLocation), cache)
        else
          var name := LocationName(found[0]);
          (Ok(name), cache[key := name])
  }

  /** `getLocationName` with no other lookup in between its call and the
      reply: the name for `key`, and the cache afterwards. */
  function GetLocationName(cache: Cache, key: string, reply: GeocodeReply): (out: (Result<string, Cause>, Cache))
    ensures key in cache ==> out == (Ok(cache[key]), cache)
    ensures key !in cache && reply.GeocodeFailed? ==> out == (Err(reply.cause), cache)
    ensures key !in cache && reply == Placemarks([]) ==> out == (Ok(UnknownLocation), cache)
    ensures key !in cache && reply.Placemarks? && |reply.found| > 0 ==>
      var name := LocationName(reply.found[0]);
      out == (Ok(name), cache[key := name])
  {
    CompleteLookup(cache, key, CachedName(cache, key), reply)
  }

  /** `clearCache`. */
  function ClearCache(cache: Cache): (cleared: Cache)
    ensures forall key :: key !in cleared
  {
    map[]
  }

  // ---- properties ----

  /** On a cache hit the geocoder's reply is never looked at. */
  lemma HitIgnoresGeocoder(cache: Cache, key: string, r1: GeocodeReply, r2: GeocodeReply)
    requires key in cache
    ensures GetLocationName(cache, key, r1) == GetLocationName(cache, key, r2)
  {
  }

  /** After a lookup that found a placemark, the same key answers with the
      same name whatever the geocoder would say. */
  lemma RepeatLookupIsCached(cache: Cache, key: string, reply: GeocodeReply, later: GeocodeReply)
    requires key in cache || (reply.Placemarks? && |reply.found| > 0)
    ensures
      var (first, cache') := GetLocationName(cache, key, reply);
      first.Ok? && GetLocationName(cache', key, later) == (first, cache')
  {
  }

  /** Lookups only ever add to the cache, and only under their own key. */
  lemma LookupOnlyAddsItsKey(cache: Cache, key: string, reply: GeocodeReply)
    ensures
      var cache' := GetLocationName(cache, key, reply).1;
      && cache'.Keys <= cache.Keys + {key}
      && forall k :: k in cache ==> k in cache' && cache'[k] == cache[k]
  {
  }

  /** The administrative area is consulted only when both sub-locality and
      locality are missing. */
  lemma AdministrativeAreaIsFallback(p: Placemark, area: Option<string>)
    requires p.subLocality.Some? || p.locality.Some?
    ensures LocationName(p.(administrativeArea := area)) == LocationName(p)
  {
  }

  /** The country is consulted only when the three finer fields are all
      missing. */
  lemma CountryIsLastFallback(p: Placemark, country: Option<string>)
    requires p.subLocality.Some? || p.locality.Some? || p.administrativeArea.Some?
    ensures LocationName(p.(country := country)) == LocationName(p)
  {
  }

  /** A lookup that missed the cache at its call keeps the geocoder's
      answer even when the key was cached while it waited: a failure is
      still thrown. */
  lemma MissAtCallIgnoresLaterCaching(cache: Cache, key: string, cause: Cause)
    requires key in cache
    ensures CompleteLookup(cache, key, None, GeocodeFailed(cause)) == (Err(cause), cache)
    ensures GetLocationName(cache, key, GeocodeFailed(cause)) == (Ok(cache[key]), cache)
  {
  }

  /** After `clearCache` every key goes to the geocoder again. */
  lemma ClearedCacheConsultsGeocoder(cache: Cache, key: string, reply: GeocodeReply)
    requires reply.GeocodeFailed?
    ensures GetLocationName(ClearCache(cache), key, reply).0 == Err(reply.cause)
  {
  }
}
