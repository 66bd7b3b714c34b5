/** The map view's handling of a camera change: it turns a region into a
    position, drops it when it equals the bound position, and otherwise
    updates the binding and notifies its owner. */
module TidesMapView {
  import opened Outcomes
  import opened Floats
  import opened TideModels

  datatype Span = Span(latitudeDelta: Double, longitudeDelta: Double)

  datatype Region = Region(centerLatitude: Double, centerLongitude: Double, span: Span)

  /** A `MapCameraPosition`: a region, or one of its other forms (automatic,
      user location, item, rect, camera), which carry no region. */
  datatype CameraPosition = RegionCamera(region: Region) | OtherCamera

  /** What a camera change did: the bound position afterwards, and the
      position the `onPositionChange` callback was called with, if it was. */
  datatype CameraOutcome = CameraOutcome(binding: MapPosition, notified: Option<MapPosition>)

  /** `calculateZoom(from:)`: `max(0, min(20, log2(360.0 / latitudeDelta)))`.
      `log2OfRatio` stands for the floating-point `log2(360.0 / d)`, left
      uninterpreted: whatever it yields, NaN and infinities included, the
      zoom is a finite value in [0, 20]. */
  function CalculateZoom(span: Span, log2OfRatio: Double -> Double): (zoom: Double)
    ensures Within(zoom, 0.0, 20.0)
    ensures Within(log2OfRatio(span.latitudeDelta), 0.0, 20.0) ==> zoom == log2OfRatio(span.latitudeDelta)
    ensures var raw := log2OfRatio(span.latitudeDelta);
      raw.NaN? || raw.PosInf? || (raw.Finite? && raw.value > 20.0) ==> zoom == Finite(20.0)
    ensures var raw := log2OfRatio(span.latitudeDelta);
      raw.NegInf? || (raw.Finite? && raw.value < 0.0) ==> zoom == Finite(0.0)
  {
    Max(Finite(0.0), Min(Finite(20.0), log2OfRatio(span.latitudeDelta)))
  }

  /** The position a region stands for. */
  function RegionPosition(region: Region, log2OfRatio: Double -> Double): (p: MapPosition)
    ensures p.lat == region.centerLatitude && p.lon == region.centerLongitude
    ensures Within(p.zoom, 0.0, 20.0)
    ensures p.zoom == CalculateZoom(region.span, log2OfRatio)
  {
    MapPosition(region.centerLatitude, region.centerLongitude, CalculateZoom(region.span, log2OfRatio))
  }

  /** `handleCameraChange`. */
  function HandleCameraChange(bound: MapPosition, camera: CameraPosition, log2OfRatio: Double -> Double): (out: CameraOutcome)
    ensures camera.OtherCamera? ==> out == CameraOutcome(bound, None)
    ensures out.notified.Some? ==> out.binding == out.notified.value
    ensures out.notified.Some? ==> camera.RegionCamera? && out.notified.value == RegionPosition(camera.region, log2OfRatio)
    ensures out.notified.Some? <==> camera.RegionCamera? && !SamePosition(RegionPosition(camera.region, log2OfRatio), bound)
    ensures out.notified.None? ==> out.binding == bound
    ensures camera.RegionCamera? && out.notified.Some? ==>
      && out.binding.lat == camera.region.centerLatitude
      && out.binding.lon == camera.region.centerLongitude
      && Within(out.binding.zoom, 0.0, 20.0)
  {
    match camera
    case OtherCamera => CameraOutcome(bound, None)
    case RegionCamera(region) =>
      var next := RegionPosition(region, log2OfRatio);
      if !SamePosition(next, bound) then CameraOutcome(next, Some(next)) else CameraOutcome(bound, None)
  }

  // ---- properties ----

  /** The same camera change twice notifies at most once: the first
      updates the binding, so the second finds it equal. */
  lemma RepeatedChangeNotifiesOnce(bound: MapPosition, camera: CameraPosition, log2OfRatio: Double -> Double)
    requires camera.RegionCamera? && !camera.region.centerLatitude.NaN? && !camera.region.centerLongitude.NaN?
    ensures
      var first := HandleCameraChange(bound, camera, log2OfRatio);
      HandleCameraChange(first.binding, camera, log2OfRatio).notified.None?
  {
  }

  /** A region whose centre is NaN differs from every position under the
      app's `==`, so each such change notifies again. */
  lemma NaNCentreAlwaysNotifies(bound: MapPosition, region: Region, log2OfRatio: Double -> Double)
    requires region.centerLatitude.NaN?
    ensures HandleCameraChange(bound, RegionCamera(region), log2OfRatio).notified.Some?
  {
  }
}
