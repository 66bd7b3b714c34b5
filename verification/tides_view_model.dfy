/** The view model that ties the map to the tide data. Swift tasks become
    explicit records, and their cancellation becomes generation counters:
    a debounced cycle is cancelled once a later position change has
    started another, and a fetch task is cancelled once a later fetch has
    been requested. Each point where another task can run in between is
    an event, so the model says what happens at each step without
    reasoning about schedules. */
module TidesViewModel {
  import opened Outcomes
  import opened Floats
  import opened TideModels
  import opened TidesApiClient
  import GeocodingService
  import opened LastPositionStorage
  import TidesMapView

  /** An instant; calendar arithmetic on it is not modelled. */
  datatype Date = Date(instant: int)

  const LoadingName := "Loading..."
  const UnknownLocationName := "Unknown Location"

  /** The task `init` starts gets this id. Nothing ever cancels it: it is
      not stored in `debouncedPositionTask`. Position changes number their
      cycles from 1. */
  const InitCycle: nat := 0

  /** Where a lookup cycle is suspended: `init`'s task not yet started
      (it reads `mapPosition` only when it starts), in the 500 ms sleep,
      awaiting the geocoder for `key` (with `hit` the cached name the
      lookup found when it was called), or awaiting the storage actor's
      save of the name it found. Once a cycle has asked for the tide fetch
      it has nothing left to publish and is dropped. */
  datatype Phase = Starting | Sleeping | Geocoding(key: string, hit: Option<string>) | Saving(name: string)

  /** A lookup cycle and the position it captured. */
  datatype Cycle = Cycle(position: MapPosition, phase: Phase)

  /** A fetch task: created but not yet running, or awaiting the API. */
  datatype FetchPhase = Created | Awaiting

  datatype FetchTask = FetchTask(position: MapPosition, date: Date, phase: FetchPhase)

  datatype ViewModel = ViewModel(
    mapPosition: MapPosition,
    predictions: seq<TidePrediction>,
    highs: seq<TideExtreme>,
    lows: seq<TideExtreme>,
    loading: bool,
    error: Option<string>,
    locationName: string,
    selectedDate: Date,
    debounceGen: nat,
    fetchGen: nat,
    cycles: map<nat, Cycle>,
    fetches: map<nat, FetchTask>,
    defaults: Defaults,
    geocodeCache: GeocodingService.Cache)

  /** The `@Published` state the views observe. */
  datatype Display = Display(
    mapPosition: MapPosition,
    predictions: seq<TidePrediction>,
    highs: seq<TideExtreme>,
    lows: seq<TideExtreme>,
    loading: bool,
    error: Option<string>,
    locationName: string,
    selectedDate: Date)

  function Shown(vm: ViewModel): Display {
    Display(vm.mapPosition, vm.predictions, vm.highs, vm.lows, vm.loading, vm.error, vm.locationName, vm.selectedDate)
  }

  /** `Task.isCancelled` inside lookup cycle `id`. */
  predicate CycleCancelled(vm: ViewModel, id: nat) {
    id != InitCycle && id != vm.debounceGen
  }

  /** `Task.isCancelled` inside fetch task `t`. */
  predicate FetchCancelled(vm: ViewModel, t: nat) {
    t != vm.fetchGen
  }

  /** The resumption points of the program, and the date picker. */
  datatype Event =
    | PositionChanged(position: MapPosition)
    | InitTaskStarted(cacheKey: string)
    | DebounceElapsed(cycle: nat, cacheKey: string)
    | GeocodeCompleted(cycle: nat, reply: GeocodingService.GeocodeReply)
    | SaveCompleted(cycle: nat)
    | FetchBegan(token: nat)
    | FetchCompleted(token: nat, exchange: Exchange)
    | DateSelected(date: Date)

  /** Well-formed states: the published flags agree, every task's id was
      handed out already, and the newest cycle is for the shown position. */
  predicate Valid(vm: ViewModel) {
    && (vm.loading ==> vm.error.None?)
    && (forall id :: id in vm.cycles ==> id <= vm.debounceGen)
    && (forall t :: t in vm.fetches ==> 0 < t <= vm.fetchGen)
    && (vm.debounceGen != InitCycle && vm.debounceGen in vm.cycles ==>
          vm.cycles[vm.debounceGen].position == vm.mapPosition)
  }

  /** The state `init` leaves: the saved position and name when the store
      has them, the default position otherwise; then one task that looks
      up the name of that position (even a restored one) and fetches. */
  function Init(defaults: Defaults, today: Date): (vm: ViewModel)
    ensures Load(defaults).Some? ==>
      vm.mapPosition == Load(defaults).value.position && vm.locationName == Load(defaults).value.locationName
    ensures Load(defaults).None? ==> vm.mapPosition == DefaultPosition && vm.locationName == LoadingName
    ensures vm.cycles == map[InitCycle := Cycle(vm.mapPosition, Starting)] && vm.fetches == map[]
    ensures vm.predictions == [] && vm.highs == [] && vm.lows == [] && !vm.loading && vm.error.None?
    ensures vm.selectedDate == today && vm.defaults == defaults
    ensures vm.geocodeCache == map[] && vm.debounceGen == 0 && vm.fetchGen == 0
    ensures Valid(vm)
  {
    var position := if Load(defaults).Some? then Load(defaults).value.position else DefaultPosition;
    var name := if Load(defaults).Some? then Load(defaults).value.locationName else LoadingName;
    ViewModel(position, [], [], [], false, None, name, today, 0, 0,
              map[InitCycle := Cycle(position, Starting)], map[], defaults, map[])
  }

  /** `init`'s task starts running and captures the position shown now,
      which a position change may already have replaced; it calls the
      geocoding service, whose cache check happens now, under `key`. */
  function OnInitTaskStarted(vm: ViewModel, key: string): (r: ViewModel)
    ensures InitCycle in vm.cycles && vm.cycles[InitCycle].phase == Starting ==>
      r.cycles == vm.cycles[InitCycle := Cycle(vm.mapPosition, Geocoding(key, GeocodingService.CachedName(vm.geocodeCache, key)))]
    ensures !(InitCycle in vm.cycles && vm.cycles[InitCycle].phase == Starting) ==> r == vm
    ensures Shown(r) == Shown(vm) && r.debounceGen == vm.debounceGen
    ensures r.fetchGen == vm.fetchGen && r.fetches == vm.fetches
    ensures r.defaults == vm.defaults && r.geocodeCache == vm.geocodeCache
  {
    if InitCycle in vm.cycles && vm.cycles[InitCycle].phase == Starting then
      vm.(cycles := vm.cycles[InitCycle := Cycle(vm.mapPosition, Geocoding(key, GeocodingService.CachedName(vm.geocodeCache, key)))])
    else vm
  }

  /** `handlePositionChange`: shows the position and "Loading..." at once,
      cancels the previous cycle and starts a sleeping one. */
  function HandlePositionChange(vm: ViewModel, p: MapPosition): (r: ViewModel)
    ensures r.mapPosition == p && r.locationName == LoadingName
    ensures Shown(r) == Shown(vm).(mapPosition := p, locationName := LoadingName)
    ensures r.debounceGen == vm.debounceGen + 1 && !CycleCancelled(r, r.debounceGen)
    ensures r.debounceGen in r.cycles && r.cycles[r.debounceGen] == Cycle(p, Sleeping)
    ensures forall id :: id in vm.cycles && id != r.debounceGen ==> id in r.cycles && r.cycles[id] == vm.cycles[id]
    ensures r.cycles.Keys == vm.cycles.Keys + {r.debounceGen}
    ensures forall id :: id in vm.cycles && id != InitCycle && id <= vm.debounceGen ==> CycleCancelled(r, id)
    ensures r.fetchGen == vm.fetchGen && r.fetches == vm.fetches
    ensures r.defaults == vm.defaults && r.geocodeCache == vm.geocodeCache
  {
    var id := vm.debounceGen + 1;
    vm.(mapPosition := p, locationName := LoadingName, debounceGen := id,
        cycles := vm.cycles[id := Cycle(p, Sleeping)])
  }

  /** The 500 ms sleep of cycle `id` ends: the cycle stops if it was
      cancelled, and otherwise calls the geocoding service under `key`,
      which checks its cache at once. */
  function OnDebounceElapsed(vm: ViewModel, id: nat, key: string): (r: ViewModel)
    ensures Shown(r) == Shown(vm)
    ensures id in vm.cycles && vm.cycles[id].phase == Sleeping ==>
      && (id in r.cycles <==> !CycleCancelled(vm, id))
      && (id in r.cycles ==> r.cycles[id] == vm.cycles[id].(phase := Geocoding(key, GeocodingService.CachedName(vm.geocodeCache, key))))
    ensures forall other :: other != id ==> (other in r.cycles <==> other in vm.cycles)
    ensures forall other :: other != id && other in r.cycles ==> r.cycles[other] == vm.cycles[other]
    ensures r.debounceGen == vm.debounceGen && r.fetchGen == vm.fetchGen && r.fetches == vm.fetches
    ensures r.defaults == vm.defaults && r.geocodeCache == vm.geocodeCache
  {
    if id in vm.cycles && vm.cycles[id].phase == Sleeping then
      if CycleCancelled(vm, id) then vm.(cycles := vm.cycles - {id})
      else vm.(cycles := vm.cycles[id := vm.cycles[id].(phase := Geocoding(key, GeocodingService.CachedName(vm.geocodeCache, key)))])
    else vm
  }

  /** `fetchTideData`, up to its first suspension: cancels the current
      fetch task by handing out a new token, and creates the new task. */
  function RequestFetch(vm: ViewModel, position: MapPosition, date: Date): (r: ViewModel)
    ensures r.fetchGen == vm.fetchGen + 1
    ensures r.fetches == vm.fetches[r.fetchGen := FetchTask(position, date, Created)]
    ensures forall t :: t in vm.fetches && t <= vm.fetchGen ==> FetchCancelled(r, t)
    ensures Shown(r) == Shown(vm)
    ensures r.cycles == vm.cycles && r.debounceGen == vm.debounceGen
    ensures r.defaults == vm.defaults && r.geocodeCache == vm.geocodeCache
  {
    var t := vm.fetchGen + 1;
    vm.(fetchGen := t, fetches := vm.fetches[t := FetchTask(position, date, Created)])
  }

  /** Cycle `id` has finished its lookup and calls `fetchTideData`, which
      reads `selectedDate` now and, in `init`'s task, `mapPosition` now
      too; a debounced cycle fetches the position it captured. The cycle
      is then done. */
  function FinishCycle(vm: ViewModel, id: nat): (r: ViewModel)
    requires id in vm.cycles
    ensures r.cycles == vm.cycles - {id}
    ensures r.fetchGen == vm.fetchGen + 1
    ensures r.fetches == vm.fetches[r.fetchGen := FetchTask(if id == InitCycle then vm.mapPosition else vm.cycles[id].position, vm.selectedDate, Created)]
    ensures Shown(r) == Shown(vm) && r.debounceGen == vm.debounceGen
    ensures r.defaults == vm.defaults && r.geocodeCache == vm.geocodeCache
  {
    var fetchFor := if id == InitCycle then vm.mapPosition else vm.cycles[id].position;
    RequestFetch(vm.(cycles := vm.cycles - {id}), fetchFor, vm.selectedDate)
  }

  /** The geocoder answers cycle `id` (a cache hit at the call answers
      with the cached name). A found name is shown only if the cycle is not
      cancelled, and the cycle then awaits its save. A cancelled cycle's
      name, or a failure, goes straight on to the tide fetch; failure
      writes "Unknown Location" without a cancellation check. */
  function OnGeocodeCompleted(vm: ViewModel, id: nat, reply: GeocodingService.GeocodeReply): (r: ViewModel)
    ensures !(id in vm.cycles && vm.cycles[id].phase.Geocoding?) ==> r == vm
    ensures id in vm.cycles && vm.cycles[id].phase.Geocoding? ==>
      var c := vm.cycles[id];
      var (result, cache) := GeocodingService.CompleteLookup(vm.geocodeCache, c.phase.key, c.phase.hit, reply);
      && r.geocodeCache == cache
      && (result.Ok? && !CycleCancelled(vm, id) ==>
            && r.locationName == result.value
            && r.cycles == vm.cycles[id := c.(phase := Saving(result.value))]
            && r.fetchGen == vm.fetchGen && r.fetches == vm.fetches)
      && (result.Ok? && CycleCancelled(vm, id) ==> r.locationName == vm.locationName)
      && (result.Err? ==> r.locationName == UnknownLocationName)
      && (!(result.Ok? && !CycleCancelled(vm, id)) ==>
            && r.cycles == vm.cycles - {id}
            && r.fetchGen == vm.fetchGen + 1
            && r.fetches == vm.fetches[r.fetchGen := FetchTask(if id == InitCycle then vm.mapPosition else c.position, vm.selectedDate, Created)])
      && Shown(r) == Shown(vm).(locationName := r.locationName)
    ensures r.defaults == vm.defaults && r.debounceGen == vm.debounceGen
  {
    if !(id in vm.cycles && vm.cycles[id].phase.Geocoding?) then vm
    else
      var c := vm.cycles[id];
      var (result, cache) := GeocodingService.CompleteLookup(vm.geocodeCache, c.phase.key, c.phase.hit, reply);
      match result
      case Ok(name) =>
        if CycleCancelled(vm, id) then FinishCycle(vm.(geocodeCache := cache), id)
        else vm.(locationName := name, geocodeCache := cache, cycles := vm.cycles[id := c.(phase := Saving(name))])
      case Err(_) => FinishCycle(vm.(locationName := UnknownLocationName, geocodeCache := cache), id)
  }

  /** The storage actor has saved the name cycle `id` found, with the
      position the cycle captured; back on the main actor the cycle goes
      on to the tide fetch, reading the state as it is by then. */
  function OnSaveCompleted(vm: ViewModel, id: nat): (r: ViewModel)
    ensures !(id in vm.cycles && vm.cycles[id].phase.Saving?) ==> r == vm
    ensures id in vm.cycles && vm.cycles[id].phase.Saving? ==>
      var c := vm.cycles[id];
      && r.defaults == Save(vm.defaults, c.position, c.phase.name)
      && r.cycles == vm.cycles - {id}
      && r.fetchGen == vm.fetchGen + 1
      && r.fetches == vm.fetches[r.fetchGen := FetchTask(if id == InitCycle then vm.mapPosition else c.position, vm.selectedDate, Created)]
    ensures Shown(r) == Shown(vm)
    ensures r.debounceGen == vm.debounceGen && r.geocodeCache == vm.geocodeCache
  {
    if !(id in vm.cycles && vm.cycles[id].phase.Saving?) then vm
    else
      var c := vm.cycles[id];
      FinishCycle(vm.(defaults := Save(vm.defaults, c.position, c.phase.name)), id)
  }

  /** Fetch task `t` starts running. It sets `loading` and clears `error`
      before any cancellation check, so even a cancelled task does this. */
  function OnFetchBegan(vm: ViewModel, t: nat): (r: ViewModel)
    ensures t in vm.fetches && vm.fetches[t].phase == Created ==>
      && r.loading && r.error.None?
      && Shown(r) == Shown(vm).(loading := true, error := None)
      && r.fetches == vm.fetches[t := vm.fetches[t].(phase := Awaiting)]
    ensures !(t in vm.fetches && vm.fetches[t].phase == Created) ==> r == vm
    ensures r.fetchGen == vm.fetchGen && r.cycles == vm.cycles && r.debounceGen == vm.debounceGen
    ensures r.defaults == vm.defaults && r.geocodeCache == vm.geocodeCache
  {
    if t in vm.fetches && vm.fetches[t].phase == Created then
      vm.(loading := true, error := None, fetches := vm.fetches[t := vm.fetches[t].(phase := Awaiting)])
    else vm
  }

  /** The API answers fetch task `t`. A cancelled task publishes nothing;
      otherwise success replaces the three series together and failure
      empties them and shows the error's description. */
  function OnFetchCompleted(vm: ViewModel, t: nat, x: Exchange): (r: ViewModel)
    ensures !(t in vm.fetches && vm.fetches[t].phase == Awaiting) ==> r == vm
    ensures t in vm.fetches && vm.fetches[t].phase == Awaiting ==> r.fetches == vm.fetches - {t}
    ensures FetchCancelled(vm, t) ==> Shown(r) == Shown(vm)
    ensures t in vm.fetches && vm.fetches[t].phase == Awaiting && !FetchCancelled(vm, t) ==>
      && !r.loading
      && r.mapPosition == vm.mapPosition && r.locationName == vm.locationName && r.selectedDate == vm.selectedDate
      && match FetchTidePredictions(x)
         case Ok(resp) =>
           && r.predictions == resp.predictions
           && r.highs == (if resp.extrema.Some? then resp.extrema.value.highs else [])
           && r.lows == (if resp.extrema.Some? then resp.extrema.value.lows else [])
           && r.error == vm.error
         case Err(e) =>
           r.predictions == [] && r.highs == [] && r.lows == [] && r.error == Some(ErrorDescription(e))
    ensures r.fetchGen == vm.fetchGen && r.cycles == vm.cycles && r.debounceGen == vm.debounceGen
    ensures r.defaults == vm.defaults && r.geocodeCache == vm.geocodeCache
  {
    if !(t in vm.fetches && vm.fetches[t].phase == Awaiting) then vm
    else
      var rest := vm.(fetches := vm.fetches - {t});
      if FetchCancelled(vm, t) then rest
      else
        match FetchTidePredictions(x)
        case Ok(resp) =>
          rest.(predictions := resp.predictions,
                highs := if resp.extrema.Some? then resp.extrema.value.highs else [],
                lows := if resp.extrema.Some? then resp.extrema.value.lows else [],
                loading := false)
        case Err(e) =>
          rest.(error := Some(ErrorDescription(e)), predictions := [], highs := [], lows := [], loading := false)
  }

  function Step(vm: ViewModel, e: Event): ViewModel {
    match e
    case PositionChanged(p) => HandlePositionChange(vm, p)
    case InitTaskStarted(key) => OnInitTaskStarted(vm, key)
    case DebounceElapsed(id, key) => OnDebounceElapsed(vm, id, key)
    case GeocodeCompleted(id, reply) => OnGeocodeCompleted(vm, id, reply)
    case SaveCompleted(id) => OnSaveCompleted(vm, id)
    case FetchBegan(t) => OnFetchBegan(vm, t)
    case FetchCompleted(t, x) => OnFetchCompleted(vm, t, x)
    case DateSelected(d) => vm.(selectedDate := d)
  }

  function Run(vm: ViewModel, events: seq<Event>): ViewModel
    decreases |events|
  {
    if |events| == 0 then vm else Run(Step(vm, events[0]), events[1..])
  }

  /** The map view reports a camera change; when it notifies, the view
      model handles the new position. */
  function OnCameraChange(vm: ViewModel, camera: TidesMapView.CameraPosition, log2OfRatio: Double -> Double): (r: ViewModel)
    ensures
      var out := TidesMapView.HandleCameraChange(vm.mapPosition, camera, log2OfRatio);
      && (out.notified.None? ==> r == vm)
      && (out.notified.Some? ==> r == HandlePositionChange(vm, out.notified.value))
  {
    var out := TidesMapView.HandleCameraChange(vm.mapPosition, camera, log2OfRatio);
    match out.notified
    case None => vm.(mapPosition := out.binding)
    case Some(p) => HandlePositionChange(vm.(mapPosition := out.binding), p)
  }
}
