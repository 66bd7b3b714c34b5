/** Properties of the view model over whole runs: the state stays
    well-formed, a burst of moves leaves one live lookup, a cancelled fetch
    never shows its result, a restart resumes from the last name found,
    and where the program lets a cancelled cycle still fetch. */
module ViewModelProperties {
  import opened Outcomes
  import opened Floats
  import opened TideModels
  import opened TidesApiClient
  import GeocodingService
  import opened LastPositionStorage
  import TidesMapView
  import opened TidesViewModel

  lemma StepPreservesValid(vm: ViewModel, e: Event)
    requires Valid(vm)
    ensures Valid(Step(vm, e))
  {
    match e
    case GeocodeCompleted(id, reply) => GeocodeCompletedPreservesValid(vm, id, reply);
    case SaveCompleted(id) => SaveCompletedPreservesValid(vm, id);
    case PositionChanged(p) => PositionChangePreservesValid(vm, p);
    case FetchCompleted(t, x) => FetchCompletedPreservesValid(vm, t, x);
    case _ =>
  }

  lemma PositionChangePreservesValid(vm: ViewModel, p: MapPosition)
    requires Valid(vm)
    ensures Valid(HandlePositionChange(vm, p))
  {
  }

  lemma FetchCompletedPreservesValid(vm: ViewModel, t: nat, x: Exchange)
    requires Valid(vm)
    ensures Valid(OnFetchCompleted(vm, t, x))
  {
  }

  lemma GeocodeCompletedPreservesValid(vm: ViewModel, id: nat, reply: GeocodingService.GeocodeReply)
    requires Valid(vm)
    ensures Valid(OnGeocodeCompleted(vm, id, reply))
  {
  }

  lemma SaveCompletedPreservesValid(vm: ViewModel, id: nat)
    requires Valid(vm)
    ensures Valid(OnSaveCompleted(vm, id))
  {
  }

  lemma {:induction false} RunPreservesValid(vm: ViewModel, events: seq<Event>)
    requires Valid(vm)
    ensures Valid(Run(vm, events))
    decreases |events|
  {
    if |events| > 0 {
      StepPreservesValid(vm, events[0]);
      RunPreservesValid(Step(vm, events[0]), events[1..]);
    }
  }

  /** Every state the program can reach from `init` is well-formed; in
      particular no error is shown while the spinner is. */
  lemma ReachableStatesAreValid(defaults: Defaults, today: Date, events: seq<Event>)
    ensures Valid(Run(Init(defaults, today), events))
    ensures Run(Init(defaults, today), events).loading ==> Run(Init(defaults, today), events).error.None?
  {
    RunPreservesValid(Init(defaults, today), events);
  }

  /** A burst of position changes with nothing else in between. */
  function ChangeAll(vm: ViewModel, ps: seq<MapPosition>): ViewModel
    decreases |ps|
  {
    if |ps| == 0 then vm else ChangeAll(HandlePositionChange(vm, ps[0]), ps[1..])
  }

  /** A burst leaves every cycle it found in place, unchanged, and (when it
      holds at least one move) cancels each of them but the init cycle. */
  lemma {:induction false} ChangeAllKeepsEarlierCycles(vm: ViewModel, ps: seq<MapPosition>)
    ensures ChangeAll(vm, ps).debounceGen == vm.debounceGen + |ps|
    ensures forall id :: id in vm.cycles && id <= vm.debounceGen ==>
      id in ChangeAll(vm, ps).cycles && ChangeAll(vm, ps).cycles[id] == vm.cycles[id]
    ensures |ps| > 0 ==> forall id :: id in vm.cycles && id != InitCycle && id <= vm.debounceGen ==>
      CycleCancelled(ChangeAll(vm, ps), id)
    decreases |ps|
  {
    if |ps| > 0 {
      ChangeAllKeepsEarlierCycles(HandlePositionChange(vm, ps[0]), ps[1..]);
    }
  }

  /** A burst shows its last position with "Loading..." and touches no fetch. */
  lemma {:induction false} BurstShowsLastPosition(vm: ViewModel, ps: seq<MapPosition>)
    requires |ps| > 0
    ensures var r := ChangeAll(vm, ps);
      && r.debounceGen == vm.debounceGen + |ps|
      && Shown(r) == Shown(vm).(mapPosition := ps[|ps| - 1], locationName := LoadingName)
      && r.fetchGen == vm.fetchGen && r.fetches == vm.fetches
    decreases |ps|
  {
    var vm1 := HandlePositionChange(vm, ps[0]);
    if |ps| > 1 {
      BurstShowsLastPosition(vm1, ps[1..]);
      assert ChangeAll(vm1, ps[1..]) == ChangeAll(vm, ps);
    } else {
      assert ChangeAll(vm1, ps[1..]) == vm1;
    }
  }

  /** Each move of a burst leaves its own sleeping cycle for its position. */
  lemma {:induction false} BurstCyclesSleep(vm: ViewModel, ps: seq<MapPosition>)
    ensures var r := ChangeAll(vm, ps);
      && r.debounceGen == vm.debounceGen + |ps|
      && forall id :: vm.debounceGen < id <= r.debounceGen ==>
           id in r.cycles && r.cycles[id] == Cycle(ps[id - vm.debounceGen - 1], Sleeping)
    decreases |ps|
  {
    if |ps| > 0 {
      var vm1 := HandlePositionChange(vm, ps[0]);
      BurstCyclesSleep(vm1, ps[1..]);
      ChangeAllKeepsEarlierCycles(vm1, ps[1..]);
      var r := ChangeAll(vm1, ps[1..]);
      assert r == ChangeAll(vm, ps);
      forall id | vm.debounceGen < id <= r.debounceGen
        ensures id in r.cycles && r.cycles[id] == Cycle(ps[id - vm.debounceGen - 1], Sleeping)
      {
        if id != vm1.debounceGen {
          assert ps[1..][id - vm1.debounceGen - 1] == ps[id - vm.debounceGen - 1];
        }
      }
    }
  }

  /** After a burst, each move has its own sleeping cycle for its own
      position, every one but the last is cancelled, and the display shows
      the last position with "Loading...". The burst touches no fetch. */
  lemma BurstLeavesOneLiveCycle(vm: ViewModel, ps: seq<MapPosition>)
    requires |ps| > 0
    ensures var r := ChangeAll(vm, ps);
      && r.debounceGen == vm.debounceGen + |ps|
      && Shown(r) == Shown(vm).(mapPosition := ps[|ps| - 1], locationName := LoadingName)
      && (forall id :: vm.debounceGen < id <= r.debounceGen ==>
            id in r.cycles && r.cycles[id] == Cycle(ps[id - vm.debounceGen - 1], Sleeping))
      && (forall id :: vm.debounceGen < id < r.debounceGen ==> CycleCancelled(r, id))
      && !CycleCancelled(r, r.debounceGen)
      && r.fetchGen == vm.fetchGen && r.fetches == vm.fetches
  {
    BurstShowsLastPosition(vm, ps);
    BurstCyclesSleep(vm, ps);
  }

  /** When the sleeps of a burst end, only the last move's cycle goes on
      to geocode, and it geocodes the last position. */
  lemma OnlyLastOfBurstGeocodes(vm: ViewModel, ps: seq<MapPosition>, key: string)
    requires |ps| > 0
    ensures var r := ChangeAll(vm, ps);
      && (forall id :: vm.debounceGen < id <= r.debounceGen ==>
            (id in OnDebounceElapsed(r, id, key).cycles <==> id == r.debounceGen))
      && r.debounceGen in OnDebounceElapsed(r, r.debounceGen, key).cycles
      && OnDebounceElapsed(r, r.debounceGen, key).cycles[r.debounceGen]
           == Cycle(ps[|ps| - 1], Geocoding(key, GeocodingService.CachedName(r.geocodeCache, key)))
  {
    BurstLeavesOneLiveCycle(vm, ps);
  }

  /** A fetch that a later one cancelled publishes nothing, whether it
      completes before or after the later one. */
  lemma StaleCompletionIsInvisible(vm: ViewModel, older: nat, x: Exchange, y: Exchange)
    requires older in vm.fetches && FetchCancelled(vm, older)
    ensures var newer := OnFetchCompleted(vm, vm.fetchGen, y);
      Shown(OnFetchCompleted(newer, older, x)) == Shown(newer)
    ensures Shown(OnFetchCompleted(OnFetchCompleted(vm, older, x), vm.fetchGen, y)) == Shown(OnFetchCompleted(vm, vm.fetchGen, y))
  {
  }

  /** After a live lookup that found a name and the save that follows it,
      restarting the app starts at the position looked up, with the name
      found; before the save completes, the stored state is untouched. */
  lemma RestartResumesLastLookup(vm: ViewModel, id: nat, reply: GeocodingService.GeocodeReply, today: Date)
    requires id in vm.cycles && vm.cycles[id].phase.Geocoding? && !CycleCancelled(vm, id)
    requires IsFinitePosition(vm.cycles[id].position)
    requires GeocodingService.CompleteLookup(vm.geocodeCache, vm.cycles[id].phase.key, vm.cycles[id].phase.hit, reply).0.Ok?
    ensures var named := OnGeocodeCompleted(vm, id, reply);
      var r := OnSaveCompleted(named, id);
      && named.defaults == vm.defaults
      && named.locationName == GeocodingService.CompleteLookup(vm.geocodeCache, vm.cycles[id].phase.key, vm.cycles[id].phase.hit, reply).0.value
      && Init(r.defaults, today).mapPosition == vm.cycles[id].position
      && Init(r.defaults, today).locationName == named.locationName
  {
    var name := GeocodingService.CompleteLookup(vm.geocodeCache, vm.cycles[id].phase.key, vm.cycles[id].phase.hit, reply).0.value;
    var named := OnGeocodeCompleted(vm, id, reply);
    assert named.cycles[id] == Cycle(vm.cycles[id].position, Saving(name));
    LoadAfterSave(vm.defaults, vm.cycles[id].position, name);
  }

  /** The same camera change reported twice starts one lookup cycle. */
  lemma RepeatedCameraChangeStartsOneCycle(vm: ViewModel, camera: TidesMapView.CameraPosition, log2OfRatio: Double -> Double)
    requires camera.RegionCamera? && !camera.region.centerLatitude.NaN? && !camera.region.centerLongitude.NaN?
    ensures var once := OnCameraChange(vm, camera, log2OfRatio);
      OnCameraChange(once, camera, log2OfRatio) == once
  {
    TidesMapView.RepeatedChangeNotifiesOnce(vm.mapPosition, camera, log2OfRatio);
  }

  /** Picking a date neither cancels nor starts anything; the new date is
      used by the next fetch a cycle requests. */
  lemma DateChangeDoesNotFetch(vm: ViewModel, d: Date)
    ensures var r := Step(vm, DateSelected(d));
      && r.fetches == vm.fetches && r.fetchGen == vm.fetchGen
      && r.cycles == vm.cycles && r.debounceGen == vm.debounceGen
      && Shown(r) == Shown(vm).(selectedDate := d)
  {
  }

  const First := MapPosition(Finite(35.0), Finite(139.0), Finite(10.0))
  const Second := MapPosition(Finite(34.0), Finite(135.0), Finite(10.0))

  /** Two moves, each past its sleep: both cycles call the geocoder,
      both missing the empty cache, and the first is cancelled. */
  lemma TwoCyclesGeocode(today: Date, k1: string, k2: string)
    ensures
      var s2 := Step(Step(Init(map[], today), PositionChanged(First)), DebounceElapsed(1, k1));
      var s4 := Step(Step(s2, PositionChanged(Second)), DebounceElapsed(2, k2));
      && s4.debounceGen == 2 && s4.mapPosition == Second && s4.selectedDate == today
      && 1 in s4.cycles && s4.cycles[1] == Cycle(First, Geocoding(k1, None))
      && 2 in s4.cycles && s4.cycles[2] == Cycle(Second, Geocoding(k2, None))
      && s4.geocodeCache == map[] && s4.fetchGen == 0 && s4.fetches == map[]
  {
    var s0 := Init(map[], today);
    assert s0.geocodeCache == map[] && s0.fetchGen == 0 && s0.fetches == map[];
    var s2 := OnDebounceElapsed(HandlePositionChange(s0, First), 1, k1);
    assert s2.cycles[1] == Cycle(First, Geocoding(k1, None));
  }

  /** The live cycle finds its name: it is shown and cached, and the
      cycle awaits its save before fetching anything. */
  lemma LiveCycleNamed(vm: ViewModel, k1: string, k2: string, found: GeocodingService.GeocodeReply)
    requires vm.debounceGen == 2 && vm.mapPosition == Second
    requires 1 in vm.cycles && vm.cycles[1] == Cycle(First, Geocoding(k1, None))
    requires 2 in vm.cycles && vm.cycles[2] == Cycle(Second, Geocoding(k2, None))
    requires vm.geocodeCache == map[] && vm.fetchGen == 0 && vm.fetches == map[]
    requires found == GeocodingService.Placemarks([GeocodingService.Placemark(None, Some("Shinagawa"), None, None)])
    ensures var s5 := Step(vm, GeocodeCompleted(2, found));
      && s5.locationName == "Shinagawa" && s5.mapPosition == Second && s5.debounceGen == 2
      && s5.selectedDate == vm.selectedDate
      && 1 in s5.cycles && s5.cycles[1] == Cycle(First, Geocoding(k1, None))
      && 2 in s5.cycles && s5.cycles[2] == Cycle(Second, Saving("Shinagawa"))
      && s5.geocodeCache == map[k2 := "Shinagawa"]
      && s5.fetchGen == 0 && s5.fetches == map[]
  {
    assert GeocodingService.CompleteLookup(vm.geocodeCache, k2, None, found).0 == Ok("Shinagawa");
  }

  /** The live cycle's save completes: the position and name are stored
      and the fetch for its position is requested. */
  lemma LiveCycleSaved(vm: ViewModel, k1: string)
    requires vm.debounceGen == 2 && vm.fetchGen == 0 && vm.fetches == map[]
    requires 1 in vm.cycles && vm.cycles[1] == Cycle(First, Geocoding(k1, None))
    requires 2 in vm.cycles && vm.cycles[2] == Cycle(Second, Saving("Shinagawa"))
    ensures var s := Step(vm, SaveCompleted(2));
      && Shown(s) == Shown(vm) && s.debounceGen == 2
      && s.defaults == Save(vm.defaults, Second, "Shinagawa")
      && 1 in s.cycles && s.cycles[1] == Cycle(First, Geocoding(k1, None))
      && s.fetchGen == 1 && s.fetches == map[1 := FetchTask(Second, vm.selectedDate, Created)]
  {
  }

  /** The cancelled cycle's geocoder fails. It missed the cache when it
      was called, so it fails even if its key has been cached since: the
      name is overwritten and a fetch for the old position supersedes the
      live one. */
  lemma CancelledCycleFails(vm: ViewModel, k1: string, cause: Cause)
    requires vm.debounceGen == 2
    requires 1 in vm.cycles && vm.cycles[1] == Cycle(First, Geocoding(k1, None))
    requires vm.fetchGen == 1 && 1 in vm.fetches
    ensures var s6 := Step(vm, GeocodeCompleted(1, GeocodingService.GeocodeFailed(cause)));
      && s6.mapPosition == vm.mapPosition
      && s6.locationName == UnknownLocationName
      && s6.fetchGen == 2
      && 1 in s6.fetches && s6.fetches[1] == vm.fetches[1]
      && 2 in s6.fetches && s6.fetches[2] == FetchTask(First, vm.selectedDate, Created)
  {
  }

  /** A cancelled cycle still fetches. Move to `First` and let its sleep
      end, then move to `Second` and let that cycle find "Shinagawa" and
      request its fetch. The cancelled first cycle's geocoder then fails,
      whether or not its key is the one just cached: it overwrites the
      name with "Unknown Location" and requests a fetch for `First`, which
      cancels the fetch for `Second`. */
  lemma CancelledCycleStillFetches(today: Date, k1: string, k2: string, cause: Cause)
    ensures
      var found := GeocodingService.Placemarks([GeocodingService.Placemark(None, Some("Shinagawa"), None, None)]);
      var s1 := Step(Init(map[], today), PositionChanged(First));
      var s2 := Step(s1, DebounceElapsed(1, k1));
      var s3 := Step(s2, PositionChanged(Second));
      var s4 := Step(s3, DebounceElapsed(2, k2));
      var s5 := Step(Step(s4, GeocodeCompleted(2, found)), SaveCompleted(2));
      var s6 := Step(s5, GeocodeCompleted(1, GeocodingService.GeocodeFailed(cause)));
      && s5.locationName == "Shinagawa"
      && s6.mapPosition == Second
      && s6.locationName == UnknownLocationName
      && s6.fetchGen == 2
      && 1 in s6.fetches && s6.fetches[1] == FetchTask(Second, today, Created)
      && 2 in s6.fetches && s6.fetches[2] == FetchTask(First, today, Created)
  {
    var found := GeocodingService.Placemarks([GeocodingService.Placemark(None, Some("Shinagawa"), None, None)]);
    TwoCyclesGeocode(today, k1, k2);
    var s4 := Step(Step(Step(Step(Init(map[], today), PositionChanged(First)), DebounceElapsed(1, k1)), PositionChanged(Second)), DebounceElapsed(2, k2));
    LiveCycleNamed(s4, k1, k2, found);
    var named := Step(s4, GeocodeCompleted(2, found));
    LiveCycleSaved(named, k1);
    var s5 := Step(named, SaveCompleted(2));
    CancelledCycleFails(s5, k1, cause);
  }

  /** `init`'s task names the default position, and the user moves while
      its save is pending. When the save returns, the task fetches the
      position moved to, not the one it named, while "Loading..." is shown
      for the new cycle; the name it found is still the one stored. */
  lemma StartupFetchFollowsLaterMove(today: Date, k0: string)
    ensures
      var found := GeocodingService.Placemarks([GeocodingService.Placemark(None, Some("Shinagawa"), None, None)]);
      var s1 := Step(Init(map[], today), InitTaskStarted(k0));
      var s2 := Step(s1, GeocodeCompleted(InitCycle, found));
      var s3 := Step(s2, PositionChanged(Second));
      var s4 := Step(s3, SaveCompleted(InitCycle));
      && s2.locationName == "Shinagawa"
      && s4.mapPosition == Second && s4.locationName == LoadingName
      && s4.defaults == Save(map[], DefaultPosition, "Shinagawa")
      && s4.fetchGen == 1 && s4.fetches == map[1 := FetchTask(Second, today, Created)]
      && 1 in s4.cycles && s4.cycles[1] == Cycle(Second, Sleeping)
  {
    var found := GeocodingService.Placemarks([GeocodingService.Placemark(None, Some("Shinagawa"), None, None)]);
    var s1 := OnInitTaskStarted(Init(map[], today), k0);
    assert s1.cycles[InitCycle] == Cycle(DefaultPosition, Geocoding(k0, None));
    assert GeocodingService.CompleteLookup(s1.geocodeCache, k0, None, found).0 == Ok("Shinagawa");
    var s2 := OnGeocodeCompleted(s1, InitCycle, found);
    assert s2.cycles[InitCycle] == Cycle(DefaultPosition, Saving("Shinagawa"));
    var s3 := HandlePositionChange(s2, Second);
    assert s3.cycles[InitCycle] == Cycle(DefaultPosition, Saving("Shinagawa"));
  }

  /** Both fetch tasks start: both await their reply and loading shows. */
  lemma BothFetchesBegin(vm: ViewModel)
    requires vm.fetchGen == 2
    requires 1 in vm.fetches && vm.fetches[1].phase == Created
    requires 2 in vm.fetches && vm.fetches[2].phase == Created
    ensures var t2 := Step(Step(vm, FetchBegan(1)), FetchBegan(2));
      && t2.fetchGen == 2 && t2.loading && t2.mapPosition == vm.mapPosition
      && 1 in t2.fetches && t2.fetches[1].phase == Awaiting
      && 2 in t2.fetches && t2.fetches[2].phase == Awaiting
  {
    var t1 := OnFetchBegan(vm, 1);
    assert 2 in t1.fetches && t1.fetches[2].phase == Created;
  }

  /** The superseded task's reply leaves the display and the newest task alone. */
  lemma SupersededReplyIgnored(t2: ViewModel, y: Exchange)
    requires t2.fetchGen == 2 && 2 in t2.fetches && t2.fetches[2].phase == Awaiting
    ensures var t3 := Step(t2, FetchCompleted(1, y));
      && Shown(t3) == Shown(t2) && t3.fetchGen == 2
      && 2 in t3.fetches && t3.fetches[2].phase == Awaiting
  {
  }

  /** The two fetches start in order and may finish in either order. What
      is shown at the end is the same both ways, and it comes from the
      newest fetch alone: its predictions and extrema, or its error with
      empty data, over whatever position the map has moved to since. */
  lemma LatestFetchPublishesEvenIfStale(vm: ViewModel, y: Exchange, x: Exchange)
    requires vm.fetchGen == 2
    requires 1 in vm.fetches && vm.fetches[1].phase == Created
    requires 2 in vm.fetches && vm.fetches[2].phase == Created
    ensures
      var t2 := Step(Step(vm, FetchBegan(1)), FetchBegan(2));
      var t3 := Step(t2, FetchCompleted(1, y));
      var t4 := Step(t3, FetchCompleted(2, x));
      var u3 := Step(t2, FetchCompleted(2, x));
      var u4 := Step(u3, FetchCompleted(1, y));
      && Shown(t3) == Shown(t2) && t3.loading
      && Shown(u4) == Shown(u3)
      && Shown(t4) == Shown(u4)
      && t4.mapPosition == vm.mapPosition && !t4.loading
      && (FetchTidePredictions(x).Ok? ==>
            t4.predictions == FetchTidePredictions(x).value.predictions && t4.error.None?)
      && (FetchTidePredictions(x).Err? ==>
            t4.predictions == [] && t4.error == Some(ErrorDescription(FetchTidePredictions(x).error)))
  {
    BothFetchesBegin(vm);
    var t2 := Step(Step(vm, FetchBegan(1)), FetchBegan(2));
    assert t2.error.None?;
    SupersededReplyIgnored(t2, y);
    NewestFirstThenSuperseded(t2, x, y);
  }

  /** The newest fetch finishing first publishes; the superseded one
      finishing after it changes nothing shown. */
  lemma NewestFirstThenSuperseded(t2: ViewModel, x: Exchange, y: Exchange)
    requires t2.fetchGen == 2
    requires 1 in t2.fetches && t2.fetches[1].phase == Awaiting
    requires 2 in t2.fetches && t2.fetches[2].phase == Awaiting
    ensures
      var u3 := Step(t2, FetchCompleted(2, x));
      var u4 := Step(u3, FetchCompleted(1, y));
      Shown(u4) == Shown(u3) && !u3.loading
  {
    var u3 := OnFetchCompleted(t2, 2, x);
    assert 1 in u3.fetches && u3.fetches[1].phase == Awaiting;
  }
}
