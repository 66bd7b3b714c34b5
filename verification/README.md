# Tides: a Dafny model

This project models the core of the Tides app. The app shows tide predictions for the place at
the centre of a map. The model covers:

- the Codable data models the app exchanges with the tides service (`TideModels`), on an
  abstract JSON tree (`JsonTree`) with the decoding and encoding rules of Swift's synthesized
  `Codable` (`Coding`);
- the API client, which turns one HTTP exchange into a result or a `TidesAPIError`
  (`TidesApiClient`);
- the reverse-geocoding service with its name cache (`GeocodingService`);
- the last-position storage on top of a user-defaults dictionary (`LastPositionStorage`);
- the map view's camera handling and zoom clamp (`TidesMapView`);
- the view model, modelled as an event-driven state machine (`TidesViewModel`), with properties
  proved about it (`ViewModelProperties`);
- the four localization scripts: `verify_translations`, `check_missing_translations`,
  `fix_norwegian_locale` and `add_translations`. They share their string-catalog model in
  `Xcstrings`.

Swift doubles are modelled as `Floats.Double`: a finite real, either infinity, or NaN. This is
enough to model where the app depends on them. `JSONEncoder` refuses non-finite numbers, so
saving such a position stores nothing. The zoom clamp has its own behaviour on NaN and on the
infinities. Map positions compare with IEEE equality, so a NaN centre never equals the stored
binding.

### Concurrency as events

The view model's `Task`s are modelled as numbered tasks inside the state:

- Debounce cycles are numbered `1..debounceGen`. The task that `init` starts is cycle `0`. That
  task is never stored in `debouncedPositionTask`, so it is never cancelled.
- Fetch tasks carry tokens `1..fetchGen`. A fetch task is cancelled exactly when a newer
  `fetchTideData` call has replaced it.

Each point where another task can run in between is an `Event`:

- the start-up task starting, which is when it reads the map position and checks the geocode
  cache;
- a sleep finishing, after which the cycle checks the geocode cache;
- a geocode reply arriving;
- the storage actor's save of a found name returning, after which the cycle calls
  `fetchTideData`;
- a fetch task starting;
- a fetch reply arriving.

The geocoding service checks its cache when it is called, so a cycle records whether the key was
cached at that moment; the reply event completes the lookup from that record. A cycle that
found a name waits in a `Saving` phase until its save returns, so a position change or a date
change can come in between. The fetch that follows reads `selectedDate`, and in the start-up
task `mapPosition`, when the save returns (`ViewModelProperties.StartupFetchFollowsLaterMove`).

`Step` applies one event. `Run` applies a sequence of them. The properties hold for every
interleaving of these events.

### Behaviour of the code worth knowing

- `handleCameraChange` forwards a camera change whenever the computed position differs from the
  bound one, by any amount (`TidesMapView.swift:59`).
- Every camera change is handled the same way, the first one after start-up included.
- The view model has no handler for a change of `selectedDate`. Choosing a date fetches nothing
  until the next position change (`ViewModelProperties.DateChangeDoesNotFetch`).
- The day that is fetched is computed in the device's current time zone.
- The start-up task always geocodes, even when a saved name was restored.
- A debounce cycle checks `Task.isCancelled` once, after its sleep (`TidesViewModel.swift:62`).
  A cycle cancelled while geocoding still asks for tide data after the reply arrives
  (`ViewModelProperties.CancelledCycleStillFetches`).
- A fetch task sets `loading` and clears `error` when it starts, before any cancellation check.
- A geocoding failure sets "Unknown Location" without checking for cancellation.

## Model

| member | source | states |
|---|---|---|
| Floats.Equal | Sources/Core/Models/TideModels.swift:134-147 | Double equality as Swift's `==` computes it: equal values only, and NaN is never equal to anything, itself included |
| Text.DigitsRoundTrip | Sources/Core/API/TidesAPIClient.swift:20-21 | reading back the decimal rendering of a natural number gives that number |
| Text.DecimalRoundTrip | Sources/Core/API/TidesAPIClient.swift:20-21 | reading back the decimal rendering of an integer status code, sign included, gives that code |
| Text.DecimalInjective | Sources/Core/API/TidesAPIClient.swift:20-21 | two different status codes never render to the same text |
| Coding.AsString | Sources/Core/Models/TideModels.swift:4-30 | a JSON value decodes as a String exactly when it is a JSON string, and the result is that string |
| Coding.AsDouble | Sources/Core/Models/TideModels.swift:4-30 | a JSON value decodes as a Double exactly when it is a JSON number, and the result is that finite number |
| Coding.AsObject | Sources/Core/Models/TideModels.swift:80-116 | a keyed container opens exactly on a JSON object and exposes its members |
| Coding.AsArray | Sources/Core/Models/TideModels.swift:58-66 | an unkeyed container opens exactly on a JSON array and exposes its items |
| Coding.Required | Sources/Core/Models/TideModels.swift:80-97 | a required property fails with key-not-found when the member is missing, and otherwise decodes the member's value |
| Coding.Optional | Sources/Core/Models/TideModels.swift:80-97 | an optional property is nil when the member is missing or null; otherwise it succeeds exactly when the value decodes, and holds that value |
| Coding.DecodeEach | Sources/Core/Models/TideModels.swift:58-66 | an array decodes exactly when every item decodes; the result keeps length and order; a failure is the failure of some item |
| Coding.ArrayOf | Sources/Core/Models/TideModels.swift:58-66 | an array-typed property decodes only from a JSON array, item by item |
| Coding.EncodeDouble | Sources/Core/Models/TideModels.swift:4-30 | a Double encodes exactly when it is finite, and decoding the number gives it back |
| Coding.EncodeIfPresent | Sources/Core/Models/TideModels.swift:80-97 | nil is left out and a present value is encoded; this fails only when the value fails to encode |
| Coding.Put | Sources/Core/Models/TideModels.swift:80-97 | an omitted member leaves the object unchanged; a present member is set under its key |
| Coding.EncodeEach | Sources/Core/Models/TideModels.swift:58-66 | an array encodes exactly when every element encodes, keeping length and order |
| Coding.EachRoundTrip | Sources/Core/Models/TideModels.swift:58-66 | when every element round-trips, decoding the encoded array gives the array back |
| TideModels.SamePosition | Sources/Core/Models/TideModels.swift:134-147 | two map positions are equal under the synthesized Equatable exactly when the values agree and none is NaN |
| TideModels.DecodePrediction | Sources/Core/Models/TideModels.swift:4-30 | a prediction decodes exactly when `time` is a string, `height_m` is a number and `depth_m` is missing, null or a number; the fields are those values |
| TideModels.DecodeExtreme | Sources/Core/Models/TideModels.swift:33-55 | an extreme decodes exactly when `time` is a string and `height_m` is a number; the fields are those values |
| TideModels.DecodeExtrema | Sources/Core/Models/TideModels.swift:58-66 | extrema decode only from an object whose `highs` and `lows` are arrays of extremes |
| TideModels.DecodeResponse | Sources/Core/Models/TideModels.swift:80-116 | a response decodes only when `predictions` and `source` are present. Each field is the decoded member under its coding key (`msl_m` for mslM). An optional field is nil exactly when its member is missing or null, and otherwise holds that member's decoded value |
| TideModels.DecodeConstituent | Sources/Core/Models/TideModels.swift:119-131 | a constituent decodes exactly when name and description are strings and speed is a number; its name, description and speed are those values, and its identity is its name |
| TideModels.DecodePosition | Sources/Core/Models/TideModels.swift:134-147 | a map position decodes exactly when lat, lon and zoom are numbers; its fields are those (finite) numbers |
| TideModels.EncodePrediction | Sources/Core/Models/TideModels.swift:4-30 | a prediction encodes exactly when its heights are finite, and it decodes back to itself |
| TideModels.EncodeExtreme | Sources/Core/Models/TideModels.swift:33-55 | an extreme encodes exactly when its height is finite, and it decodes back to itself |
| TideModels.EncodeExtrema | Sources/Core/Models/TideModels.swift:58-66 | encoded extrema decode back to themselves |
| TideModels.EncodePosition | Sources/Core/Models/TideModels.swift:134-147 | a map position encodes exactly when it is finite, and it decodes back to itself |
| TideModels.EncodePredictionList | Sources/Core/Models/TideModels.swift:80-116 | an encoded prediction list decodes back to itself |
| TideModels.EncodeStringList | Sources/Core/Models/TideModels.swift:80-116 | an encoded list of constituent names decodes back to itself |
| TideModels.EncodeResponse | Sources/Core/Models/TideModels.swift:80-116 | an encoded response decodes back to itself, optional members included |
| TideModels.ResponseMembersDecode | Sources/Core/Models/TideModels.swift:80-116 | the object built from a response's encoded members decodes to that response |
| TideModels.RequiredMembersDecode | Sources/Core/Models/TideModels.swift:80-116 | in that object, `predictions` and `source` decode to the response's fields |
| TideModels.OptionalValuesDecode | Sources/Core/Models/TideModels.swift:80-116 | in that object, the encoded `extrema` and `msl_m` decode to the response's optional fields |
| TideModels.OptionalTextsDecode | Sources/Core/Models/TideModels.swift:80-116 | in that object, `datum`, `timezone` and `constituents` decode to the response's optional fields |
| TideModels.DecodeFromMembers | Sources/Core/Models/TideModels.swift:80-116 | a response decodes from any object whose members decode one by one to its fields |
| TideModels.EncodeConstituent | Sources/Core/Models/TideModels.swift:119-131 | a constituent encodes exactly when its speed is finite, and it decodes back to itself |
| TideModels.ExtremeReadsOnlyTimeAndHeight | Sources/Core/Models/TideModels.swift:33-55 | members other than `time` and `height_m` never change how an extreme decodes; its id is not read from JSON |
| TideModels.MinimalResponseDecodes | Sources/Core/Models/TideModels.swift:80-116 | a response with only predictions and source decodes, even when `extrema` is null |
| TideModels.OceanResponseDecodes | Tests/TidesCoreTests/TideModelsTests.swift:5-71 | the ocean sample decodes to source "fes", datum "MSL", timezone "+09:00", three constituents, msl_m 0.3309021362306339, two predictions without depth, and one high and one low |
| TideModels.LandResponseDecodes | Sources/Core/Models/TideModels.swift:80-116 | a response with `depth_m` null in a prediction decodes, with no depth |
| TidesApiClient.ErrorDescription | Sources/Core/API/TidesAPIClient.swift:12-25 | the two fixed texts for invalidURL and invalidResponse. The prefixes "Network error: ", "HTTP error " and "Failed to decode response: " each begin the description of exactly one kind of error, followed by the cause's description, or the status code, ": " and the message |
| TidesApiClient.PredictionQuery | Sources/Core/API/TidesAPIClient.swift:57-64 | the prediction query carries lat, lon, start, end, interval and source in that order, defaulting to 30m and fes |
| TidesApiClient.PredictionQueryReadsBack | Sources/Core/API/TidesAPIClient.swift:57-64 | a server reading the query finds under each of the six names the value passed for it, and finds no other name |
| TidesApiClient.Classify | Sources/Core/API/TidesAPIClient.swift:43-99 | a call succeeds exactly on status 200 with a body that decodes, and then yields the decoded value. A URL that cannot be built gives invalidURL. A transport error passes through, wrapped as networkError unless it is already a TidesAPIError. A non-HTTP response gives invalidResponse. Any other status gives httpError with the status and body text. A bad body on 200 gives decodingError |
| TidesApiClient.CheckHealth | Sources/Core/API/TidesAPIClient.swift:139-154 | the service is healthy exactly when the health request returns HTTP 200; every error gives false |
| TidesApiClient.ErrorStatusIgnoresJson | Sources/Core/API/TidesAPIClient.swift:79-82 | a status other than 200 gives the same httpError whatever the body holds |
| TidesApiClient.FetchesClassifyAlike | Sources/Core/API/TidesAPIClient.swift:102-136 | the predictions and constituents calls fail with the same error on every exchange that is not a 200 response |
| TidesApiClient.FetchTidePredictions | Sources/Core/API/TidesAPIClient.swift:43-99 | predictions are returned exactly on status 200 with a body that decodes as a predictions response, and they are that decoded response. Any other status gives httpError with the status and the body text |
| TidesApiClient.FetchConstituents | Sources/Core/API/TidesAPIClient.swift:102-136 | constituents are returned exactly on status 200 with a body that decodes as an array of constituents, and they are that array. Any other status gives httpError with the status and the body text |
| TidesApiClient.ColonEndsNumber | Sources/Core/API/TidesAPIClient.swift:20-21 | in an HTTP error description the first colon ends the status number |
| TidesApiClient.HttpDescriptionInjective | Sources/Core/API/TidesAPIClient.swift:20-21 | two HTTP error descriptions are equal only when status and message are equal |
| TidesApiClient.DescriptionIdentifiesError | Sources/Core/API/TidesAPIClient.swift:12-25 | equal error descriptions come from equal errors |
| GeocodingService.Components | Sources/Platform/Location/GeocodingService.swift:34-57 | name parts are subLocality then locality when either is present; otherwise the administrative area, then the country |
| GeocodingService.LocationName | Sources/Platform/Location/GeocodingService.swift:34-57 | the name is "subLocality, locality" with the absent parts left out, then the fallbacks, and "Unknown Location" when the placemark has none of them |
| GeocodingService.CachedName | Sources/Platform/Location/GeocodingService.swift:18-21 | the cache check at call time finds a name exactly when the key is cached, and it is the cached name |
| GeocodingService.CompleteLookup | Sources/Platform/Location/GeocodingService.swift:18-68 | given the cache check's outcome at call time: a hit returns the cached name and leaves the cache alone; on a miss, a geocoder failure is thrown and caches nothing, no placemark gives "Unknown Location" uncached, and otherwise the first placemark's name is returned and cached |
| GeocodingService.MissAtCallIgnoresLaterCaching | Sources/Platform/Location/GeocodingService.swift:18-26 | a lookup that missed the cache when called still reports its geocoder's failure, even if the key was cached while it waited |
| GeocodingService.GetLocationName | Sources/Platform/Location/GeocodingService.swift:14-68 | a cached key answers from the cache without the geocoder. A geocoder failure is thrown and caches nothing. No placemark gives "Unknown Location" uncached. Otherwise the first placemark's name is returned and cached under the key |
| GeocodingService.ClearCache | Sources/Platform/Location/GeocodingService.swift:71-74 | the cleared cache holds no key |
| GeocodingService.HitIgnoresGeocoder | Sources/Platform/Location/GeocodingService.swift:18-21 | on a cache hit, the geocoder's answer makes no difference |
| GeocodingService.RepeatLookupIsCached | Sources/Platform/Location/GeocodingService.swift:18-21 | after a successful lookup, a second lookup of the same key returns the same name whatever the geocoder says |
| GeocodingService.LookupOnlyAddsItsKey | Sources/Platform/Location/GeocodingService.swift:60 | a lookup changes the cache at most under its own key |
| GeocodingService.AdministrativeAreaIsFallback | Sources/Platform/Location/GeocodingService.swift:46-49 | the administrative area matters only when subLocality and locality are both absent |
| GeocodingService.CountryIsLastFallback | Sources/Platform/Location/GeocodingService.swift:51-54 | the country matters only when nothing else is present |
| GeocodingService.ClearedCacheConsultsGeocoder | Sources/Platform/Location/GeocodingService.swift:71-74 | after clearCache, every lookup goes to the geocoder |
| LastPositionStorage.Save | Sources/Platform/Storage/LastPositionStorage.swift:20-31 | a finite position is stored as JSON data under the position key, with the name under its own key. A position the encoder rejects stores nothing. No other key changes |
| LastPositionStorage.Load | Sources/Platform/Storage/LastPositionStorage.swift:34-52 | a saved value is returned only when both keys hold values of the right kind and the data decodes as a map position |
| LastPositionStorage.Clear | Sources/Platform/Storage/LastPositionStorage.swift:55-59 | both keys are removed and no other key changes |
| LastPositionStorage.LoadAfterSave | Sources/Platform/Storage/LastPositionStorage.swift:20-52 | loading after saving a finite position returns that position and name |
| LastPositionStorage.LoadedPositionEqualsSaved | Sources/Platform/Storage/LastPositionStorage.swift:20-52 | the loaded position is `==` to the saved one |
| LastPositionStorage.LoadAfterClear | Sources/Platform/Storage/LastPositionStorage.swift:34-59 | nothing loads after clear |
| LastPositionStorage.FailedSaveKeepsPrevious | Sources/Platform/Storage/LastPositionStorage.swift:20-31 | a save whose encoding fails leaves what loads unchanged |
| TidesMapView.CalculateZoom | Sources/UI/Views/TidesMapView.swift:66-72 | the zoom always lies in [0, 20] and equals the raw value when that is in range. Below 0 or minus infinity gives 0. Above 20 or plus infinity gives 20. NaN gives 20, as Swift's min and max do |
| TidesMapView.RegionPosition | Sources/UI/Views/TidesMapView.swift:53-57 | the position built from a region has the region's centre as latitude and longitude, and as zoom the clamped zoom of the region's span |
| TidesMapView.HandleCameraChange | Sources/UI/Views/TidesMapView.swift:50-64 | a region camera whose position differs from the binding updates the binding and notifies exactly that position: the region's centre with the clamped zoom of its span. An equal position, or any camera other than a region, changes nothing |
| TidesMapView.RepeatedChangeNotifiesOnce | Sources/UI/Views/TidesMapView.swift:50-64 | the same region reported twice notifies only the first time, when its centre is not NaN |
| TidesMapView.NaNCentreAlwaysNotifies | Sources/UI/Views/TidesMapView.swift:50-64 | a region with a NaN centre is forwarded every time, since it never equals the binding |
| TidesViewModel.Init | Sources/UI/ViewModels/TidesViewModel.swift:28-46 | a saved position and name are restored, else the default position; the start-up cycle 0 is created, nothing has loaded yet, the geocode cache is empty and no debounce cycle or fetch task has been numbered |
| TidesViewModel.OnInitTaskStarted | Sources/UI/ViewModels/TidesViewModel.swift:42-43 | the start-up task begins geocoding the position current when it runs, recording whether its key was cached then. Nothing shown, stored or cached changes, and no fetch is touched |
| TidesViewModel.HandlePositionChange | Sources/UI/ViewModels/TidesViewModel.swift:49-67 | the position and "Loading..." are shown at once; a new sleeping debounce cycle starts; every earlier debounce cycle is cancelled, the start-up cycle excepted; fetches are untouched |
| TidesViewModel.OnDebounceElapsed | Sources/UI/ViewModels/TidesViewModel.swift:60-64 | after the sleep a live cycle goes on to geocode, recording whether its key was cached then, and a cancelled one ends. Nothing shown, stored or cached changes, and no other cycle or fetch changes |
| TidesViewModel.RequestFetch | Sources/UI/ViewModels/TidesViewModel.swift:90-94 | a fetch cancels every earlier fetch task and creates the newest one for the given position and date. Cycles, storage, the geocode cache and what is shown are unchanged |
| TidesViewModel.FinishCycle | Sources/UI/ViewModels/TidesViewModel.swift:43-44 | a cycle that has finished its lookup ends and requests a fetch with the date selected now: for the map position as it is now in the start-up task, and for the cycle's own position otherwise |
| TidesViewModel.OnGeocodeCompleted | Sources/UI/ViewModels/TidesViewModel.swift:70-87 | the lookup completes from the cache check made when the cycle began geocoding. A found name is shown only if the cycle is not cancelled, and that cycle then awaits its save without fetching. A cancelled cycle's name, or a failure, which shows "Unknown Location" without a cancellation check, goes straight on to the fetch. Storage and the debounce counter never change here |
| TidesViewModel.OnSaveCompleted | Sources/UI/ViewModels/TidesViewModel.swift:79-82 | when a save returns, the cycle's position and found name are stored, and the cycle ends with a fetch for the map position as it is now in the start-up task and its own position otherwise, with the date selected now. Nothing shown changes |
| TidesViewModel.OnFetchBegan | Sources/UI/ViewModels/TidesViewModel.swift:94-96 | a fetch task starting sets loading and clears the error, even if it is already superseded. Cycles, storage and the geocode cache are unchanged |
| TidesViewModel.OnFetchCompleted | Sources/UI/ViewModels/TidesViewModel.swift:98-138 | a superseded fetch changes nothing shown. The newest one publishes predictions with highs and lows (empty without extrema) or publishes the error with empty data, and clears loading. Cycles, storage and the geocode cache are unchanged |
| TidesViewModel.OnCameraChange | Sources/UI/Views/TidesMapView.swift:50-64 | a camera change reaches the view model as a position change exactly when the map view notifies one |
| ViewModelProperties.StepPreservesValid | Sources/UI/ViewModels/TidesViewModel.swift:49-141 | every event keeps the view-model invariant: loading implies no error, ids are in range, and the newest cycle holds the map position |
| ViewModelProperties.RunPreservesValid | Sources/UI/ViewModels/TidesViewModel.swift:49-141 | every sequence of events keeps the invariant |
| ViewModelProperties.ReachableStatesAreValid | Sources/UI/ViewModels/TidesViewModel.swift:28-141 | every state reachable from start-up satisfies the invariant, so loading never shows together with an error |
| ViewModelProperties.ChangeAllKeepsEarlierCycles | Sources/UI/ViewModels/TidesViewModel.swift:49-67 | a burst of position changes adds one cycle each, keeps every earlier cycle unchanged, and, when it holds at least one change, cancels every earlier cycle except the start-up one |
| ViewModelProperties.BurstLeavesOneLiveCycle | Sources/UI/ViewModels/TidesViewModel.swift:53-62 | after a burst of position changes only the last change's cycle is live, and it holds the last position |
| ViewModelProperties.OnlyLastOfBurstGeocodes | Sources/UI/ViewModels/TidesViewModel.swift:60-64 | after a burst, when the sleeps elapse, only the last cycle goes on to geocode |
| ViewModelProperties.StaleCompletionIsInvisible | Sources/UI/ViewModels/TidesViewModel.swift:118-136 | the completion of a superseded fetch, before or after the newest one, does not change what is shown |
| ViewModelProperties.RestartResumesLastLookup | Sources/UI/ViewModels/TidesViewModel.swift:28-33 | after a live cycle names its position, storage is untouched until its save returns; after that, a restart shows that position and name |
| ViewModelProperties.RepeatedCameraChangeStartsOneCycle | Sources/UI/Views/TidesMapView.swift:50-64 | the same region reported twice starts one debounce cycle |
| ViewModelProperties.DateChangeDoesNotFetch | Sources/UI/ViewModels/TidesViewModel.swift:18 | choosing a date changes the selected date only and requests no fetch |
| ViewModelProperties.CancelledCycleStillFetches | Sources/UI/ViewModels/TidesViewModel.swift:59-87 | a cycle cancelled while geocoding still requests tide data for its old position once its geocoder replies, superseding the live cycle's fetch; its geocoding failure replaces the live cycle's name with "Unknown Location", even when both cycles geocode the same key |
| ViewModelProperties.LatestFetchPublishesEvenIfStale | Sources/UI/ViewModels/TidesViewModel.swift:90-138 | two fetch tasks start in order and finish in either order. The display ends the same both ways: the moved-to position, not loading, and the newest fetch's predictions, or its error with empty predictions. The superseded reply never changes what is shown |
| ViewModelProperties.StartupFetchFollowsLaterMove | Sources/UI/ViewModels/TidesViewModel.swift:42-44 | when the user moves while the start-up task's save is pending, that task then fetches the position moved to, with "Loading..." shown, while the stored name is the one it found for the default position |
| ViewModelProperties.NewestFirstThenSuperseded | Sources/UI/ViewModels/TidesViewModel.swift:118-136 | when the newest fetch finishes first, the superseded reply that follows changes nothing shown |
| Xcstrings.Uncovered | Scripts/localization/verify_translations.py:35-39 | the missing-language list is no longer than the target list |
| Xcstrings.UncoveredMembers | Scripts/localization/check_missing_translations.py:35-40 | a language is listed as missing exactly when it is a target and not covered; the list is empty exactly when every target is covered |
| Xcstrings.UncoveredKeepsOrder | Scripts/localization/verify_translations.py:37-39 | the missing languages keep the order of the target list |
| Xcstrings.Scan | Scripts/localization/verify_translations.py:18-46 | total counts the entries not marked `shouldTranslate == False`; missing maps exactly the translatable keys lacking a target to their missing languages; complete plus missing is total |
| Xcstrings.CheckMissesNoMoreThanVerify | Scripts/localization/check_missing_translations.py:35-40 | a key the check reports is also reported by the verifier |
| Xcstrings.AliasOnlyForgivesNo | Scripts/localization/check_missing_translations.py:36-39 | the two scripts disagree on a key exactly when its only gap is a `no` that `nb` covers |
| VerifyTranslations.VerifyFile | Scripts/localization/verify_translations.py:18-46 | the verifier's totals, missing keys and missing languages for one catalog over the 40 target languages |
| VerifyTranslations.DuplicateKeys | Scripts/localization/verify_translations.py:48-59 | the duplicates are exactly the keys in both catalogs; a catalog without `strings` raises KeyError |
| VerifyTranslations.DuplicatesSymmetric | Scripts/localization/verify_translations.py:48-59 | the duplicate check gives the same answer with the files swapped |
| VerifyTranslations.VerifyMain | Scripts/localization/verify_translations.py:61-140 | exit code 0 exactly when every existing file is fully translated, else 1. It raises exactly when both files exist and one lacks `strings` |
| CheckMissingTranslations.CheckMissing | Scripts/localization/check_missing_translations.py:19-45 | the keys and languages reported missing when `nb` counts as `no` |
| CheckMissingTranslations.CheckMain | Scripts/localization/check_missing_translations.py:47-90 | exit code 0 exactly when every existing file passes the check, else 1 |
| CheckMissingTranslations.VerifiedFilePassesCheck | Scripts/localization/check_missing_translations.py:36-39 | a file the verifier accepts also passes the check |
| FixNorwegianLocale.RenameEntry | Scripts/localization/fix_norwegian_locale.py:18-23 | an entry with `nb` and no `no` gets its `nb` localization under `no` and loses `nb`, all else kept; every other entry is unchanged, and an entry never needs renaming twice |
| FixNorwegianLocale.FixNorwegian | Scripts/localization/fix_norwegian_locale.py:10-33 | the file is reported modified exactly when some entry has `nb` without `no`; every entry is renamed, keys are kept, and afterwards no entry needs renaming; a file without `strings` is untouched |
| FixNorwegianLocale.FixIsIdempotent | Scripts/localization/fix_norwegian_locale.py:10-33 | fixing a fixed file changes nothing and reports no modification |
| FixNorwegianLocale.UnmodifiedFileUnchanged | Scripts/localization/fix_norwegian_locale.py:26-33 | an unmodified file is not rewritten |
| AddTranslations.MergeEntry | Scripts/localization/add_translations.py:45-58 | existing localizations are kept and only missing languages are added, as translated string units |
| AddTranslations.AddTranslations | Scripts/localization/add_translations.py:20-69 | keys absent from the file are skipped. The file is modified exactly when some language was added. A missing `strings` raises KeyError exactly when the translations dictionary is non-empty, even when it only holds keys with no languages |
| AddTranslations.MergeIdempotent | Scripts/localization/add_translations.py:49-51 | merging the same translations twice is the same as merging once |
| AddTranslations.ReapplyAddsNothing | Scripts/localization/add_translations.py:20-69 | running the script again with the same translations reports no modification |
| AddTranslations.SavedFileCoversRequest | Scripts/localization/add_translations.py:45-67 | after the run every requested language of every existing key is present in the saved file |

## Left out

- Concurrency and scheduling. Tasks are events, and no order between fetch tasks starting is
  assumed. MainActor isolation and the 500 ms timer are not modelled; a sleep is one event.
- Floating-point rounding, overflow and signed zero. Doubles are exact reals plus the
  infinities and NaN.
- JSON text: parsing, printing and duplicate members. Decoding starts from a JSON tree.
- ISO 8601 date formatting, Calendar and time-zone arithmetic. A date is an opaque instant, and
  the query's start and end texts are parameters.
- Building the geocode cache key with `%.4f`. The key is a parameter.
- `String(Double)` rendering of coordinates in the query.
- The real `log2` and the division in `calculateZoom`. `log2(360 / latitudeDelta)` is one
  function parameter.
- Conversion of numbers stored in UserDefaults. A stored value is data, a string, or something
  else.
- Logging and console output of the Swift code and of the scripts.
- Foundation's localized text for a network error. A network error carries an opaque cause
  whose description is a parameter. The decoding-error texts are Foundation's English texts,
  written out in `DecodeFailureCause`; other locales are not modelled.
- The synchronous wait on the start-up load task in `init`. Only its outcome is modelled.
- `TideLocation`, which no core function uses.
- `complete_translations.py` and the `main` functions of `fix_norwegian_locale.py` and
  `add_translations.py`. These iterate over files and a hard-coded table; the per-file functions
  are modelled.
- The completion rate printed by `verify_translations.py`.
- Entries whose `localizations` member is null or not an object, and entry members other than
  `shouldTranslate` and `localizations`.
- The order of dictionary keys in the scripts' output.
- Xcstrings.Uncovered: its own contract states only the length bound. Membership and order are
  stated by UncoveredMembers and UncoveredKeepsOrder.
