# Map location app: a Dafny model

This project models the core of a React Native map app. The user types an address or asks for
their own location. The app finds the place on a map and puts a marker on it. The model covers:

- **Geocoding** (`geocoding.dfy`): the Nominatim client. It rejects a blank address before any
  request is made, and builds the `/search` GET request (query parameters in order, the
  identifying headers). It checks the outcome in a fixed order (transport, HTTP status, JSON
  decoding, array shape), each failure with its own message. It then normalises the response,
  keeping exactly the elements that have a display name and finite coordinates, in order.
- **Location** (`location.dfy`): the location provider. It asks for foreground permission,
  always through the request call. It fails when permission is denied or the position cannot be
  had, passes on a failure of the permission request itself, and otherwise copies the
  position's coordinates and accuracy.
- **MapConfig** (`map_config.dfy`): the tile-URL template, which is the trimmed environment
  value, or null when that value is missing or blank.
- **SearchBar** (`search_bar.dfy`): what the bar shows (labels, disabled states, the error
  line) and which callback each gesture invokes, as functions of its props.
- **MapSearchScreen** (`map_search_screen.dfy`): the screen that coordinates the rest. Its six
  state cells form a `ScreenState`. Each handler is split at its one `await` into a "started"
  and a "completed" transition. The class `SearchScreen` holds the cells as fields and runs the
  same steps as methods.
- **AppShell** (`app_shell.dfy`): the app shell. A return from the background to the
  foreground bumps the screen key and shows the splash again. The splash hides the screen.
  When the key changes, a new screen is mounted in its initial state.
- `text.dfy` holds JavaScript's `String.prototype.trim` (with its whitespace set) and
  integer-to-decimal conversion. `wrappers.dfy` holds `Option`, `Result` and the value a
  `catch` clause receives.

Some things are inputs rather than code in the model:

- The HTTP transport (`fetch` plus `response.json()`) is a function parameter from request to
  outcome. So "no request is made" is stated as "the result does not depend on the transport".
- `Number(s)` followed by `Number.isFinite` is a parameter `parse`.
- The device's permission answer and position call form a `LocationPlatform` value.
- `Platform.OS` is a string parameter.
- The environment variable is an `Option<string>`.

One case of the normaliser is worth a note. The callback takes `item: NominatimRawResult |
unknown` (src/services/geocoding/nominatimApi.ts:131), and the function promises to handle
parsing errors gracefully (:66). So an element without a name or coordinates is meant to be
skipped. But a JSON `null` element makes the callback read a property of `null`, and the
resulting TypeError rejects the whole call. The model writes down both: the code as written,
and the corrected normaliser, which skips the `null`. The geocoder and the screen use the
corrected one (see Findings and Left out).

## Model

| member | source | states |
|---|---|---|
| Failures.MessageOr | src/screens/MapSearchScreen.tsx:97-102 | An `Error` contributes its message; a thrown non-Error gives the fallback text |
| Text.LeadingEnd | src/services/geocoding/nominatimApi.ts:82 | The leading whitespace run from a position ends at the first non-whitespace character, or at the end of the string |
| Text.TrailingStart | src/services/geocoding/nominatimApi.ts:82 | The trailing whitespace run starts right after the last non-whitespace character above the lower bound |
| Text.Trim | src/services/geocoding/nominatimApi.ts:82 | The result is a contiguous slice of the input, with only whitespace cut from both sides, and empty or with non-whitespace ends |
| Text.TrimFixesTrimmed | src/services/geocoding/nominatimApi.ts:82 | A string with non-whitespace ends comes back from trim unchanged |
| Text.TrimIdempotent | src/services/geocoding/nominatimApi.ts:82 | Trimming twice is trimming once |
| Text.TrimEmptyIff | src/services/geocoding/nominatimApi.ts:82-86 | The trimmed address is empty exactly when every character is whitespace, which is the blank case `!trimmed` rejects |
| Text.DigitChar | src/services/geocoding/nominatimApi.ts:93 | A digit value becomes the character for that digit |
| Text.NatToDecimal | src/services/geocoding/nominatimApi.ts:93 | `String(n)` is a non-empty run of digits with no leading zero except for 0 itself |
| Text.IntToDecimal | src/services/geocoding/nominatimApi.ts:93 | `String(limit)` of a negative integer is a minus sign followed by the digits of its magnitude |
| Text.DecimalRoundTrip | src/services/geocoding/nominatimApi.ts:93 | Reading back the decimal string of the limit gives the limit |
| Geocoding.GeocodeError.Message | src/services/geocoding/nominatimApi.ts:85-127 | Each failure kind throws its own message, word for word |
| Geocoding.MessagesDistinct | src/services/geocoding/nominatimApi.ts:85-127 | The five failure messages are pairwise different |
| Geocoding.Names | src/services/geocoding/nominatimApi.ts:90-99 | The names of a parameter list, index by index |
| Geocoding.LookupNoneIff | src/services/geocoding/nominatimApi.ts:90-99 | Looking up a parameter gives nothing exactly when no pair has that name |
| Geocoding.LookupAt | src/services/geocoding/nominatimApi.ts:90-99 | A lookup returns the value of the first pair with that name |
| Geocoding.RemoveName | src/services/geocoding/nominatimApi.ts:90-99 | Removing a name leaves no pair with it and every other name's value as it was |
| Geocoding.SetParam | src/services/geocoding/nominatimApi.ts:91-98 | `searchParams.set(k, v)` makes `k` read `v`, and appends the pair when `k` was absent |
| Geocoding.SetParamKeepsOthers | src/services/geocoding/nominatimApi.ts:91-98 | `set` leaves every other parameter's value unchanged |
| Geocoding.QueryParams | src/services/geocoding/nominatimApi.ts:88-99 | The query is q, format=jsonv2, limit (default 5), addressdetails=1 in that order, then countrycodes exactly when the option is a non-empty string |
| Geocoding.FixedParamValues | src/services/geocoding/nominatimApi.ts:91-95 | A query that starts with q, format, limit and addressdetails reads back each of those four values |
| Geocoding.QueryParamValues | src/services/geocoding/nominatimApi.ts:88-99 | Each parameter reads back its value (limit 5 when omitted), and countrycodes is present exactly when the option is truthy |
| Geocoding.Headers | src/services/geocoding/nominatimApi.ts:43-53 | The headers are User-Agent `node-poc-map-location-app/1.0 (<os>)`, the Referer URL and `Accept: application/json`, in that order |
| Geocoding.SpellingsDistinct | src/services/geocoding/nominatimApi.ts:43-53 | Different parameter or header names are spelled differently on the wire |
| Geocoding.WireQuery | src/services/geocoding/nominatimApi.ts:90-99 | Spelled out, the query is q, format=jsonv2, limit, addressdetails=1, then countrycodes for a non-empty country-code string |
| Geocoding.WireHeaderList | src/services/geocoding/nominatimApi.ts:43-53 | Spelled out, the headers are User-Agent, Referer and Accept: application/json |
| Geocoding.BuildRequest | src/services/geocoding/nominatimApi.ts:90-107 | The request is a GET to the Nominatim search endpoint, and its query and headers, with their names as spelled on the wire, are exactly those lists |
| Geocoding.Kept | src/services/geocoding/nominatimApi.ts:134-143 | A kept element is not `null`, and its display name, lat and lon are present and non-empty |
| Geocoding.NormalizeItem | src/services/geocoding/nominatimApi.ts:131-150 | An element yields a result exactly when its display name, lat and lon are non-empty strings and both coordinates parse as finite; the result carries the display name and the parsed coordinates |
| Geocoding.ItemResults | src/services/geocoding/nominatimApi.ts:131-151 | An element contributes one result when it is kept and none otherwise |
| Geocoding.Normalize | src/services/geocoding/nominatimApi.ts:130-151 | The map-then-filter never yields more results than elements |
| Geocoding.KeptIndices | src/services/geocoding/nominatimApi.ts:130-151 | There are no more kept positions than elements |
| Geocoding.KeptIndicesAreKept | src/services/geocoding/nominatimApi.ts:134-143 | Every kept position is in range and passes the element checks |
| Geocoding.KeptIndicesIncrease | src/services/geocoding/nominatimApi.ts:130-151 | Kept positions are strictly increasing, so order is preserved |
| Geocoding.KeptIndicesComplete | src/services/geocoding/nominatimApi.ts:134-143 | Every element that passes the checks is kept |
| Geocoding.SelectsCons | src/services/geocoding/nominatimApi.ts:130-151 | A kept first element goes in front of the results selected from the rest, whose positions move up by one |
| Geocoding.NormalizeSelects | src/services/geocoding/nominatimApi.ts:130-151 | The results are the normalised elements at the kept positions, in order |
| Geocoding.NormalizeSelectsKept | src/services/geocoding/nominatimApi.ts:130-151 | The k-th result is the normalised k-th kept element, and there is one result per kept element |
| Geocoding.NormalizeAppend | src/services/geocoding/nominatimApi.ts:130-151 | Normalising a concatenation is concatenating the normalised parts, since each element is judged on its own |
| Geocoding.NormalizeKeepsAll | src/services/geocoding/nominatimApi.ts:130-151 | When every element is well formed, none is dropped |
| Geocoding.NormalizeAsWritten | src/services/geocoding/nominatimApi.ts:130-151 | The map-then-filter as written fails exactly when some element is `null`, and otherwise yields at most one result per element |
| Geocoding.NormalizeAsWrittenFailsOnNull | src/services/geocoding/nominatimApi.ts:131-134 | The code as written matches the corrected normaliser, except that any `null` element makes the whole call fail |
| Geocoding.NullElementRejectsBatch | src/services/geocoding/nominatimApi.ts:132-134 | The response `[null]` fails as written, and gives no results once corrected |
| Geocoding.InterpretResponse | src/services/geocoding/nominatimApi.ts:103-153 | Transport failure, non-ok status, undecodable body and a non-array payload each give exactly their own error, in that order; otherwise the result is the normalised array |
| Geocoding.GeocodeAddress | src/services/geocoding/nominatimApi.ts:68-154 | A blank address is rejected with "Address must not be empty." exactly when it is all whitespace; otherwise the result is the interpreted outcome of the request for the trimmed address |
| Geocoding.BlankAddressMakesNoRequest | src/services/geocoding/nominatimApi.ts:82-86 | For a blank address the result is the same whatever the transport does, so no request is made |
| Geocoding.SpacesAreRejected | src/services/geocoding/nominatimApi.test.ts:9-11 | `"   "` is rejected with the empty-address message |
| Geocoding.SampleRequest | src/services/geocoding/nominatimApi.test.ts:26 | `"Test address"` with limit 1 sends q=Test address and limit=1 |
| Geocoding.SampleResponse | src/services/geocoding/nominatimApi.test.ts:13-34 | The sample single-element answer normalises to the single expected result |
| Location.LocationError.AsThrown | src/services/location/locationService.ts:42-62 | The provider's own failures reach the caller as `Error`s with their fixed messages; a rejected permission request reaches it as whatever that request threw |
| Location.RequestForegroundLocationPermission | src/services/location/locationService.ts:27-30 | When the request call resolves, permission is granted exactly when its status is GRANTED; when it rejects, so does this call, with the same value |
| Location.EnsureForegroundPermission | src/services/location/locationService.ts:71-78 | The answer is the request call's, and the passive stored status has no influence |
| Location.GetCurrentLocation | src/services/location/locationService.ts:42-62 | A rejected permission request is passed on unchanged; otherwise it fails with the permission error exactly when permission is not granted, and with the unavailable error exactly when it is granted and the position call rejects; otherwise it returns the position's latitude, longitude and accuracy (null when absent) |
| Location.DeniedMakesNoPositionCall | src/services/location/locationService.ts:43-47 | Unless permission is granted the position call's outcome does not matter, and a denial gives the permission error |
| Location.StoredStatusIgnored | src/services/location/locationService.ts:71-78 | Whatever the stored permission status, the location result is the same |
| Location.MessagesDistinct | src/services/location/locationService.ts:46-54 | The two failure messages differ |
| Location.GrantedSample | src/services/location/locationService.test.ts:26-56 | Coordinates 1.23, 4.56 with accuracy 5 come back unchanged when permission is granted |
| MapConfig.TileUrlTemplate | src/config/mapConfig.ts:15-25 | The template is null exactly when the value is unset or all whitespace; otherwise it is the trimmed value, non-empty with non-whitespace ends |
| MapConfig.UnsetIsEmpty | src/config/mapConfig.ts:15 | An unset variable behaves as the empty string |
| MapConfig.TileUrlTemplateIdempotent | src/config/mapConfig.ts:17-25 | Resolving an already resolved template gives it back unchanged |
| SearchBar.Searching | src/components/SearchBar.tsx:56 | An omitted `isSearching` counts as false |
| SearchBar.Locating | src/components/SearchBar.tsx:57 | An omitted `isLocating` counts as false |
| SearchBar.IsSearchDisabled | src/components/SearchBar.tsx:61 | Search is disabled exactly while searching or when the input is all whitespace |
| SearchBar.IsUseLocationDisabled | src/components/SearchBar.tsx:62 | The location button is disabled exactly while locating |
| SearchBar.Render | src/components/SearchBar.tsx:56-113 | The search button is disabled exactly while searching or on blank input, and reads "Searching…" exactly while searching; the location button exists exactly when its callback is given, and is disabled and reads "Locating…" exactly while locating; the error line shows exactly a non-empty message |
| SearchBar.Invoked | src/components/SearchBar.tsx:77-103 | A press on a disabled or absent button invokes nothing; a keyboard submit always invokes the search callback; a gesture invokes at most one callback |
| SearchBar.SamplePress | src/components/SearchBar.test.tsx:6-21 | With "Some address" and the flags omitted, the button reads "Search" and one press invokes the search callback once |
| MapSearchScreen.InitialState | src/screens/MapSearchScreen.tsx:10-25 | An empty address, the Buenos Aires default region, no marker, both flags low, no error |
| MapSearchScreen.FocusedOn | src/screens/MapSearchScreen.tsx:38-49 | The map centres on the point at span 0.02, the marker sits on the centre, and nothing else changes |
| MapSearchScreen.AddressChanged | src/screens/MapSearchScreen.tsx:143 | Typing changes the address and nothing else |
| MapSearchScreen.MountStarted | src/screens/MapSearchScreen.tsx:33-34 | Mount raises the location flag and changes nothing else |
| MapSearchScreen.MountCompleted | src/screens/MapSearchScreen.tsx:35-56 | A location moves map and marker there and clears the error; a failure changes nothing; the location flag ends low |
| MapSearchScreen.SearchRequestOf | src/screens/MapSearchScreen.tsx:63-76 | A search calls the geocoder exactly when the address is not blank, and then with the trimmed address and limit 3 |
| MapSearchScreen.SearchStarted | src/screens/MapSearchScreen.tsx:62-71 | A blank address only sets the prompt; otherwise the search flag rises and the error clears |
| MapSearchScreen.SearchCompleted | src/screens/MapSearchScreen.tsx:73-105 | No results give the no-results message with the map unchanged; results move map and marker to the first one; a failure shows its message or the fallback; the search flag ends low |
| MapSearchScreen.LocateStarted | src/screens/MapSearchScreen.tsx:108-110 | The location flag rises and the error clears, nothing else changes |
| MapSearchScreen.LocateCompleted | src/screens/MapSearchScreen.tsx:112-135 | A location moves map and marker there; a failure shows its message or the fallback with the map unchanged; the location flag ends low |
| MapSearchScreen.GeocodeOutcome | src/screens/MapSearchScreen.tsx:74-102 | A geocoder failure reaches the handler as an `Error` carrying that failure's message; a success passes through |
| MapSearchScreen.LocationOutcome | src/screens/MapSearchScreen.tsx:113-132 | A permission or position failure reaches the handler as an `Error` carrying that failure's message, a rejected permission request as what it threw; a success passes through |
| MapSearchScreen.SearchSendsTrimmedAddress | src/screens/MapSearchScreen.tsx:63-76 | The request a search makes has q equal to the trimmed address and limit=3, and the geocoder's own blank check passes |
| MapSearchScreen.BlankSearchOnlyPrompts | src/screens/MapSearchScreen.tsx:65-68 | A blank search makes no call, sets only the prompt, and leaves the search flag as it was |
| MapSearchScreen.ZeroResultsKeepMap | src/screens/MapSearchScreen.tsx:78-81 | A search with no results keeps map and marker where they were, and shows no-results |
| MapSearchScreen.MountFailureIsSilent | src/screens/MapSearchScreen.tsx:51-55 | A failed mount lookup leaves a fresh screen exactly in its initial state |
| MapSearchScreen.MountVersusLocate | src/screens/MapSearchScreen.tsx:33-136 | Mount and "use my location" agree on a location except that mount also clears the error; on failure only the button flow shows the message |
| MapSearchScreen.LastCompletionWins | src/screens/MapSearchScreen.tsx:92-122 | Whichever completion comes last decides where the map is |
| MapSearchScreen.NoStalenessGuard | src/screens/MapSearchScreen.tsx:70-104 | An earlier search's completion lowers the search flag while a later search is still running |
| MapSearchScreen.BarProps | src/screens/MapSearchScreen.tsx:141-149 | The bar receives the address, both flags, the error and a location callback |
| MapSearchScreen.SearchBarDuringSearch | src/components/SearchBar.tsx:77-90 | During a search the button is disabled and reads "Searching…", but a keyboard submit still reaches the search handler |
| MapSearchScreen.BlankSearchShowsPrompt | src/screens/MapSearchScreen.tsx:65-66 | A blank search's prompt appears in the bar's error line |
| MapSearchScreen.SearchScreen.constructor | src/screens/MapSearchScreen.tsx:18-25 | A new screen is in the initial state |
| MapSearchScreen.SearchScreen.ChangeAddress | src/screens/MapSearchScreen.tsx:143 | The new state is the address-changed transition of the old |
| MapSearchScreen.SearchScreen.BeginMount | src/screens/MapSearchScreen.tsx:33-34 | The new state is the mount-started transition of the old |
| MapSearchScreen.SearchScreen.CompleteMount | src/screens/MapSearchScreen.tsx:35-56 | The new state is the mount-completed transition of the old |
| MapSearchScreen.SearchScreen.BeginSearch | src/screens/MapSearchScreen.tsx:62-76 | The new state is the search-started transition, and the returned request is the call the search makes, if any |
| MapSearchScreen.SearchScreen.CompleteSearch | src/screens/MapSearchScreen.tsx:73-105 | The new state is the search-completed transition of the old |
| MapSearchScreen.SearchScreen.BeginLocate | src/screens/MapSearchScreen.tsx:108-110 | The new state is the locate-started transition of the old |
| MapSearchScreen.SearchScreen.CompleteLocate | src/screens/MapSearchScreen.tsx:112-135 | The new state is the locate-completed transition of the old |
| MapSearchScreen.SilentMountThenBlankSearch | src/screens/MapSearchScreen.tsx:51-68 | A screen whose mount lookup fails and which then gets a blank search shows only the prompt |
| MapSearchScreen.OverlappingHandlers | src/screens/MapSearchScreen.tsx:62-136 | A location result overtaken by a search result leaves the map on the first search result, with no error and both flags low |
| AppShell.IsReset | App.tsx:35 | A reset is a change from the background to the foreground, so never a change to the same state |
| AppShell.AppStateChanged | App.tsx:31-40 | The new app state is recorded; a background-to-active change bumps the key by one and shows the splash; any other change leaves key and splash alone |
| AppShell.ShownBy | App.tsx:70-94 | Only the splash is rendered while it is visible; otherwise the screen is rendered under the current key |
| AppShell.Replay | App.tsx:31-40 | Over a run of changes the key never decreases, and the last change is the one recorded |
| AppShell.ReplayCountsResets | App.tsx:31-40 | Over any run of changes the key grows by exactly the number of returns from the background, and the last change is the one recorded |
| AppShell.NoResetKeepsScreen | App.tsx:35-39 | A run with no return from the background changes neither the key nor the splash |
| AppShell.ResetShowsSplash | App.tsx:35-70 | Right after a return from the background the splash is shown |
| AppShell.App.constructor | App.tsx:20-22 | Splash visible, key 0, app state taken from the current state |
| AppShell.App.ShowSplashScreen | App.tsx:45-53 | The splash becomes visible and nothing else changes |
| AppShell.App.HandleAppStateChange | App.tsx:31-40 | The new shell state is the app-state-changed transition of the old |
| AppShell.App.SplashFinished | App.tsx:62-64 | The end of the fade hides the splash and changes nothing else |
| AppShell.App.Reconcile | App.tsx:70-94 | While the splash shows no screen is mounted; otherwise the screen is kept under an unchanged key and a new one is mounted, already locating, when the key changed |
| AppShell.ReturnFromBackground | App.tsx:31-91 | Backgrounding and returning bumps the key, and after the splash a new screen in its mount-started state is shown |

## Left out

- HTTP: URL serialisation, percent-encoding, the network and JSON decoding belong to the
  platform. The transport is a parameter that returns the decoded outcome.
- Number parsing: `Number(...)` and `Number.isFinite` are the parameter `parse`. Floating point
  is modelled as `real`.
- Geocoding.GeocodeOptions: `limit` is an integer. A non-integer limit and its `String(...)`
  spelling are not modelled.
- Text.IntToDecimal: writes every digit. JavaScript's `String(n)` switches to exponent form
  (`String(1e21)` is `"1e+21"`) once the magnitude reaches 10^21; such a limit is not modelled.
- Text.NatToDecimal: the same; for n of 10^21 or more it is not `String(n)`.
- Geocoding.RawEntry: a field is an optional string. A non-string JSON value in `display_name`,
  `lat` or `lon` (a number, say) is not modelled.
- expo-location: the permission request and the position call are inputs, as their results:
  a status or a rejection for the request, a position or a rejection for the position call.
  Their dialogs and timing belong to the platform.
- Concurrency: the awaits are split into "started" and "completed" transitions. Any
  interleaving can be written as a sequence of them, but no scheduler is modelled.
- AppShell: the 2000 ms timer, the 300 ms fade, the `opacity` value and the event
  subscription's removal are not modelled; the end of the fade is the `SplashFinished` step.
  Each `showSplashScreen` call starts an independent timer, and its cancel function is never
  used. So an older timer can hide a newer splash early; that timing is not captured.
- The map view, gestures and tile rendering (src/components/MapWithMarker.tsx) are not part of
  this model. The screen's region and marker are what the model gives it.
- Styles, theme (src/theme/*), the status bar and the splash artwork are presentation only.
- jest.config.cjs and the test harness are not part of this model. Their sample cases appear
  as lemmas.
- Geocoding.InterpretResponse: uses the corrected normaliser, so an ok array response with a
  JSON `null` element yields the other elements' results, where the code as written rejects
  with a TypeError. The as-written behaviour is Geocoding.NormalizeAsWritten (see Findings).
- Geocoding.GeocodeAddress: inherits the corrected normaliser from InterpretResponse; the
  TypeError that a `null` element raises as written is not one of its failures.
- Location.GetCurrentLocation: the location test mocks the passive permission query, while the
  code calls the request. The model follows the code (the stored status is ignored).

## Findings

| source | as written | input that shows it | evidently intended | confidence | as-written member | corrected member |
|---|---|---|---|---|---|---|
| src/services/geocoding/nominatimApi.ts:132-134 | Every element is cast and `candidate.display_name` is read with no null check. A JSON `null` element therefore throws a TypeError, which rejects the whole call, and the screen shows that TypeError's message | A successful response whose body is `[null]`, or a `null` among valid entries | An element without the required fields is skipped, and the other elements are still returned | not executed | Geocoding.NormalizeAsWrittenFailsOnNull | Geocoding.NormalizeSelectsKept |
