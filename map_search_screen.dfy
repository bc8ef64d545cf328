/** The search coordinator: the screen that owns the address text, the map region, the marker,
    the two loading flags and the error message, and updates them in response to three
    triggers: mount, "search" and "use my location". Each asynchronous handler is split at its
    one `await` into a Begin step and a Complete step that receives what the awaited call
    produced; an interleaving of handlers is then a sequence of these calls. Completions write
    unconditionally: there is no check against a newer request. */
module MapSearchScreen {
  import opened Wrappers
  import opened Failures
  import Text
  import Geocoding
  import Location
  import SearchBar

  datatype Coordinate = Coordinate(latitude: real, longitude: real)

  /** A map viewport: a centre and the visible spans in degrees. */
  datatype Region = Region(latitude: real, longitude: real, latitudeDelta: real, longitudeDelta: real)

  /** Buenos Aires, at a 0.05 span. */
  const DefaultRegion := Region(-34.6037, -58.3816, 0.05, 0.05)
  /** The span after a successful search or locate. */
  const FocusDelta: real := 0.02
  /** The number of results a search asks for. */
  const SearchLimit := 3

  const EmptyAddressMessage := "Please enter an address before searching."
  const NoResultsMessage := "No results found for the specified address."
  const SearchFallbackMessage := "Unexpected error while searching for the address."
  const LocateFallbackMessage := "Unexpected error while obtaining current location."

  /** The six state cells of the screen. */
  datatype ScreenState = ScreenState(
    address: string,
    region: Region,
    marker: Option<Coordinate>,
    isSearching: bool,
    isLocating: bool,
    errorMessage: Option<string>)

  /** The call a search makes: the address and the options passed to the geocoder. */
  datatype SearchRequest = SearchRequest(address: string, options: Geocoding.GeocodeOptions)

  /** The state a freshly mounted screen starts from. */
  function InitialState(): (s: ScreenState)
    ensures s.address == [] && s.region == DefaultRegion && s.marker == None
    ensures !s.isSearching && !s.isLocating && s.errorMessage == None
  {
    ScreenState("", DefaultRegion, None, false, false, None)
  }

  /** The state with the map centred on a point at the focus span and the marker on it. */
  function FocusedOn(s: ScreenState, latitude: real, longitude: real): (t: ScreenState)
    ensures t.region == Region(latitude, longitude, FocusDelta, FocusDelta)
    ensures t.marker == Some(Coordinate(latitude, longitude))
    ensures t.marker.value.latitude == t.region.latitude && t.marker.value.longitude == t.region.longitude
    ensures t.(region := s.region, marker := s.marker) == s
  {
    s.(region := Region(latitude, longitude, FocusDelta, FocusDelta),
       marker := Some(Coordinate(latitude, longitude)))
  }

  // ---------------------------------------------------------------------------------------------
  // The transitions

  /** `onChangeText`: the text field writes the address and nothing else. */
  function AddressChanged(s: ScreenState, text: string): (t: ScreenState)
    ensures t.address == text && t.(address := s.address) == s
  {
    s.(address := text)
  }

  /** Mount, up to the location call: the location flag is raised. */
  function MountStarted(s: ScreenState): (t: ScreenState)
    ensures t.isLocating && t.(isLocating := s.isLocating) == s
  {
    s.(isLocating := true)
  }

  /** Mount, after the location call: a location moves the map and the marker there and clears
      the error; a failure is swallowed and changes nothing; the location flag ends lowered. */
  function MountCompleted(s: ScreenState, outcome: Result<Location.SimpleLocation, Thrown>): (t: ScreenState)
    ensures !t.isLocating
    ensures t.address == s.address && t.isSearching == s.isSearching
    ensures outcome.Failure? ==> t == s.(isLocating := false)
    ensures outcome.Success? ==>
              && t.region == Region(outcome.value.latitude, outcome.value.longitude, FocusDelta, FocusDelta)
              && t.marker == Some(Coordinate(outcome.value.latitude, outcome.value.longitude))
              && t.errorMessage == None
  {
    var t := match outcome
      case Success(location) =>
        FocusedOn(s, location.latitude, location.longitude).(errorMessage := None)
      case Failure(_) => s;
    t.(isLocating := false)
  }

  /** The call a search press makes, if any: none for a blank address, otherwise the trimmed
      address with a limit of 3 results. */
  function SearchRequestOf(s: ScreenState): (req: Option<SearchRequest>)
    ensures req.None? <==> Text.AllWhitespace(s.address)
    ensures req.Some? ==> && req.value.address == Text.Trim(s.address)
                          && req.value.options == Geocoding.GeocodeOptions(Some(SearchLimit), None)
  {
    Text.TrimEmptyIff(s.address);
    var trimmedAddress := Text.Trim(s.address);
    if trimmedAddress == [] then None
    else Some(SearchRequest(trimmedAddress, Geocoding.GeocodeOptions(Some(SearchLimit), None)))
  }

  /** Search, up to the geocoding call: a blank address only sets the prompt message (the
      search flag is not touched); otherwise the search flag is raised and the error cleared. */
  function SearchStarted(s: ScreenState): (t: ScreenState)
    ensures Text.AllWhitespace(s.address) ==> t == s.(errorMessage := Some(EmptyAddressMessage))
    ensures !Text.AllWhitespace(s.address) ==> t == s.(isSearching := true, errorMessage := None)
  {
    Text.TrimEmptyIff(s.address);
    if Text.Trim(s.address) == [] then s.(errorMessage := Some(EmptyAddressMessage))
    else s.(isSearching := true, errorMessage := None)
  }

  /** Search, after the geocoding call: no results set the "no results" message and leave the
      map alone; results move the map and the marker to the first result only; a failure shows
      its message (or the fallback text for a thrown non-Error); the search flag ends lowered. */
  function SearchCompleted(s: ScreenState, outcome: Result<seq<Geocoding.GeocodeResult>, Thrown>): (t: ScreenState)
    ensures !t.isSearching && t.address == s.address && t.isLocating == s.isLocating
    ensures outcome == Success([]) ==>
              t.region == s.region && t.marker == s.marker && t.errorMessage == Some(NoResultsMessage)
    ensures outcome.Success? && outcome.value != [] ==>
              && t.region == Region(outcome.value[0].latitude, outcome.value[0].longitude, FocusDelta, FocusDelta)
              && t.marker == Some(Coordinate(outcome.value[0].latitude, outcome.value[0].longitude))
              && t.errorMessage == s.errorMessage
    ensures outcome.Failure? ==>
              && t.region == s.region && t.marker == s.marker
              && t.errorMessage == Some(MessageOr(outcome.error, SearchFallbackMessage))
  {
    var t := match outcome
      case Success(results) =>
        if |results| == 0 then s.(errorMessage := Some(NoResultsMessage))
        else FocusedOn(s, results[0].latitude, results[0].longitude)
      case Failure(error) => s.(errorMessage := Some(MessageOr(error, SearchFallbackMessage)));
    t.(isSearching := false)
  }

  /** "Use my location", up to the location call: the location flag is raised and the error
      cleared. */
  function LocateStarted(s: ScreenState): (t: ScreenState)
    ensures t.isLocating && t.errorMessage == None
    ensures t.(isLocating := s.isLocating, errorMessage := s.errorMessage) == s
  {
    s.(isLocating := true, errorMessage := None)
  }

  /** "Use my location", after the location call: a location moves the map and the marker there;
      a failure, unlike at mount, is shown (or the fallback text for a thrown non-Error); the
      location flag ends lowered. */
  function LocateCompleted(s: ScreenState, outcome: Result<Location.SimpleLocation, Thrown>): (t: ScreenState)
    ensures !t.isLocating && t.address == s.address && t.isSearching == s.isSearching
    ensures outcome.Success? ==>
              && t.region == Region(outcome.value.latitude, outcome.value.longitude, FocusDelta, FocusDelta)
              && t.marker == Some(Coordinate(outcome.value.latitude, outcome.value.longitude))
              && t.errorMessage == s.errorMessage
    ensures outcome.Failure? ==>
              && t.region == s.region && t.marker == s.marker
              && t.errorMessage == Some(MessageOr(outcome.error, LocateFallbackMessage))
  {
    var t := match outcome
      case Success(location) => FocusedOn(s, location.latitude, location.longitude)
      case Failure(error) => s.(errorMessage := Some(MessageOr(error, LocateFallbackMessage)));
    t.(isLocating := false)
  }

  // ---------------------------------------------------------------------------------------------
  // What the awaited calls throw

  /** The geocoder's outcome as the search handler's `catch` sees it: an `Error` with the
      geocoder's message. */
  function GeocodeOutcome(r: Result<seq<Geocoding.GeocodeResult>, Geocoding.GeocodeError>)
    : (o: Result<seq<Geocoding.GeocodeResult>, Thrown>)
    ensures r.Success? <==> o.Success?
    ensures r.Success? ==> o.value == r.value
    ensures r.Failure? ==> o.error == ErrorObject(r.error.Message())
  {
    match r
    case Success(results) => Success(results)
    case Failure(e) => Failure(ErrorObject(e.Message()))
  }

  /** The location provider's outcome as a handler's `catch` sees it: its own failures as an
      `Error` with their message, a rejected permission request as whatever that threw. */
  function LocationOutcome(r: Result<Location.SimpleLocation, Location.LocationError>)
    : (o: Result<Location.SimpleLocation, Thrown>)
    ensures r.Success? <==> o.Success?
    ensures r.Success? ==> o.value == r.value
    ensures r == Failure(Location.PermissionDenied) ==> o.error == ErrorObject(Location.PermissionDeniedMessage)
    ensures r == Failure(Location.LocationUnavailable) ==> o.error == ErrorObject(Location.LocationUnavailableMessage)
    ensures r.Failure? && r.error.RequestFailed? ==> o.error == r.error.reason
  {
    match r
    case Success(location) => Success(location)
    case Failure(e) => Failure(e.AsThrown())
  }

  // ---------------------------------------------------------------------------------------------
  // Properties of the coordinator

  /** A search sends the geocoder the trimmed address, which the geocoder's own blank check
      always passes, so the request it makes carries that address as `q` and a limit of 3. */
  lemma SearchSendsTrimmedAddress(s: ScreenState, platformOs: string,
                                  transport: Geocoding.Request -> Geocoding.FetchOutcome,
                                  parse: string -> Option<real>)
    requires SearchRequestOf(s).Some?
    ensures var req := SearchRequestOf(s).value;
            var sent := Geocoding.BuildRequest(Text.Trim(req.address), req.options, platformOs);
            && Geocoding.GeocodeAddress(req.address, req.options, platformOs, transport, parse)
               == Geocoding.InterpretResponse(transport(sent), parse)
            && Geocoding.Lookup(sent.params, Geocoding.Q) == Some(Text.Trim(s.address))
            && Geocoding.Lookup(sent.params, Geocoding.Limit) == Some("3")
  {
    var req := SearchRequestOf(s).value;
    Text.TrimIdempotent(s.address);
    Text.TrimEmptyIff(req.address);
    Geocoding.QueryParamValues(Text.Trim(req.address), req.options);
    assert Text.IntToDecimal(3) == [Text.DigitChar(3)] == "3";
  }

  /** A search of a blank address makes no call and never raises the search flag. */
  lemma BlankSearchOnlyPrompts(s: ScreenState)
    requires Text.AllWhitespace(s.address)
    ensures SearchRequestOf(s) == None
    ensures SearchStarted(s) == s.(errorMessage := Some(EmptyAddressMessage))
    ensures SearchStarted(s).isSearching == s.isSearching
  {
  }

  /** A search answered with no results shows "no results" and keeps the map and the marker
      where they were before the search. */
  lemma ZeroResultsKeepMap(s: ScreenState)
    requires !Text.AllWhitespace(s.address)
    ensures var t := SearchCompleted(SearchStarted(s), Success([]));
            && t.region == s.region && t.marker == s.marker
            && t.errorMessage == Some(NoResultsMessage) && !t.isSearching
  {
  }

  /** A failed location lookup at mount leaves a fresh screen exactly as it started: default
      region, no marker, no error, and the location flag lowered. */
  lemma MountFailureIsSilent(error: Thrown)
    ensures MountCompleted(MountStarted(InitialState()), Failure(error)) == InitialState()
  {
  }

  /** Mount and "use my location" agree on a location and differ on a failure: mount also clears
      the error on success, and only "use my location" shows a failure. */
  lemma MountVersusLocate(s: ScreenState, outcome: Result<Location.SimpleLocation, Thrown>)
    ensures outcome.Success? ==>
              MountCompleted(s, outcome) == LocateCompleted(s, outcome).(errorMessage := None)
    ensures outcome.Failure? ==>
              && MountCompleted(s, outcome).errorMessage == s.errorMessage
              && LocateCompleted(s, outcome) == MountCompleted(s, outcome).(errorMessage := Some(MessageOr(outcome.error, LocateFallbackMessage)))
  {
  }

  /** Last write wins: whichever completion comes last decides where the map is, whatever order
      the handlers were started in. */
  lemma LastCompletionWins(s: ScreenState, results: seq<Geocoding.GeocodeResult>, location: Location.SimpleLocation)
    requires results != []
    ensures SearchCompleted(LocateCompleted(s, Success(location)), Success(results)).region
            == Region(results[0].latitude, results[0].longitude, FocusDelta, FocusDelta)
    ensures LocateCompleted(SearchCompleted(s, Success(results)), Success(location)).region
            == Region(location.latitude, location.longitude, FocusDelta, FocusDelta)
  {
  }

  /** A completion writes even when a newer search has been started since: an earlier search
      finishing lowers the search flag although the later one is still running. */
  lemma NoStalenessGuard(s: ScreenState, outcome: Result<seq<Geocoding.GeocodeResult>, Thrown>)
    requires !Text.AllWhitespace(s.address)
    ensures SearchStarted(SearchStarted(s)).isSearching
    ensures !SearchCompleted(SearchStarted(SearchStarted(s)), outcome).isSearching
  {
  }

  /** The props the screen passes to its search bar. */
  function BarProps(s: ScreenState): (p: SearchBar.Props)
    ensures p.value == s.address && p.hasUseMyLocation
    ensures SearchBar.Searching(p) == s.isSearching && SearchBar.Locating(p) == s.isLocating
    ensures p.errorMessage == s.errorMessage
  {
    SearchBar.Props(s.address, true, Some(s.isSearching), Some(s.isLocating), s.errorMessage)
  }

  /** While a search runs its button is disabled and reads "Searching…", but a keyboard submit
      still reaches the search handler: nothing stops a second search from starting. */
  lemma SearchBarDuringSearch(s: ScreenState)
    requires !Text.AllWhitespace(s.address)
    ensures var p := BarProps(SearchStarted(s));
            && SearchBar.Render(p).search.disabled
            && SearchBar.Render(p).search.title == SearchBar.SearchingLabel
            && SearchBar.Invoked(p, SearchBar.PressSearch) == []
            && SearchBar.Invoked(p, SearchBar.SubmitKeyboard) == [SearchBar.OnSearchPress]
  {
  }

  /** A blank search shows its prompt in the bar. */
  lemma BlankSearchShowsPrompt(s: ScreenState)
    requires Text.AllWhitespace(s.address)
    ensures SearchBar.Render(BarProps(SearchStarted(s))).errorText == Some(EmptyAddressMessage)
  {
  }

  // ---------------------------------------------------------------------------------------------
  // The screen as the component holds it

  /** The screen's `useState` cells as fields; each handler step is a method that performs the
      source's setter calls in order and is specified by the transition above. */
  class SearchScreen {
    var address: string
    var region: Region
    var marker: Option<Coordinate>
    var isSearching: bool
    var isLocating: bool
    var errorMessage: Option<string>

    function State(): ScreenState
      reads this
    {
      ScreenState(address, region, marker, isSearching, isLocating, errorMessage)
    }

    constructor ()
      ensures State() == InitialState()
    {
      address := "";
      region := DefaultRegion;
      marker := None;
      isSearching := false;
      isLocating := false;
      errorMessage := None;
    }

    /** `setAddress`, wired to the text field. */
    method ChangeAddress(text: string)
      modifies this
      ensures State() == AddressChanged(old(State()), text)
    {
      address := text;
    }

    /** The mount effect `initializeRegion`, up to `await getCurrentLocation()`. */
    method BeginMount()
      modifies this
      ensures State() == MountStarted(old(State()))
    {
      isLocating := true;
    }

    /** The rest of `initializeRegion`, given what `getCurrentLocation` produced. */
    method CompleteMount(outcome: Result<Location.SimpleLocation, Thrown>)
      modifies this
      ensures State() == MountCompleted(old(State()), outcome)
    {
      match outcome {
        case Success(currentLocation) =>
          region := Region(currentLocation.latitude, currentLocation.longitude, FocusDelta, FocusDelta);
          marker := Some(Coordinate(currentLocation.latitude, currentLocation.longitude));
          errorMessage := None;
        case Failure(_) =>
      }
      isLocating := false;
    }

    /** `handleSearchPress` up to `await geocodeAddress(...)`: returns the call it makes, none for
      a blank address. */
    method BeginSearch() returns (request: Option<SearchRequest>)
      modifies this
      ensures State() == SearchStarted(old(State()))
      ensures request == SearchRequestOf(old(State()))
    {
      var trimmedAddress := Text.Trim(address);
      Text.TrimEmptyIff(address);
      if trimmedAddress == [] {
        errorMessage := Some(EmptyAddressMessage);
        return None;
      }
      isSearching := true;
      errorMessage := None;
      request := Some(SearchRequest(trimmedAddress, Geocoding.GeocodeOptions(Some(SearchLimit), None)));
    }

    /** The rest of `handleSearchPress`, given what `geocodeAddress` produced. */
    method CompleteSearch(outcome: Result<seq<Geocoding.GeocodeResult>, Thrown>)
      modifies this
      ensures State() == SearchCompleted(old(State()), outcome)
    {
      match outcome {
        case Success(results) =>
          if |results| == 0 {
            errorMessage := Some(NoResultsMessage);
          } else {
            var bestMatch := results[0];
            region := Region(bestMatch.latitude, bestMatch.longitude, FocusDelta, FocusDelta);
            marker := Some(Coordinate(bestMatch.latitude, bestMatch.longitude));
          }
        case Failure(error) =>
          errorMessage := Some(MessageOr(error, SearchFallbackMessage));
      }
      isSearching := false;
    }

    /** `handleUseMyLocationPress` up to `await getCurrentLocation()`. */
    method BeginLocate()
      modifies this
      ensures State() == LocateStarted(old(State()))
    {
      isLocating := true;
      errorMessage := None;
    }

    /** The rest of `handleUseMyLocationPress`, given what `getCurrentLocation` produced. */
    method CompleteLocate(outcome: Result<Location.SimpleLocation, Thrown>)
      modifies this
      ensures State() == LocateCompleted(old(State()), outcome)
    {
      match outcome {
        case Success(currentLocation) =>
          region := Region(currentLocation.latitude, currentLocation.longitude, FocusDelta, FocusDelta);
          marker := Some(Coordinate(currentLocation.latitude, currentLocation.longitude));
        case Failure(error) =>
          errorMessage := Some(MessageOr(error, LocateFallbackMessage));
      }
      isLocating := false;
    }
  }

  /** A fresh screen whose mount lookup fails, followed by a search press before anything was
      typed: the failure stays silent and only the prompt appears. */
  method SilentMountThenBlankSearch(error: Thrown) returns (screen: SearchScreen)
    ensures fresh(screen)
    ensures screen.State() == InitialState().(errorMessage := Some(EmptyAddressMessage))
  {
    screen := new SearchScreen();
    screen.BeginMount();
    screen.CompleteMount(Failure(error));
    var request := screen.BeginSearch();
  }

  /** A search and a "use my location" overlap on one screen and the search finishes last: its
      first result decides where the map is, and both flags end lowered. */
  method OverlappingHandlers(screen: SearchScreen, results: seq<Geocoding.GeocodeResult>,
                             location: Location.SimpleLocation)
    requires !Text.AllWhitespace(screen.address) && results != []
    modifies screen
    ensures screen.region == Region(results[0].latitude, results[0].longitude, FocusDelta, FocusDelta)
    ensures screen.marker == Some(Coordinate(results[0].latitude, results[0].longitude))
    ensures screen.address == old(screen.address) && screen.errorMessage == None
    ensures !screen.isSearching && !screen.isLocating
  {
    var request := screen.BeginSearch();
    screen.BeginLocate();
    screen.CompleteLocate(Success(location));
    screen.CompleteSearch(Success(results));
  }
}
