/** The location provider: obtains foreground permission through the platform's request call,
    then asks for one current position and copies its coordinates. The platform is an input:
    the answer the request call gives, and what the position call does. */
module Location {
  import opened Wrappers
  import opened Failures

  /** `Location.PermissionStatus`. */
  datatype PermissionStatus = Granted | Denied | Undetermined

  /** The `coords` of a platform position; `accuracy` None is a null or absent accuracy. */
  datatype Coords = Coords(latitude: real, longitude: real, accuracy: Option<real>)

  /** What `getCurrentPositionAsync` does: reject (GPS off, time-out, no location support), or
      resolve with a position. */
  datatype PositionOutcome = PositionFailed | Position(coords: Coords)

  /** What `requestForegroundPermissionsAsync` does: resolve with a status, or reject with
      whatever the platform throws. */
  datatype PermissionResponse = Resolved(status: PermissionStatus) | Rejected(reason: Thrown)

  /** The platform as the provider meets it: the status a passive permission query would
      report, what the permission request does, and the position call. */
  datatype LocationPlatform = LocationPlatform(
    storedStatus: PermissionStatus,
    request: PermissionResponse,
    position: PositionOutcome)

  datatype SimpleLocation = SimpleLocation(latitude: real, longitude: real, accuracy: Option<real>)

  const PermissionDeniedMessage := "Location permission was not granted."
  const LocationUnavailableMessage := "Unable to obtain current location from the device."

  /** How `getCurrentLocation` rejects: with one of its own two `Error`s, or with what a rejected
      permission request threw, which nothing in the provider catches. */
  datatype LocationError = PermissionDenied | LocationUnavailable | RequestFailed(reason: Thrown)
  {
    /** The value the caller's `catch` receives. */
    function AsThrown(): (t: Thrown)
      ensures this == PermissionDenied ==> t == ErrorObject(PermissionDeniedMessage)
      ensures this == LocationUnavailable ==> t == ErrorObject(LocationUnavailableMessage)
      ensures RequestFailed? ==> t == reason
    {
      match this
      case PermissionDenied => ErrorObject(PermissionDeniedMessage)
      case LocationUnavailable => ErrorObject(LocationUnavailableMessage)
      case RequestFailed(reason) => reason
    }
  }

  /** `requestForegroundLocationPermission`: the request call's status, compared with GRANTED; a
      rejected request rejects this call too. */
  function RequestForegroundLocationPermission(platform: LocationPlatform): (r: Result<bool, Thrown>)
    ensures r.Success? <==> platform.request.Resolved?
    ensures r.Success? ==> (r.value <==> platform.request.status == Granted)
    ensures r.Failure? ==> r.error == platform.request.reason
  {
    match platform.request
    case Resolved(status) => Success(status == Granted)
    case Rejected(reason) => Failure(reason)
  }

  /** `ensureForegroundPermission`: always the request call, never the passive status query, so
      the stored status has no influence on the answer. */
  function EnsureForegroundPermission(platform: LocationPlatform): (r: Result<bool, Thrown>)
    ensures r == Success(true) <==> platform.request == Resolved(Granted)
    ensures forall s :: r == RequestForegroundLocationPermission(platform.(storedStatus := s))
  {
    RequestForegroundLocationPermission(platform)
  }

  /** `getCurrentLocation`: passes on a rejected permission request, fails with PermissionDenied
      when permission is not granted, with LocationUnavailable when the position call rejects,
      and otherwise returns the position's coordinates unchanged with its accuracy, null when the
      platform reports none. */
  function GetCurrentLocation(platform: LocationPlatform): (r: Result<SimpleLocation, LocationError>)
    ensures platform.request.Rejected? <==> r.Failure? && r.error.RequestFailed?
    ensures platform.request.Rejected? ==> r == Failure(RequestFailed(platform.request.reason))
    ensures r == Failure(PermissionDenied) <==>
              platform.request.Resolved? && platform.request.status != Granted
    ensures r == Failure(LocationUnavailable) <==>
              platform.request == Resolved(Granted) && platform.position.PositionFailed?
    ensures r.Success? ==> platform.position.Position?
    ensures r.Success? ==> && r.value.latitude == platform.position.coords.latitude
                           && r.value.longitude == platform.position.coords.longitude
                           && r.value.accuracy == platform.position.coords.accuracy
  {
    match EnsureForegroundPermission(platform)
    case Failure(reason) => Failure(RequestFailed(reason))
    case Success(permissionGranted) =>
      if !permissionGranted then Failure(PermissionDenied)
      else
        match platform.position
        case PositionFailed => Failure(LocationUnavailable)
        case Position(coords) => Success(SimpleLocation(coords.latitude, coords.longitude, coords.accuracy))
  }

  /** Without permission the position call is never made: its outcome does not matter. */
  lemma DeniedMakesNoPositionCall(platform: LocationPlatform, other: PositionOutcome)
    requires platform.request != Resolved(Granted)
    ensures GetCurrentLocation(platform.(position := other)) == GetCurrentLocation(platform)
    ensures platform.request.Resolved? ==> GetCurrentLocation(platform) == Failure(PermissionDenied)
  {
  }

  /** The passive permission status is never consulted, whatever it says. */
  lemma StoredStatusIgnored(platform: LocationPlatform, stored: PermissionStatus)
    ensures GetCurrentLocation(platform.(storedStatus := stored)) == GetCurrentLocation(platform)
  {
  }

  /** The two failures carry different messages. */
  lemma MessagesDistinct()
    ensures PermissionDenied.AsThrown() != LocationUnavailable.AsThrown()
  {
    assert |PermissionDeniedMessage| == 36 && |LocationUnavailableMessage| == 50;
  }

  /** The granted sample: coordinates 1.23, 4.56 with accuracy 5 come back as they are. */
  lemma GrantedSample(stored: PermissionStatus)
    ensures GetCurrentLocation(LocationPlatform(stored, Resolved(Granted), Position(Coords(1.23, 4.56, Some(5.0)))))
            == Success(SimpleLocation(1.23, 4.56, Some(5.0)))
  {
  }
}
