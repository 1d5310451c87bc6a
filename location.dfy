/**
 * getCurrentAddress: position, then cache, then reverse geocoding, then cache
 * write, with every failure turned into `{success: false, error}`.
 *
 * The host positioning call and the HTTP request are not run: their outcomes
 * are parameters, and the method reports through `requested` whether it
 * issued the geocoding request at all. The two clock readings of the cache
 * (`get` before the request, `set` after it) are parameters too.
 */
module Location {
  import opened Wrappers
  import opened JsValues
  import opened Address
  import opened GeoCache

  /** The value a rejected promise carries, as the catch block reads it. */
  datatype Rejection = Rejection(errMsg: Option<string>, error: Option<string>)

  /** What the host positioning call (getUserLocation) produced. */
  datatype PositionOutcome =
    | Positioned(longitude: real, latitude: real)
    | PositionFailed(failure: Rejection)

  /** The parsed body of a reverse-geocoding response. */
  datatype GeoResponse = GeoResponse(status: Option<string>, regeocode: Option<Regeocode>, info: Option<string>)

  /** What the reverse-geocoding request produced: a response, or no response at all. */
  datatype GeocodeOutcome = Responded(body: GeoResponse) | TransportFailed

  const GeocodeFailedMessage: string := "地址解析失败"
  const NetworkFailedMessage: string := "网络请求失败"
  const LocateFailedMessage: string := "定位失败"

  /**
   * getAddressFromLocation on a given outcome: resolves with the normalised
   * record when the status is "1" and a regeocode block is present, and
   * otherwise rejects with `{success: false, error}`.
   */
  function GetAddressFromLocation(outcome: GeocodeOutcome): (r: Result<AddressRecord, Rejection>)
    ensures r.Ok? <==> outcome.Responded? && outcome.body.status == Some("1") && outcome.body.regeocode.Some?
    ensures r.Ok? ==> r.value == Normalise(outcome.body.regeocode.value)
    ensures r.Err? ==> r.error.errMsg.None? && r.error.error.Some? && r.error.error.value != ""
    ensures r.Err? && outcome.Responded? ==> r.error.error == Some(OrElse(outcome.body.info, GeocodeFailedMessage))
    ensures outcome.TransportFailed? ==> r == Err(Rejection(None, Some(NetworkFailedMessage)))
  {
    match outcome
    case TransportFailed => Err(Rejection(None, Some(NetworkFailedMessage)))
    case Responded(body) =>
      if body.status == Some("1") && body.regeocode.Some? then Ok(Normalise(body.regeocode.value))
      else Err(Rejection(None, Some(OrElse(body.info, GeocodeFailedMessage))))
  }

  /** `error.errMsg || error.error || "定位失败"`. */
  function ErrorMessage(e: Rejection): (m: string)
    ensures m != ""
    ensures Truthy(e.errMsg) ==> m == e.errMsg.value
    ensures !Truthy(e.errMsg) && Truthy(e.error) ==> m == e.error.value
    ensures !Truthy(e.errMsg) && !Truthy(e.error) ==> m == LocateFailedMessage
  {
    OrElse(e.errMsg, OrElse(e.error, LocateFailedMessage))
  }

  /**
   * A geocoding failure reaches the caller as the service's own message, or
   * the geocoding default when it gave none; a transport failure as the
   * network message.
   */
  lemma GeocodeFailureMessage(outcome: GeocodeOutcome)
    requires GetAddressFromLocation(outcome).Err?
    ensures outcome.TransportFailed? ==> ErrorMessage(GetAddressFromLocation(outcome).error) == NetworkFailedMessage
    ensures outcome.Responded? ==>
      ErrorMessage(GetAddressFromLocation(outcome).error) == OrElse(outcome.body.info, GeocodeFailedMessage)
  {
  }

  /** The resolved value of getCurrentAddress. */
  datatype CurrentAddress =
    | Located(record: AddressRecord, fromCache: bool, longitude: real, latitude: real)
    | Failed(error: string)

  method GetCurrentAddress(cache: AddressCache, position: PositionOutcome, geocode: GeocodeOutcome,
                           lookupTime: int, storeTime: int)
    returns (r: CurrentAddress, requested: bool)
    modifies cache
    // positioning failed: nothing else happens
    ensures position.PositionFailed? ==>
      && r == Failed(ErrorMessage(position.failure))
      && !requested
      && cache.cache == old(cache.cache)
    ensures position.Positioned? ==>
      var lng, lat := position.longitude, position.latitude;
      var hit := old(cache.Get(lng, lat, lookupTime));
      // a hit answers from the cache and issues no request
      && (hit.Some? ==>
            && r == Located(hit.value, true, lng, lat)
            && !requested
            && cache.cache == old(cache.cache))
      // a miss issues exactly one request
      && (hit.None? ==> requested)
      // a successful miss writes exactly the position's key
      && (hit.None? && GetAddressFromLocation(geocode).Ok? ==>
            var rec := GetAddressFromLocation(geocode).value;
            && r == Located(rec, false, lng, lat)
            && cache.cache == Store(old(cache.cache), GetKey(lng, lat), rec, storeTime)
            && cache.cache.Keys == old(cache.cache).Keys + {GetKey(lng, lat)}
            && (forall t :: t - storeTime < Ttl ==> cache.Get(lng, lat, t) == Some(rec)))
      // a failed miss writes nothing
      && (hit.None? && GetAddressFromLocation(geocode).Err? ==>
            && r == Failed(ErrorMessage(GetAddressFromLocation(geocode).error))
            && cache.cache == old(cache.cache))
  {
    match position {
      case PositionFailed(e) =>
        r, requested := Failed(ErrorMessage(e)), false;
      case Positioned(lng, lat) =>
        var cached := cache.Get(lng, lat, lookupTime);
        if cached.Some? {
          r, requested := Located(cached.value, true, lng, lat), false;
          return;
        }
        requested := true;
        var result := GetAddressFromLocation(geocode);
        match result {
          case Ok(rec) =>
            cache.Set(lng, lat, rec, storeTime);
            r := Located(rec, false, lng, lat);
          case Err(e) =>
            r := Failed(ErrorMessage(e));
        }
    }
  }

  /**
   * Two calls from the same position, the second within the hour after the
   * first one's write: the second is answered from the cache with the
   * record the first one fetched, and issues no request.
   */
  method RepeatCallHitsCache(cache: AddressCache, lng: real, lat: real, geocode: GeocodeOutcome,
                             t1: int, s1: int, t2: int, s2: int, second: GeocodeOutcome)
    returns (first: CurrentAddress, again: CurrentAddress, requestedAgain: bool)
    requires GetAddressFromLocation(geocode).Ok?
    requires cache.Get(lng, lat, t1).None?
    requires t2 - s1 < Ttl
    modifies cache
    ensures first == Located(GetAddressFromLocation(geocode).value, false, lng, lat)
    ensures again == Located(GetAddressFromLocation(geocode).value, true, lng, lat)
    ensures !requestedAgain
  {
    var requested;
    first, requested := GetCurrentAddress(cache, Positioned(lng, lat), geocode, t1, s1);
    again, requestedAgain := GetCurrentAddress(cache, Positioned(lng, lat), second, t2, s2);
  }
}
