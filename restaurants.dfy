/**
 * getNearbyRestaurants: the query options with their defaults, and the
 * mapping of a search response's points of interest to restaurant records.
 * The HTTP request itself is not run: its outcome is a parameter, and so is
 * the time of day at which the opening hours are judged.
 */
module Restaurants {
  import opened Wrappers
  import opened JsValues
  import opened BusinessHours
  import Location

  /** An option value as a caller may pass it. */
  datatype OptionValue = Text(s: string) | Number(n: int)

  /** The seven query fields the destructuring of `options` reads. */
  datatype SearchParams = SearchParams(
    keywords: OptionValue,
    types: OptionValue,
    radius: OptionValue,
    sortrule: OptionValue,
    pageSize: OptionValue,
    pageNum: OptionValue,
    showFields: OptionValue)

  const RecognisedOptions: set<string> :=
    {"keywords", "types", "radius", "sortrule", "page_size", "page_num", "show_fields"}

  /** The default of each recognised option. */
  function DefaultOption(name: string): OptionValue
    requires name in RecognisedOptions
  {
    match name
    case "keywords" => Text("美食")
    case "types" => Text("050000")
    case "radius" => Number(5000)
    case "sortrule" => Text("distance")
    case "page_size" => Number(20)
    case "page_num" => Number(1)
    case "show_fields" => Text("business,photos")
  }

  /** The query field a recognised option name fills. */
  function Param(p: SearchParams, name: string): OptionValue
    requires name in RecognisedOptions
  {
    match name
    case "keywords" => p.keywords
    case "types" => p.types
    case "radius" => p.radius
    case "sortrule" => p.sortrule
    case "page_size" => p.pageSize
    case "page_num" => p.pageNum
    case "show_fields" => p.showFields
  }

  function OptionOr(options: map<string, OptionValue>, name: string): OptionValue
    requires name in RecognisedOptions
  {
    if name in options then options[name] else DefaultOption(name)
  }

  /** The destructuring of `options` with defaults (lines 182-190). */
  function ResolveOptions(options: map<string, OptionValue>): (p: SearchParams)
    ensures forall name :: name in RecognisedOptions ==>
      Param(p, name) == if name in options then options[name] else DefaultOption(name)
  {
    SearchParams(
      OptionOr(options, "keywords"),
      OptionOr(options, "types"),
      OptionOr(options, "radius"),
      OptionOr(options, "sortrule"),
      OptionOr(options, "page_size"),
      OptionOr(options, "page_num"),
      OptionOr(options, "show_fields"))
  }

  /** Leaving `options` out gives the documented defaults. */
  lemma DefaultSearch()
    ensures ResolveOptions(map[]) == SearchParams(Text("美食"), Text("050000"), Number(5000), Text("distance"),
                                                  Number(20), Number(1), Text("business,photos"))
  {
  }

  /** Options the destructuring does not name are dropped: they cannot change the query. */
  lemma UnrecognisedOptionsDropped(options: map<string, OptionValue>)
    ensures ResolveOptions(options) == ResolveOptions(map k | k in options && k in RecognisedOptions :: options[k])
  {
  }

  /** The `business` block of a point of interest. */
  datatype Business = Business(rating: Option<string>, cost: Option<string>, opentimeToday: Option<string>)

  datatype Photo = Photo(title: Option<string>, url: Option<string>)

  /** One point of interest of the search response. */
  datatype Poi = Poi(
    id: Option<string>, name: Option<string>, poiType: Option<string>, address: Option<string>,
    location: Option<string>, tel: Option<string>, distance: Option<string>,
    pname: Option<string>, cityname: Option<string>, adname: Option<string>,
    business: Option<Business>, photos: Option<seq<Photo>>)

  /** The restaurant record built from a point of interest. */
  datatype Restaurant = Restaurant(
    id: Option<string>, name: Option<string>, poiType: Option<string>, address: Option<string>,
    location: Option<string>, tel: Option<string>, distance: Option<string>,
    pname: Option<string>, cityname: Option<string>, adname: Option<string>,
    rating: string, cost: string, opentime: string, photos: seq<Photo>,
    businessStatus: Status)

  /** `poi.business?.rating`, `poi.business?.cost`, `poi.business?.opentime_today`. */
  function Rating(poi: Poi): Option<string> {
    if poi.business.Some? then poi.business.value.rating else None
  }

  function Cost(poi: Poi): Option<string> {
    if poi.business.Some? then poi.business.value.cost else None
  }

  function OpentimeToday(poi: Poi): Option<string> {
    if poi.business.Some? then poi.business.value.opentimeToday else None
  }

  /** The projection of one point of interest (lines 209-225). */
  function ToRestaurant(poi: Poi, now: TimeOfDay): (r: Restaurant)
    // identity fields are carried over unchanged
    ensures r.id == poi.id && r.name == poi.name && r.poiType == poi.poiType && r.address == poi.address
    ensures r.location == poi.location && r.tel == poi.tel && r.distance == poi.distance
    ensures r.pname == poi.pname && r.cityname == poi.cityname && r.adname == poi.adname
    // business fields default to "", photos to the empty list
    ensures r.rating == OrElse(Rating(poi), "") && r.cost == OrElse(Cost(poi), "")
    ensures r.opentime == OrElse(OpentimeToday(poi), "")
    ensures r.photos == poi.photos.GetOr([])
    // the status is the classification of the hours text, and agrees with the text shown
    ensures r.businessStatus == GetBusinessStatus(OpentimeToday(poi), now)
    ensures r.businessStatus == GetBusinessStatus(Some(r.opentime), now)
  {
    Restaurant(
      poi.id, poi.name, poi.poiType, poi.address, poi.location, poi.tel, poi.distance,
      poi.pname, poi.cityname, poi.adname,
      OrElse(Rating(poi), ""), OrElse(Cost(poi), ""), OrElse(OpentimeToday(poi), ""),
      poi.photos.GetOr([]),
      GetBusinessStatus(OpentimeToday(poi), now))
  }

  /** `pois.map(...)`: one record per point of interest, in the same order. */
  function ToRestaurants(pois: seq<Poi>, now: TimeOfDay): (r: seq<Restaurant>)
    ensures |r| == |pois|
    ensures forall i :: 0 <= i < |pois| ==> r[i] == ToRestaurant(pois[i], now)
    decreases |pois|
  {
    if pois == [] then [] else [ToRestaurant(pois[0], now)] + ToRestaurants(pois[1..], now)
  }

  /** Mapping a concatenation maps each part: the list is processed in order. */
  lemma ToRestaurantsAppend(a: seq<Poi>, b: seq<Poi>, now: TimeOfDay)
    ensures ToRestaurants(a + b, now) == ToRestaurants(a, now) + ToRestaurants(b, now)
  {
  }

  /** The parsed body of a nearby-search response. */
  datatype SearchResponse = SearchResponse(
    status: Option<string>, count: Option<string>, pois: Option<seq<Poi>>, info: Option<string>)

  datatype SearchOutcome = SearchResponded(body: SearchResponse) | SearchTransportFailed

  /** `{success: true, data, count}`. */
  datatype NearbyResult = NearbyResult(data: seq<Restaurant>, count: Option<string>)

  const SearchFailedMessage: string := "查询失败"

  /** The success and fail callbacks of the request (lines 206-239). */
  function InterpretSearch(outcome: SearchOutcome, now: TimeOfDay): (r: Result<NearbyResult, string>)
    ensures r.Ok? <==> outcome.SearchResponded? && outcome.body.status == Some("1")
    ensures r.Ok? ==>
      var pois := outcome.body.pois.GetOr([]);
      && |r.value.data| == |pois|
      && (forall i :: 0 <= i < |pois| ==> r.value.data[i] == ToRestaurant(pois[i], now))
      && r.value.count == outcome.body.count
    ensures r.Err? && outcome.SearchResponded? ==> r.error == OrElse(outcome.body.info, SearchFailedMessage)
    ensures outcome.SearchTransportFailed? ==> r == Err(Location.NetworkFailedMessage)
    ensures r.Err? ==> r.error != ""
  {
    match outcome
    case SearchTransportFailed => Err(Location.NetworkFailedMessage)
    case SearchResponded(body) =>
      if body.status == Some("1") then Ok(NearbyResult(ToRestaurants(body.pois.GetOr([]), now), body.count))
      else Err(OrElse(body.info, SearchFailedMessage))
  }

  /** A successful answer without `pois` is an empty result, which is not a failure. */
  lemma NoPoisIsEmptySuccess(body: SearchResponse, now: TimeOfDay)
    requires body.status == Some("1") && body.pois.None?
    ensures InterpretSearch(SearchResponded(body), now) == Ok(NearbyResult([], body.count))
  {
  }

  /** The request getNearbyRestaurants sends. */
  datatype SearchRequest = SearchRequest(longitude: real, latitude: real, params: SearchParams)

  datatype NearbySearch = NearbySearch(request: SearchRequest, result: Result<NearbyResult, string>)

  /** getNearbyRestaurants(longitude, latitude, options) answered by `outcome`. */
  function GetNearbyRestaurants(longitude: real, latitude: real, options: map<string, OptionValue>,
                                outcome: SearchOutcome, now: TimeOfDay): (r: NearbySearch)
    ensures r.request.longitude == longitude && r.request.latitude == latitude
    ensures forall name :: name in RecognisedOptions ==>
      Param(r.request.params, name) == if name in options then options[name] else DefaultOption(name)
    ensures r.result.Ok? <==> outcome.SearchResponded? && outcome.body.status == Some("1")
    ensures r.result.Ok? ==> |r.result.value.data| == |outcome.body.pois.GetOr([])|
    ensures r.result == InterpretSearch(outcome, now)
  {
    NearbySearch(SearchRequest(longitude, latitude, ResolveOptions(options)), InterpretSearch(outcome, now))
  }
}
