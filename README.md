# What to eat today: location, cache and time helpers in Dafny

This project models the client-side helpers of a "what to eat today" app:

- `utils/mapApi.js` resolves the device position to an address through a reverse-geocoding service. In front of that service sits an in-memory address cache: its keys are coordinates rounded to four decimals, and each entry is valid for one hour.
- The same file normalises the geocoding answer into an address record, formats that record in one of four styles, searches for nearby restaurants, and labels each one's opening hours as unknown, open, closing soon or closed.
- `utils/timeUtils.js` classifies the hour into a meal period, picks a random food from a list with exclusions, and formats the time as `HH:MM`.

Modules, leaf first:

- `Wrappers`: `Option` and `Result`.
- `JsValues`: the JavaScript value rules the source relies on. Optional string fields are `Option<string>`, with `None` for `undefined`. A field is truthy when it is present and non-empty. `a || b` and template interpolation follow JavaScript, so an absent field interpolates as `"undefined"`.
- `Digits`: `parseInt` of digit strings and `String(n)`, with the round trip between them.
- `Address`: the reverse-geocoding payload, the normalised `AddressRecord` and `formatAddress`.
- `GeoCache`: key quantisation, the map-level specification (`Lookup`, `Store`) and the class `AddressCache`, which holds the mutable `cache` map.
- `Location`: `getAddressFromLocation` on a given service outcome, the catch block's error-message choice, and the `GetCurrentAddress` method.
- `BusinessHours`: the `H:MM-H:MM` matcher (leftmost match, greedy one-or-two-digit hours) and `getBusinessStatus`.
- `Restaurants`: option defaults, the POI projection and the search-response handling of `getNearbyRestaurants`.
- `TimeUtils`: `getMealPeriod`, `getRandomFood` and `formatCurrentTime`.

Things the host provides are parameters of the model:

- the positioning result and the HTTP outcomes;
- `Date.now()`, as `now`, `lookupTime` and `storeTime` in milliseconds;
- the hour and minute of `new Date()`;
- the value of `Math.random()`, as a real in [0, 1).

`GetCurrentAddress` also returns `requested`, which records whether the method issued the geocoding request.

Two behaviours of the code are easy to misread; the model follows the code:

- Unrecognised nearby-search options are dropped: the code destructures seven named options and sends only those (`Restaurants.UnrecognisedOptionsDropped`).
- Hour 17 is lunch, because the lunch test comes before the dinner test, so dinner covers hours 18-20 only (`TimeUtils.GetMealPeriod`).

Other behaviour of the code, as written:

- The `"province-city"` style joins province and district, not province and city.
- `return result;` at utils/mapApi.js:139 cannot be reached. `getAddressFromLocation` resolves only with `success: true`; every failure is a rejection and goes to the catch block. `Location.GetAddressFromLocation` therefore returns a `Result`, and its `Err` side is that rejection.

## Model

| member | source | states |
|---|---|---|
| `Address.PartName` | utils/mapApi.js:87-88 | `part?.name \|\| ""`: empty exactly when the part or its name is missing or empty, and otherwise the name |
| `Address.Normalise` | utils/mapApi.js:78-93 | the record passes formattedAddress, province, district, township and towncode through unchanged. City falls back to province when city is falsy. Neighbourhood and building default to "". streetNumber is street then number, or "" when absent. shortAddress is district then township |
| `Address.CityFallback` | utils/mapApi.js:83 | the normalised city is truthy exactly when the service gave a truthy city or a truthy province |
| `Address.FormatAddress` | utils/mapApi.js:155-172 | a missing record gives "未知位置". "short" gives shortAddress. "medium" gives district, township and building. "province-city" gives province and district. "full", the default and every other key give formattedAddress |
| `Address.UnknownStyleIsFull` | utils/mapApi.js:155-171 | for every record, an unrecognised style key, the omitted key and "full" all give the same result |
| `Address.MediumExtendsShort` | utils/mapApi.js:163-166 | on a normalised record, the medium form is the short form followed by the building name |
| `Address.FormatExamples` | utils/mapApi.js:155-171 | a sample record gives "Y" in the short style, "DTB" in the medium style and "X" by default; a missing record gives "未知位置" |
| `GeoCache.Quantise` | utils/mapApi.js:12-14 | one axis at four decimals: the integer within one half of x·10⁴, ties rounded away from zero (toFixed's rule), keeping the sign |
| `GeoCache.GetKey` | utils/mapApi.js:12-14 | the key is the pair of the two quantised axes, standing for the `lng,lat` string of the two `toFixed(4)` texts; when two coordinates share a key is stated by `GeoCache.SharedKeyIffSameQuantisation` |
| `GeoCache.SharedKeyIffSameQuantisation` | utils/mapApi.js:12-14 | two coordinate pairs get the same key exactly when their longitudes and their latitudes each quantise to the same four-decimal value |
| `GeoCache.Lookup` | utils/mapApi.js:16-24 | a read finds a record exactly when the key has an entry less than 3,600,000 ms old, and then returns that entry's data |
| `GeoCache.Store` | utils/mapApi.js:26-32 | a write adds or overwrites its own key with the data and the current time, and keeps every other entry |
| `GeoCache.FreshAfterStore` | utils/mapApi.js:16-31 | for any time t' with t' − t < 3,600,000, a read of a key written at t returns what was written |
| `GeoCache.ExpiredAfterStore` | utils/mapApi.js:16-31 | for t' − t ≥ 3,600,000 the read returns nothing, although the entry is still held with its data |
| `GeoCache.ExpiryIsPermanent` | utils/mapApi.js:19 | once an entry reads as expired, it reads as expired at every later time until it is overwritten |
| `GeoCache.StoreIsolated` | utils/mapApi.js:26-31 | a write to one key does not change what any other key reads, at any time |
| `GeoCache.SameQuantisationShared` | utils/mapApi.js:12-31 | two coordinates with the same four-decimal quantisation share a key: within the hour, a write for one is a hit for the other |
| `GeoCache.AddressCache.constructor` | utils/mapApi.js:9-10 | the cache starts empty |
| `GeoCache.AddressCache.Get` | utils/mapApi.js:16-24 | `get(lng, lat)` at `now` returns the entry's data exactly when the coordinate's key has an entry less than an hour old |
| `GeoCache.AddressCache.Set` | utils/mapApi.js:26-32 | the new cache is the old one with the coordinate's key set to `{data, now}`, and the data is readable for the following hour |
| `Location.GetAddressFromLocation` | utils/mapApi.js:63-105 | resolves with the normalised record exactly when the status is "1" and a regeocode block is present. Otherwise it rejects with `error` = `info` or "地址解析失败". A transport failure rejects with "网络请求失败". A rejection never carries `errMsg` |
| `Location.ErrorMessage` | utils/mapApi.js:140-146 | the message is `errMsg` when truthy, else `error` when truthy, else "定位失败"; it is never empty |
| `Location.GeocodeFailureMessage` | utils/mapApi.js:96-145 | a geocoding failure reaches the caller as the service's `info` or "地址解析失败", and a transport failure as "网络请求失败" |
| `Location.GetCurrentAddress` | utils/mapApi.js:111-147 | a position failure gives `{success: false, error}` with the catch block's message, and nothing else happens. A cache hit returns the cached record with fromCache = true and the coordinates, issues no request and leaves the cache alone. A miss issues the request. A successful miss returns fromCache = false, writes exactly the position's key, and makes the record readable for the next hour. A failed miss returns the failure message and writes nothing |
| `Location.RepeatCallHitsCache` | utils/mapApi.js:117-136 | after a successful miss, a second call from the same position within the hour returns the same record from the cache and issues no request |
| `BusinessHours.ShapeUnique` | utils/mapApi.js:258 | at any offset, at most one choice of the one-or-two-digit hour groups can match, because a digit is never a colon |
| `BusinessHours.MatchAtFits` | utils/mapApi.js:258-264 | the pattern at one offset gives the parsed captures of the one shape that fits there, or nothing when no shape fits |
| `BusinessHours.FindFromLeftmost` | utils/mapApi.js:258-259 | the search finds nothing exactly when no offset matches; otherwise it returns the captures at the first offset that matches |
| `BusinessHours.FindWindow` | utils/mapApi.js:258-259 | `opentime.match(...)` finds the leftmost window of the text, or none when no offset matches |
| `BusinessHours.Status.Label` | utils/mapApi.js:249-280 | each status shows one of the four texts getBusinessStatus returns: "营业时间未知", "营业中", "即将打烊" and "已打烊" |
| `BusinessHours.LabelIdentifiesStatus` | utils/mapApi.js:249-280 | two statuses show the same text exactly when they are the same status, so `HoursUnknown`, `Open`, `ClosingSoon` and `Closed` stand for those four texts one to one |
| `BusinessHours.WindowStatus` | utils/mapApi.js:265-276 | `Open` ("营业中") exactly when open ≤ now < close − 60. `ClosingSoon` ("即将打烊") exactly when open ≤ now, close − 60 ≤ now and now < close. `Closed` ("已打烊") exactly when now < open or now ≥ close. `HoursUnknown` ("营业时间未知") never |
| `BusinessHours.GetBusinessStatus` | utils/mapApi.js:249-280 | unknown exactly when the text is absent or empty, or has no window; otherwise the status of the leftmost window at the given time of day |
| `BusinessHours.OvernightAlwaysClosed` | utils/mapApi.js:268-276 | a window whose close is not after its open (one past midnight) reads as closed at every time of day |
| `BusinessHours.UnknownWithoutWindow` | utils/mapApi.js:249-280 | absent text, "" and "garbage" all give "营业时间未知" |
| `BusinessHours.TenToTen` | utils/mapApi.js:257-276 | "10:00-22:00" reads as open at 10:30, closing soon at 21:30 and closed at 23:00 |
| `BusinessHours.FirstWindowDecides` | utils/mapApi.js:258-276 | when a text has two windows, the first one decides: 08:45 against "07:30-09:00 … 17:00-22:00" is closing soon |
| `BusinessHours.NoMatchAtLetter` | utils/mapApi.js:258 | no match starts at a character that is not a digit |
| `Restaurants.ResolveOptions` | utils/mapApi.js:182-190 | each of the seven recognised options is the caller's value when given, and its default otherwise |
| `Restaurants.DefaultSearch` | utils/mapApi.js:181-190 | with no options the query is keywords "美食", types "050000", radius 5000, sortrule "distance", page_size 20, page_num 1, show_fields "business,photos" |
| `Restaurants.UnrecognisedOptionsDropped` | utils/mapApi.js:182-205 | removing every unrecognised option leaves the query unchanged |
| `Restaurants.ToRestaurant` | utils/mapApi.js:209-225 | identity fields are carried over. rating, cost and opentime default to "" and photos to []. businessStatus is the classification of `business?.opentime_today` and agrees with the opentime text shown |
| `Restaurants.ToRestaurants` | utils/mapApi.js:208-225 | the list has the same length as `pois`, and element i is the projection of POI i |
| `Restaurants.ToRestaurantsAppend` | utils/mapApi.js:209 | mapping a concatenation is the concatenation of the mapped parts, so order is kept |
| `Restaurants.InterpretSearch` | utils/mapApi.js:206-239 | status "1" yields one record per POI, in order; an absent list counts as empty, and count passes through. Any other status yields `info` or "查询失败". A transport failure yields "网络请求失败". An error is never empty |
| `Restaurants.NoPoisIsEmptySuccess` | utils/mapApi.js:207-231 | a successful response without `pois` is an empty success, which callers can tell from a failure |
| `Restaurants.GetNearbyRestaurants` | utils/mapApi.js:181-242 | the request carries the coordinates and each of the seven options as given or defaulted. The result succeeds exactly on status "1", with as many records as POIs, and is the interpretation of the answer: each record is the mapped POI with its business status, `count` passes through, and failures carry `info || "查询失败"` or "网络请求失败" |
| `TimeUtils.MealPeriod.Key` | utils/timeUtils.js:11-17 | the `key` of the returned object is one of "breakfast", "lunch", "dinner" and "supper" |
| `TimeUtils.MealPeriod.Name` | utils/timeUtils.js:11-17 | the `name` of the returned object is one of "早餐时间", "午餐时间", "晚餐时间" and "夜宵时间" |
| `TimeUtils.PeriodIdentifiedByKeyAndName` | utils/timeUtils.js:11-17 | the key alone, and the name alone, each identify the period, so the four `{key, name}` pairs are distinct |
| `TimeUtils.GetMealPeriod` | utils/timeUtils.js:7-19 | breakfast exactly for hours 6-9, lunch for 10-17 (17 included, by branch order), dinner for 18-20, supper for every other hour; so each hour gets exactly one period |
| `TimeUtils.Available` | utils/timeUtils.js:29 | the filtered list holds exactly the foods not excluded. Each kept food appears as often as in foodList; each excluded food does not appear |
| `TimeUtils.AvailableAppend` | utils/timeUtils.js:29 | filtering keeps order: the filter of a concatenation is the concatenation of the filters |
| `TimeUtils.RandomIndex` | utils/timeUtils.js:35 | `Math.floor(random * n)` is a valid index for every random in [0, 1) |
| `TimeUtils.RandomIndexReachesAll` | utils/timeUtils.js:35 | every index below n is drawn by some random value in [0, 1) |
| `TimeUtils.GetRandomFood` | utils/timeUtils.js:27-37 | null exactly when every food is excluded, an empty list included. Otherwise the result is an element of the filtered list, so in foodList and not in excludeList |
| `TimeUtils.RandomFoodDefaultExclusion` | utils/timeUtils.js:27-33 | with the default empty exclusion list, a non-empty foodList never gives null |
| `TimeUtils.RandomFoodOnlyRemaining` | utils/timeUtils.js:27-37 | excluding "a" and "b" from ["a", "b", "c"] always gives "c"; excluding "a" from ["a"] gives null |
| `TimeUtils.PadStart` | utils/timeUtils.js:45-46 | the padded string has at least the requested width, ends with the original, and is '0' before it |
| `TimeUtils.TwoDigits` | utils/timeUtils.js:45-46 | below 100, the padded decimal is two digits that read back as the number |
| `TimeUtils.FormatCurrentTime` | utils/timeUtils.js:43-48 | for a valid hour and minute: five characters, ':' at index 2, and each side two digits that read back as the hour and the minute |
| `TimeUtils.FormatNineOhFive` | utils/timeUtils.js:43-48 | 9 and 5 format as "09:05" |
| `Digits.DecimalString` | utils/timeUtils.js:45-46 | `String(n)` is a non-empty digit string, one character long exactly below 10, and starting with '0' only for 0 |
| `Digits.ValueOfDecimalString` | utils/timeUtils.js:45-46 | reading back `String(n)` gives n |
| `Digits.ValueOfZeroPrefix` | utils/timeUtils.js:45-46 | leading zeros from padding do not change the value read back |
| `Digits.ValueShort` | utils/mapApi.js:260-263 | `parseInt` of a one- or two-digit group is its decimal value below 100 ("09" is 9) |

## Left out

- `getUserLocation` and the two `uni.request` calls: host positioning and HTTP transport are I/O. Their outcomes are parameters, and the callbacks and Promise wrapping are not modelled.
- The query strings sent to the services (`key`, `location` as text, `extensions`, `output`), `AMAP_KEY` and `API_BASE_URL`: these are constants passed to an external service. The nearby-search request is modelled as the coordinates plus the resolved options.
- `console.log` and `console.error`: logging, with no effect on behaviour.
- `calculateDistance`: floating-point trigonometry and rounding, which cannot be stated faithfully over Dafny's exact reals.
- `GeoCache.Quantise`: coordinates are exact reals, not doubles, so it does not model the binary rounding of `toFixed(4)`. It also does not model that a small negative value prints as "-0.0000", which gives it a different key from "0.0000".
- `Date.now()`, `new Date()` and `Math.random()`: each reading is an explicit parameter.
- `Restaurants.ToRestaurants`: `getBusinessStatus` reads the clock once per POI; the model judges the whole list at one time of day.
- Concurrent `getCurrentAddress` calls that both miss and both issue a request: that is asynchronous interleaving, while the model runs one call at a time.
- JSON payload fields are modelled as strings. Values the service may put in their place (null, or an empty array for a missing city or name, which JavaScript treats as truthy) are not modelled.
- A geocoding answer with status "1" whose `regeocode` lacks `addressComponent`: the JavaScript throws inside the request callback, and the promise never settles. The model requires the component to be present.
