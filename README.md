# API response deserialization of esp32-weather-epd, in Dafny

The weather display downloads three JSON documents and turns each into a
fixed-capacity record in the caller's memory:

- the OpenWeatherMap One Call response (current conditions, 48 hours,
  8 days, weather alerts);
- the OpenWeatherMap air-pollution response (one coordinate, 24 hourly
  samples);
- the USGS seismic feed, of which only the event nearest to the display's
  location is kept.

This project models the three deserializers of
`platformio/src/api_response.cpp` and the records of
`platformio/include/api_response.h`, and proves what they do.

Layout, one module per file:

- `wrappers.dfy` (`Wrappers`): `Option` and `Result`.
- `ints.dfy` (`Ints`): the fixed-width integer types of the records and
  the narrowing of an `int64_t` into a `uint8_t`.
- `json.dfy` (`Json`): the parsed document and the ArduinoJson behaviour
  the deserializers rely on:
  - `v[key]` and `v[i]` read null when absent;
  - `.as<T>()` for a number or an integral `T` converts numbers and
    booleans (truncating a float toward zero, and yielding 0 for an integer
    outside the width of `T`), yields the empty text or 0 for null, arrays
    and objects, and is taken to yield 0 for any text;
  - a range-for over `as<JsonArray>()` visits nothing unless the value is
    an array;
  - subscript assignment into a filter document creates objects and
    arrays only where the value is null;
  - `Filter`: what parsing under a filter document keeps.
- `records.dfy` (`Records`): the capacities and the records. `usgs_feature_t`,
  `owm_resp_onecall_t`, `owm_components_t` and `owm_resp_air_pollution_t`
  are classes, because the deserializers write into them in place; their
  arrays are allocated with exactly their capacity.
- `extract.dfy` (`Extract`): the Bounded Extractor, i.e. what each
  element of the document becomes in the record. Also `Overlay`, which is
  what a bounded copy loop leaves in a fixed array, and the alert
  accumulation.
- `nearest.dfy` (`NearestEvent`): the selection of the nearest seismic
  event, a running minimum starting at `FLT_MAX` with a strict comparison.
- `field_selector.dfy` (`FieldSelector`): the filter documents.
  - The Field Selector builds them assignment by assignment, as the source
    does.
  - It proves the trees they denote.
  - It proves what parsing under them keeps of a response.
- `deserialize.dfy` (`Deserialize`): the three deserializers. Each returns
  the parser's error and leaves the record untouched, or fills the record
  in place and returns `Ok`.

The JSON tokenizer is the library's. Each deserializer therefore takes the
parser's outcome:

- One Call and seismic: a function from a filter document to a parsed
  document or an error, because these two build a filter first.
- Air pollution: the outcome itself, because it parses without a filter.

The lemmas of `FieldSelector` about what a filter keeps assume that the
parser applies `Filter(filter, raw)` to the unfiltered document `raw`.

Two consequences of the code as written are proved rather than assumed.

1. The One Call filter (lines 44-63) does not list `lat`, `lon`, `timezone`
   or `timezone_offset`. Parsing under it drops those members, so lines
   80-83 always store 0, 0, the empty text and 0
   (`FieldSelector.OneCallLocationIsAlwaysDefault`).
2. The seismic filter (lines 276-282) sets `features` to `true` first.
   A `true` member cannot be subscripted, so the three assignments below
   `features[0]` assign nothing. The filter keeps each feature whole, its
   `bbox` and `id` included (`FieldSelector.BuildUsgsFilter`,
   `FieldSelector.UsgsFilterKeeps`).

`deserializeUSGSEarthquake` is modelled as defined in the `.cpp`, filling
one `usgs_feature_t`. The declaration at `api_response.h` lines 311-312
names a `usgs_earth_resp_t` instead, and no code fills that type. The
build-time switch `DISPLAY_ALERTS` is the parameter `displayAlerts`.

## Model

| member | source | states |
|---|---|---|
| Records.OneCallResponse.constructor | platformio/include/api_response.h:171-183 | a zeroed One Call record whose hourly and daily arrays have capacities 48 and 8, and whose alert list is empty |
| Records.Components.constructor | platformio/include/api_response.h:282-292 | eight distinct zeroed pollutant arrays of 24 slots each |
| Records.AirPollutionResponse.constructor | platformio/include/api_response.h:297-303 | a zeroed air-pollution record: a zero coordinate and a zero sample in every one of the 24 slots |
| Records.Feature.constructor | platformio/include/api_response.h:256-261 | a zeroed seismic feature: zero properties, zero geometry, empty id |
| Ints.ToUInt8 | platformio/src/api_response.cpp:330 | storing an `int64_t` into a `uint8_t` keeps it modulo 256, and keeps it unchanged when it is in 0..255 |
| Json.AsInt64 | platformio/src/api_response.cpp:86 | defines `.as<int64_t>()` as the conversion of `Json.AsIntIn` into the 64-bit range |
| Json.AsInt32 | platformio/src/api_response.cpp:83 | defines `.as<int>()` as the conversion of `Json.AsIntIn` into the 32-bit range |
| Json.AsFloat | platformio/src/api_response.cpp:80 | defines `.as<float>()`: a number as it is, a boolean as 1 or 0, anything else as 0 |
| Json.AsText | platformio/src/api_response.cpp:82 | defines `.as<const char *>()` stored into a `String`: the text of a string value, and the empty text for any other value |
| Json.SetPath | platformio/src/api_response.cpp:44-62 | defines a subscript assignment: null nodes on the path become the object or array the subscript asks for, and a path through any other non-container node leaves the document as it was |
| Json.Filter | platformio/src/api_response.cpp:66-67 | defines what parsing under a filter keeps: everything below `true`, the listed truthy members of an object, every element of an array through the array filter's first entry, and nothing else |
| Json.TruncateTowardZero | platformio/src/api_response.cpp:86 | a float read as an integer is truncated toward zero, for negative values too |
| Json.AsIntIn | platformio/src/api_response.cpp:83-94 | `.as<int>()` and `.as<int64_t>()` always yield a value of the target width: the integral value when it fits, 0 when it does not fit or the value is not a number |
| Json.PadTo | platformio/src/api_response.cpp:56 | subscripting an array past its end pads it with nulls and keeps the existing elements |
| Json.GetFiltered | platformio/src/api_response.cpp:66-67 | under an object filter, a listed member comes through filtered by its entry, a member whose entry is `true` comes through unchanged, an unlisted or `false` member is dropped, and a non-object is dropped whole |
| Extract.ExtractWeather | platformio/src/api_response.cpp:102-106 | defines the first `weather` entry's `id`, `main`, `description` and `icon`, each read from the member of that name |
| Extract.ExtractCurrent | platformio/src/api_response.cpp:85-106 | defines the current conditions: each field read from the member of that name with the field's width, `rain` and `snow` from their `1h` member, and the weather from `weather[0]` |
| Extract.ExtractHourly | platformio/src/api_response.cpp:125-144 | defines one hourly slot the same way, with `pop` added and without sunrise and sunset |
| Extract.ExtractDaily | platformio/src/api_response.cpp:156-190 | defines one daily slot, with the day-part temperatures from `temp` and `feels_like`, and `rain` and `snow` read as plain numbers |
| Extract.ExtractAirSample | platformio/src/api_response.cpp:248-260 | defines one air-quality sample: `main.aqi`, the eight `components`, and `dt` |
| Extract.AppendedAlerts | platformio/src/api_response.cpp:199-218 | defines the alert list after the loop: the prior list followed by the first min(n, 8) extracted alerts, or the prior list alone when alerts are not displayed |
| Extract.LonOf | platformio/src/api_response.cpp:311 | defines a feature's longitude as `geometry.coordinates[0]` |
| Extract.LatOf | platformio/src/api_response.cpp:312 | defines a feature's latitude as `geometry.coordinates[1]` |
| Extract.GeometryOf | platformio/src/api_response.cpp:318-321 | defines the geometry a winner writes: latitude and longitude from the coordinates, depth from `geometry.depth` |
| Extract.Overlay | platformio/src/api_response.cpp:122-151 | a bounded copy into a fixed array keeps the array's length, writes element k into slot k for every k below the source's length, and leaves the other slots as they were |
| Extract.OverlayIdempotent | platformio/src/api_response.cpp:122-197 | deserializing the same forecast twice leaves the same hourly and daily arrays as deserializing it once |
| Extract.OverlayTruncates | platformio/src/api_response.cpp:145-149 | a source at least as long as the array overwrites every slot with its own first elements, so later elements are ignored |
| Extract.ExtractAlert | platformio/src/api_response.cpp:203-209 | an alert record keeps `sender_name` and `description` empty, takes `tags` from the first tag, and otherwise equals the zeroed alert except for `event`, `start` and `end` |
| Extract.AppendedAlertsKeepPrior | platformio/src/api_response.cpp:199-218 | the alert loop keeps every alert the list already held as a prefix, appends min(n, 8) alerts, and the k-th appended alert is made from the k-th alert of the document; with alerts not displayed the list is unchanged |
| Extract.AlertsAccumulate | platformio/src/api_response.cpp:210 | the list is never cleared: deserializing a response with alerts twice leaves more alerts than deserializing it once |
| Extract.NonObjectElementIsDefault | platformio/src/api_response.cpp:123 | an element that is not an object fills its slot with the zeroed record |
| Extract.MissingWindGustIsZero | platformio/src/api_response.cpp:98 | a missing `wind_gust` is no error: it reads as 0 |
| Extract.GeometryOfPoint | platformio/src/api_response.cpp:309-321 | for a GeoJSON point [lon, lat, z] the stored geometry has latitude and longitude in record order, and the depth is not the third coordinate but 0 when `geometry` has no `depth` member |
| Extract.Digits | platformio/src/api_response.cpp:329 | the decimal digits of a non-negative number, without leading zeros, read back as that number |
| Extract.DecimalText | platformio/src/api_response.cpp:329 | an `int64_t` stored into a `String` becomes a decimal text, with a leading minus exactly when it is negative, that reads back as the same number |
| Extract.DecimalTextInjective | platformio/src/api_response.cpp:329 | distinct statuses are stored as distinct texts |
| Extract.UpdateProperties | platformio/src/api_response.cpp:323-332 | a winning feature changes exactly `mag`, `place`, `time`, `updated`, `alert`, `status`, `tsunami`, `dmin` and `type`; every other property keeps its prior value |
| Extract.UpdatePropertiesOverwrites | platformio/src/api_response.cpp:311-333 | a later winner overwrites everything an earlier winner wrote |
| Extract.TextStatusIsStoredAsZero | platformio/src/api_response.cpp:329 | a textual `status` such as "reviewed" is read as an integer and so is always stored as "0" |
| NearestEvent.IsNearest | platformio/src/api_response.cpp:303-335 | defines the intended winner independently of the pass: the earliest feature at the least distance, that distance below `FLT_MAX` |
| NearestEvent.Nearest | platformio/src/api_response.cpp:303-335 | the feature left in the record by the running minimum: when there is one, it is below `FLT_MAX`, strictly nearer than every earlier feature, and no farther than any later one; when there is none, every distance is at least `FLT_MAX` |
| NearestEvent.NearestIsTheEarliestMinimum | platformio/src/api_response.cpp:303-335 | the running minimum picks k if and only if k is the earliest feature at the least distance and that distance is below `FLT_MAX` |
| NearestEvent.NearestStep | platformio/src/api_response.cpp:313-317 | each feature wins exactly when its distance is strictly below the running minimum of the features before it |
| NearestEvent.TieGoesToTheFirst | platformio/src/api_response.cpp:315 | of two features at the same distance, the later one never wins, because the comparison is strict |
| NearestEvent.SomeCandidateWins | platformio/src/api_response.cpp:303-335 | one feature below `FLT_MAX` is enough for a winner, and the winner is no farther than any feature |
| NearestEvent.TwoCandidates | platformio/src/api_response.cpp:315-316 | of features at distances d1 < d5 below `FLT_MAX`, the first one wins |
| FieldSelector.OneCallFilter | platformio/src/api_response.cpp:44-63 | defines the reference tree of the One Call filter, against which its construction is proved |
| FieldSelector.UsgsFilter | platformio/src/api_response.cpp:276-282 | defines the reference tree of the seismic filter, against which its construction is proved |
| FieldSelector.SetAlertEntryKey | platformio/src/api_response.cpp:56-61 | one assignment `filter["alerts"][i][key] = value` updates that key of entry i and nothing else |
| FieldSelector.StartAlertEntry | platformio/src/api_response.cpp:56 | the first assignment to slot i appends a new entry to the alert array, and creates the array when i is 0 |
| FieldSelector.AssignAlertEntryHead | platformio/src/api_response.cpp:56-58 | the first three assignments of a pass append an entry for slot i holding `sender_name`, `event` and `start` |
| FieldSelector.AssignAlertEntryTail | platformio/src/api_response.cpp:54-62 | the last three complete that entry, so one pass of the loop adds exactly one copy of the alert entry |
| FieldSelector.BuildOneCallFilter | platformio/src/api_response.cpp:44-63 | the filter built: `current`, `hourly` and `daily` kept, `minutely` dropped, and `alerts` either dropped or kept as 8 entries that drop `sender_name` and `description` and keep `event`, `start`, `end` and `tags` |
| FieldSelector.SubscriptBelowScalarIsIgnored | platformio/src/api_response.cpp:280-282 | an assignment through a member that holds a boolean changes nothing |
| FieldSelector.BuildUsgsFilter | platformio/src/api_response.cpp:276-282 | the filter built drops `type` and `metadata` and keeps `features` whole; the three `features[0]` assignments have no effect |
| FieldSelector.OneCallMemberFilters | platformio/src/api_response.cpp:44-63 | the One Call filter's entry for every member the deserializer reads: `true` for current, hourly and daily, `false` for minutely, none for lat, lon, timezone and timezone_offset |
| FieldSelector.OneCallFilterKeeps | platformio/src/api_response.cpp:44-83 | under the One Call filter `current`, `hourly` and `daily` come through unchanged, while `minutely` and the four location members are dropped |
| FieldSelector.OneCallLocationIsAlwaysDefault | platformio/src/api_response.cpp:44-83 | after a filtered parse the record's lat, lon, timezone and timezone_offset are always 0, 0, "" and 0 |
| FieldSelector.OneCallFilterAlerts | platformio/src/api_response.cpp:49-62 | with alerts not displayed the `alerts` subtree is dropped; with them displayed every alert, not only the first 8, comes through the alert entry |
| FieldSelector.AlertMemberFilters | platformio/src/api_response.cpp:56-61 | the alert entry is `true` for `event`, `start`, `end` and `tags` and `false` for `sender_name` and `description` |
| FieldSelector.AlertFilterKeeps | platformio/src/api_response.cpp:51-61 | an alert keeps `event`, `start`, `end` and `tags` and loses `sender_name` and `description` |
| FieldSelector.OneCallFilterKeepsWhatIsRead | platformio/src/api_response.cpp:44-217 | current conditions, forecasts and appended alerts are the same whether the response is parsed with the filter or without it |
| FieldSelector.UsgsFilterKeeps | platformio/src/api_response.cpp:276-286 | under the seismic filter `type` and `metadata` are dropped and `features` comes through unchanged, each feature's `bbox`, `id` and `properties` included |
| Deserialize.DeserializeOneCall | platformio/src/api_response.cpp:39-221 | on a parse error nothing in the record changes and the error is returned; otherwise Ok, the location and current conditions are overwritten, hourly and daily are overlaid with the document's elements, the alert list grows by the document's first 8 alerts when alerts are displayed, and the record's capacities are kept |
| Deserialize.StoreLocationAndCurrent | platformio/src/api_response.cpp:80-106 | the location fields and the current conditions are overwritten with what the document holds, and the alert list is not touched |
| Deserialize.FillSlots | platformio/src/api_response.cpp:122-197 | the hourly (or daily) array becomes the overlay of the document's extracted elements on its old contents: slot k holds element k for k below min(n, capacity), later slots keep their values |
| Deserialize.AppendAlerts | platformio/src/api_response.cpp:200-217 | the list grows by exactly the first min(n, 8) alerts, in order, and no other field changes |
| Deserialize.FillSamples | platformio/src/api_response.cpp:245-267 | slot k of every parallel array holds sample k for k < min(n, 24), and later slots keep their values |
| Deserialize.StoreSample | platformio/src/api_response.cpp:248-260 | slot i of all ten parallel arrays holds sample i, and no other slot changes |
| Deserialize.DeserializeAirQuality | platformio/src/api_response.cpp:223-270 | on a parse error nothing changes and the error is returned; otherwise Ok, the coordinate is overwritten, slot k of every array holds sample k for k < min(n, 24), and later slots keep their values |
| Deserialize.StoreWinner | platformio/src/api_response.cpp:316-332 | a winning feature's geometry and its nine read properties are written, the other properties and `id` keep their values |
| Deserialize.DeserializeUsgsEarthquake | platformio/src/api_response.cpp:272-339 | on a parse error nothing changes and the error is returned; otherwise Ok. The record holds the geometry and the nine read properties of the earliest feature at the least distance below `FLT_MAX`, other properties keep their values, and `id` is never written; with no such feature the record is unchanged |

## Left out

- Reading from the `WiFiClient` and the JSON tokenizer are the library's
  and not modelled. The parse outcome is a parameter, and the filter
  lemmas assume the parser applies `Filter`.
- The library's memory limits and `doc.overflowed()` are not modelled.
  `NoMemory` is only one of the error codes the parse outcome may carry.
  The debug output at lines 69-75, 231-237 and 292-298 is not modelled.
- `calculateDistance` (the haversine formula, lines 26-37) is floating
  point and is not modelled. The deserializer takes the distance as the
  parameter `dist`. The selection is proved for every distance function.
- `float` values are exact reals: rounding to single precision and
  overflow to infinity are not modelled. The same holds for the
  comparison against `FLT_MAX`.
- Json.AsIntIn: numeric texts read as 0 here, whereas the library parses
  a text such as "12" as 12. The response fields are numbers.
- Json.AsFloat: numeric texts read as 0.0 here, whereas the library parses
  a text such as "1.5" as 1.5. The response fields are numbers.
- Extract.TextStatusIsStoredAsZero: holds for every text only because
  numeric texts are not parsed; the library would store "12" for the
  status text "12". The feed's statuses are words such as "reviewed".
- Extract.DecimalText: the decimal text that an `int64_t` produces when
  stored into a `String` is assumed to be its plain base-10 rendering.
- The minutely loop (lines 108-120) is commented out in the source, and
  `owm_minutely_t` is not filled.
- `usgs_metadata_t`, `usgs_bbox_t` and `usgs_earth_resp_t` are declared
  but never filled, and are not modelled. `USGS_NUM_SIG_EVENTS` sizes the
  feature array of `usgs_earth_resp_t` (header line 266) and
  `USGS_NUM_GEOMETRY` is never used; both are declared for completeness.
- Object member order is not kept, since an object is a map. Duplicate
  keys in a response are not modelled.
- Allocation of `String` and `std::vector` storage is not modelled. The
  alert list is an unbounded sequence.
