# aiowaqi core, modelled in Dafny

This project models the core of `aiowaqi`, an asynchronous Python client for the
World Air Quality Index (WAQI) API. It covers three parts of the library:

- **Converters** (`converters.dfy`, module `Converters`). These turn a pollutant's
  AQI sub-index back into a concentration. Each one checks its input, picks a
  breakpoint segment by a chain of range tests, interpolates linearly
  (`inv_linear`) and rounds. PM2.5 and CO round to one decimal; PM10, 8-hour
  ozone, 1-hour ozone and NO2 round to an integer (`to_int`).
- **Record builders** (`models.dfy`, module `Models`, and `util.dfy`, module
  `Util`). Each `from_dict` turns part of a decoded feed into a record:
  - `Attribution`, `Location`/`Station`, `City`;
  - `WAQIExtendedAirQuality`, with the five derived concentrations;
  - `WAQIAirQuality`, with the overall index, dominant pollutant and measurement time;
  - `WAQISearchResult`.

  `to_nullable_enum` looks up the dominant pollutant. For an unknown value it
  logs a warning and returns None.
- **Response classification** (`waqi.dfy`, module `Waqi`). This is the decision
  logic of `_request`, `get_by_city`, `get_by_name`, `get_by_station_number`,
  `get_by_coordinates` and `get_by_ip`. It decides whether a response is an API
  error, and which one, or hands its `data` to `WAQIAirQuality.from_dict`.

The model works on these values:

- The decoded JSON payload is the value `Payload.Json`. `Null` stands for Python's `None`.
- The Python operations the code applies are written out in `payload.dfy`. Each
  one returns the exception Python would raise for an unexpected shape:
  - `d[key]` and `seq[i]`;
  - `d.get(key, default)`;
  - `key in x`, for a dict, a str or a list;
  - truthiness;
  - `str.strip()`, with the full `str.isspace` set;
  - `int(x)`, with Python's literal grammar: sign, surrounding whitespace and single
    underscores. `int()` never skips the separators U+001C-U+001F, although
    `str.isspace` counts them as whitespace, so a string holding one is rejected.
    Python 3.11's limit of 4300 digits on decimal conversion is not modelled.
- Exceptions are one datatype, `Exceptions.Exception`.
- A log call is returned as a `Util.Warning` value next to the result. The
  warnings of `AirQualityFromDict` stay logged even when a later field raises.

Arithmetic is exact:

- A converter's input is a real number, a NaN or a non-number (`Converters.AqiInput`).
- Python's `round` is round-half-to-even (`Converters.RoundHalfEven`).

## Model

| member | source | states |
|---|---|---|
| Converters.InvLinear | src/aiowaqi/converters.py:4-24 | the result lies on the straight line through (aqi_low, conc_low) and (aqi_high, conc_high) and meets both endpoints |
| Converters.InvLinearWithin | src/aiowaqi/converters.py:4-24 | inside a segment the interpolant stays between the two concentration breakpoints |
| Converters.InvLinearMonotone | src/aiowaqi/converters.py:4-24 | the interpolant never decreases as aqi grows over a rising segment |
| Converters.RoundHalfEven | src/aiowaqi/converters.py:27-29 | `to_int` gives an integer within 0.5 of the value, the even one on a tie |
| Converters.RoundHalfEvenUnique | src/aiowaqi/converters.py:27-29 | those two conditions determine the rounded integer |
| Converters.RoundHalfEvenMonotone | src/aiowaqi/converters.py:27-29 | rounding preserves order |
| Converters.RoundHalfEvenBetween | src/aiowaqi/converters.py:27-29 | rounding a value between two integers stays between them |
| Converters.RoundToTenthNearest | src/aiowaqi/converters.py:38-51 | `round(x, 1)` gives a whole number of tenths within 0.05 of x |
| Converters.Pm25Segment | src/aiowaqi/converters.py:40-51 | the PM2.5 chain selects a rising segment whose breakpoints are whole tenths; the segment contains aqi, except above 500 and for 300 < aqi < 301 |
| Converters.Pm10Segment | src/aiowaqi/converters.py:63-74 | the PM10 chain selects a rising segment with integer breakpoints; the segment contains aqi, except above 500 and for 300 < aqi < 301 |
| Converters.CoSegment | src/aiowaqi/converters.py:88-99 | the CO chain selects a rising segment whose breakpoints are whole tenths; the segment contains aqi, except above 500 and for 300 < aqi < 301 |
| Converters.Ozone8hSegment | src/aiowaqi/converters.py:111-120 | the 8-hour ozone chain selects a rising segment with integer breakpoints; the segment contains aqi, except above 500 and for 300 < aqi < 301 |
| Converters.Ozone1hSegment | src/aiowaqi/converters.py:135-142 | the 1-hour ozone chain selects a rising segment with integer breakpoints; the segment contains aqi, except above 500 and for 300 < aqi < 301 |
| Converters.No2Segment | src/aiowaqi/converters.py:154-165 | the NO2 chain selects a rising segment with integer breakpoints; the segment contains aqi, except above 500 and for 300 < aqi < 301 |
| Converters.AqiToPm25 | src/aiowaqi/converters.py:32-54 | "AQI must be a non-negative number" exactly for a non-number or a negative input; any result is non-negative |
| Converters.AqiToPm10 | src/aiowaqi/converters.py:57-77 | the same guard; any result is a non-negative integer |
| Converters.AqiToCo | src/aiowaqi/converters.py:80-102 | the same guard; any result is non-negative |
| Converters.AqiToO3EightHour | src/aiowaqi/converters.py:105-123 | the same guard; any result is a non-negative integer |
| Converters.AqiToO3OneHour | src/aiowaqi/converters.py:126-145 | the same guard; any result is a non-negative integer |
| Converters.AqiToNo2 | src/aiowaqi/converters.py:148-168 | the same guard; any result is a non-negative integer |
| Converters.RoundForMonotone | src/aiowaqi/converters.py:27-29 | both roundings the converters use preserve order |
| Converters.GuardPrecedesRangeTests | src/aiowaqi/converters.py:34-36 | for all six converters, the non-negative-number error comes before every range test and from nothing else |
| Converters.NaNMatchesNoSegment | src/aiowaqi/converters.py:32-168 | a NaN passes the guard and fails every range test; 8-hour ozone reports "For AQI > 300, use 1-hour Ozone values", the others "AQI out of range" |
| Converters.ParticulateAndCoDomain | src/aiowaqi/converters.py:32-102 | PM2.5, PM10 and CO reject exactly the gaps between integer segments (including 300 < aqi < 301) and accept everything else, above 500 too |
| Converters.NitrogenDioxideDomain | src/aiowaqi/converters.py:148-168 | NO2 rejects only the gaps below 201; every aqi > 300 uses the 301-500 segment |
| Converters.Ozone8hDomain | src/aiowaqi/converters.py:105-123 | 8-hour ozone raises "use 1-hour Ozone values" exactly for the gaps and for aqi > 300 |
| Converters.Ozone1hDomain | src/aiowaqi/converters.py:126-145 | 1-hour ozone raises "use 8-hour Ozone values" for every aqi <= 100, rejects only its gaps above 100, and every aqi > 300 uses the 301-500 segment |
| Converters.ResultWithinSegment | src/aiowaqi/converters.py:32-168 | every accepted aqi up to 500 (outside 300 < aqi < 301) lies in the segment its chain selects, and both the interpolant and the rounded result lie between that segment's concentration breakpoints |
| Converters.InterpolantMonotone | src/aiowaqi/converters.py:32-168 | the selected interpolant is non-decreasing in aqi, except across 300 < aqi < 301 |
| Converters.ConcentrationMonotone | src/aiowaqi/converters.py:32-168 | every converter is non-decreasing over the inputs it accepts, except across 300 < aqi < 301 |
| Converters.TopSegmentExtrapolates | src/aiowaqi/converters.py:51-168 | above 500 every converter but 8-hour ozone uses the segment that holds 500, the result is that segment's line at aqi, rounded as the converter rounds, and it is at least the value at 500 |
| Converters.DropJustAbove300 | src/aiowaqi/converters.py:140-165 | 1-hour ozone (lines 141-142) and NO2 (lines 164-165) give a smaller result at 300.5 than at 300, because `aqi > 300` selects a segment that starts at 301 |
| Converters.InvLinearExample | tests/test_converters.py:108-113 | inv_linear(100, 0, 100, 0, 50) is 50 |
| Converters.Pm25Examples | tests/test_converters.py:16-33 | the PM2.5 expected values and invalid inputs |
| Converters.Pm10Examples | tests/test_converters.py:35-44 | the PM10 expected values |
| Converters.CoExamples | tests/test_converters.py:46-55 | the CO expected values |
| Converters.Ozone8hExamples | tests/test_converters.py:57-67 | the 8-hour ozone expected values and its error above 300 |
| Converters.Ozone1hExamples | tests/test_converters.py:69-79 | the 1-hour ozone expected values and its error at or below 100 |
| Converters.No2Examples | tests/test_converters.py:81-90 | the NO2 expected values |
| Util.FindByValue | src/aiowaqi/util.py:17-18 | `enum_class(value)` finds a member exactly when some member has that value, and the member found has it |
| Util.ToNullableEnum | src/aiowaqi/util.py:12-25 | a known value gives its member and no warning; any other value gives None and exactly one warning naming the value and `str(enum_class)` |
| Util.ToNullableEnumFindsTheMember | src/aiowaqi/util.py:17-18 | with distinct member values, looking up a member's value returns that member |
| Models.PollutantValuesDistinct | src/aiowaqi/models.py:15-24 | the seven pollutant values are distinct and every member is listed |
| Models.AttributionFromDict | src/aiowaqi/models.py:35-42 | succeeds exactly for a dict with `url` and a string `name`; copies `url`, strips `name`, takes `logo` or None; missing keys raise KeyError in reading order, a non-dict raises TypeError |
| Models.AttributionNameIsStripped | src/aiowaqi/models.py:40 | the stored name has no surrounding whitespace and stripping it again changes nothing |
| Models.AttributionsFrom | src/aiowaqi/models.py:188-191 | one attribution per list element, in order; on failure, the error of the first element that fails |
| Models.AttributionsFromValue | src/aiowaqi/models.py:188-191 | iterating the value: a list gives its elements' attributions in order; a str builds only when empty, because each one-character string it yields is not a dict; a dict builds only when empty; a non-iterable raises TypeError |
| Models.DictIterationAnyOrder | src/aiowaqi/models.py:188-191 | walking a dict's keys in any insertion order gives the same outcome as building from the dict: its first key, a str, fails with TypeError |
| Models.CoordinatesFrom | src/aiowaqi/models.py:67-70 | latitude and longitude are `geo[0]` and `geo[1]`; a `geo` list shorter than two fails |
| Models.LocationFromDict | src/aiowaqi/models.py:61-71 | succeeds exactly when `url`, `name` and the coordinates can be read, and copies them |
| Models.CityFromDict | src/aiowaqi/models.py:80-94 | `location` is required and read first; a falsy locality is stored as None, a truthy one as it is |
| Models.CityExtendsLocation | src/aiowaqi/models.py:74-94 | a city builds exactly when the same dict builds as a location and has `location`; url, name and coordinates agree |
| Models.AqiInputOf | src/aiowaqi/converters.py:34 | what the converter guard sees of a reading: ints, floats and bools (as 0 or 1) are numbers, everything else fails `isinstance` |
| Models.Reading | src/aiowaqi/models.py:125-129 | `iaqi.get(key, {}).get("v")` is the entry's `v`, or None when the entry or its `v` is absent; an entry that is not a dict raises AttributeError |
| Models.ExtendedFromDict | src/aiowaqi/models.py:122-153 | builds exactly when every entry read is absent or a dict and every present reading converts; each raw field is its reading, and each concentration is present exactly when its reading is, holding the converter's result |
| Models.ExtendedFromEmpty | src/aiowaqi/models.py:122-153 | an empty sub-index dict gives all fields None |
| Models.OzoneAbove300FailsBuild | src/aiowaqi/models.py:132 | an ozone sub-index above 300 makes the whole build raise "For AQI > 300, use 1-hour Ozone values" |
| Models.ConversionOrder | src/aiowaqi/models.py:131-132 | carbon monoxide is converted before ozone, so its error is the one raised |
| Models.OverallIndex | src/aiowaqi/models.py:171-173 | `int(aqi)` with ValueError suppressed: None exactly for a string that is not an int literal (the 4300-digit limit is not modelled, see Left out); a parsable string gives its value, an int is kept, a bool gives 0 or 1, a float is truncated toward zero; None, lists and dicts raise TypeError |
| Models.OverallIndexOfStrings | src/aiowaqi/models.py:171-173 | the placeholder "-" gives None, and `str(n)` gives back n (for any length of n; see Left out) |
| Models.OverallIndexWithSeparator | src/aiowaqi/models.py:171-173 | "\x1c42", which `int()` rejects, leaves the index None rather than failing the build |
| Models.DominantPollutant | src/aiowaqi/models.py:175-179 | "" gives None without a warning; a pollutant's value gives that pollutant; anything else gives None and one warning naming it |
| Models.MeasuredAt | src/aiowaqi/models.py:181-183 | for a dict `time`, a timestamp exactly when the key "iso" is present, taken from that key |
| Models.IndexFrom | src/aiowaqi/models.py:171-173 | the index is OverallIndex of `aqi`; a missing `aqi` raises KeyError("aqi") and a non-dict TypeError |
| Models.AirQualityRest | src/aiowaqi/models.py:181-196 | builds exactly when `time`, `idx`, `attributions`, `city` and `iaqi` are present and each builds, holding each sub-builder's result and `idx` as station id; a missing `time` raises KeyError("time") first |
| Models.AirQualityFromDict | src/aiowaqi/models.py:168-196 | builds exactly when the index coerces, `dominentpol` is present and every later field builds; then every field is its own builder's result for the matching key, with `idx` as station id; once `dominentpol` is read the warnings are exactly its lookup's, even if a later field fails, and none are logged before; it never raises a WAQI error |
| Models.MissingTimeKeepsWarnings | src/aiowaqi/models.py:175-183 | after the lookup, a missing `time` raises KeyError("time") and keeps the lookup's warnings |
| Models.UnknownTagWarns | src/aiowaqi/models.py:175-179 | the unrecognised tag "xyz" gives None and exactly one warning naming it and the Pollutant class |
| Models.WarningSurvivesLaterFailure | src/aiowaqi/models.py:175-183 | the warning for an unknown pollutant is logged even when `time` is then missing |
| Models.SearchResultFromDict | src/aiowaqi/models.py:207-218 | builds exactly when the index coerces, `uid` is present and `station` builds as a location; the index is coerced as for a feed, the station id is `uid` |
| Payload.Strip | src/aiowaqi/models.py:40 | `str.strip()` leaves no whitespace at either end and removes only whitespace |
| Payload.StripIdempotent | src/aiowaqi/models.py:40 | stripping twice is stripping once |
| Payload.ParseIntRoundTrip | src/aiowaqi/models.py:173 | `int(str(n)) == n` for every integer; Python 3.11+ guarantees this only for integers of at most 4300 digits (see Left out) |
| Payload.ParseIntRejectsSeparators | src/aiowaqi/models.py:173 | "42" parses to 42, but a leading U+001C or a trailing U+001F, which `str.strip()` would remove, makes `int()` raise |
| Payload.PyInt | src/aiowaqi/models.py:173 | `int(x)`: an int is kept, a bool is 0 or 1, a float is truncated toward zero, a str parses exactly when it is an int literal with optional surrounding whitespace other than U+001C-U+001F, and otherwise raises ValueError (the 4300-digit limit is not modelled, see Left out); None, lists and dicts raise TypeError |
| Payload.IsSubstringIffOccurs | src/aiowaqi/waqi.py:101 | `needle in text` holds exactly when the needle occurs at some position |
| Waqi.CheckResponse | src/aiowaqi/waqi.py:99-115 | a non-JSON content type raises WAQIError with the content type and the text; for JSON, "Invalid key" under an error status raises WAQIAuthenticationError and nothing else does; every other dict with `status` (and `data` when the status is "error") is returned unchanged; a missing key raises KeyError, a non-dict TypeError |
| Waqi.ClassifyCity | src/aiowaqi/waqi.py:117-123 | "Unknown station" under an error status raises WAQIUnknownCityError("Could not find city …"); anything else with `status` and `data` hands `data` on |
| Waqi.ClassifyName | src/aiowaqi/waqi.py:125-139 | `data` is read first; "Unknown station" or "no such station" under an error status, or a `data` object with status "error" and msg "Unknown ID", raises WAQIUnknownStationError("Could not find station …"); `data` is handed on exactly when it is none of these and the nested test can be evaluated, whatever the status, so other error texts are handed on |
| Waqi.NestedCheck | src/aiowaqi/waqi.py:133-138 | a `data` object with status "error" and msg "Unknown ID" raises WAQIUnknownStationError; `data` is handed on unchanged exactly when the nested test lets it through |
| Waqi.Classify | src/aiowaqi/waqi.py:117-158 | per operation: only the city lookup can raise WAQIUnknownCityError, only the name, station-number and IP lookups WAQIUnknownStationError, and the coordinate lookup hands on `data` whenever it is present; whatever is handed on is the payload's `data` |
| Waqi.GetAirQuality | src/aiowaqi/waqi.py:99-158 | a failed response check or a failed classification is the lookup's result, with nothing logged; otherwise the result is exactly the builder's outcome for the handed-on `data`; any WAQI error comes from the checks, never from the builder |
| Waqi.NonJsonIgnoresBody | src/aiowaqi/waqi.py:99-107 | a non-JSON response fails the same way whatever its body, on every operation |
| Waqi.MissingContentTypeIsUnexpected | src/aiowaqi/waqi.py:99-107 | a missing Content-Type header counts as "", which is not JSON |
| Waqi.InvalidKeyOnEveryOperation | src/aiowaqi/waqi.py:110-114 | "Invalid key" is an authentication error on every operation, before any operation-specific check |
| Waqi.CityAndNameClassifyDifferently | src/aiowaqi/waqi.py:120-138 | the same "Unknown station" payload is an unknown city for a city lookup and an unknown station for a name lookup; "no such station" is recognised by the name lookup only |
| Waqi.UnknownCityEndToEnd | src/aiowaqi/waqi.py:117-123 | a city lookup answered by "Unknown station" raises WAQIUnknownCityError naming the city and logs nothing |
| Waqi.UnknownStationEndToEnd | src/aiowaqi/waqi.py:125-139 | a name lookup answered by "Unknown station" or "no such station" raises WAQIUnknownStationError naming the station |
| Waqi.OverQuotaIsNotClassified | src/aiowaqi/waqi.py:110-139 | an unrecognised error text such as "Over quota" is classified by no operation; its string `data` reaches the builder, which raises TypeError |
| Waqi.StringDataReachesBuilder | src/aiowaqi/waqi.py:123 | string `data` handed to the builder raises TypeError |
| Waqi.NestedUnknownId | src/aiowaqi/waqi.py:133-143 | a station-number lookup whose `data` reports "Unknown ID" is an unknown station "@n" even when the top-level status is "ok" |
| Waqi.StationNumberIsNameLookup | src/aiowaqi/waqi.py:141-143 | a station-number lookup behaves exactly as a name lookup of "@" followed by the number |
| Waqi.IpIsNameLookup | src/aiowaqi/waqi.py:154-158 | an IP lookup behaves exactly as a name lookup of "here" |
| Waqi.StatusNotRequiredToBeOk | src/aiowaqi/waqi.py:117-123 | a city or coordinate lookup hands `data` on whatever the status is, if it is not "error" |
| Waqi.CoordinatesClassifyNothing | src/aiowaqi/waqi.py:145-152 | the coordinate lookup hands on even an "Unknown station" error payload |

### The model follows the code as written

- PM10 at AQI 150 is 254: the 101-150 segment ends at 254, and 255 starts the next one.
- The PM2.5 top segment (301-500) ends at 325.4 µg/m³.
- An unknown `dominentpol` becomes None, with one warning. There is no sentinel member.
- An 8-hour ozone sub-index above 300 in a feed makes `WAQIAirQuality.from_dict` raise.
- NO2 and 1-hour ozone drop just above 300. Their last test is `aqi > 300`, but
  their segment starts at 301. So NO2 gives 1249 at 300 and 1248 at 300.5, and
  1-hour ozone gives 404 at 300 and 403 at 300.5 (`Converters.DropJustAbove300`).

## Left out

- HTTP and sessions: sending the request, the aiohttp session and its ownership,
  `close`, the async context manager, `async_timeout` and `WAQIConnectionError`.
  These are asynchronous I/O. The response arrives as a `Waqi.Response` value.
- URL building: the path and query of each request, the "search" to "search/"
  rewrite, and the User-Agent header, which is built from the package version.
  These only route requests. So the coordinates in `Waqi.ByCoordinates` are carried but unused.
- The `search` call, which maps `WAQISearchResult.from_dict` over `data`. This is
  list plumbing around a builder that is modelled (`Models.SearchResultFromDict`).
- JSON decoding: the decoder itself, its failures and the text-to-value step.
  The body arrives both as text and as decoded JSON.
- `datetime.fromisoformat`: the timestamp is kept as the raw `iso` value
  (`Models.Timestamp`), so its parse errors are not modelled.
- Floating point: values are exact reals. So binary representation effects in
  `inv_linear` and `round` are not captured, and NaN appears only as a converter
  input. Infinities are not modelled.
- `int()` on a float NaN or infinity. Python's JSON decoder accepts `NaN` and
  `Infinity` and reads `1e400` as infinity, so `{"aqi": 1e400}` makes `int()` raise
  OverflowError, which is not suppressed. A payload float here is an exact finite real,
  so the model gives a truncated value instead.
- `int()` on non-ASCII Unicode digits: only ASCII digits are accepted.
- Payload.PyInt: does not model Python 3.11's limit on decimal conversion. There,
  `int()` raises ValueError on a decimal string of more than 4300 digits (underscores
  not counted); the model parses such a string to its value.
- Models.OverallIndex: because of the above, a `"aqi"` string of more than 4300
  digits gives its value in the model, where Python suppresses the ValueError and
  gives None.
- Payload.ParseIntRoundTrip: holds for every integer in the model. In Python 3.11+,
  `str(n)` itself raises ValueError once n has more than 4300 digits, so the round
  trip exists only below that size; `Models.OverallIndexOfStrings` has the same
  reach.
- Waqi.StationNumberIsNameLookup: the model's `str(n)` has no length limit. In
  Python 3.11+, `f"@{station_number}"` at src/aiowaqi/waqi.py:143 raises ValueError
  before any request when the number has more than 4300 digits; `Waqi.Classify` and
  `Waqi.GetAirQuality` do not model that failure.
- The logger: a warning is a returned value, not a log record.
- Built-in exception messages. A KeyError from a string key carries that key. A
  KeyError from indexing a dict by a position (`geo[0]` on a dict) carries the
  position as decimal text, where Python's key is the int. The ValueError of `int()`
  drops Python's `: '<text>'` suffix. The text of TypeError, IndexError and
  AttributeError is not modelled.
- `WAQIUnknownStationError`: src/aiowaqi/waqi.py:14-20 imports it, but
  src/aiowaqi/exceptions.py does not define it, so as written the module fails to
  import. The model assumes it is a subclass of `WAQIError` carrying its message,
  which `Waqi.GetAirQuality`'s statement about WAQI errors relies on.
- src/aiowaqi/const.py and src/aiowaqi/__init__.py are not part of this model.
