/** The record builders of src/aiowaqi/models.py: each `from_dict` turns part of a
    decoded WAQI payload into a typed record, or raises the Python exception that
    the payload's shape provokes. Values the API passes through untouched (URLs,
    names, readings) stay `Json`. */
module Models {
  import opened Results
  import opened Exceptions
  import opened Payload
  import opened Util
  import Converters

  // ---------------------------------------------------------------------------
  // Pollutant (models.py:15-24)

  datatype Pollutant = CarbonMonoxide | NitrogenDioxide | Ozone | SulfurDioxide | Pm10 | Pm25 | Nephelometry
  {
    /** The string value of the member. */
    function Value(): string
    {
      match this
      case CarbonMonoxide => "co"
      case NitrogenDioxide => "no2"
      case Ozone => "o3"
      case SulfurDioxide => "so2"
      case Pm10 => "pm10"
      case Pm25 => "pm25"
      case Nephelometry => "neph"
    }
  }

  /** The members in declaration order. */
  const Pollutants: seq<Pollutant> :=
    [CarbonMonoxide, NitrogenDioxide, Ozone, SulfurDioxide, Pm10, Pm25, Nephelometry]

  /** `str(Pollutant)`, the class name the lookup warning carries. */
  const PollutantClass: string := "<enum 'Pollutant'>"

  function PollutantValue(p: Pollutant): Json
  {
    Str(p.Value())
  }

  /** No two members share a value, and every member is listed. */
  lemma PollutantValuesDistinct()
    ensures forall p :: p in Pollutants
    ensures forall p, q :: PollutantValue(p) == PollutantValue(q) ==> p == q
  {
    forall p: Pollutant ensures p in Pollutants {
      match p
      case CarbonMonoxide => assert Pollutants[0] == p;
      case NitrogenDioxide => assert Pollutants[1] == p;
      case Ozone => assert Pollutants[2] == p;
      case SulfurDioxide => assert Pollutants[3] == p;
      case Pm10 => assert Pollutants[4] == p;
      case Pm25 => assert Pollutants[5] == p;
      case Nephelometry => assert Pollutants[6] == p;
    }
  }

  // ---------------------------------------------------------------------------
  // Records

  datatype Attribution = Attribution(url: Json, name: string, logo: Json)

  datatype Coordinates = Coordinates(latitude: Json, longitude: Json)

  datatype Location = Location(externalUrl: Json, name: Json, coordinates: Coordinates)

  /** `Station` adds nothing to `Location`. */
  type Station = Location

  datatype City = City(externalUrl: Json, name: Json, coordinates: Coordinates, location: Json)

  /** The raw sub-index readings and the concentrations derived from five of them. */
  datatype ExtendedAirQuality = ExtendedAirQuality(
    carbonMonoxide: Json,
    carbonMonoxideConcentration: Option<real>,
    humidity: Json,
    nephelometry: Json,
    nitrogenDioxide: Json,
    nitrogenDioxideConcentration: Option<int>,
    ozone: Json,
    ozoneConcentration: Option<int>,
    pressure: Json,
    sulfurDioxide: Json,
    pm10: Json,
    pm10Concentration: Option<int>,
    pm25: Json,
    pm25Concentration: Option<real>,
    temperature: Json)

  /** `datetime.fromisoformat(iso)`; the parse itself is not modelled. */
  datatype Timestamp = FromIsoFormat(iso: Json)

  datatype AirQuality = AirQuality(
    airQualityIndex: Option<int>,
    stationId: Json,
    attributions: seq<Attribution>,
    city: City,
    extendedAirQuality: ExtendedAirQuality,
    dominantPollutant: Option<Pollutant>,
    measuredAt: Option<Timestamp>)

  datatype SearchResult = SearchResult(airQualityIndex: Option<int>, stationId: Json, station: Station)

  /** A builder's outcome together with the warnings it logged before finishing,
      which stay logged even when a later step raises. */
  datatype Built<T> = Built(result: Result<T, Exception>, warnings: seq<Warning>)

  // ---------------------------------------------------------------------------
  // Attribution.from_dict (models.py:35-42)

  function AttributionFromDict(attribution: Json): (r: Result<Attribution, Exception>)
    ensures r.Success? <==>
      attribution.Obj? && "url" in attribution.fields && "name" in attribution.fields
      && attribution.fields["name"].Str?
    ensures r.Success? ==>
      r.value.url == attribution.fields["url"]
      && r.value.name == Strip(attribution.fields["name"].s)
      && r.value.logo == (if "logo" in attribution.fields then attribution.fields["logo"] else Null)
    ensures attribution.Obj? && "url" !in attribution.fields ==> r == Failure(KeyError("url"))
    ensures attribution.Obj? && "url" in attribution.fields && "name" !in attribution.fields ==>
      r == Failure(KeyError("name"))
    ensures !attribution.Obj? ==> r == Failure(TypeError)
    ensures r.Failure? ==> !r.error.IsWAQIError()
  {
    match attribution
    case Obj(fields) =>
      var url :- Subscript(attribution, "url");
      var name :- Subscript(attribution, "name");
      var stripped :- StrStrip(name);
      // `.get("logo")` on a dict cannot raise
      Success(Attribution(url, stripped, if "logo" in fields then fields["logo"] else Null))
    case _ => Failure(TypeError)
  }

  /** The stored name carries no surrounding whitespace, and a second strip would
      change nothing. */
  lemma AttributionNameIsStripped(attribution: Json)
    requires AttributionFromDict(attribution).Success?
    ensures var name := AttributionFromDict(attribution).value.name;
      (name == [] || (!IsSpace(name[0]) && !IsSpace(name[|name| - 1]))) && Strip(name) == name
  {
    StripIdempotent(attribution.fields["name"].s);
  }

  /** The comprehension over `air_quality["attributions"]`, one element at a time. */
  function AttributionsFrom(items: seq<Json>): (r: Result<seq<Attribution>, Exception>)
    ensures r.Success? <==> forall i :: 0 <= i < |items| ==> AttributionFromDict(items[i]).Success?
    ensures r.Success? ==>
      |r.value| == |items|
      && forall i :: 0 <= i < |items| ==> r.value[i] == AttributionFromDict(items[i]).value
    ensures r.Failure? ==>
      exists i :: 0 <= i < |items| && FirstFailure(items, i) && AttributionFromDict(items[i]).error == r.error
    ensures r.Failure? ==> !r.error.IsWAQIError()
  {
    if items == [] then Success([])
    else
      var first :- AttributionFromDict(items[0]);
      var rest :- AttributionsFrom(items[1..]);
      assert forall i :: 1 <= i < |items| ==> items[i] == items[1..][i - 1];
      Success([first] + rest)
  }

  /** `items[i]` is the first element whose attribution fails to build. */
  predicate FirstFailure(items: seq<Json>, i: int)
    requires 0 <= i < |items|
  {
    AttributionFromDict(items[i]).Failure?
    && forall k :: 0 <= k < i ==> AttributionFromDict(items[k]).Success?
  }

  /** The elements a `for` loop over a str visits: its one-character strings. */
  function Chars(s: string): seq<Json>
  {
    seq(|s|, i requires 0 <= i < |s| => Str([s[i]]))
  }

  /** Iterating the `attributions` value: a list is walked in order, a str yields
      its one-character strings and a dict its keys, and anything else is not
      iterable. A str or dict element is not a dict, so only an empty str or
      dict builds, to no attributions. */
  function AttributionsFromValue(value: Json): (r: Result<seq<Attribution>, Exception>)
    ensures value.Arr? ==> r == AttributionsFrom(value.items)
    ensures value.Str? ==> (r.Success? <==> value.s == "")
    ensures value.Obj? ==> (r.Success? <==> value.fields == map[])
    ensures (value.Str? || value.Obj?) && r.Success? ==> r.value == []
    ensures !value.Arr? && r.Failure? ==> r.error == TypeError
    ensures value.Null? || value.Bool? || value.Int? || value.Float? ==> r == Failure(TypeError)
    ensures r.Failure? ==> !r.error.IsWAQIError()
  {
    match value
    case Arr(items) => AttributionsFrom(items)
    case Str(s) => AttributionsFrom(Chars(s))
    // a dict is walked in insertion order, which a map does not keep; the
    // outcome is the same for every order (DictIterationAnyOrder)
    case Obj(fields) => if fields == map[] then Success([]) else Failure(TypeError)
    case _ => Failure(TypeError)
  }

  /** Walking a dict's keys, in whatever order they were inserted, gives the same
      outcome as the attribution builder for that dict. */
  lemma DictIterationAnyOrder(fields: map<string, Json>, keys: seq<string>)
    requires forall k :: k in fields <==> k in keys
    ensures AttributionsFromValue(Obj(fields)) == AttributionsFrom(seq(|keys|, i requires 0 <= i < |keys| => Str(keys[i])))
  {
    var items := seq(|keys|, i requires 0 <= i < |keys| => Str(keys[i]));
    if keys == [] {
      assert fields == map[];
    } else {
      assert keys[0] in fields;
      assert AttributionFromDict(items[0]) == Failure(TypeError);
      assert FirstFailure(items, 0);
    }
  }

  // ---------------------------------------------------------------------------
  // Location.from_dict, City.from_dict (models.py:61-94)

  /** The two `location["geo"][i]` reads. */
  function CoordinatesFrom(location: Json): (r: Result<Coordinates, Exception>)
    ensures location.Obj? && "geo" in location.fields && location.fields["geo"].Arr? ==>
      (r.Success? <==> |location.fields["geo"].items| >= 2)
    ensures r.Success? && location.Obj? && "geo" in location.fields && location.fields["geo"].Arr? ==>
      r.value == Coordinates(location.fields["geo"].items[0], location.fields["geo"].items[1])
    ensures r.Success? ==> location.Obj? && "geo" in location.fields
    ensures r.Failure? ==> !r.error.IsWAQIError()
  {
    var geo :- Subscript(location, "geo");
    var latitude :- Item(geo, 0);
    var longitude :- Item(geo, 1);
    Success(Coordinates(latitude, longitude))
  }

  function LocationFromDict(location: Json): (r: Result<Location, Exception>)
    ensures r.Success? <==>
      location.Obj? && "url" in location.fields && "name" in location.fields
      && CoordinatesFrom(location).Success?
    ensures r.Success? ==>
      r.value.externalUrl == location.fields["url"]
      && r.value.name == location.fields["name"]
      && r.value.coordinates == CoordinatesFrom(location).value
    ensures r.Failure? ==> !r.error.IsWAQIError()
  {
    var url :- Subscript(location, "url");
    var name :- Subscript(location, "name");
    var coordinates :- CoordinatesFrom(location);
    Success(Location(url, name, coordinates))
  }

  /** A falsy `location` (None, "", ...) is stored as None. */
  function CityFromDict(city: Json): (r: Result<City, Exception>)
    ensures r.Success? ==>
      city.Obj? && "location" in city.fields
      && r.value.location == (if Truthy(city.fields["location"]) then city.fields["location"] else Null)
    ensures city.Obj? && "location" !in city.fields ==> r == Failure(KeyError("location"))
    ensures r.Failure? ==> !r.error.IsWAQIError()
  {
    var raw :- Subscript(city, "location");
    var location := if Truthy(raw) then raw else Null;
    var url :- Subscript(city, "url");
    var name :- Subscript(city, "name");
    var coordinates :- CoordinatesFrom(city);
    Success(City(url, name, coordinates, location))
  }

  /** A city is a location with a locality: the city builder succeeds exactly when
      the location builder does and the `location` key is present, and the shared
      fields agree. */
  lemma CityExtendsLocation(city: Json)
    ensures CityFromDict(city).Success? <==>
      LocationFromDict(city).Success? && "location" in city.fields
    ensures CityFromDict(city).Success? ==>
      var c := CityFromDict(city).value;
      var l := LocationFromDict(city).value;
      c.externalUrl == l.externalUrl && c.name == l.name && c.coordinates == l.coordinates
  {
  }

  // ---------------------------------------------------------------------------
  // WAQIExtendedAirQuality.from_dict (models.py:122-153)

  /** `air_quality.get(key, {}).get("v")`: a missing entry reads as None, an entry
      that is not a dict raises. */
  function Reading(iaqi: Json, key: string): (r: Result<Json, Exception>)
    ensures r.Success? <==> iaqi.Obj? && EntryOk(iaqi, key)
    ensures r.Success? ==> r.value == ValueOf(iaqi, key)
    ensures r.Failure? ==> r.error == AttributeError
  {
    var entry :- GetOr(iaqi, key, Obj(map[]));
    GetOr(entry, "v", Null)
  }

  /** The entry under `key` is absent or a dict. */
  predicate EntryOk(iaqi: Json, key: string)
    requires iaqi.Obj?
  {
    key !in iaqi.fields || iaqi.fields[key].Obj?
  }

  /** What `isinstance(x, (int | float))` and the comparisons see: a bool is an
      int, and every other non-number fails the check. The payload's `Json` has no
      float NaN, so a reading never maps to `NaN`. */
  function AqiInputOf(reading: Json): (r: Converters.AqiInput)
    ensures r.Number? <==> reading.Int? || reading.Float? || reading.Bool?
    ensures !r.NaN?
    ensures reading.Int? ==> r.value == reading.i as real
    ensures reading.Float? ==> r.value == reading.r
    ensures reading.Bool? ==> r.value == (if reading.b then 1.0 else 0.0)
  {
    match reading
    case Int(i) => Converters.Number(i as real)
    case Float(x) => Converters.Number(x)
    case Bool(b) => Converters.Number(if b then 1.0 else 0.0)
    case _ => Converters.NonNumeric
  }

  /** `convert(reading) if reading is not None else None`; a converter's
      `ValueError` propagates. */
  function ConvertReading<T>(convert: Converters.AqiInput -> Result<T, Converters.ConversionError>, reading: Json): (r: Result<Option<T>, Exception>)
    ensures reading == Null ==> r == Success(None)
    ensures reading != Null && convert(AqiInputOf(reading)).Success? ==>
      r == Success(Some(convert(AqiInputOf(reading)).value))
    ensures reading != Null && convert(AqiInputOf(reading)).Failure? ==>
      r == Failure(ValueError(convert(AqiInputOf(reading)).error.Message()))
    ensures r.Failure? ==> !r.error.IsWAQIError()
  {
    if reading == Null then Success(None)
    else
      match convert(AqiInputOf(reading))
      case Success(c) => Success(Some(c))
      case Failure(e) => Failure(ValueError(e.Message()))
  }

  function ExtendedFromDict(iaqi: Json): (r: Result<ExtendedAirQuality, Exception>)
    ensures r.Success? <==> iaqi.Obj? && ExtendedReadingsOk(iaqi) && ExtendedConversionsOk(iaqi)
    ensures r.Success? ==> ExtendedMatches(iaqi, r.value)
    ensures r.Failure? ==> !r.error.IsWAQIError()
  {
    var pm25 :- Reading(iaqi, "pm25");
    var pm10 :- Reading(iaqi, "pm10");
    var co :- Reading(iaqi, "co");
    var o3 :- Reading(iaqi, "o3");
    var no2 :- Reading(iaqi, "no2");
    var coConcentration :- ConvertReading(Converters.AqiToCo, co);
    var o3Concentration :- ConvertReading(Converters.AqiToO3EightHour, o3);
    var no2Concentration :- ConvertReading(Converters.AqiToNo2, no2);
    var pm10Concentration :- ConvertReading(Converters.AqiToPm10, pm10);
    var pm25Concentration :- ConvertReading(Converters.AqiToPm25, pm25);
    var humidity :- Reading(iaqi, "h");
    var nephelometry :- Reading(iaqi, "neph");
    var pressure :- Reading(iaqi, "p");
    var sulfurDioxide :- Reading(iaqi, "so2");
    var temperature :- Reading(iaqi, "t");
    Success(ExtendedAirQuality(
      co, coConcentration, humidity, nephelometry, no2, no2Concentration, o3, o3Concentration,
      pressure, sulfurDioxide, pm10, pm10Concentration, pm25, pm25Concentration, temperature))
  }

  /** Every one of the ten entries read is either absent or a dict. */
  predicate ExtendedReadingsOk(iaqi: Json)
    requires iaqi.Obj?
  {
    EntryOk(iaqi, "pm25") && EntryOk(iaqi, "pm10") && EntryOk(iaqi, "co") && EntryOk(iaqi, "o3")
    && EntryOk(iaqi, "no2") && EntryOk(iaqi, "h") && EntryOk(iaqi, "neph") && EntryOk(iaqi, "p")
    && EntryOk(iaqi, "so2") && EntryOk(iaqi, "t")
  }

  /** The value under `"v"` of a dict entry, None when the entry or its value is absent. */
  function ValueOf(iaqi: Json, key: string): Json
    requires iaqi.Obj?
  {
    if key in iaqi.fields && iaqi.fields[key].Obj? && "v" in iaqi.fields[key].fields
    then iaqi.fields[key].fields["v"]
    else Null
  }

  /** Every present reading of the five converted pollutants converts. */
  predicate ExtendedConversionsOk(iaqi: Json)
    requires iaqi.Obj?
  {
    (ValueOf(iaqi, "co") != Null ==> Converters.AqiToCo(AqiInputOf(ValueOf(iaqi, "co"))).Success?)
    && (ValueOf(iaqi, "o3") != Null ==> Converters.AqiToO3EightHour(AqiInputOf(ValueOf(iaqi, "o3"))).Success?)
    && (ValueOf(iaqi, "no2") != Null ==> Converters.AqiToNo2(AqiInputOf(ValueOf(iaqi, "no2"))).Success?)
    && (ValueOf(iaqi, "pm10") != Null ==> Converters.AqiToPm10(AqiInputOf(ValueOf(iaqi, "pm10"))).Success?)
    && (ValueOf(iaqi, "pm25") != Null ==> Converters.AqiToPm25(AqiInputOf(ValueOf(iaqi, "pm25"))).Success?)
  }

  /** Each raw field is its reading, and each concentration is present exactly when
      its reading is, holding the converter's result for it. */
  predicate ExtendedMatches(iaqi: Json, e: ExtendedAirQuality)
    requires iaqi.Obj?
  {
    e.carbonMonoxide == ValueOf(iaqi, "co") && e.humidity == ValueOf(iaqi, "h")
    && e.nephelometry == ValueOf(iaqi, "neph") && e.nitrogenDioxide == ValueOf(iaqi, "no2")
    && e.ozone == ValueOf(iaqi, "o3") && e.pressure == ValueOf(iaqi, "p")
    && e.sulfurDioxide == ValueOf(iaqi, "so2") && e.pm10 == ValueOf(iaqi, "pm10")
    && e.pm25 == ValueOf(iaqi, "pm25") && e.temperature == ValueOf(iaqi, "t")
    && (e.carbonMonoxideConcentration.Some? <==> e.carbonMonoxide != Null)
    && (e.ozoneConcentration.Some? <==> e.ozone != Null)
    && (e.nitrogenDioxideConcentration.Some? <==> e.nitrogenDioxide != Null)
    && (e.pm10Concentration.Some? <==> e.pm10 != Null)
    && (e.pm25Concentration.Some? <==> e.pm25 != Null)
    && (e.carbonMonoxideConcentration.Some? ==>
          Converters.AqiToCo(AqiInputOf(e.carbonMonoxide)) == Success(e.carbonMonoxideConcentration.value))
    && (e.ozoneConcentration.Some? ==>
          Converters.AqiToO3EightHour(AqiInputOf(e.ozone)) == Success(e.ozoneConcentration.value))
    && (e.nitrogenDioxideConcentration.Some? ==>
          Converters.AqiToNo2(AqiInputOf(e.nitrogenDioxide)) == Success(e.nitrogenDioxideConcentration.value))
    && (e.pm10Concentration.Some? ==>
          Converters.AqiToPm10(AqiInputOf(e.pm10)) == Success(e.pm10Concentration.value))
    && (e.pm25Concentration.Some? ==>
          Converters.AqiToPm25(AqiInputOf(e.pm25)) == Success(e.pm25Concentration.value))
  }

  /** An empty `iaqi` yields no readings and no concentrations. */
  lemma ExtendedFromEmpty()
    ensures ExtendedFromDict(Obj(map[])) == Success(ExtendedAirQuality(
      Null, None, Null, Null, Null, None, Null, None, Null, Null, Null, None, Null, None, Null))
  {
  }

  /** An 8-hour ozone sub-index above 300 makes the whole build raise, since the
      8-hour table stops at 300. */
  lemma OzoneAbove300FailsBuild(x: int)
    requires x > 300
    ensures ExtendedFromDict(Obj(map["o3" := Obj(map["v" := Int(x)])]))
      == Failure(ValueError("For AQI > 300, use 1-hour Ozone values"))
  {
    Converters.Ozone8hDomain(x as real);
  }

  /** Carbon monoxide is converted before ozone, so when both fail the carbon
      monoxide error is the one raised. */
  lemma ConversionOrder(o3: int)
    requires o3 > 300
    ensures ExtendedFromDict(Obj(map["co" := Obj(map["v" := Int(-1)]), "o3" := Obj(map["v" := Int(o3)])]))
      == Failure(ValueError("AQI must be a non-negative number"))
  {
    assert Converters.Rejected(Converters.Number(-1.0));
  }

  // ---------------------------------------------------------------------------
  // WAQIAirQuality.from_dict, WAQISearchResult.from_dict (models.py:168-218)

  /** `int(raw)` with `ValueError` suppressed: an unparsable string gives None, a
      float is truncated toward zero, a bool counts as 0 or 1, while None, lists
      and dicts raise `TypeError`. */
  function OverallIndex(raw: Json): (r: Result<Option<int>, Exception>)
    ensures r == Success(None) <==> raw.Str? && ParseInt(raw.s).None?
    ensures raw.Str? && ParseInt(raw.s).Some? ==> r == Success(Some(ParseInt(raw.s).value))
    ensures raw.Int? ==> r == Success(Some(raw.i))
    ensures raw.Bool? ==> r == Success(Some(if raw.b then 1 else 0))
    ensures raw.Float? ==> r.Success? && r.value.Some? && TruncatesTowardZero(raw.r, r.value.value)
    ensures r.Failure? <==> raw.Null? || raw.Arr? || raw.Obj?
    ensures r.Failure? ==> r.error == TypeError
  {
    match PyInt(raw)
    case Success(n) => Success(Some(n))
    case Failure(e) => if e.ValueError? then Success(None) else Failure(e)
  }

  /** The WAQI placeholder "-" for a station without an index becomes None, and a
      decimal string round-trips to its value. */
  lemma OverallIndexOfStrings(n: int)
    ensures OverallIndex(Str("-")) == Success(None)
    ensures OverallIndex(Str(IntToString(n))) == Success(Some(n))
  {
    assert ParseInt("-").None?;
    ParseIntRoundTrip(n);
  }

  /** A separator, which `int()` never skips, leaves the index None. */
  lemma OverallIndexWithSeparator()
    ensures OverallIndex(Str("\U{1C}42")) == Success(None)
  {
    ParseIntRejectsSeparators();
  }

  /** An empty tag means no dominant pollutant and no warning; otherwise the
      nullable enum lookup. */
  function DominantPollutant(tag: Json): (r: Lookup<Pollutant>)
    ensures tag == Str("") ==> r == Lookup(None, [])
    ensures forall p :: tag == PollutantValue(p) ==> r == Lookup(Some(p), [])
    ensures r.member.Some? ==> tag == PollutantValue(r.member.value)
    ensures r.member.None? && tag != Str("") ==> r.warnings == [UnsupportedValue(tag, PollutantClass)]
  {
    PollutantValuesDistinct();
    if tag == Str("") then Lookup(None, [])
    else ToNullableEnum(PollutantClass, Pollutants, PollutantValue, tag)
  }

  /** `"iso" in time` decides whether a timestamp is taken. */
  function MeasuredAt(time: Json): (r: Result<Option<Timestamp>, Exception>)
    ensures time.Obj? ==> r.Success? && (r.value.Some? <==> "iso" in time.fields)
    ensures time.Obj? && "iso" in time.fields ==> r.value == Some(FromIsoFormat(time.fields["iso"]))
    ensures time.Null? || time.Bool? || time.Int? || time.Float? ==> r == Failure(TypeError)
    ensures r.Failure? ==> !r.error.IsWAQIError()
  {
    var hasIso :- Contains(time, "iso");
    if hasIso then
      var iso :- Subscript(time, "iso");
      Success(Some(FromIsoFormat(iso)))
    else Success(None)
  }

  /** `int(air_quality["aqi"])` under the suppression. */
  function IndexFrom(record: Json): (r: Result<Option<int>, Exception>)
    ensures record.Obj? && "aqi" in record.fields ==> r == OverallIndex(record.fields["aqi"])
    ensures record.Obj? && "aqi" !in record.fields ==> r == Failure(KeyError("aqi"))
    ensures !record.Obj? ==> r == Failure(TypeError)
    ensures r.Failure? ==> !r.error.IsWAQIError()
  {
    var raw :- Subscript(record, "aqi");
    OverallIndex(raw)
  }

  /** The fields after the dominant pollutant, in the order the source reads them:
      the record builds exactly when each of them is present and builds, and then
      holds what each sub-builder made. */
  function AirQualityRest(airQuality: Json, aqi: Option<int>, dominant: Option<Pollutant>): (r: Result<AirQuality, Exception>)
    ensures r.Success? <==> RestBuilds(airQuality)
    ensures r.Success? ==>
      var f := airQuality.fields;
      r.value == AirQuality(aqi, f["idx"], AttributionsFromValue(f["attributions"]).value,
        CityFromDict(f["city"]).value, ExtendedFromDict(f["iaqi"]).value, dominant,
        MeasuredAt(f["time"]).value)
    ensures airQuality.Obj? && "time" !in airQuality.fields ==> r == Failure(KeyError("time"))
    ensures r.Failure? ==> !r.error.IsWAQIError()
  {
    var time :- Subscript(airQuality, "time");
    var measuredAt :- MeasuredAt(time);
    var idx :- Subscript(airQuality, "idx");
    var rawAttributions :- Subscript(airQuality, "attributions");
    var attributions :- AttributionsFromValue(rawAttributions);
    var rawCity :- Subscript(airQuality, "city");
    var city :- CityFromDict(rawCity);
    var iaqi :- Subscript(airQuality, "iaqi");
    var extended :- ExtendedFromDict(iaqi);
    Success(AirQuality(aqi, idx, attributions, city, extended, dominant, measuredAt))
  }

  /** The keys read after the dominant pollutant are present and each builds. */
  predicate RestBuilds(airQuality: Json)
  {
    airQuality.Obj?
    && var f := airQuality.fields;
    "time" in f && MeasuredAt(f["time"]).Success?
    && "idx" in f
    && "attributions" in f && AttributionsFromValue(f["attributions"]).Success?
    && "city" in f && CityFromDict(f["city"]).Success?
    && "iaqi" in f && ExtendedFromDict(f["iaqi"]).Success?
  }

  /** The index and the dominant pollutant tag are read, so the lookup runs and
      may log its warning. */
  predicate ReachesLookup(airQuality: Json)
  {
    airQuality.Obj? && "aqi" in airQuality.fields && OverallIndex(airQuality.fields["aqi"]).Success?
    && "dominentpol" in airQuality.fields
  }

  /** The record is assembled from the sub-builders' results and builds exactly
      when each of them does; the station id is `idx`; the warnings are those of
      the dominant pollutant lookup once it runs, and stay logged even when a
      later field fails. */
  function AirQualityFromDict(airQuality: Json): (b: Built<AirQuality>)
    ensures b.result.Success? <==> ReachesLookup(airQuality) && RestBuilds(airQuality)
    ensures b.result.Success? ==> AirQualityParts(airQuality, b.result.value)
    ensures ReachesLookup(airQuality) ==>
      b.warnings == DominantPollutant(airQuality.fields["dominentpol"]).warnings
    ensures !ReachesLookup(airQuality) ==> b.warnings == []
    ensures airQuality.Obj? && "aqi" !in airQuality.fields ==> b.result == Failure(KeyError("aqi"))
    ensures !airQuality.Obj? ==> b == Built(Failure(TypeError), [])
    ensures b.result.Failure? ==> !b.result.error.IsWAQIError()
  {
    match IndexFrom(airQuality)
    case Failure(e) => Built(Failure(e), [])
    case Success(aqi) =>
      match Subscript(airQuality, "dominentpol")
      case Failure(e) => Built(Failure(e), [])
      case Success(tag) =>
        var dominant := DominantPollutant(tag);
        Built(AirQualityRest(airQuality, aqi, dominant.member), dominant.warnings)
  }

  /** Every field of a built record is what its own builder makes of the matching key. */
  predicate AirQualityParts(airQuality: Json, a: AirQuality)
  {
    airQuality.Obj?
    && var f := airQuality.fields;
    "aqi" in f && "dominentpol" in f && "time" in f && "idx" in f
    && "attributions" in f && "city" in f && "iaqi" in f
    && OverallIndex(f["aqi"]) == Success(a.airQualityIndex)
    && a.dominantPollutant == DominantPollutant(f["dominentpol"]).member
    && MeasuredAt(f["time"]) == Success(a.measuredAt)
    && a.stationId == f["idx"]
    && AttributionsFromValue(f["attributions"]) == Success(a.attributions)
    && CityFromDict(f["city"]) == Success(a.city)
    && ExtendedFromDict(f["iaqi"]) == Success(a.extendedAirQuality)
  }

  /** Once the lookup has run, a missing `time` makes the build raise `KeyError`
      while the lookup's warnings stay logged. */
  lemma MissingTimeKeepsWarnings(airQuality: Json)
    requires ReachesLookup(airQuality) && "time" !in airQuality.fields
    ensures AirQualityFromDict(airQuality)
      == Built(Failure(KeyError("time")), DominantPollutant(airQuality.fields["dominentpol"]).warnings)
  {
    var aqi := IndexFrom(airQuality).value;
    var dominant := DominantPollutant(airQuality.fields["dominentpol"]);
    assert AirQualityRest(airQuality, aqi, dominant.member) == Failure(KeyError("time"));
  }

  /** An unknown dominant pollutant is logged even when the record then fails to
      build because `time` is missing. */
  lemma WarningSurvivesLaterFailure()
    ensures AirQualityFromDict(Obj(map["aqi" := Int(42), "dominentpol" := Str("xyz")]))
      == Built(Failure(KeyError("time")), [UnsupportedValue(Str("xyz"), PollutantClass)])
  {
    var payload := Obj(map["aqi" := Int(42), "dominentpol" := Str("xyz")]);
    assert payload.fields["aqi"] == Int(42) && payload.fields["dominentpol"] == Str("xyz");
    assert ReachesLookup(payload) && "time" !in payload.fields;
    MissingTimeKeepsWarnings(payload);
    UnknownTagWarns();
  }

  /** "xyz" names no pollutant: the lookup gives None and one warning. */
  lemma UnknownTagWarns()
    ensures DominantPollutant(Str("xyz")) == Lookup(None, [UnsupportedValue(Str("xyz"), PollutantClass)])
  {
    XyzNamesNoPollutant();
  }

  /** No pollutant's value starts with 'x'. */
  lemma XyzNamesNoPollutant()
    ensures forall p :: PollutantValue(p) != Str("xyz")
  {
    forall p: Pollutant ensures p.Value() != "xyz" {
      assert p.Value()[0] != 'x';
    }
  }

  /** The station id is `uid`, and the station is built like any location. */
  function SearchResultFromDict(result: Json): (r: Result<SearchResult, Exception>)
    ensures r.Success? <==>
      result.Obj? && "aqi" in result.fields && OverallIndex(result.fields["aqi"]).Success?
      && "uid" in result.fields && "station" in result.fields
      && LocationFromDict(result.fields["station"]).Success?
    ensures r.Success? ==>
      result.Obj? && "aqi" in result.fields && "uid" in result.fields && "station" in result.fields
      && OverallIndex(result.fields["aqi"]) == Success(r.value.airQualityIndex)
      && r.value.stationId == result.fields["uid"]
      && LocationFromDict(result.fields["station"]) == Success(r.value.station)
    ensures result.Obj? && "aqi" !in result.fields ==> r == Failure(KeyError("aqi"))
    ensures r.Failure? ==> !r.error.IsWAQIError()
  {
    var aqi :- IndexFrom(result);
    var uid :- Subscript(result, "uid");
    var rawStation :- Subscript(result, "station");
    var station :- LocationFromDict(rawStation);
    Success(SearchResult(aqi, uid, station))
  }
}
