/** The response classification of `WAQIClient` (src/aiowaqi/waqi.py): given the
    operation and the HTTP response, decide whether it is an API error and which
    one, or hand the payload's `data` to the air quality builder. Sending the
    request, the session and the timeout are outside this model; the response
    arrives as a value. */
module Waqi {
  import opened Results
  import opened Exceptions
  import opened Payload
  import opened Util
  import opened Models

  /** The public lookups that return one air quality record. */
  datatype Operation =
    | ByCity(city: string)
    | ByName(name: string)
    | ByStationNumber(stationNumber: int)
    | ByCoordinates(latitude: real, longitude: real)
    | ByIp

  /** What `_request` sees of an HTTP response: the Content-Type header if sent,
      the body as text, and the body as decoded JSON. */
  datatype Response = Response(contentType: Option<string>, text: string, body: Json)

  /** `response.headers.get("Content-Type", "")`. */
  function ContentType(response: Response): string
  {
    response.contentType.GetOr("")
  }

  predicate IsJson(response: Response)
  {
    IsSubstring("application/json", ContentType(response))
  }

  /** `payload[key] == text`, read without raising. */
  predicate FieldIs(payload: Json, key: string, text: string)
  {
    payload.Obj? && key in payload.fields && payload.fields[key] == Str(text)
  }

  /** A payload whose status is "error" and whose data is `text`. */
  predicate ErrorWithData(payload: Json, text: string)
  {
    FieldIs(payload, "status", "error") && FieldIs(payload, "data", text)
  }

  /** The error `_request` raises for a body that is not JSON. */
  function UnexpectedResponse(response: Response): Exception
  {
    WAQIError("Unexpected response from the WAQI API", ContentType(response), response.text)
  }

  /** waqi.py:99-115. A non-JSON content type is refused before the body is
      decoded; an "Invalid key" error is an authentication failure; any other
      dict that has a status, and a data entry when the status is "error", is
      returned as it is. */
  function CheckResponse(response: Response): (r: Result<Json, Exception>)
    ensures !IsJson(response) ==> r == Failure(UnexpectedResponse(response))
    ensures r.Success? <==>
      IsJson(response) && response.body.Obj? && "status" in response.body.fields
      && (FieldIs(response.body, "status", "error") ==>
            "data" in response.body.fields && response.body.fields["data"] != Str("Invalid key"))
    ensures IsJson(response) && !response.body.Obj? ==> r == Failure(TypeError)
    ensures IsJson(response) && response.body.Obj? && "status" !in response.body.fields ==>
      r == Failure(KeyError("status"))
    ensures IsJson(response) && FieldIs(response.body, "status", "error") && "data" !in response.body.fields ==>
      r == Failure(KeyError("data"))
    ensures IsJson(response) ==> (r == Failure(WAQIAuthenticationError) <==> ErrorWithData(response.body, "Invalid key"))
    ensures r.Success? ==>
      IsJson(response) && r.value == response.body
      && response.body.Obj? && "status" in response.body.fields
    ensures (IsJson(response) && response.body.Obj? && "status" in response.body.fields
      && !FieldIs(response.body, "status", "error")) ==> r == Success(response.body)
  {
    if !IsJson(response) then Failure(UnexpectedResponse(response))
    else
      var payload := response.body;
      var status :- Subscript(payload, "status");
      if status == Str("error") then
        var data :- Subscript(payload, "data");
        if data == Str("Invalid key") then Failure(WAQIAuthenticationError) else Success(payload)
      else Success(payload)
  }

  /** waqi.py:117-123. Only "Unknown station" under an error status is a
      classified error; everything else has its `data` handed on, whatever the
      status says. */
  function ClassifyCity(city: string, payload: Json): (r: Result<Json, Exception>)
    ensures ErrorWithData(payload, "Unknown station") ==>
      r == Failure(WAQIUnknownCityError("Could not find city " + city))
    ensures r.Success? <==>
      payload.Obj? && "status" in payload.fields && "data" in payload.fields
      && !ErrorWithData(payload, "Unknown station")
    ensures r.Success? ==> r.value == payload.fields["data"]
  {
    var status :- Subscript(payload, "status");
    if status == Str("error") then
      var data :- Subscript(payload, "data");
      if data == Str("Unknown station") then Failure(WAQIUnknownCityError("Could not find city " + city))
      else Success(data)
    else Subscript(payload, "data")
  }

  /** A `data` object that itself reports the error "Unknown ID". */
  predicate UnknownId(data: Json)
  {
    FieldIs(data, "status", "error") && FieldIs(data, "msg", "Unknown ID")
  }

  /** The second test of `get_by_name` lets `data` through: the `"status" in data`
      membership test is defined for it and false, or the dict's own status is not
      "error", or its message is present and is not "Unknown ID". A str holding
      "status" passes the membership test and then cannot be indexed by a key. */
  predicate DataPassesNameChecks(data: Json)
  {
    match data
    case Obj(f) => "status" !in f || f["status"] != Str("error") || ("msg" in f && f["msg"] != Str("Unknown ID"))
    case Str(s) => !IsSubstring("status", s)
    case Arr(items) => Str("status") !in items
    case _ => false
  }

  /** waqi.py:125-139. `data` is read first; "Unknown station" and "no such
      station" under an error status, or a `data` object reporting "Unknown ID",
      mean the station does not exist. */
  function ClassifyName(name: string, payload: Json): (r: Result<Json, Exception>)
    ensures payload.Obj? && "data" !in payload.fields ==> r == Failure(KeyError("data"))
    ensures ErrorWithData(payload, "Unknown station") || ErrorWithData(payload, "no such station") ==>
      r == Failure(WAQIUnknownStationError("Could not find station " + name))
    ensures (payload.Obj? && "data" in payload.fields && "status" in payload.fields
      && UnknownId(payload.fields["data"])) ==>
      r == Failure(WAQIUnknownStationError("Could not find station " + name))
    ensures r.Success? ==>
      payload.Obj? && "data" in payload.fields && "status" in payload.fields
      && r.value == payload.fields["data"]
      && !ErrorWithData(payload, "Unknown station") && !ErrorWithData(payload, "no such station")
      && !UnknownId(r.value)
    ensures (payload.Obj? && "status" in payload.fields && !FieldIs(payload, "status", "error")
      && "data" in payload.fields && payload.fields["data"].Obj?
      && !FieldIs(payload.fields["data"], "status", "error")) ==>
      r == Success(payload.fields["data"])
    ensures r.Success? <==>
      payload.Obj? && "data" in payload.fields && "status" in payload.fields
      && !ErrorWithData(payload, "Unknown station") && !ErrorWithData(payload, "no such station")
      && DataPassesNameChecks(payload.fields["data"])
    ensures r.Failure? && r.error.IsWAQIError() ==> r.error == WAQIUnknownStationError("Could not find station " + name)
  {
    match payload
    case Obj(f) =>
      if "data" !in f then Failure(KeyError("data"))
      else if "status" !in f then Failure(KeyError("status"))
      else if f["status"] == Str("error") && (f["data"] == Str("Unknown station") || f["data"] == Str("no such station")) then
        Failure(WAQIUnknownStationError("Could not find station " + name))
      else NestedCheck(name, f["data"])
    case _ => Failure(TypeError)
  }

  /** waqi.py:133-138, the second test of `get_by_name`: a `data` object whose own
      status is "error" and whose message is "Unknown ID" means the station does
      not exist; `data` that passes the test is handed on. */
  function NestedCheck(name: string, data: Json): (r: Result<Json, Exception>)
    ensures r.Success? <==> DataPassesNameChecks(data)
    ensures r.Success? ==> r.value == data
    ensures UnknownId(data) ==> r == Failure(WAQIUnknownStationError("Could not find station " + name))
    ensures r.Failure? && r.error.IsWAQIError() ==> r.error == WAQIUnknownStationError("Could not find station " + name)
  {
    var hasStatus :- Contains(data, "status");
    if !hasStatus then Success(data)
    else
      var innerStatus :- Subscript(data, "status");
      if innerStatus != Str("error") then Success(data)
      else
        var msg :- Subscript(data, "msg");
        if msg == Str("Unknown ID") then Failure(WAQIUnknownStationError("Could not find station " + name))
        else Success(data)
  }

  /** The per-operation classification of a payload `_request` accepted. The
      station number and IP lookups are name lookups of "@<number>" and "here";
      the coordinate lookup classifies nothing. */
  function Classify(op: Operation, payload: Json): (r: Result<Json, Exception>)
    ensures r.Success? ==> payload.Obj? && "data" in payload.fields && r.value == payload.fields["data"]
    ensures op.ByCoordinates? ==> (r.Success? <==> payload.Obj? && "data" in payload.fields)
    ensures op.ByCoordinates? ==> !(r.Failure? && r.error.IsWAQIError())
    ensures op.ByCity? && r.Failure? && r.error.IsWAQIError() ==> r.error.WAQIUnknownCityError?
    ensures (op.ByName? || op.ByStationNumber? || op.ByIp?) && r.Failure? && r.error.IsWAQIError() ==>
      r.error.WAQIUnknownStationError?
    ensures (op.ByName? || op.ByStationNumber? || op.ByIp?) ==>
      (r.Success? <==>
         payload.Obj? && "data" in payload.fields && "status" in payload.fields
         && !ErrorWithData(payload, "Unknown station") && !ErrorWithData(payload, "no such station")
         && DataPassesNameChecks(payload.fields["data"]))
  {
    match op
    case ByCity(city) => ClassifyCity(city, payload)
    case ByName(name) => ClassifyName(name, payload)
    case ByStationNumber(n) => ClassifyName("@" + IntToString(n), payload)
    case ByCoordinates(_, _) => Subscript(payload, "data")
    case ByIp => ClassifyName("here", payload)
  }

  /** One lookup from response to record: `_request`'s checks, the operation's
      classification, then `WAQIAirQuality.from_dict`. Only the builder logs. */
  function GetAirQuality(op: Operation, response: Response): (b: Built<AirQuality>)
    ensures !IsJson(response) ==> b == Built(Failure(UnexpectedResponse(response)), [])
    ensures CheckResponse(response).Failure? ==> b == Built(Failure(CheckResponse(response).error), [])
    ensures CheckResponse(response).Success? && Classify(op, response.body).Failure? ==>
      b == Built(Failure(Classify(op, response.body).error), [])
    ensures CheckResponse(response).Success? && Classify(op, response.body).Success? ==>
      b == AirQualityFromDict(Classify(op, response.body).value)
    ensures b.result.Failure? && b.result.error.IsWAQIError() ==>
      CheckResponse(response).Failure? || Classify(op, response.body).Failure?
  {
    match CheckResponse(response)
    case Failure(e) => Built(Failure(e), [])
    case Success(payload) =>
      match Classify(op, payload)
      case Failure(e) => Built(Failure(e), [])
      case Success(data) => AirQualityFromDict(data)
  }

  // ---------------------------------------------------------------------------
  // Properties of the classification

  /** A non-JSON response fails the same way whatever its body decodes to, on
      every operation, and the error carries the content type and the text. */
  lemma NonJsonIgnoresBody(op: Operation, response: Response, body: Json)
    requires !IsJson(response)
    ensures GetAirQuality(op, response) == GetAirQuality(op, response.(body := body))
    ensures GetAirQuality(op, response).result.error.contentType == ContentType(response)
    ensures GetAirQuality(op, response).result.error.response == response.text
  {
    assert ContentType(response.(body := body)) == ContentType(response);
  }

  /** A missing Content-Type header counts as the empty string, which is not JSON. */
  lemma MissingContentTypeIsUnexpected(op: Operation, text: string, body: Json)
    ensures GetAirQuality(op, Response(None, text, body)).result == Failure(WAQIError("Unexpected response from the WAQI API", "", text))
  {
    assert !IsSubstring("application/json", "");
  }

  /** "Invalid key" is an authentication failure on every operation: it is
      decided before any operation-specific check. */
  lemma InvalidKeyOnEveryOperation(op: Operation, response: Response)
    requires IsJson(response)
    requires ErrorWithData(response.body, "Invalid key")
    ensures GetAirQuality(op, response) == Built(Failure(WAQIAuthenticationError), [])
  {
  }

  /** The same "Unknown station" payload is an unknown city for a city lookup and
      an unknown station for a name lookup; "no such station" is recognised by
      the name lookup only, and the city lookup hands it on as `data`. */
  lemma CityAndNameClassifyDifferently(city: string, name: string)
    ensures Classify(ByCity(city), Obj(map["status" := Str("error"), "data" := Str("Unknown station")]))
      == Failure(WAQIUnknownCityError("Could not find city " + city))
    ensures Classify(ByName(name), Obj(map["status" := Str("error"), "data" := Str("Unknown station")]))
      == Failure(WAQIUnknownStationError("Could not find station " + name))
    ensures Classify(ByName(name), Obj(map["status" := Str("error"), "data" := Str("no such station")]))
      == Failure(WAQIUnknownStationError("Could not find station " + name))
    ensures Classify(ByCity(city), Obj(map["status" := Str("error"), "data" := Str("no such station")]))
      == Success(Str("no such station"))
  {
    assert ErrorWithData(Obj(map["status" := Str("error"), "data" := Str("Unknown station")]), "Unknown station");
    assert ErrorWithData(Obj(map["status" := Str("error"), "data" := Str("no such station")]), "no such station");
    assert Str("no such station") != Str("Unknown station");
  }

  /** An unknown city, end to end: the error names the city and nothing is logged. */
  lemma UnknownCityEndToEnd(city: string, response: Response)
    requires IsJson(response) && ErrorWithData(response.body, "Unknown station")
    ensures GetAirQuality(ByCity(city), response)
      == Built(Failure(WAQIUnknownCityError("Could not find city " + city)), [])
  {
    assert Str("Unknown station") != Str("Invalid key");
  }

  /** An unknown station, end to end, under either of the texts the API uses. */
  lemma UnknownStationEndToEnd(name: string, response: Response)
    requires IsJson(response)
    requires ErrorWithData(response.body, "Unknown station") || ErrorWithData(response.body, "no such station")
    ensures GetAirQuality(ByName(name), response)
      == Built(Failure(WAQIUnknownStationError("Could not find station " + name)), [])
  {
    assert Str("Unknown station") != Str("Invalid key") && Str("no such station") != Str("Invalid key");
  }

  /** Any other error text, such as "Over quota", is not recognised by any
      operation: its `data` string is handed to the builder, which raises
      `TypeError`. */
  lemma OverQuotaIsNotClassified(op: Operation, response: Response)
    requires IsJson(response)
    requires response.body == Obj(map["status" := Str("error"), "data" := Str("Over quota")])
    ensures GetAirQuality(op, response) == Built(Failure(TypeError), [])
  {
    assert Str("Over quota") != Str("Invalid key");
    assert CheckResponse(response) == Success(response.body);
    OverQuotaHandedOn(op);
    StringDataReachesBuilder(op, response, "Over quota");
  }

  /** Every operation hands the "Over quota" string on as `data`. */
  lemma OverQuotaHandedOn(op: Operation)
    ensures Classify(op, Obj(map["status" := Str("error"), "data" := Str("Over quota")])) == Success(Str("Over quota"))
  {
    var payload := Obj(map["status" := Str("error"), "data" := Str("Over quota")]);
    assert payload.fields["data"] == Str("Over quota");
    assert !ErrorWithData(payload, "Unknown station") && !ErrorWithData(payload, "no such station");
    NoStatusInOverQuota();
    assert DataPassesNameChecks(Str("Over quota"));
  }

  /** "Over quota" does not contain "status". */
  lemma NoStatusInOverQuota()
    ensures !IsSubstring("status", "Over quota")
  {
    var text := "Over quota";
    IsSubstringIffOccurs("status", text);
    assert 's' !in text;
    forall i | 0 <= i <= |text| - 6 ensures !OccursAt("status", text, i) {
      assert text[i] in text;
      assert text[i..i + 6][0] == text[i];
    }
  }

  /** A JSON response whose `data` is a string and is not one of the recognised
      errors reaches the builder, which cannot index a string and raises
      `TypeError`. */
  lemma StringDataReachesBuilder(op: Operation, response: Response, text: string)
    requires CheckResponse(response).Success?
    requires Classify(op, response.body) == Success(Str(text))
    ensures GetAirQuality(op, response) == Built(Failure(TypeError), [])
  {
  }

  /** A station-number lookup of an id the API does not know: the payload's own
      status is "ok", but its `data` object reports "Unknown ID". */
  lemma NestedUnknownId(n: int)
    ensures Classify(ByStationNumber(n),
      Obj(map["status" := Str("ok"), "data" := Obj(map["status" := Str("error"), "msg" := Str("Unknown ID")])]))
      == Failure(WAQIUnknownStationError("Could not find station @" + IntToString(n)))
  {
    var payload := Obj(map["status" := Str("ok"), "data" := Obj(map["status" := Str("error"), "msg" := Str("Unknown ID")])]);
    assert UnknownId(payload.fields["data"]);
    assert "Could not find station " + ("@" + IntToString(n)) == "Could not find station @" + IntToString(n);
  }

  /** A station-number lookup is the name lookup of "@<number>", end to end. */
  lemma StationNumberIsNameLookup(n: int, response: Response)
    ensures GetAirQuality(ByStationNumber(n), response) == GetAirQuality(ByName("@" + IntToString(n)), response)
  {
    assert forall payload :: Classify(ByStationNumber(n), payload) == Classify(ByName("@" + IntToString(n)), payload);
  }

  /** An IP lookup is the name lookup of "here", end to end. */
  lemma IpIsNameLookup(response: Response)
    ensures GetAirQuality(ByIp, response) == GetAirQuality(ByName("here"), response)
  {
    assert forall payload :: Classify(ByIp, payload) == Classify(ByName("here"), payload);
  }

  /** Status is never required to be "ok": a city or coordinate lookup hands `data`
      over whatever the status, unless it is one of the recognised errors. */
  lemma StatusNotRequiredToBeOk(op: Operation, status: string, data: Json)
    requires op.ByCity? || op.ByCoordinates?
    requires status != "error"
    ensures Classify(op, Obj(map["status" := Str(status), "data" := data])) == Success(data)
  {
  }

  /** The coordinate lookup classifies nothing: even an "Unknown station" error
      payload has its `data` handed on. */
  lemma CoordinatesClassifyNothing(latitude: real, longitude: real)
    ensures Classify(ByCoordinates(latitude, longitude), Obj(map["status" := Str("error"), "data" := Str("Unknown station")]))
      == Success(Str("Unknown station"))
  {
  }
}
