/** GetThermostats of pkg/ecobee/thermostats.go: the authenticated request
    for every registered thermostat with its runtime readings, and the
    classification of the provider's answer. */
module Thermostats {
  import opened Errors
  import opened Http
  import Json

  const ThermostatURL := "https://api.ecobee.com/1/thermostat"

  /** The provider's payload status that means "access token expired". */
  const TokenExpiredCode := 14

  datatype Selection = Selection(
    selectionType: string,
    selectionMatch: string,
    includeAlerts: bool,
    includeRuntime: bool)

  datatype ThermostatReqProperties = ThermostatReqProperties(selection: Selection)

  /** The selection GetThermostats sends: all registered thermostats, with
      runtime data; includeAlerts keeps Go's zero value. */
  const RegisteredWithRuntime := ThermostatReqProperties(Selection("registered", "", false, true))

  /** json.Marshal of the request properties: fields in declaration order
      under their JSON names. */
  function MarshalReqProperties(p: ThermostatReqProperties): string
  {
    "{\"selection\":{\"selectionType\":" + Json.Quote(p.selection.selectionType) +
    ",\"selectionMatch\":" + Json.Quote(p.selection.selectionMatch) +
    ",\"includeAlerts\":" + Json.BoolText(p.selection.includeAlerts) +
    ",\"includeRuntime\":" + Json.BoolText(p.selection.includeRuntime) + "}}"
  }

  /** Request properties whose two strings need no escaping are written
      with those strings between plain quotes. */
  lemma MarshalPlain(p: ThermostatReqProperties)
    requires forall i :: 0 <= i < |p.selection.selectionType| ==> Json.Plain(p.selection.selectionType[i])
    requires forall i :: 0 <= i < |p.selection.selectionMatch| ==> Json.Plain(p.selection.selectionMatch[i])
    ensures MarshalReqProperties(p) ==
      "{\"selection\":{\"selectionType\":" + ("\"" + p.selection.selectionType + "\"") +
      ",\"selectionMatch\":" + ("\"" + p.selection.selectionMatch + "\"") +
      ",\"includeAlerts\":" + Json.BoolText(p.selection.includeAlerts) +
      ",\"includeRuntime\":" + Json.BoolText(p.selection.includeRuntime) + "}}"
  {
    Json.QuotePlain(p.selection.selectionType);
    Json.QuotePlain(p.selection.selectionMatch);
  }

  /** The text sent as the `json` query parameter: the two selection
      strings quoted as they are, then the two flags. */
  lemma SelectionText()
    ensures MarshalReqProperties(RegisteredWithRuntime) ==
      "{\"selection\":{\"selectionType\":" + ("\"" + "registered" + "\"") +
      ",\"selectionMatch\":" + ("\"" + "" + "\"") +
      ",\"includeAlerts\":" + "false" +
      ",\"includeRuntime\":" + "true" + "}}"
  {
    var p := RegisteredWithRuntime;
    assert forall i :: 0 <= i < |p.selection.selectionType| ==> Json.Plain(p.selection.selectionType[i]);
    MarshalPlain(p);
  }

  datatype Status = Status(code: int, message: string)
  datatype Page = Page(page: int, totalPages: int, pageSize: int, total: int)

  /** Runtime readings; temperatures are tenths of a degree. */
  datatype Runtime = Runtime(
    connected: bool,
    actualTemperature: int,
    actualHumidity: int,
    desiredHeat: int,
    desiredCool: int)

  datatype Thermostat = Thermostat(id: string, name: string, revision: string, runtime: Runtime)

  datatype ThermostatsResponse = ThermostatsResponse(
    thermostatList: seq<Thermostat>,
    page: Page,
    status: Status)

  /** The zero value of ThermostatsResponse, returned when the body cannot be read. */
  const EmptyResponse := ThermostatsResponse([], Page(0, 0, 0, 0), Status(0, ""))

  /** An answer of the telemetry endpoint as GetThermostats sees it. A
      transport error comes with no response at all; a refused redirect
      (the default client stops after 10 redirects) comes with an error and
      a response whose body is already closed. For a body, `decoded` is what
      json.Unmarshal leaves in the response record and `decodeFailed`
      whether it returned an error; `httpStatus` is the HTTP status line's
      code. */
  datatype TelemetryReply =
    | FetchTransportError
    | FetchRedirectRefused
    | FetchReadError
    | FetchBody(httpStatus: int, decoded: ThermostatsResponse, decodeFailed: bool)

  /** GetThermostats' two results: the response record and the error. */
  datatype Fetch = Fetch(response: ThermostatsResponse, err: Option<Error>)

  /** How GetThermostats turns an answer into its results. A transport
      failure without a response dies closing the nil response's body; a
      refused redirect returns the empty response with the request error;
      read and decode errors are returned
      before the status is looked at, so they never read as an expired token;
      a decoded payload status of 14, and only that, is ErrTokenExpired, and
      the decoded record is returned with it; the HTTP status plays no part. */
  function Classify(reply: TelemetryReply): (out: Outcome<Fetch>)
    ensures out.Fatal? <==> reply.FetchTransportError?
    ensures out.Fatal? ==> out.cause == NilResponseBody
    ensures reply.FetchRedirectRefused? ==> out == Ok(Fetch(EmptyResponse, Some(RequestError)))
    ensures reply.FetchReadError? ==> out == Ok(Fetch(EmptyResponse, Some(ReadError)))
    ensures reply.FetchBody? ==> out.Ok? && out.value.response == reply.decoded
    ensures reply.FetchBody? && reply.decodeFailed ==> out.value.err == Some(DecodeError)
    ensures out.Ok? && out.value.err == Some(ErrTokenExpired) <==>
      reply.FetchBody? && !reply.decodeFailed && reply.decoded.status.code == TokenExpiredCode
    ensures out.Ok? && out.value.err == None <==>
      reply.FetchBody? && !reply.decodeFailed && reply.decoded.status.code != TokenExpiredCode
    ensures out.Ok? ==>
      out.value.err in {None, Some(RequestError), Some(ReadError), Some(DecodeError), Some(ErrTokenExpired)}
  {
    match reply
    case FetchTransportError => Fatal(NilResponseBody)
    case FetchRedirectRefused => Ok(Fetch(EmptyResponse, Some(RequestError)))
    case FetchReadError => Ok(Fetch(EmptyResponse, Some(ReadError)))
    case FetchBody(_, tr, failed) =>
      if failed then Ok(Fetch(tr, Some(DecodeError)))
      else if tr.status.code == TokenExpiredCode then Ok(Fetch(tr, Some(ErrTokenExpired)))
      else Ok(Fetch(tr, None))
  }

  /** The HTTP status code of an answer never changes its classification. */
  lemma HttpStatusIgnored(s1: int, s2: int, decoded: ThermostatsResponse, failed: bool)
    ensures Classify(FetchBody(s1, decoded, failed)) == Classify(FetchBody(s2, decoded, failed))
  {
  }

  /** The three headers GetThermostats adds, under the keys Go sends. */
  lemma TelemetryHeaders(t: string)
    ensures AddHeader(AddHeader(AddHeader(map[], "Authorization", "Bearer " + t),
                "Content-Type", "application/json;charset=UTF-8"), "cache-control", "no-cache") ==
      map["Authorization" := ["Bearer " + t],
          "Content-Type" := ["application/json;charset=UTF-8"],
          "Cache-Control" := ["no-cache"]]
  {
    CanonicalAuthorization();
    CanonicalContentType();
    CanonicalCacheControl();
    AddThree("Authorization", "Bearer " + t, "Content-Type", "application/json;charset=UTF-8",
             "Cache-Control", "no-cache");
  }

  /** The request GetThermostats sends with access token `t`: a GET of the
      thermostat URL with the bearer token, the JSON content type and no
      caching, and the selection as the single query parameter `json`. */
  function TelemetryRequest(t: string): (req: Request)
    ensures req.verb == "GET" && req.url == ThermostatURL
    ensures req.header == map[
      "Authorization" := ["Bearer " + t],
      "Content-Type" := ["application/json;charset=UTF-8"],
      "Cache-Control" := ["no-cache"]]
    ensures req.query == map["json" := [MarshalReqProperties(RegisteredWithRuntime)]]
  {
    TelemetryHeaders(t);
    AddOne("json", MarshalReqProperties(RegisteredWithRuntime));
    Request("GET", ThermostatURL,
      AddHeader(AddHeader(AddHeader(map[], "Authorization", "Bearer " + t),
        "Content-Type", "application/json;charset=UTF-8"), "cache-control", "no-cache"),
      Add(map[], "json", MarshalReqProperties(RegisteredWithRuntime)))
  }

  /** GetThermostats(t): send the telemetry request, then classify the
      answer. */
  method GetThermostats(t: string, reply: TelemetryReply) returns (req: Request, out: Outcome<Fetch>)
    ensures req == TelemetryRequest(t)
    ensures out == Classify(reply)
  {
    var h: Values := map[];
    h := AddHeader(h, "Authorization", "Bearer " + t);
    h := AddHeader(h, "Content-Type", "application/json;charset=UTF-8");
    h := AddHeader(h, "cache-control", "no-cache");
    var p := RegisteredWithRuntime;
    var r := MarshalReqProperties(p);
    var q: Values := map[];
    q := Add(q, "json", r);
    req := Request("GET", ThermostatURL, h, q);
    out := Classify(reply);
  }
}
