/**
 * The single-request part of the inventory loader: parameter validation,
 * the query each endpoint is sent, the response-envelope check, and the
 * one-page loads of both endpoints. The HTTP client is a parameter: a
 * function from the request to what the client resolves with.
 */
module Loader {
  import opened Wrappers
  import opened JsValues
  import opened Normalizer

  /** The largest page size the current endpoint is asked for, and the default one. */
  const MaxCount: int := 5000

  const DefaultAppId: Value := Num(730)
  const DefaultContextId: Value := Num(2)
  const DefaultLanguage: Value := Str("english")

  /**
   * The parameter object callers pass. An absent property is `Undefined`
   * (or None for the page sizes, which are numbers when present).
   */
  datatype Params = Params(
    steamId: Value,
    appId: Value,
    contextId: Value,
    language: Value,
    count: Option<int>,
    cursor: Value,
    perPage: Option<int>)

  /**
   * What the loader asks the HTTP client for: the current endpoint's
   * `/inventory/{steamId}/{appId}/{contextId}?l=…&count=…[&start_assetid=…]`
   * or the legacy `/profiles/{steamId}/inventory/json/{appId}/{contextId}/`.
   */
  datatype Request =
    | InventoryPage(steamId: Value, appId: Value, contextId: Value, language: Value, count: int, startAssetId: Option<Value>)
    | LegacyInventory(steamId: Value, appId: Value, contextId: Value)

  /** A decoded response body: a primitive, or an object. */
  datatype Body = Primitive(value: Value) | Record(payload: Payload)

  datatype Response = Response(body: Body)

  /** What the HTTP client's promise settles with. */
  datatype Reply = Rejected | Resolved(response: Response)

  type Transport = Request -> Reply

  datatype ParamError = SteamIdRequired | SteamIdNotNumber | AppIdNotNumber | ContextIdNotNumber

  datatype LoadError =
    | InvalidArgument(reason: ParamError)
    | RequestFailed
    | EmptyResponse(response: Response)
    | UnsuccessfulResponse(response: Response)
    | NoLastAsset
    | FormatFailed(cause: FormatError)

  /** The requests an operation sent, in order, and what it produced or threw. */
  datatype Trace<T> = Trace(sent: seq<Request>, outcome: Result<T, LoadError>)

  // -------------------------------------------------------------- validation

  /** `_validateRequiredParams`: the first failing check, in the source's order. */
  function ValidateRequiredParams(steamId: Value, appId: Value, contextId: Value): (r: Outcome<ParamError>)
    ensures r.Pass? <==> Truthy(steamId) && IsNumeric(steamId) && IsNumeric(appId) && IsNumeric(contextId)
    ensures !Truthy(steamId) ==> r == Fail(SteamIdRequired)
    ensures Truthy(steamId) && !IsNumeric(steamId) ==> r == Fail(SteamIdNotNumber)
    ensures Truthy(steamId) && IsNumeric(steamId) && !IsNumeric(appId) ==> r == Fail(AppIdNotNumber)
    ensures Truthy(steamId) && IsNumeric(steamId) && IsNumeric(appId) && !IsNumeric(contextId) ==> r == Fail(ContextIdNotNumber)
  {
    if !Truthy(steamId) then Fail(SteamIdRequired)
    else if !IsNumeric(steamId) then Fail(SteamIdNotNumber)
    else if !IsNumeric(appId) then Fail(AppIdNotNumber)
    else if !IsNumeric(contextId) then Fail(ContextIdNotNumber)
    else Pass
  }

  // ---------------------------------------------------------------- envelope

  /**
   * The body checks of `_requestValidateBody`: a primitive body is an empty
   * response, an object whose `success` is falsy an unsuccessful one, and
   * anything else is accepted unchanged.
   */
  function CheckEnvelope(response: Response): (r: Result<Response, LoadError>)
    ensures r.Success? <==> response.body.Record? && Truthy(response.body.payload.success)
    ensures r.Success? ==> r.value == response
    ensures response.body.Primitive? ==> r == Failure(EmptyResponse(response))
    ensures response.body.Record? && !Truthy(response.body.payload.success) ==> r == Failure(UnsuccessfulResponse(response))
  {
    match response.body
    case Primitive(_) => Failure(EmptyResponse(response))
    case Record(payload) =>
      if !Truthy(payload.success) then Failure(UnsuccessfulResponse(response)) else Success(response)
  }

  /** Sends one request and checks the envelope of what comes back. */
  function Send(fetch: Transport, request: Request): (r: Result<Response, LoadError>)
    ensures r.Success? <==> fetch(request).Resolved? && CheckEnvelope(fetch(request).response).Success?
    ensures r.Success? ==> fetch(request) == Resolved(r.value) && r.value.body.Record?
    ensures fetch(request).Rejected? ==> r == Failure(RequestFailed)
    ensures fetch(request).Resolved? ==> r == CheckEnvelope(fetch(request).response)
  {
    match fetch(request)
    case Rejected => Failure(RequestFailed)
    case Resolved(response) => CheckEnvelope(response)
  }

  // ---------------------------------------------------------- query building

  /** The page-size rule: out-of-range sizes become 5000, sizes in [0, 5000] pass through. */
  function ClampCount(count: int): (c: int)
    ensures 0 <= c <= MaxCount
    ensures 0 <= count <= MaxCount ==> c == count
    ensures count < 0 || count > MaxCount ==> c == MaxCount
  {
    if count < 0 || count > MaxCount then MaxCount else count
  }

  /** The `start_assetid` parameter: appended only for a truthy, numeric cursor, verbatim. */
  function StartAssetId(cursor: Value): (start: Option<Value>)
    ensures start.Some? <==> Truthy(cursor) && IsNumeric(cursor)
    ensures start.Some? ==> start.value == cursor
  {
    if Truthy(cursor) && IsNumeric(cursor) then Some(cursor) else None
  }

  /** The request `loadFromNewEndPoint` sends, after its defaults, the clamp and the cursor rule. */
  function NewEndPointRequest(p: Params): (r: Request)
    ensures r.InventoryPage?
    ensures r.steamId == OrDefault(p.steamId, Str("")) && r.appId == OrDefault(p.appId, DefaultAppId)
    ensures r.contextId == OrDefault(p.contextId, DefaultContextId) && r.language == OrDefault(p.language, DefaultLanguage)
    ensures r.count == ClampCount(p.count.GetOr(MaxCount))
    ensures r.startAssetId == StartAssetId(p.cursor)
  {
    InventoryPage(OrDefault(p.steamId, Str("")), OrDefault(p.appId, DefaultAppId),
                  OrDefault(p.contextId, DefaultContextId), OrDefault(p.language, DefaultLanguage),
                  ClampCount(p.count.GetOr(MaxCount)), StartAssetId(p.cursor))
  }

  /** The request `loadFromOldEndPoint` sends: the profile's legacy inventory, after the same id defaults. */
  function OldEndPointRequest(p: Params): (r: Request)
    ensures r.LegacyInventory?
    ensures r.steamId == OrDefault(p.steamId, Str("")) && r.appId == OrDefault(p.appId, DefaultAppId)
    ensures r.contextId == OrDefault(p.contextId, DefaultContextId)
  {
    LegacyInventory(OrDefault(p.steamId, Str("")), OrDefault(p.appId, DefaultAppId), OrDefault(p.contextId, DefaultContextId))
  }

  // ------------------------------------------------------- single-page loads

  /**
   * `loadFromNewEndPoint`: invalid parameters throw before anything is
   * sent; otherwise exactly one request is sent and its envelope decides.
   */
  function LoadFromNewEndPoint(fetch: Transport, p: Params): (t: Trace<Response>)
    ensures var r := NewEndPointRequest(p);
      && (t.sent == [] <==> ValidateRequiredParams(r.steamId, r.appId, r.contextId).Fail?)
      && (t.sent == [] ==> t.outcome == Failure(InvalidArgument(ValidateRequiredParams(r.steamId, r.appId, r.contextId).error)))
      && (t.sent != [] ==> t.sent == [r] && t.outcome == Send(fetch, r))
  {
    var request := NewEndPointRequest(p);
    match ValidateRequiredParams(request.steamId, request.appId, request.contextId)
    case Fail(e) => Trace([], Failure(InvalidArgument(e)))
    case Pass => Trace([request], Send(fetch, request))
  }

  /** `loadFromOldEndPoint`: the same, against the legacy endpoint. */
  function LoadFromOldEndPoint(fetch: Transport, p: Params): (t: Trace<Response>)
    ensures var r := OldEndPointRequest(p);
      && (t.sent == [] <==> ValidateRequiredParams(r.steamId, r.appId, r.contextId).Fail?)
      && (t.sent == [] ==> t.outcome == Failure(InvalidArgument(ValidateRequiredParams(r.steamId, r.appId, r.contextId).error)))
      && (t.sent != [] ==> t.sent == [r] && t.outcome == Send(fetch, r))
  {
    var request := OldEndPointRequest(p);
    match ValidateRequiredParams(request.steamId, request.appId, request.contextId)
    case Fail(e) => Trace([], Failure(InvalidArgument(e)))
    case Pass => Trace([request], Send(fetch, request))
  }

  /** `loadFromOldEndPointAndFormat`: one legacy request, then the legacy adapter, whose TypeError also rejects. */
  method LoadFromOldEndPointAndFormat(fetch: Transport, p: Params) returns (items: Result<seq<Item>, LoadError>, sent: seq<Request>)
    ensures var t := LoadFromOldEndPoint(fetch, p);
      && sent == t.sent
      && (t.outcome.Failure? ==> items == Failure(t.outcome.error))
      && (t.outcome.Success? ==>
            var formatted := FormattedOldEndPoint(t.outcome.value.body.payload);
            && (formatted.Failure? ==> items == Failure(FormatFailed(formatted.error)))
            && (formatted.Success? ==> items == Success(formatted.value)))
  {
    var t := LoadFromOldEndPoint(fetch, p);
    sent := t.sent;
    if t.outcome.Failure? {
      return Failure(t.outcome.error), sent;
    }
    var formatted := FormatDataFromOldEndPoint(t.outcome.value.body.payload);
    match formatted
    case Failure(e) => items := Failure(FormatFailed(e));
    case Success(records) => items := Success(records);
  }

  /** `loadFromNewEndPointAndFormat`: one current-endpoint request, then the current adapter. */
  method LoadFromNewEndPointAndFormat(fetch: Transport, p: Params) returns (items: Result<seq<Item>, LoadError>, sent: seq<Request>)
    ensures var t := LoadFromNewEndPoint(fetch, p);
      && sent == t.sent
      && (t.outcome.Failure? ==> items == Failure(t.outcome.error))
      && (t.outcome.Success? ==> items == Success(FormattedNewEndPoint(t.outcome.value.body.payload)))
  {
    var t := LoadFromNewEndPoint(fetch, p);
    sent := t.sent;
    if t.outcome.Failure? {
      return Failure(t.outcome.error), sent;
    }
    var formatted := FormatDataFromNewEndPoint(t.outcome.value.body.payload);
    items := Success(formatted);
  }

  // --------------------------------------------------------------- examples

  /** Page sizes -1, 0, 5000, 5001 and 6000 are sent as 5000, 0, 5000, 5000 and 5000. */
  lemma ClampExamples()
    ensures ClampCount(-1) == 5000 && ClampCount(0) == 0 && ClampCount(5000) == 5000
    ensures ClampCount(5001) == 5000 && ClampCount(6000) == 5000
  {
  }

  /** A null body is an empty response, `{success: false}` an unsuccessful one, `{success: true}` accepted. */
  lemma EnvelopeExamples(payload: Payload)
    ensures CheckEnvelope(Response(Primitive(Null))) == Failure(EmptyResponse(Response(Primitive(Null))))
    ensures var r := Response(Record(payload.(success := Bool(false))));
      CheckEnvelope(r) == Failure(UnsuccessfulResponse(r))
    ensures var r := Response(Record(payload.(success := Bool(true))));
      CheckEnvelope(r) == Success(r)
  {
  }
}
