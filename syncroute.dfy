/**
 * The server route `POST /api/sync-reports` (`app/api/sync-reports/route.ts`):
 * it checks the three required report fields, forwards the report to the
 * backend API, passes a backend failure through with its status, and
 * normalises a backend success into `{ success: true, data }` with the
 * client's `localId` and a `syncedAt` stamp. Anything thrown on the way
 * becomes a 500 whose `error` says whether the backend could not be reached.
 */
module SyncRoute {
  import opened Common
  import opened JsText
  import opened JsValues

  const BackendUrl: string := "https://wpdut9liq3.execute-api.ap-southeast-1.amazonaws.com/report/initiate"
  const MissingFieldsText: string := "Missing required fields"
  const BackendErrorText: string := "Backend API error"
  const NetworkErrorText: string := "Failed to connect to backend API"
  const InternalErrorText: string := "Internal server error"

  /** What `request.json()` or `response.json()` throws on a body that is not JSON. */
  const JsonSyntaxError: Thrown := ErrorObject(SyntaxError, "Unexpected token in JSON")

  datatype HttpResponse = HttpResponse(status: int, body: JsValue)

  /** What the backend call gives: a status and the parsed reply, or a thrown error. */
  datatype BackendOutcome = BackendReply(status: int, data: Parsed) | BackendThrew(thrown: Thrown)

  /** The route's response, and the body it forwarded to the backend, if it called it. */
  datatype Handled = Handled(response: HttpResponse, forwarded: Option<JsValue>)

  /** `error instanceof TypeError && error.message.includes("fetch")`. */
  predicate IsNetworkError(e: Thrown) {
    e.ErrorObject? && e.kind == TypeError && Contains(e.message, "fetch")
  }

  /** The 500 response of the `catch` block. */
  function CaughtResponse(e: Thrown): (r: HttpResponse)
    ensures r.status == 500 && r.body.Obj? && r.body.fields.Keys == {"success", "error", "details"}
    ensures r.body.fields["success"] == Bool(false)
    ensures r.body.fields["error"] == Str(NetworkErrorText) <==> IsNetworkError(e)
    ensures r.body.fields["error"] == Str(InternalErrorText) <==> !IsNetworkError(e)
    ensures r.body.fields["details"] == Str(MessageOf(e))
  {
    HttpResponse(500, Obj(map[
      "success" := Bool(false),
      "error" := Str(if IsNetworkError(e) then NetworkErrorText else InternalErrorText),
      "details" := Str(MessageOf(e))]))
  }

  /** The three fields the route requires, read from a body that is neither null nor undefined. */
  predicate HasRequiredFields(body: JsValue)
    requires body != Null && body != Undefined
  {
    Truthy(Get(body, "localId").v) && Truthy(Get(body, "incidentType").v) && Truthy(Get(body, "severity").v)
  }

  /** The reply relayed to the client once the report was forwarded. */
  function Relay(localId: JsValue, backend: BackendOutcome, now: string): HttpResponse {
    match backend
    case BackendThrew(e) => CaughtResponse(e)
    case BackendReply(status, Malformed) => CaughtResponse(JsonSyntaxError)
    case BackendReply(status, Parsed(data)) =>
      if !(200 <= status <= 299) then
        match Get(data, "error")
        case Throws(e) => CaughtResponse(e)
        case Value(err) =>
          HttpResponse(status, Obj(map[
            "success" := Bool(false),
            "error" := Or(Or(err, Get(data, "message").v), Str(BackendErrorText)),
            "details" := data]))
      else
        match Get(data, "syncedAt")
        case Throws(e) => CaughtResponse(e)
        case Value(syncedAt) =>
          HttpResponse(200, Obj(map[
            "success" := Bool(true),
            "data" := Obj(SpreadFields(data)["localId" := localId]["syncedAt" := Or(syncedAt, Str(now))])]))
  }

  /**
   * The route handler. `request` is the parsed request body, `backend` what
   * the backend call gives if it is made, and `now` the ISO time of the call.
   * The backend is called, with the body unchanged, exactly when the body is
   * a non-null JSON value with truthy `localId`, `incidentType` and
   * `severity`; a body that is an object but lacks one of them gets the 400.
   */
  function HandleSyncPost(request: Parsed, backend: BackendOutcome, now: string): (h: Handled)
    ensures h.forwarded.Some? <==>
              request.Parsed? && request.v != Null && request.v != Undefined && HasRequiredFields(request.v)
    ensures h.forwarded.Some? ==> h.forwarded.value == request.v
    ensures request.Parsed? && request.v != Null && request.v != Undefined && !HasRequiredFields(request.v) ==>
              h.response == HttpResponse(400, Obj(map["success" := Bool(false), "error" := Str(MissingFieldsText)]))
    ensures request.Malformed? ==> h.response == CaughtResponse(JsonSyntaxError) && !IsNetworkError(JsonSyntaxError)
    ensures request.Parsed? && (request.v == Null || request.v == Undefined) ==>
              h.response.status == 500 && h.response.body.Obj? && "success" in h.response.body.fields && h.response.body.fields["success"] == Bool(false)
  {
    match request
    case Malformed => Handled(CaughtResponse(JsonSyntaxError), None)
    case Parsed(body) =>
      match Get(body, "localId")
      case Throws(e) => Handled(CaughtResponse(e), None)
      case Value(localId) =>
        if !HasRequiredFields(body) then
          Handled(HttpResponse(400, Obj(map["success" := Bool(false), "error" := Str(MissingFieldsText)])), None)
        else
          Handled(Relay(localId, backend, now), Some(body))
  }

  /**
   * A backend failure with a JSON object reply is passed through with the
   * backend's status; its `error` is the reply's `error`, else its `message`,
   * else "Backend API error", and the whole reply goes along as `details`.
   */
  lemma BackendFailurePassedThrough(body: JsValue, status: int, reply: map<string, JsValue>, now: string)
    requires body != Null && body != Undefined && HasRequiredFields(body)
    requires !(200 <= status <= 299)
    ensures var r := HandleSyncPost(Parsed(body), BackendReply(status, Parsed(Obj(reply))), now).response;
            var error := if "error" in reply then reply["error"] else Undefined;
            var message := if "message" in reply then reply["message"] else Undefined;
            && r.status == status
            && r.body.Obj? && r.body.fields["success"] == Bool(false)
            && r.body.fields["details"] == Obj(reply)
            && (Truthy(error) ==> r.body.fields["error"] == error)
            && (!Truthy(error) && Truthy(message) ==> r.body.fields["error"] == message)
            && (!Truthy(error) && !Truthy(message) ==> r.body.fields["error"] == Str(BackendErrorText))
  {
  }

  /**
   * A backend success with a JSON object reply gives 200 and `success: true`;
   * `data` carries every field of the reply except that `localId` is the
   * client's own and `syncedAt` is the reply's when truthy, else `now`.
   */
  lemma BackendSuccessNormalised(body: JsValue, status: int, reply: map<string, JsValue>, now: string)
    requires body != Null && body != Undefined && HasRequiredFields(body)
    requires 200 <= status <= 299
    ensures var r := HandleSyncPost(Parsed(body), BackendReply(status, Parsed(Obj(reply))), now).response;
            var syncedAt := if "syncedAt" in reply then reply["syncedAt"] else Undefined;
            && r.status == 200
            && r.body.Obj? && r.body.fields["success"] == Bool(true)
            && r.body.fields["data"].Obj?
            && var data := r.body.fields["data"].fields;
            && data.Keys == reply.Keys + {"localId", "syncedAt"}
            && data["localId"] == Get(body, "localId").v
            && data["syncedAt"] == (if Truthy(syncedAt) then syncedAt else Str(now))
            && (forall k :: k in reply && k != "localId" && k != "syncedAt" ==> data[k] == reply[k])
  {
  }

  /**
   * `success: true` is sent exactly when the report was forwarded and the
   * backend answered 2xx with a reply that is JSON and not null/undefined;
   * the route then always answers 200.
   */
  lemma SuccessOnlyFromBackendSuccess(request: Parsed, backend: BackendOutcome, now: string)
    ensures var h := HandleSyncPost(request, backend, now);
            (h.response.body.Obj? && "success" in h.response.body.fields && h.response.body.fields["success"] == Bool(true))
            <==>
            (&& h.forwarded.Some? && backend.BackendReply? && 200 <= backend.status <= 299
             && backend.data.Parsed? && backend.data.v != Null && backend.data.v != Undefined)
    ensures var h := HandleSyncPost(request, backend, now);
            h.response.body.Obj? && "success" in h.response.body.fields && h.response.body.fields["success"] == Bool(true) ==>
            h.response.status == 200
  {
  }

  /**
   * A forwarded report whose backend call throws gets the network message
   * exactly for a TypeError mentioning "fetch"; every other throw is an
   * internal error.
   */
  lemma ThrownCallClassified(body: JsValue, e: Thrown, now: string)
    requires body != Null && body != Undefined && HasRequiredFields(body)
    ensures var r := HandleSyncPost(Parsed(body), BackendThrew(e), now).response;
            && r.status == 500
            && (r.body.fields["error"] == Str(NetworkErrorText) <==> e.ErrorObject? && e.kind == TypeError && Contains(e.message, "fetch"))
            && (e.NonError? || e.kind != TypeError ==> r.body.fields["error"] == Str(InternalErrorText))
  {
  }
}
