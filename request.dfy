/** The two A2A requests, told apart by their method name, and the response
    that carries a task. */
module Requests {
  import opened Wrappers
  import opened Json
  import opened JsonRpc
  import opened Tasks

  const SendMethod: string := "tasks/send"
  const GetMethod: string := "tasks/get"

  /** The discriminated union of supported requests. */
  datatype A2ARequest =
    | SendTaskRequest(id: Id, sendParams: TaskSendParams)
    | GetTaskRequest(id: Id, queryParams: TaskQueryParams)
  {
    /** The fixed method name each kind of request carries. */
    function Method(): (m: string)
      ensures SendTaskRequest? ==> m == "tasks/send"
      ensures GetTaskRequest? ==> m == "tasks/get"
    {
      match this
      case SendTaskRequest(_, _) => SendMethod
      case GetTaskRequest(_, _) => GetMethod
    }
  }

  function ParamsToJson(r: A2ARequest): Value
  {
    match r
    case SendTaskRequest(_, p) => SendParamsToJson(p)
    case GetTaskRequest(_, p) => QueryParamsToJson(p)
  }

  /** A request's wire form: its fixed method name and its parameters. */
  function EncodeA2ARequest(r: A2ARequest): Value
  {
    RequestToJson(Request(r.id, r.Method(), Some(ParamsToJson(r).fields)))
  }

  /** Parses a request body: the envelope first, then the method name selects
      the parameter schema. Any other method name, and parameters that do not
      fit the selected schema, are refused as a whole. */
  function DecodeA2ARequest(body: Value, freshId: string): (r: Result<A2ARequest>)
    ensures r.Success? ==> body.JObject? && VersionAccepted(body.fields)
    ensures r.Success? ==> "method" in body.fields && body.fields["method"] == JStr(r.value.Method())
    ensures r.Success? ==> DecodeId(body.fields, freshId) == Success(r.value.id)
    ensures r.Success? && r.value.SendTaskRequest? ==>
              "params" in body.fields && DecodeSendParams(body.fields["params"]) == Success(r.value.sendParams)
    ensures r.Success? && r.value.GetTaskRequest? ==>
              "params" in body.fields && DecodeQueryParams(body.fields["params"]) == Success(r.value.queryParams)
    ensures (body.JObject? && ("method" !in body.fields || body.fields["method"] !in {JStr(SendMethod), JStr(GetMethod)}))
              ==> r.Failure?
    ensures (&& body.JObject? && VersionAccepted(body.fields) && DecodeId(body.fields, freshId).Success?
             && "method" in body.fields && body.fields["method"] == JStr(SendMethod)
             && "params" in body.fields && DecodeSendParams(body.fields["params"]).Success?)
            ==> r == Success(SendTaskRequest(DecodeId(body.fields, freshId).value,
                                             DecodeSendParams(body.fields["params"]).value))
    ensures (&& body.JObject? && VersionAccepted(body.fields) && DecodeId(body.fields, freshId).Success?
             && "method" in body.fields && body.fields["method"] == JStr(GetMethod)
             && "params" in body.fields && DecodeQueryParams(body.fields["params"]).Success?)
            ==> r == Success(GetTaskRequest(DecodeId(body.fields, freshId).value,
                                            DecodeQueryParams(body.fields["params"]).value))
  {
    match DecodeRequest(body, freshId)
    case Failure(e) => Failure(e)
    case Success(envelope) =>
      if envelope.methodName == SendMethod then
        match envelope.params
        case None => Failure("params: Field required")
        case Some(p) =>
          match DecodeSendParams(JObject(p))
          case Failure(e) => Failure(e)
          case Success(params) => Success(SendTaskRequest(envelope.id, params))
      else if envelope.methodName == GetMethod then
        match envelope.params
        case None => Failure("params: Field required")
        case Some(p) =>
          match DecodeQueryParams(JObject(p))
          case Failure(e) => Failure(e)
          case Success(params) => Success(GetTaskRequest(envelope.id, params))
      else
        Failure("method: does not match 'tasks/send' or 'tasks/get'")
  }

  /** Encoding a request and parsing it back recovers the same kind of request,
      the same id and the same parameters, whatever default id the parser has
      at hand. */
  lemma {:induction false} A2ARequestRoundTrip(r: A2ARequest, freshId: string)
    ensures DecodeA2ARequest(EncodeA2ARequest(r), freshId) == Success(r)
  {
    RequestRoundTrip(Request(r.id, r.Method(), Some(ParamsToJson(r).fields)), freshId);
    match r
    case SendTaskRequest(_, p) => SendParamsRoundTrip(p);
    case GetTaskRequest(_, p) => QueryParamsRoundTrip(p);
  }

  /** A send body as a client writes it, with a `type` on each part and extra
      null-valued fields, parses as the send it describes: keys outside the
      schema are ignored. */
  lemma {:induction false} ClientSendAccepted(freshId: string)
    ensures var part := JObject(map["type" := JStr("text"), "text" := JStr("hello")]);
            var message := JObject(map["role" := JStr("user"), "parts" := JArray([part]), "metadata" := JNull]);
            var params := JObject(map["id" := JStr("t1"), "sessionId" := JStr("s1"), "message" := message,
                                      "historyLength" := JNull, "metadata" := JNull]);
            var body := JObject(map["jsonrpc" := JStr("2.0"), "id" := JStr("r1"),
                                    "method" := JStr("tasks/send"), "params" := params]);
            DecodeA2ARequest(body, freshId)
            == Success(SendTaskRequest(StrId("r1"), TaskSendParams("t1", "s1", Message("user", [TextPart("hello")]))))
  {
    var part := JObject(map["type" := JStr("text"), "text" := JStr("hello")]);
    assert DecodePart(part) == Success(TextPart("hello"));
    assert [part][1..] == [];
    assert DecodeList([part][1..], DecodePart) == Success([]);
    assert [TextPart("hello")] + [] == [TextPart("hello")];
    assert DecodeList([part], DecodePart) == Success([TextPart("hello")]);
  }

  /** Why a task response carries no task: a JSON-RPC error object, or the
      store's "not found" outcome, which has a message and no code. */
  datatype TaskError = RpcError(error: JsonRpcError) | NotFound(message: string)

  /** The response to either request: send and get both answer with a task or
      with none. */
  datatype TaskResponse = TaskResponse(id: Id, result: Option<Task>, error: Option<TaskError>)
  {
    /** At most one of result and error is present. The source states this in
        a comment on the response and does not enforce it. */
    predicate AtMostOneOutcome()
    {
      result.None? || error.None?
    }
  }

  function TaskErrorToJson(e: TaskError, excludeNone: bool): Value
  {
    match e
    case RpcError(x) => ErrorToJson(x, excludeNone)
    case NotFound(message) => JObject(map["message" := JStr(message)])
  }

  /** A task response's wire form. */
  function TaskResponseToJson(r: TaskResponse, excludeNone: bool): (v: Value)
    ensures v.JObject? && "jsonrpc" in v.fields && v.fields["jsonrpc"] == JStr("2.0")
    ensures "id" in v.fields <==> !(excludeNone && r.id.NullId?)
    ensures "id" in v.fields ==> v.fields["id"] == IdToJson(r.id)
    ensures "result" in v.fields <==> !(excludeNone && r.result.None?)
    ensures "error" in v.fields <==> !(excludeNone && r.error.None?)
    ensures r.result.Some? ==> DecodeTask(v.fields["result"]) == Success(r.result.value)
  {
    var v := Envelope(r.id,
                      match r.result case Some(t) => Some(TaskToJson(t, excludeNone)) case None => None,
                      match r.error case Some(e) => Some(TaskErrorToJson(e, excludeNone)) case None => None,
                      excludeNone);
    if r.result.Some? then TaskRoundTrip(r.result.value, excludeNone); v else v
  }
}
