/** The JSON-RPC 2.0 envelope: message ids, requests, error objects and
    responses, with their wire form as JSON values. */
module JsonRpc {
  import opened Wrappers
  import opened Json

  /** The one protocol version a message may carry. */
  const Version: string := "2.0"

  /** The code of the predefined internal error. */
  const InternalErrorCode: int := -32603

  /** The default message of the predefined internal error. */
  const InternalErrorMessage: string := "Internal error"

  /** A message id: an integer, a string or null. */
  datatype Id = IntId(i: int) | StrId(s: string) | NullId

  function IdToJson(id: Id): Value
  {
    match id
    case IntId(i) => JInt(i)
    case StrId(s) => JStr(s)
    case NullId => JNull
  }

  /** The id a message carries after parsing. A missing id is the generated
      default `freshId` (a random hexadecimal string in the source, a parameter
      here); an explicit `null` is kept as null. Anything else is refused. */
  function DecodeId(fields: map<string, Value>, freshId: string): (r: Result<Id>)
    ensures "id" !in fields ==> r == Success(StrId(freshId))
    ensures "id" in fields ==> (r.Success? <==> fields["id"].JNull? || fields["id"].JInt? || fields["id"].JStr?)
    ensures "id" in fields && r.Success? ==> IdToJson(r.value) == fields["id"]
  {
    if "id" !in fields then Success(StrId(freshId))
    else
      match fields["id"]
      case JNull => Success(NullId)
      case JInt(i) => Success(IntId(i))
      case JStr(s) => Success(StrId(s))
      case _ => Failure("id: an integer, a string or null is required")
  }

  /** The version field may be left out (it then takes its default, "2.0");
      when present it must be exactly "2.0". */
  predicate VersionAccepted(fields: map<string, Value>)
  {
    "jsonrpc" !in fields || fields["jsonrpc"] == JStr(Version)
  }

  /** A request as the generic envelope sees it: the method name as a string
      and the parameters as an optional object. */
  datatype Request = Request(id: Id, methodName: string, params: Option<map<string, Value>>)

  function RequestToJson(r: Request): Value
  {
    JObject(map[
      "jsonrpc" := JStr(Version),
      "id" := IdToJson(r.id),
      "method" := JStr(r.methodName),
      "params" := match r.params case Some(p) => JObject(p) case None => JNull])
  }

  /** Parses the generic request envelope. */
  function DecodeRequest(body: Value, freshId: string): (r: Result<Request>)
    ensures r.Success? ==> body.JObject? && VersionAccepted(body.fields)
    ensures r.Success? ==> "method" in body.fields && body.fields["method"] == JStr(r.value.methodName)
    ensures r.Success? ==> DecodeId(body.fields, freshId) == Success(r.value.id)
    ensures r.Success? ==> (r.value.params.None? <==> "params" !in body.fields || body.fields["params"].JNull?)
    ensures r.Success? && r.value.params.Some? ==> body.fields["params"] == JObject(r.value.params.value)
    ensures body.JObject? && !VersionAccepted(body.fields) ==> r.Failure?
    ensures (&& body.JObject? && VersionAccepted(body.fields) && DecodeId(body.fields, freshId).Success?
             && "method" in body.fields && body.fields["method"].JStr?
             && ("params" !in body.fields || body.fields["params"].JNull? || body.fields["params"].JObject?))
            ==> r.Success?
  {
    if !body.JObject? then Failure("request: an object is required")
    else
      var fields := body.fields;
      if !VersionAccepted(fields) then Failure("jsonrpc: the only allowed value is '2.0'")
      else
        match DecodeId(fields, freshId)
        case Failure(e) => Failure(e)
        case Success(id) =>
          match StringField(fields, "method")
          case Failure(e) => Failure(e)
          case Success(name) =>
            if "params" !in fields || fields["params"].JNull? then Success(Request(id, name, None))
            else if fields["params"].JObject? then Success(Request(id, name, Some(fields["params"].fields)))
            else Failure("params: an object or null is required")
  }

  lemma RequestRoundTrip(r: Request, freshId: string)
    ensures DecodeRequest(RequestToJson(r), freshId) == Success(r)
  {
  }

  /** An error object: an integer code, a string message and optional data. */
  datatype JsonRpcError = JsonRpcError(code: int, message: string, data: Option<Value>)

  /** The predefined internal error, with its default message unless one is given. */
  function InternalError(message: string := InternalErrorMessage): (e: JsonRpcError)
    ensures e.code == -32603 && e.message == message && e.data == None
  {
    JsonRpcError(InternalErrorCode, message, None)
  }

  function ErrorToJson(e: JsonRpcError, excludeNone: bool): Value
  {
    JObject(map["code" := JInt(e.code), "message" := JStr(e.message)]
            + OptionalField("data", e.data, excludeNone))
  }

  /** Validates an error object: `code` must be an integer and `message` a
      string, both required; `data` may be anything and is optional. */
  function DecodeError(v: Value): (r: Result<JsonRpcError>)
    ensures r.Success? <==> v.JObject? && "code" in v.fields && v.fields["code"].JInt?
                            && "message" in v.fields && v.fields["message"].JStr?
    ensures r.Success? ==> v.fields["code"] == JInt(r.value.code) && v.fields["message"] == JStr(r.value.message)
  {
    if !v.JObject? then Failure("error: an object is required")
    else if !("code" in v.fields && v.fields["code"].JInt?) then Failure("code: Field required")
    else
      match StringField(v.fields, "message")
      case Failure(e) => Failure(e)
      case Success(message) =>
        var data := if "data" !in v.fields || v.fields["data"].JNull? then None else Some(v.fields["data"]);
        Success(JsonRpcError(v.fields["code"].n, message, data))
  }

  /** A written error object reads back as itself; data that is literally
      `null` reads back as no data. */
  lemma ErrorRoundTrip(e: JsonRpcError, excludeNone: bool)
    ensures e.data != Some(JNull) ==> DecodeError(ErrorToJson(e, excludeNone)) == Success(e)
    ensures e.data == Some(JNull) ==> DecodeError(ErrorToJson(e, excludeNone)) == Success(e.(data := None))
  {
  }

  /** A response: an id, and a result or an error. */
  datatype Response = Response(id: Id, result: Option<Value>, error: Option<JsonRpcError>)
  {
    function ToJson(excludeNone: bool): Value
    {
      Envelope(id, result, match error case Some(e) => Some(ErrorToJson(e, excludeNone)) case None => None, excludeNone)
    }
  }

  /** The wire form of a response whose result and error are already JSON. A
      null id is a missing value, so `excludeNone` drops it like the others. */
  function Envelope(id: Id, result: Option<Value>, error: Option<Value>, excludeNone: bool): (v: Value)
    ensures v.JObject? && "jsonrpc" in v.fields && v.fields["jsonrpc"] == JStr(Version)
    ensures "id" in v.fields <==> !(excludeNone && id.NullId?)
    ensures "id" in v.fields ==> v.fields["id"] == IdToJson(id)
    ensures "result" in v.fields <==> !(excludeNone && result.None?)
    ensures "result" in v.fields ==> v.fields["result"] == (match result case Some(x) => x case None => JNull)
    ensures "error" in v.fields <==> !(excludeNone && error.None?)
    ensures "error" in v.fields ==> v.fields["error"] == (match error case Some(x) => x case None => JNull)
  {
    JObject(map["jsonrpc" := JStr(Version)]
            + OptionalField("id", if id.NullId? then None else Some(IdToJson(id)), excludeNone)
            + OptionalField("result", result, excludeNone)
            + OptionalField("error", error, excludeNone))
  }
}
