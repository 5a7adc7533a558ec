/** Tasks, their status and their message history, and the parameters of the
    two task methods, with their wire form as JSON values. The source's task
    model file is not part of this model: these are the fields the core reads
    and writes. */
module Tasks {
  import opened Wrappers
  import opened Json

  datatype TaskState = Submitted | Working | Completed | Canceled | Failed

  function StateName(s: TaskState): string
  {
    match s
    case Submitted => "submitted"
    case Working => "working"
    case Completed => "completed"
    case Canceled => "canceled"
    case Failed => "failed"
  }

  /** The state a wire name stands for, if any. */
  function ParseState(name: string): (r: Option<TaskState>)
    ensures r.Some? ==> StateName(r.value) == name
    ensures r.None? ==> forall s :: StateName(s) != name
  {
    if name == "submitted" then Some(Submitted)
    else if name == "working" then Some(Working)
    else if name == "completed" then Some(Completed)
    else if name == "canceled" then Some(Canceled)
    else if name == "failed" then Some(Failed)
    else None
  }

  /** A message part. Only text parts exist. */
  datatype Part = TextPart(text: string)

  /** One turn of a conversation: a role ("user" or "agent") and its parts. */
  datatype Message = Message(role: string, parts: seq<Part>)

  datatype TaskStatus = TaskStatus(state: TaskState)

  /** A task as stored and as returned. The session id is part of the record
      but the store never sets it. */
  datatype Task = Task(id: string, sessionId: Option<string>, status: TaskStatus, history: seq<Message>)

  /** The parameters of "tasks/send". */
  datatype TaskSendParams = TaskSendParams(id: string, sessionId: string, message: Message)

  /** The parameters of "tasks/get": a task id and an optional history length. */
  datatype TaskQueryParams = TaskQueryParams(id: string, historyLength: Option<int>)

  // Wire form

  function PartToJson(p: Part): Value
  {
    JObject(map["text" := JStr(p.text)])
  }

  function DecodePart(v: Value): Result<Part>
  {
    if !v.JObject? then Failure("part: an object is required")
    else
      match StringField(v.fields, "text")
      case Failure(e) => Failure(e)
      case Success(text) => Success(TextPart(text))
  }

  function MessageToJson(m: Message): Value
  {
    JObject(map["role" := JStr(m.role), "parts" := JArray(EncodeList(m.parts, PartToJson))])
  }

  function DecodeMessage(v: Value): Result<Message>
  {
    if !v.JObject? then Failure("message: an object is required")
    else
      match StringField(v.fields, "role")
      case Failure(e) => Failure(e)
      case Success(role) =>
        if !("parts" in v.fields && v.fields["parts"].JArray?) then Failure("parts: a list is required")
        else
          match DecodeList(v.fields["parts"].items, DecodePart)
          case Failure(e) => Failure(e)
          case Success(parts) => Success(Message(role, parts))
  }

  lemma MessageRoundTrip(m: Message)
    ensures DecodeMessage(MessageToJson(m)) == Success(m)
  {
    forall p: Part ensures DecodePart(PartToJson(p)) == Success(p) {
    }
    ListRoundTrip(m.parts, PartToJson, DecodePart);
  }

  function StatusToJson(s: TaskStatus): Value
  {
    JObject(map["state" := JStr(StateName(s.state))])
  }

  function DecodeStatus(v: Value): Result<TaskStatus>
  {
    if !v.JObject? then Failure("status: an object is required")
    else
      match StringField(v.fields, "state")
      case Failure(e) => Failure(e)
      case Success(name) =>
        match ParseState(name)
        case None => Failure("state: not a task state")
        case Some(s) => Success(TaskStatus(s))
  }

  function OptionalString(s: Option<string>): Option<Value>
  {
    match s
    case Some(x) => Some(JStr(x))
    case None => None
  }

  /** A task's wire form; with `excludeNone` a missing session id is dropped
      rather than written as `null`. */
  function TaskToJson(t: Task, excludeNone: bool): Value
  {
    JObject(map["id" := JStr(t.id),
                "status" := StatusToJson(t.status),
                "history" := JArray(EncodeList(t.history, MessageToJson))]
            + OptionalField("sessionId", OptionalString(t.sessionId), excludeNone))
  }

  function DecodeTask(v: Value): Result<Task>
  {
    if !v.JObject? then Failure("task: an object is required")
    else
      var f := v.fields;
      match StringField(f, "id")
      case Failure(e) => Failure(e)
      case Success(id) =>
        match OptionalStringField(f, "sessionId")
        case Failure(e) => Failure(e)
        case Success(sessionId) =>
          if "status" !in f then Failure("status: Field required")
          else
            match DecodeStatus(f["status"])
            case Failure(e) => Failure(e)
            case Success(status) =>
              if !("history" in f && f["history"].JArray?) then Failure("history: a list is required")
              else
                match DecodeList(f["history"].items, DecodeMessage)
                case Failure(e) => Failure(e)
                case Success(history) => Success(Task(id, sessionId, status, history))
  }

  lemma StatusRoundTrip(s: TaskStatus)
    ensures DecodeStatus(StatusToJson(s)) == Success(s)
  {
  }

  lemma {:induction false} HistoryRoundTrip(history: seq<Message>)
    ensures DecodeList(EncodeList(history, MessageToJson), DecodeMessage) == Success(history)
  {
    forall m: Message ensures DecodeMessage(MessageToJson(m)) == Success(m) {
      MessageRoundTrip(m);
    }
    ListRoundTrip(history, MessageToJson, DecodeMessage);
  }

  /** Serialising a task, with or without the missing fields, and parsing it
      back gives the same task. */
  lemma {:induction false} TaskRoundTrip(t: Task, excludeNone: bool)
    ensures DecodeTask(TaskToJson(t, excludeNone)) == Success(t)
  {
    var f := TaskToJson(t, excludeNone).fields;
    assert f["id"] == JStr(t.id);
    assert OptionalStringField(f, "sessionId") == Success(t.sessionId);
    assert f["status"] == StatusToJson(t.status);
    StatusRoundTrip(t.status);
    assert f["history"] == JArray(EncodeList(t.history, MessageToJson));
    HistoryRoundTrip(t.history);
  }

  function SendParamsToJson(p: TaskSendParams): Value
  {
    JObject(map["id" := JStr(p.id), "sessionId" := JStr(p.sessionId), "message" := MessageToJson(p.message)])
  }

  function DecodeSendParams(v: Value): Result<TaskSendParams>
  {
    if !v.JObject? then Failure("params: an object is required")
    else
      match StringField(v.fields, "id")
      case Failure(e) => Failure(e)
      case Success(id) =>
        match StringField(v.fields, "sessionId")
        case Failure(e) => Failure(e)
        case Success(sessionId) =>
          if "message" !in v.fields then Failure("message: Field required")
          else
            match DecodeMessage(v.fields["message"])
            case Failure(e) => Failure(e)
            case Success(message) => Success(TaskSendParams(id, sessionId, message))
  }

  lemma SendParamsRoundTrip(p: TaskSendParams)
    ensures DecodeSendParams(SendParamsToJson(p)) == Success(p)
  {
    MessageRoundTrip(p.message);
  }

  function QueryParamsToJson(p: TaskQueryParams): Value
  {
    JObject(map["id" := JStr(p.id),
                "historyLength" := match p.historyLength case Some(n) => JInt(n) case None => JNull])
  }

  function DecodeQueryParams(v: Value): Result<TaskQueryParams>
  {
    if !v.JObject? then Failure("params: an object is required")
    else
      match StringField(v.fields, "id")
      case Failure(e) => Failure(e)
      case Success(id) =>
        match OptionalIntField(v.fields, "historyLength")
        case Failure(e) => Failure(e)
        case Success(historyLength) => Success(TaskQueryParams(id, historyLength))
  }

  lemma QueryParamsRoundTrip(p: TaskQueryParams)
    ensures DecodeQueryParams(QueryParamsToJson(p)) == Success(p)
  {
  }
}
