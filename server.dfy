/** The JSON-RPC endpoint: it parses a request body, hands a send to the task
    manager, and turns every failure into an internal-error response. */
module Server {
  import opened Wrappers
  import opened Json
  import opened JsonRpc
  import opened Tasks
  import opened Requests
  import opened TaskManager
  import opened AgentTasks

  const HttpOk: int := 200
  const HttpBadRequest: int := 400

  /** The failure message for a parsed request that is not a send. */
  const UnsupportedGetMessage: string := "Unsupported A2A method: <class 'models.request.GetTaskRequest'>"
  /** The failure message for a send reaching a server that has no task manager. */
  const MissingManagerMessage: string := "'NoneType' object has no attribute 'on_send_task'"
  /** The failure message of a start without an agent card or a task manager. */
  const StartRefusedMessage: string := "Agent card and task manager are required"

  /** The agent's descriptor; the server only asks whether it has one. */
  datatype AgentCard = AgentCard(name: string, description: string, url: string, version: string)

  /** An HTTP status and a JSON body. */
  datatype HttpReply = HttpReply(status: int, body: Value)

  /** The body of every failure reply: the version, a null id, a null result and
      the internal error with the failure's message and null data. */
  predicate IsErrorBody(body: Value, message: string)
  {
    body == JObject(map[
      "jsonrpc" := JStr("2.0"),
      "id" := JNull,
      "result" := JNull,
      "error" := JObject(map["code" := JInt(-32603), "message" := JStr(message), "data" := JNull])])
  }

  /** The reply to any failure of the handler. */
  function ErrorReply(message: string): (h: HttpReply)
    ensures h.status == 400 && IsErrorBody(h.body, message)
  {
    var error := InternalError(message);
    var body := Response(NullId, None, Some(error)).ToJson(false);
    var errorBody := map["code" := JInt(-32603), "message" := JStr(message), "data" := JNull];
    assert ErrorToJson(error, false).fields
        == map["code" := JInt(-32603), "message" := JStr(message)] + map["data" := JNull]
        == errorBody;
    assert body.fields
        == map["jsonrpc" := JStr("2.0")] + map["id" := JNull] + map["result" := JNull]
           + map["error" := JObject(errorBody)];
    assert body.fields == map[
      "jsonrpc" := JStr("2.0"),
      "id" := JNull,
      "result" := JNull,
      "error" := JObject(map["code" := JInt(-32603), "message" := JStr(message), "data" := JNull])];
    HttpReply(HttpBadRequest, body)
  }

  /** The reply for a task response: status 200 and the response with its
      missing fields left out. */
  function CreateResponse(response: TaskResponse): (h: HttpReply)
    ensures h.status == 200 && h.body.JObject? && "jsonrpc" in h.body.fields
    ensures "id" in h.body.fields <==> !response.id.NullId?
    ensures "id" in h.body.fields ==> h.body.fields["id"] == IdToJson(response.id)
    ensures "error" in h.body.fields <==> response.error.Some?
    ensures "result" in h.body.fields <==> response.result.Some?
    ensures response.result.Some? ==> DecodeTask(h.body.fields["result"]) == Success(response.result.value)
  {
    HttpReply(HttpOk, TaskResponseToJson(response, true))
  }

  /** What one request does: the reply, and the store afterwards. `agent` is
      None when the server has no task manager, and `tasks` is then unused. */
  function Handle(body: Value, freshId: string, tasks: map<string, Task>, agent: Option<(string, string) -> string>)
    : (out: (HttpReply, map<string, Task>))
  {
    match DecodeA2ARequest(body, freshId)
    case Failure(e) => (ErrorReply(e), tasks)
    case Success(request) =>
      if request.GetTaskRequest? then (ErrorReply(UnsupportedGetMessage), tasks)
      else if agent.None? then (ErrorReply(MissingManagerMessage), tasks)
      else
        match UserQuery(request)
        case Failure(e) => (ErrorReply(e), Upserted(tasks, request.sendParams))
        case Success(query) =>
          var after := AfterSend(tasks, request.sendParams, agent.value(query, request.sendParams.sessionId));
          (CreateResponse(TaskResponse(request.id, Some(after[request.sendParams.id]), None)), after)
  }

  /** A success reply: status 200, a body with the version, no error, and a
      result that parses as a task. */
  predicate IsSuccessReply(h: HttpReply)
  {
    && h.status == 200
    && h.body.JObject?
    && "jsonrpc" in h.body.fields && h.body.fields["jsonrpc"] == JStr("2.0")
    && "error" !in h.body.fields
    && "result" in h.body.fields && DecodeTask(h.body.fields["result"]).Success?
  }

  /** A failure reply: status 400, a null id, a null result and an error object
      that parses as the internal error. */
  predicate IsFailureReply(h: HttpReply)
  {
    && h.status == 400
    && h.body.JObject?
    && "id" in h.body.fields && h.body.fields["id"] == JNull
    && "result" in h.body.fields && h.body.fields["result"] == JNull
    && "error" in h.body.fields
    && var e := DecodeError(h.body.fields["error"]);
       e.Success? && e.value.code == InternalErrorCode && e.value.data.None?
  }

  lemma ErrorReplyIsFailureReply(message: string)
    ensures IsFailureReply(ErrorReply(message))
    ensures DecodeError(ErrorReply(message).body.fields["error"]) == Success(InternalError(message))
  {
    var body := ErrorReply(message).body;
    assert body.fields["error"] == JObject(map["code" := JInt(-32603), "message" := JStr(message), "data" := JNull]);
  }

  /** No failure escapes the handler: every request body gets one reply, a
      success exactly when it parses as a send, a task manager is present and
      the message has a first part, and a failure reply otherwise. */
  lemma HandleAlwaysReplies(body: Value, freshId: string, tasks: map<string, Task>,
                            agent: Option<(string, string) -> string>)
    ensures var reply := Handle(body, freshId, tasks, agent).0;
            IsSuccessReply(reply) || IsFailureReply(reply)
    ensures var decoded := DecodeA2ARequest(body, freshId);
            Handle(body, freshId, tasks, agent).0.status == 200
            <==> decoded.Success? && decoded.value.SendTaskRequest? && agent.Some?
                 && |decoded.value.sendParams.message.parts| > 0
  {
    var decoded := DecodeA2ARequest(body, freshId);
    if decoded.Failure? {
      ErrorReplyIsFailureReply(decoded.error);
    } else if decoded.value.GetTaskRequest? {
      ErrorReplyIsFailureReply(UnsupportedGetMessage);
    } else if agent.None? {
      ErrorReplyIsFailureReply(MissingManagerMessage);
    } else if |decoded.value.sendParams.message.parts| == 0 {
      ErrorReplyIsFailureReply(IndexErrorMessage);
    }
  }

  /** A body that does not parse, and a parsed get, are refused with status 400
      and leave the store as it was. */
  lemma OnlySendIsDispatched(body: Value, freshId: string, tasks: map<string, Task>,
                             agent: Option<(string, string) -> string>)
    requires DecodeA2ARequest(body, freshId).Failure? || DecodeA2ARequest(body, freshId).value.GetTaskRequest?
    ensures Handle(body, freshId, tasks, agent).1 == tasks
    ensures IsFailureReply(Handle(body, freshId, tasks, agent).0)
    ensures DecodeA2ARequest(body, freshId).Success? ==>
              Handle(body, freshId, tasks, agent).0 == ErrorReply(UnsupportedGetMessage)
  {
    var decoded := DecodeA2ARequest(body, freshId);
    if decoded.Failure? {
      ErrorReplyIsFailureReply(decoded.error);
    } else {
      ErrorReplyIsFailureReply(UnsupportedGetMessage);
    }
  }

  /** A send is handed to the task manager: the store becomes the one after the
      send, and the reply echoes the request id and carries, as its result, the
      task now stored under the request's task id. */
  lemma SendIsDelegated(body: Value, freshId: string, tasks: map<string, Task>, agent: (string, string) -> string)
    requires DecodeA2ARequest(body, freshId).Success?
    requires DecodeA2ARequest(body, freshId).value.SendTaskRequest?
    requires |DecodeA2ARequest(body, freshId).value.sendParams.message.parts| > 0
    ensures var request := DecodeA2ARequest(body, freshId).value;
            var params := request.sendParams;
            var (reply, after) := Handle(body, freshId, tasks, Some(agent));
            && after == AfterSend(tasks, params, agent(params.message.parts[0].text, params.sessionId))
            && reply.status == 200
            && ("id" in reply.body.fields <==> !request.id.NullId?)
            && ("id" in reply.body.fields ==> reply.body.fields["id"] == IdToJson(request.id))
            && DecodeTask(reply.body.fields["result"]) == Success(after[params.id])
  {
  }

  /** Sending "hello" to a new task "t1" with an agent that answers "hi there"
      stores a completed task whose history is the user's message and then the
      agent's, and replies with status 200. */
  lemma {:induction false} HelloScenario(tasks: map<string, Task>, agent: (string, string) -> string)
    requires "t1" !in tasks
    requires forall q, s :: agent(q, s) == "hi there"
    ensures var hello := Message("user", [TextPart("hello")]);
            var request := SendTaskRequest(StrId("r1"), TaskSendParams("t1", "s1", hello));
            var (reply, after) := Handle(EncodeA2ARequest(request), "unused", tasks, Some(agent));
            && reply.status == 200
            && "t1" in after && after["t1"] == Task("t1", None, TaskStatus(Completed), [hello, Message("agent", [TextPart("hi there")])])
  {
    var hello := Message("user", [TextPart("hello")]);
    var request := SendTaskRequest(StrId("r1"), TaskSendParams("t1", "s1", hello));
    var body := EncodeA2ARequest(request);
    A2ARequestRoundTrip(request, "unused");
    assert UserQuery(request) == Success("hello");
    var after := AfterSend(tasks, request.sendParams, "hi there");
    assert Handle(body, "unused", tasks, Some(agent))
        == (CreateResponse(TaskResponse(request.id, Some(after["t1"]), None)), after);
  }

  /** A request for a method the union does not know is refused with status
      400 and a null id, and nothing is stored. */
  lemma {:induction false} UnknownMethodScenario(tasks: map<string, Task>, freshId: string,
                                                 agent: Option<(string, string) -> string>)
    ensures var body := JObject(map["jsonrpc" := JStr("2.0"), "id" := JStr("r2"),
                                    "method" := JStr("tasks/delete"), "params" := JObject(map["id" := JStr("t1")])]);
            var (reply, after) := Handle(body, freshId, tasks, agent);
            IsFailureReply(reply) && after == tasks
  {
    var body := JObject(map["jsonrpc" := JStr("2.0"), "id" := JStr("r2"),
                            "method" := JStr("tasks/delete"), "params" := JObject(map["id" := JStr("t1")])]);
    assert body.fields["method"] !in {JStr(SendMethod), JStr(GetMethod)};
    OnlySendIsDispatched(body, freshId, tasks, agent);
  }

  class A2AServer {
    const host: string
    const port: int
    const agentCard: Option<AgentCard>
    const taskManager: AgentTaskManager?

    /** The defaults are those of the source: all interfaces, port 5000, and
        neither an agent card nor a task manager. */
    constructor (host: string := "0.0.0.0", port: int := 5000,
                 agentCard: Option<AgentCard> := None, taskManager: AgentTaskManager? := null)
      ensures this.host == host && this.port == port
      ensures this.agentCard == agentCard && this.taskManager == taskManager
    {
      this.host := host;
      this.port := port;
      this.agentCard := agentCard;
      this.taskManager := taskManager;
    }

    /** Refuse to start without both an agent card and a task manager; serving
        the routes once started is outside the model. */
    method Start() returns (refusal: Option<string>)
      ensures refusal.Some? <==> agentCard.None? || taskManager == null
      ensures refusal.Some? ==> refusal.value == StartRefusedMessage
    {
      if agentCard.None? || taskManager == null {
        return Some(StartRefusedMessage);
      }
      return None;
    }

    /** Handle one request body. `freshId` is the id a request gets when it
        carries none. */
    method HandleRequest(body: Value, freshId: string) returns (reply: HttpReply)
      requires taskManager != null ==> taskManager.store.Valid()
      modifies if taskManager != null then {taskManager.store} else {}
      ensures taskManager != null ==> taskManager.store.Valid()
      ensures taskManager != null ==>
                (reply, taskManager.store.tasks)
                == Handle(body, freshId, old(taskManager.store.tasks), Some(taskManager.agent))
      ensures taskManager == null ==> reply == Handle(body, freshId, map[], None).0
    {
      var decoded := DecodeA2ARequest(body, freshId);
      if decoded.Failure? {
        return ErrorReply(decoded.error);
      }
      var request := decoded.value;
      if !request.SendTaskRequest? {
        return ErrorReply(UnsupportedGetMessage);
      }
      if taskManager == null {
        return ErrorReply(MissingManagerMessage);
      }
      var result := taskManager.OnSendTask(request);
      if result.Failure? {
        return ErrorReply(result.error);
      }
      reply := CreateResponse(result.value);
    }
  }
}
