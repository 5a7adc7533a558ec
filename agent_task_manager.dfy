/** The task manager that puts an agent behind the store: a send records the
    user's message, asks the agent, marks the task completed and records the
    agent's reply. */
module AgentTasks {
  import opened Wrappers
  import opened JsonRpc
  import opened Tasks
  import opened Requests
  import opened TaskManager

  /** What Python reports when `parts[0]` is read from an empty list. */
  const IndexErrorMessage: string := "list index out of range"

  /** The query text of a send: the text of the first part of the message in
      this request. A message without parts fails the way indexing an empty
      list fails. */
  function UserQuery(request: A2ARequest): (r: Result<string>)
    requires request.SendTaskRequest?
    ensures r.Success? <==> |request.sendParams.message.parts| > 0
    ensures r.Success? ==> r.value == request.sendParams.message.parts[0].text
    ensures r.Failure? ==> r.error == IndexErrorMessage
  {
    var parts := request.sendParams.message.parts;
    if |parts| == 0 then Failure(IndexErrorMessage) else Success(parts[0].text)
  }

  /** The message that carries the agent's reply. */
  function AgentMessage(reply: string): Message
  {
    Message("agent", [TextPart(reply)])
  }

  /** The store after a send whose agent answered `reply`: the upsert, then
      the status replaced by COMPLETED and the agent's message appended. */
  function AfterSend(tasks: map<string, Task>, params: TaskSendParams, reply: string): (r: map<string, Task>)
    ensures r.Keys == tasks.Keys + {params.id}
    ensures forall k :: k in tasks && k != params.id ==> r[k] == tasks[k]
    ensures r[params.id].status == TaskStatus(Completed)
    ensures params.id !in tasks ==>
              r[params.id].history == [params.message, Message("agent", [TextPart(reply)])]
              && r[params.id].id == params.id && r[params.id].sessionId.None?
    ensures params.id in tasks ==>
              && r[params.id].id == tasks[params.id].id
              && r[params.id].sessionId == tasks[params.id].sessionId
              && var (was, now) := (tasks[params.id].history, r[params.id].history);
              && |now| == |was| + 2
              && now[..|was|] == was
              && now[|was|] == params.message
              && now[|was| + 1] == Message("agent", [TextPart(reply)])
    ensures WellKeyed(tasks) ==> WellKeyed(r)
  {
    var upserted := Upserted(tasks, params);
    var task := upserted[params.id];
    upserted[params.id := task.(status := TaskStatus(Completed), history := task.history + [AgentMessage(reply)])]
  }

  class AgentTaskManager {
    /** The store this manager shares with its base class. */
    const store: InMemoryTaskManager
    /** The agent: given the query text and the session id, its reply text. */
    const agent: (string, string) -> string

    constructor (agent: (string, string) -> string)
      ensures this.agent == agent
      ensures fresh(store) && store.Valid() && store.tasks == map[]
    {
      this.agent := agent;
      store := new InMemoryTaskManager();
    }

    /** Record the message, ask the agent with the first text of that message,
        then mark the task COMPLETED and record the reply. When the message has
        no parts the send fails after the upsert, leaving it in the store. */
    method OnSendTask(request: A2ARequest) returns (r: Result<TaskResponse>)
      requires request.SendTaskRequest?
      requires store.Valid()
      modifies store
      ensures store.Valid()
      ensures match UserQuery(request)
              case Failure(e) =>
                r == Failure(e) && store.tasks == Upserted(old(store.tasks), request.sendParams)
              case Success(query) =>
                var reply := agent(query, request.sendParams.sessionId);
                && store.tasks == AfterSend(old(store.tasks), request.sendParams, reply)
                && r == Success(TaskResponse(request.id, Some(store.tasks[request.sendParams.id]), None))
                && r.value.AtMostOneOutcome()
    {
      var params := request.sendParams;
      var task := store.UpsertTask(params);
      var query := UserQuery(request);
      if query.Failure? {
        return Failure(query.error);
      }
      var resultText := agent(query.value, params.sessionId);
      var agentMessage := Message("agent", [TextPart(resultText)]);
      task := task.(status := TaskStatus(Completed));
      task := task.(history := task.history + [agentMessage]);
      store.tasks := store.tasks[params.id := task];
      r := Success(TaskResponse(request.id, Some(task), None));
    }
  }

  /** A client of the manager: a send of "hello" to the new task "t1" with an
      agent that answers "hi there", then a lookup of "t1" and of an unknown id. */
  method SendThenGetScenario() returns (sent: Result<TaskResponse>, found: TaskResponse, missing: TaskResponse)
    ensures sent.Success? && sent.value.id == StrId("r1") && sent.value.error.None?
    ensures sent.value.result == Some(Task("t1", None, TaskStatus(Completed),
                                           [Message("user", [TextPart("hello")]), Message("agent", [TextPart("hi there")])]))
    ensures found == TaskResponse(StrId("r2"), sent.value.result, None)
    ensures missing == TaskResponse(StrId("r3"), None, Some(NotFound("Task not found")))
  {
    var manager := new AgentTaskManager((query: string, sessionId: string) => "hi there");
    var hello := Message("user", [TextPart("hello")]);
    sent := manager.OnSendTask(SendTaskRequest(StrId("r1"), TaskSendParams("t1", "s1", hello)));
    found := manager.store.OnGetTask(GetTaskRequest(StrId("r2"), TaskQueryParams("t1", None)));
    missing := manager.store.OnGetTask(GetTaskRequest(StrId("r3"), TaskQueryParams("nope", None)));
  }
}
