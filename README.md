# A2A task manager and JSON-RPC router, modelled in Dafny

This is a model of the core of a small "Agent-to-Agent" (A2A) server. The model covers:

- **The in-memory task store** (`InMemoryTaskManager`). It is a dictionary from task id to task. `upsert_task` creates a task with status SUBMITTED and history `[message]`, or appends the message to the history of the task already stored under that id. `on_get_task` looks a task up and hands out a copy whose history is trimmed with Python's `history[-N:]`.
- **The agent task manager** (`AgentTaskManager`). A send does four things in order: it upserts the user's message, takes the text of the first part of that message as the query, asks the agent, and then marks the task COMPLETED and appends the agent's reply as an `"agent"` message. The agent is a total function from (query, session id) to reply text.
- **The JSON-RPC router** (`A2AServer._handle_request`). It parses the body as one of the two requests, which are told apart by `method` (`"tasks/send"` or `"tasks/get"`). It hands a send to the task manager and answers with HTTP 200 and the response, with missing fields left out. Every failure becomes HTTP 400 with a response that has a null id, a null result and the internal error (code -32603) carrying the failure's message. A parsed `tasks/get` is one of these failures, because the handler only dispatches sends.
- **The wire types**: message ids, the version literal `"2.0"`, error objects, responses, and the JSON form of tasks and requests. Ids, request envelopes, A2A requests, error objects (up to literal null data) and tasks have parsers, and the model proves that each written value reads back as itself. The version is checked by `VersionAccepted`. Responses are only written, and the model proves that the task inside a written response parses back to that task.

Modules, one per source file: `JsonRpc` (models/json_rpc.py), `Requests` (models/request.py), `TaskManager` (server/task_manager.py), `AgentTasks` (my_agents/openai_sdk/task_manager.py) and `Server` (server/server.py). `Tasks` holds the task, message and parameter records. The source's models/task.py is not part of this model, so `Tasks` keeps only the fields the core uses. `Json` is a small JSON value with list helpers, and `Wrappers` holds `Option` and `Result`.

The stateful parts are classes. `InMemoryTaskManager` has a `tasks: map<string, Task>` field. `AgentTaskManager` holds that store and the agent. `A2AServer` holds the optional agent card and the optional task manager. Each state-changing method is tied to a specification function of the old state: `Upserted`, `AfterSend` and `Handle`. The properties are proved about those functions.

Three behaviours of the code that are easy to get wrong:

- `historyLength = 0` returns the whole history, because `h[-0:]` is `h[0:]`. It does not return an empty history.
- A parsed `tasks/get` never reaches the store through the server. It gets HTTP 400 with "Unsupported A2A method: …".
- Nothing in the response type enforces "at most one of result and error". `Requests.TaskResponse.AtMostOneOutcome` names the rule, and the contracts of `OnGetTask` and `OnSendTask` state that their responses keep it. The server lemmas show that the failure reply always has a null result and the success reply never has an error.

## Model

| member | source | states |
|---|---|---|
| `JsonRpc.DecodeId` | models/json_rpc.py:37-39 | A parsed id is an integer, a string or null. A missing id becomes the generated default. Any other JSON value is refused. |
| `JsonRpc.DecodeRequest` | models/json_rpc.py:33-52 | A request is accepted only if its `jsonrpc` field is absent or exactly "2.0". Its method is the body's `method` string. Its params are absent exactly when the body has no params or null params, and otherwise they are the body's params object. Conversely, every object with an accepted version, a valid id, a string method and params that are absent, null or an object is accepted. |
| `JsonRpc.RequestRoundTrip` | models/json_rpc.py:47-52 | Every request envelope, written out and parsed back, is the same envelope, whatever default id the parser has. |
| `JsonRpc.InternalError` | models/json_rpc.py:89-97 | The internal error has code -32603 and no data. Its message defaults to the constant "Internal error". |
| `JsonRpc.DecodeError` | models/json_rpc.py:60-68 | An error object parses if and only if it has an integer `code` and a string `message`. `data` is optional. |
| `JsonRpc.ErrorRoundTrip` | models/json_rpc.py:60-68 | A written error object reads back as itself. Data that is literally null reads back as no data. |
| `JsonRpc.Envelope` | models/json_rpc.py:74-81 | A response always carries `jsonrpc` "2.0". The id, result and error entries are absent exactly when they are missing and missing values are excluded; otherwise they hold the value, or null. |
| `Tasks.TaskRoundTrip` | server/server.py:158-160 | A task serialised with or without its missing fields parses back to the same task: id, session id, status and the whole history in order. |
| `Requests.A2ARequest.Method` | models/request.py:44-55 | A send request carries the fixed method "tasks/send" and a get request carries "tasks/get". |
| `Requests.DecodeA2ARequest` | models/request.py:63-72 | A parsed request's method is a union tag: "tasks/send" gives a send whose params parse as send parameters, and "tasks/get" gives a get whose params parse as query parameters. Any other method, or a missing one, is refused as a whole. Version and id rules are as for the envelope. Conversely, a body with an accepted version, a valid id, method "tasks/send" (or "tasks/get") and params that parse as send (or query) parameters is accepted as exactly that send (or get). |
| `Requests.ClientSendAccepted` | models/request.py:63-72 | A send body as the client writes it, with a `type` on each part and extra null fields, parses as the send it describes. |
| `Requests.A2ARequestRoundTrip` | models/request.py:61-72 | Encoding a send or get request and parsing it back recovers the same kind of request, the same id and the same params. |
| `Requests.TaskResponseToJson` | models/request.py:79-88 | A send or get response carries either a task result or none. When it carries one, the written result parses back to that task. The id is written unless it is null and missing values are excluded. |
| `TaskManager.TrimHistory` | server/task_manager.py:152-157 | With no length, the whole history. With N > 0, the last min(N, len) messages in their original order. With N = 0 or N ≥ len, the whole history. With N < 0, the history without its first min(-N, len) messages. |
| `TaskManager.Upserted` | server/task_manager.py:101-116 | For an absent id, exactly that key is added, mapped to a task with status SUBMITTED, no session id and history `[message]`. For a present id the key set is unchanged, and the message becomes the last history entry after a preserved prefix, with status and session id unchanged. Every other task is untouched, and the store invariant is kept. |
| `TaskManager.InMemoryTaskManager.constructor` | server/task_manager.py:84-86 | A new store is empty. |
| `TaskManager.InMemoryTaskManager.UpsertTask` | server/task_manager.py:91-116 | The new store is `Upserted` of the old one. The returned task is the one now stored under the params' id. |
| `TaskManager.InMemoryTaskManager.OnGetTask` | server/task_manager.py:134-159 | The response echoes the request id. An unknown task id gives no result and the not-found outcome "Task not found", with no code. The response never has both a result and an error. A known id gives no error, and a copy of the stored task with the same id, session id and status and a history trimmed by `TrimHistory`. The store is not modified. |
| `TaskManager.NotFoundErrorObjectIsRefused` | server/task_manager.py:148-150 | The error object the lookup builds for an unknown id, which has a message and no code, is refused by the error object's schema. |
| `AgentTasks.UserQuery` | my_agents/openai_sdk/task_manager.py:59-71 | The query is the text of the first part of the message in this request. A message with no parts fails with "list index out of range". |
| `AgentTasks.AfterSend` | my_agents/openai_sdk/task_manager.py:90-108 | After a send the task's status is COMPLETED, whatever it was. A fresh id ends with history `[user message, agent message]`. An existing id keeps its id and session id, and its history grows by exactly two entries, the user message then the agent message with role "agent" and the single text part of the reply, after the old history as a prefix. Other tasks are unchanged. |
| `AgentTasks.AgentTaskManager.constructor` | my_agents/openai_sdk/task_manager.py:52-54 | The manager keeps the given agent and starts with a fresh, empty store. |
| `AgentTasks.AgentTaskManager.OnSendTask` | my_agents/openai_sdk/task_manager.py:76-111 | If the message has parts, the agent is asked with the query and the session id. The store becomes `AfterSend` with that reply, and the response echoes the request id with the stored task as its result. That response has no error. If the message has no parts, the send fails after the upsert, so the store keeps the appended user message and the task stays in its old status. |
| `AgentTasks.SendThenGetScenario` | my_agents/openai_sdk/task_manager.py:76-111 | Sending "hello" to a new task with an agent that answers "hi there" gives a COMPLETED task with history [user "hello", agent "hi there"]. A later lookup returns that same task, and a lookup of an unknown id gives "Task not found". |
| `Server.ErrorReply` | server/server.py:137-143 | A failure reply has HTTP 400 and a body with version "2.0", a null id, a null result, and an error with code -32603, the failure's message and null data. |
| `Server.CreateResponse` | server/server.py:148-162 | A success reply has HTTP 200, with missing fields excluded from the response. The id is present when not null and echoed, the error is present only if set, and the result, when present, parses back to the task. |
| `Server.HandleAlwaysReplies` | server/server.py:120-143 | Every body gets exactly one reply, either a well-formed success or a well-formed failure, so no failure escapes. The reply is HTTP 200 exactly when the body parses as a send, a task manager is present and the message has a first part. |
| `Server.OnlySendIsDispatched` | server/server.py:126-132 | A body that does not parse, and a parsed `tasks/get`, both get a failure reply and leave the store unchanged. The get's reply message is "Unsupported A2A method: …". |
| `Server.SendIsDelegated` | server/server.py:128-135 | A parsed send goes to the task manager. The store becomes `AfterSend` with the agent's answer to the first part's text. The reply is HTTP 200, echoes the request id, and its result parses to the task now stored under the task id. |
| `Server.HelloScenario` | server/server.py:120-135 | An encoded send of "hello" to a new task "t1", with an agent answering "hi there", gets HTTP 200 and stores a COMPLETED task with history [user "hello", agent "hi there"]. |
| `Server.UnknownMethodScenario` | server/server.py:125-143 | A request with method "tasks/delete" gets a failure reply with HTTP 400 and a null id, and the store is unchanged, whether or not the server has a task manager. |
| `Server.A2AServer.constructor` | server/server.py:57-70 | The server keeps the given host, port, agent card and task manager. These default to "0.0.0.0", 5000, no agent card and no task manager. |
| `Server.A2AServer.Start` | server/server.py:84-94 | Start is refused with "Agent card and task manager are required" exactly when the agent card or the task manager is missing. |
| `Server.A2AServer.HandleRequest` | server/server.py:111-143 | The reply and the new store are those of `Handle` on the old store, with every lemma above applying. Without a task manager, a send fails with the missing attribute's message. |

## Findings

| source | as written | input that shows it | evidently intended | confidence | as-written member | corrected member |
|---|---|---|---|---|---|---|
| server/task_manager.py:150 | For an unknown id, the lookup builds its response from an error object that has only a message. The error object's schema requires an integer code, so validation raises instead of returning the response. | a `tasks/get` whose params id is "nope" against an empty store | A response that echoes the request id, has no result, and carries a "Task not found" error | not executed | `TaskManager.NotFoundErrorObjectIsRefused` | `TaskManager.InMemoryTaskManager.OnGetTask` |

## Left out

- The HTTP transport is not modelled: Starlette routes, uvicorn, reading the body with `request.json()`, `JSONResponse` and `jsonable_encoder`. The handler receives an already parsed JSON value and returns a status code and a JSON value. A body that is not valid JSON text is therefore not modelled.
- The agent-card route `_get_agent_card` is not modelled. `AgentCard` is kept only as something the server has or lacks. Its fields are declarative data.
- The `asyncio.Lock` and interleavings are not modelled. Each operation is one atomic step, so the race between two concurrent sends to the same id across the agent call is not captured.
- Object identity is not modelled. `upsert_task` returns the stored task object, and `on_send_task` later changes that object. The model writes the updated task back under the same key, which gives the same state in a sequential run, but it does not model aliasing.
- The abstract `TaskManager` base class and the placeholder `InMemoryTaskManager.on_send_task` (which raises NotImplementedError) are not modelled. The server is modelled against `AgentTaskManager` directly, because the two-method interface has a single implementation here.
- The "Invalid response type" branch of `_create_response` is not modelled. The model's task manager always returns a task response, so that branch cannot be reached.
- The agent (`TellTimeAgent.invoke`, with its language-model call, current time and error printing) is a nondeterministic foreign call and is not modelled. It is replaced by a total function from query and session id to reply text. It never fails, as the source catches every error and returns a fixed apology text.
- The client (client/client.py), the command-line loop (app/cmd/cmd.py) and the server start-up script are not modelled. They are network and console plumbing.
- Serving requests after a successful start is not modelled; `Server.A2AServer.Start` only checks for the agent card and the task manager.
- The random default request id is not modelled. It is the `freshId` parameter of the parsers.
- Logging, the debug print of the incoming body and the datetime serializer are not modelled.
- Requests.DecodeA2ARequest: a refused body's failure message is the model's own text, not pydantic's validation report. The 400 reply's `message` therefore differs from the source's for parse failures. The "Unsupported A2A method", missing-attribute and index-error messages are the source's.
- Requests.DecodeA2ARequest: pydantic's lax coercions, such as a boolean or a float accepted as an integer, are not modelled. JSON numbers are integers only.
- Task fields: models/task.py is not part of this model. The task, message, part and parameter records carry only the fields the core uses, and state names are written in lower case. The send parameters' session id is a required string. Text parts are the only kind of part.
