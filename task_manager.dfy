/** The in-memory task store: a dictionary from task id to task, with the
    create-or-append operation and the lookup that hands out a trimmed copy. */
module TaskManager {
  import opened Wrappers
  import opened Json
  import opened JsonRpc
  import opened Tasks
  import opened Requests

  /** The message of the lookup's "not found" outcome. */
  const TaskNotFoundMessage: string := "Task not found"

  function Min(a: int, b: int): int { if a <= b then a else b }

  /** Python's `s[start:]` for any integer `start`: a negative start counts
      from the end, and both kinds are clamped to the sequence. */
  function SliceFrom<T>(s: seq<T>, start: int): (r: seq<T>)
    ensures 0 <= start ==> r == s[Min(start, |s|)..]
    ensures start < 0 ==> r == s[|s| - Min(-start, |s|)..]
  {
    var lo := if start < 0 then (if start + |s| < 0 then 0 else start + |s|)
              else (if start > |s| then |s| else start);
    s[lo..]
  }

  /** The history a lookup returns: `history[-n:]` when a length `n` is given,
      the whole history otherwise. */
  function TrimHistory(history: seq<Message>, historyLength: Option<int>): (r: seq<Message>)
    ensures historyLength.None? ==> r == history
    ensures historyLength == Some(0) ==> r == history
    ensures historyLength.Some? && historyLength.value > 0 ==>
              |r| == Min(historyLength.value, |history|) && r == history[|history| - |r|..]
    ensures historyLength.Some? && historyLength.value >= |history| ==> r == history
    ensures historyLength.Some? && historyLength.value < 0 ==>
              r == history[Min(-historyLength.value, |history|)..]
  {
    match historyLength
    case None => history
    case Some(n) => SliceFrom(history, -n)
  }

  /** As written, the lookup builds its "not found" response from an error
      object that has a message and no code. The error object's schema requires
      an integer code, so that object is refused instead of being returned. */
  lemma NotFoundErrorObjectIsRefused()
    ensures DecodeError(JObject(map["message" := JStr(TaskNotFoundMessage)])).Failure?
  {
  }

  /** Every stored task sits under its own id and has a non-empty history. */
  ghost predicate WellKeyed(tasks: map<string, Task>)
  {
    forall k :: k in tasks ==> tasks[k].id == k && |tasks[k].history| > 0
  }

  /** The store after `upsert_task(params)`. */
  function Upserted(tasks: map<string, Task>, params: TaskSendParams): (r: map<string, Task>)
    ensures r.Keys == tasks.Keys + {params.id}
    ensures forall k :: k in tasks && k != params.id ==> r[k] == tasks[k]
    ensures params.id !in tasks ==>
              r[params.id] == Task(params.id, None, TaskStatus(Submitted), [params.message])
    ensures params.id in tasks ==>
              var (was, now) := (tasks[params.id], r[params.id]);
              && now.id == was.id && now.sessionId == was.sessionId && now.status == was.status
              && |now.history| == |was.history| + 1
              && now.history[..|was.history|] == was.history
              && now.history[|was.history|] == params.message
    ensures WellKeyed(tasks) ==> WellKeyed(r)
  {
    if params.id in tasks then
      var task := tasks[params.id];
      tasks[params.id := task.(history := task.history + [params.message])]
    else
      tasks[params.id := Task(params.id, None, TaskStatus(Submitted), [params.message])]
  }

  /** The task a lookup hands out: a copy of the stored task whose history is
      trimmed. */
  function TaskCopy(stored: Task, historyLength: Option<int>): (t: Task)
    ensures t.id == stored.id && t.sessionId == stored.sessionId && t.status == stored.status
    ensures t.history == TrimHistory(stored.history, historyLength)
  {
    stored.(history := TrimHistory(stored.history, historyLength))
  }

  class InMemoryTaskManager {
    var tasks: map<string, Task>

    ghost predicate Valid()
      reads this
    {
      WellKeyed(tasks)
    }

    constructor ()
      ensures Valid() && tasks == map[]
    {
      tasks := map[];
    }

    /** Create the task with status SUBMITTED and history `[message]`, or
        append the message to the history of the task stored under that id. */
    method UpsertTask(params: TaskSendParams) returns (task: Task)
      requires Valid()
      modifies this
      ensures Valid()
      ensures tasks == Upserted(old(tasks), params)
      ensures params.id in tasks && task == tasks[params.id]
    {
      var existing := if params.id in tasks then Some(tasks[params.id]) else None;
      if existing.None? {
        task := Task(params.id, None, TaskStatus(Submitted), [params.message]);
        tasks := tasks[params.id := task];
      } else {
        task := existing.value.(history := existing.value.history + [params.message]);
        tasks := tasks[params.id := task];
      }
    }

    /** Look a task up by id. An unknown id gives the "not found" outcome; a
        known one gives a copy whose history is trimmed to the requested
        length. Nothing stored changes. */
    method OnGetTask(request: A2ARequest) returns (response: TaskResponse)
      requires request.GetTaskRequest?
      ensures response.id == request.id && response.AtMostOneOutcome()
      ensures request.queryParams.id !in tasks <==> response.result.None?
      ensures request.queryParams.id !in tasks ==> response.error == Some(NotFound(TaskNotFoundMessage))
      ensures request.queryParams.id in tasks ==>
                response.error.None? &&
                response.result == Some(TaskCopy(tasks[request.queryParams.id], request.queryParams.historyLength))
    {
      var query := request.queryParams;
      if query.id !in tasks {
        return TaskResponse(request.id, None, Some(NotFound(TaskNotFoundMessage)));
      }
      var taskCopy := tasks[query.id];
      if query.historyLength.Some? {
        taskCopy := taskCopy.(history := SliceFrom(taskCopy.history, -query.historyLength.value));
      } else {
        taskCopy := taskCopy.(history := taskCopy.history);
      }
      response := TaskResponse(request.id, Some(taskCopy), None);
    }
  }
}
