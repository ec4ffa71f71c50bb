/**
 * The A2A host agent of the Python agents: a task manager that records one
 * response per task id and the set of tasks still running, and the host's
 * handlers for discovery, task requests, status queries and cancellation.
 *
 * Task execution is asynchronous in the source; here it is the explicit step
 * `ExecuteTask`, which the scheduler may run for any request at any later time.
 * The agent is an oracle from its input to the outcome of one run, and the
 * clock is the parameter `now`.
 */
module A2AAgent {
  import opened Wrappers
  import opened Json
  import opened Text
  import opened AgentOracle
  import opened A2AModels

  /** What `asyncio.create_task` does when `start_task` calls it. */
  datatype SpawnOutcome = Spawned | SpawnRaised(error: string)

  /**
   * The message a task hands to the agent: the `content` of the last entry of
   * `inputData["messages"]` when that is a non-empty list, else
   * `inputData["message"]`, "" when absent. An entry that is not a dictionary
   * has no `get` and raises; so does building the chat message from a value
   * that is not a string.
   */
  function ExtractUserInput(inputData: Dict): Result<string, string> {
    var message := Get(inputData, "message", JStr(""));
    var chosen: Result<Json, string> :=
      if "messages" in inputData && inputData["messages"].JList? && inputData["messages"].items != [] then
        var last := inputData["messages"].items[|inputData["messages"].items| - 1];
        if last.JObject? then Ok(Get(last.fields, "content", JStr("")))
        else Err("'" + TypeName(last) + "' object has no attribute 'get'")
      else Ok(message);
    match chosen
    case Err(e) => Err(e)
    case Ok(JStr(text)) => Ok(text)
    case Ok(_) => Err(NotAStringError)
  }

  /** The validation error `AIChatMessage` raises for a `content` that is not a string. */
  const NotAStringError := "1 validation error for AIChatMessage\ncontent\n  Input should be a valid string"

  /**
   * Only the last entry of a non-empty message list decides the input: earlier
   * entries and the single `message` key are ignored, and a missing `content`
   * gives the empty string.
   */
  lemma ExtractUsesLastMessage(inputData: Dict, earlier: seq<Json>, last: Dict)
    ensures var d := inputData["messages" := JList(earlier + [JObject(last)])];
            && ("content" !in last ==> ExtractUserInput(d) == Ok(""))
            && ("content" in last && last["content"].JStr? ==> ExtractUserInput(d) == Ok(last["content"].s))
            && ("content" in last && !last["content"].JStr? ==> ExtractUserInput(d) == Err(NotAStringError))
  {
    var d := inputData["messages" := JList(earlier + [JObject(last)])];
    assert d["messages"].items[|d["messages"].items| - 1] == JObject(last);
  }

  /** A last entry that is not a dictionary fails the extraction, whatever else the input holds. */
  lemma ExtractRejectsNonDictEntry(inputData: Dict, earlier: seq<Json>, last: Json)
    requires !last.JObject?
    ensures var d := inputData["messages" := JList(earlier + [last])];
            ExtractUserInput(d) == Err("'" + TypeName(last) + "' object has no attribute 'get'")
  {
    var d := inputData["messages" := JList(earlier + [last])];
    assert d["messages"].items[|d["messages"].items| - 1] == last;
  }

  /** Without a non-empty message list the input is the string `message`, or "" when that key is absent. */
  lemma ExtractFallsBackToMessage(inputData: Dict)
    requires "messages" !in inputData || !inputData["messages"].JList? || inputData["messages"].items == []
    ensures "message" !in inputData ==> ExtractUserInput(inputData) == Ok("")
    ensures "message" in inputData && inputData["message"].JStr? ==>
      ExtractUserInput(inputData) == Ok(inputData["message"].s)
    ensures "message" in inputData && !inputData["message"].JStr? ==>
      ExtractUserInput(inputData) == Err(NotAStringError)
  {
  }

  /** The `result` of a completed task. */
  function TextResult(text: string): Json {
    JObject(map["text" := JStr(text), "type" := JStr("text")])
  }

  function Stamp(key: string, now: string): Option<Dict> {
    Some(map[key := JStr(now)])
  }

  /** The response `start_task` stores and returns once the task is running. */
  function StartedResponse(id: string, now: string): TaskResponse {
    TaskResponse(id, Running, JNull, None, Stamp("started_at", now))
  }

  /** The response `start_task` stores and returns when starting the task raised. */
  function StartFailedResponse(id: string, error: string): TaskResponse {
    TaskResponse(id, Failed, JNull, Some(error), None)
  }

  function FailedResponse(id: string, error: string, now: string): TaskResponse {
    TaskResponse(id, Failed, JNull, Some(error), Stamp("failed_at", now))
  }

  function CancelledResponse(id: string, now: string): TaskResponse {
    TaskResponse(id, Cancelled, JNull, None, Stamp("cancelled_at", now))
  }

  /** The response `_execute_task` stores for `request` when the agent behaves as `agent`. */
  function ExecutionResponse(request: TaskRequest, agent: string -> AgentRun, now: string): TaskResponse {
    match ExtractUserInput(request.inputData)
    case Err(e) => FailedResponse(request.id, e, now)
    case Ok(input) =>
      match agent(input)
      case Reply(text) => TaskResponse(request.id, Completed, TextResult(text), None, Stamp("completed_at", now))
      case Raised(e) => FailedResponse(request.id, e, now)
  }

  /**
   * An execution ends in exactly one of two states: completed with the agent's
   * text as a text result, when the input could be read and the agent replied;
   * failed with the exception text otherwise.
   */
  lemma ExecutionOutcome(request: TaskRequest, agent: string -> AgentRun, now: string)
    ensures var r := ExecutionResponse(request, agent, now);
      && r.id == request.id
      && (r.status == Completed || r.status == Failed)
      && (r.status == Completed <==>
            ExtractUserInput(request.inputData).Ok? && agent(ExtractUserInput(request.inputData).value).Reply?)
      && (r.status == Completed ==>
            r.result == TextResult(agent(ExtractUserInput(request.inputData).value).text) && r.error == None)
      && (r.status == Failed ==> r.result == JNull && r.error.Some?)
      && (ExtractUserInput(request.inputData).Ok? && agent(ExtractUserInput(request.inputData).value).Raised? ==>
            r.error == Some(agent(ExtractUserInput(request.inputData).value).error))
  {
  }

  /** `A2ATaskManager`: one stored response per task id, and the ids of the tasks still running. */
  class TaskManager {
    const agentCard: AgentCard
    var runningTasks: set<string>
    var taskResults: map<string, TaskResponse>

    /** Every running task has a stored response. */
    ghost predicate Valid()
      reads this
    {
      runningTasks <= taskResults.Keys
    }

    constructor (agentCard: AgentCard)
      ensures Valid()
      ensures this.agentCard == agentCard
      ensures runningTasks == {} && taskResults == map[]
    {
      this.agentCard := agentCard;
      runningTasks := {};
      taskResults := map[];
    }

    /**
     * `start_task`: stores a pending response, spawns the execution, registers it
     * as running and stores the response again as running. When spawning raises,
     * the pending response is replaced by a failed one carrying the exception text.
     */
    method StartTask(request: TaskRequest, now: string, spawn: SpawnOutcome) returns (response: TaskResponse)
      requires Valid()
      modifies this
      ensures Valid()
      ensures response.id == request.id
      ensures taskResults == old(taskResults)[request.id := response]
      ensures spawn.Spawned? ==> response == StartedResponse(request.id, now)
      ensures spawn.Spawned? ==> runningTasks == old(runningTasks) + {request.id}
      ensures spawn.SpawnRaised? ==> response == StartFailedResponse(request.id, spawn.error)
      ensures spawn.SpawnRaised? ==> runningTasks == old(runningTasks)
    {
      response := TaskResponse(request.id, Pending, JNull, None, Stamp("started_at", now));
      taskResults := taskResults[request.id := response];
      match spawn {
        case Spawned =>
          runningTasks := runningTasks + {request.id};
          response := response.(status := Running);
          taskResults := taskResults[request.id := response];
        case SpawnRaised(e) =>
          response := StartFailedResponse(request.id, e);
          taskResults := taskResults[request.id := response];
      }
    }

    /**
     * `_execute_task`: reads the input, runs the agent, and replaces the stored
     * response by the outcome; the task no longer counts as running.
     */
    method ExecuteTask(request: TaskRequest, agent: string -> AgentRun, now: string)
      requires Valid()
      modifies this
      ensures Valid()
      ensures taskResults == old(taskResults)[request.id := ExecutionResponse(request, agent, now)]
      ensures runningTasks == old(runningTasks) - {request.id}
    {
      var response: TaskResponse;
      var input := ExtractUserInput(request.inputData);
      if input.Err? {
        response := FailedResponse(request.id, input.error, now);
      } else {
        var run := agent(input.value);
        if run.Reply? {
          response := TaskResponse(request.id, Completed, TextResult(run.text), None, Stamp("completed_at", now));
        } else {
          response := FailedResponse(request.id, run.error, now);
        }
      }
      taskResults := taskResults[request.id := response];
      if request.id in runningTasks {
        runningTasks := runningTasks - {request.id};
      }
    }

    /** `get_task_status`: the stored response, if any. */
    function GetTaskStatus(taskId: string): (r: Option<TaskResponse>)
      reads this
      ensures r.Some? <==> taskId in taskResults
      ensures r.Some? ==> r.value == taskResults[taskId]
    {
      if taskId in taskResults then Some(taskResults[taskId]) else None
    }

    /**
     * `cancel_task`: a running task is recorded as cancelled and stops counting as
     * running; any other id, a finished task's included, is refused and nothing changes.
     */
    method CancelTask(taskId: string, now: string) returns (cancelled: bool)
      requires Valid()
      modifies this
      ensures Valid()
      ensures cancelled <==> taskId in old(runningTasks)
      ensures cancelled ==> taskResults == old(taskResults)[taskId := CancelledResponse(taskId, now)]
      ensures cancelled ==> runningTasks == old(runningTasks) - {taskId}
      ensures !cancelled ==> taskResults == old(taskResults) && runningTasks == old(runningTasks)
    {
      if taskId in runningTasks {
        taskResults := taskResults[taskId := CancelledResponse(taskId, now)];
        runningTasks := runningTasks - {taskId};
        return true;
      }
      return false;
    }
  }

  /** The text of a pydantic validation error naming the failing locations. */
  function ValidationMessage(locations: seq<string>): string
    decreases |locations|
  {
    if locations == [] then "validation error for A2ATaskRequest"
    else ValidationMessage(locations[..|locations| - 1]) + "\n" + locations[|locations| - 1]
  }

  /** The reply to a task request that does not validate. */
  function RejectedReply(id: Json, error: string): Json {
    JObject(map["id" := id, "status" := JStr("failed"), "error" := JStr(error)])
  }

  /** The reply to a status query for an unknown task. */
  function NotFoundReply(taskId: string): Json {
    JObject(map["id" := JStr(taskId), "status" := JStr("not_found"), "error" := JStr("Task not found")])
  }

  function CancellationReply(taskId: string, cancelled: bool): Json {
    JObject(map["id" := JStr(taskId), "cancelled" := JBool(cancelled)])
  }

  /** `A2AHostAgent`: the A2A endpoints in front of one task manager. */
  class HostAgent {
    const agentCard: AgentCard
    const taskManager: TaskManager
    const agentId: string

    ghost predicate Valid()
      reads this, taskManager
    {
      taskManager.Valid() && taskManager.agentCard == agentCard
    }

    /** `agentId` is the `str(uuid4())` the source draws at construction. */
    constructor (agentCard: AgentCard, agentId: string)
      ensures Valid() && fresh(taskManager)
      ensures this.agentCard == agentCard && this.agentId == agentId
      ensures taskManager.runningTasks == {} && taskManager.taskResults == map[]
    {
      this.agentCard := agentCard;
      this.agentId := agentId;
      taskManager := new TaskManager(agentCard);
    }

    /**
     * `handle_discovery_request`: the card as a discovery document, from which
     * the whole card, skills in order, is read back.
     */
    function HandleDiscoveryRequest(): (doc: Json)
      ensures LoadCard(doc) == Some(agentCard)
    {
      DiscoveryRoundTrip(agentCard);
      DiscoveryDocument(agentCard)
    }

    /**
     * `handle_task_request`: a request that validates is started and its stored
     * response is returned dumped; one that does not is answered as failed with
     * the validation message under the request's own `id` (or `freshId`, the
     * `str(uuid4())` used when there is none), and no task is touched.
     */
    method HandleTaskRequest(data: Dict, freshId: string, now: string, spawn: SpawnOutcome) returns (reply: Json)
      requires Valid()
      modifies taskManager
      ensures Valid()
      ensures ParseTaskRequest(data).Err? ==>
        reply == RejectedReply(Get(data, "id", JStr(freshId)), ValidationMessage(ParseTaskRequest(data).error))
        && taskManager.taskResults == old(taskManager.taskResults)
        && taskManager.runningTasks == old(taskManager.runningTasks)
      ensures ParseTaskRequest(data).Ok? ==>
        var id := ParseTaskRequest(data).value.id;
        && id in taskManager.taskResults
        && taskManager.taskResults == old(taskManager.taskResults)[id := taskManager.taskResults[id]]
        && reply == DumpTaskResponse(taskManager.taskResults[id])
        && (spawn.Spawned? ==>
              taskManager.taskResults[id] == StartedResponse(id, now)
              && taskManager.runningTasks == old(taskManager.runningTasks) + {id})
        && (spawn.SpawnRaised? ==>
              taskManager.taskResults[id] == StartFailedResponse(id, spawn.error)
              && taskManager.runningTasks == old(taskManager.runningTasks))
    {
      var parsed := ParseTaskRequest(data);
      if parsed.Err? {
        return RejectedReply(Get(data, "id", JStr(freshId)), ValidationMessage(parsed.error));
      }
      var response := taskManager.StartTask(parsed.value, now, spawn);
      reply := DumpTaskResponse(response);
    }

    /**
     * `handle_task_status_request`: the stored response dumped, from which it
     * is read back; the fixed not-found reply for an unknown id.
     */
    function HandleTaskStatusRequest(taskId: string): (reply: Json)
      reads this, taskManager
      ensures taskId in taskManager.taskResults ==> LoadTaskResponse(reply) == Some(taskManager.taskResults[taskId])
      ensures taskId !in taskManager.taskResults ==> reply == NotFoundReply(taskId)
    {
      match taskManager.GetTaskStatus(taskId)
      case Some(response) =>
        TaskResponseRoundTrip(response);
        DumpTaskResponse(response)
      case None => NotFoundReply(taskId)
    }

    /** `handle_task_cancellation`: the id with whether the cancellation took effect. */
    method HandleTaskCancellation(taskId: string, now: string) returns (reply: Json)
      requires Valid()
      modifies taskManager
      ensures Valid()
      ensures reply == CancellationReply(taskId, taskId in old(taskManager.runningTasks))
      ensures taskId in old(taskManager.runningTasks) ==>
        taskManager.taskResults == old(taskManager.taskResults)[taskId := CancelledResponse(taskId, now)]
        && taskManager.runningTasks == old(taskManager.runningTasks) - {taskId}
      ensures taskId !in old(taskManager.runningTasks) ==>
        taskManager.taskResults == old(taskManager.taskResults)
        && taskManager.runningTasks == old(taskManager.runningTasks)
    {
      var cancelled := taskManager.CancelTask(taskId, now);
      reply := CancellationReply(taskId, cancelled);
    }
  }

  /**
   * A task's life on one manager: started, then finished by its execution, it
   * can no longer be cancelled and keeps the execution's response.
   */
  method FinishedTaskIsNotCancellable(request: TaskRequest, agent: string -> AgentRun, now: string)
    returns (cancelled: bool, final: TaskResponse)
    ensures !cancelled
    ensures final == ExecutionResponse(request, agent, now)
  {
    var manager := new TaskManager(NewCard("agent", "", "", "1.0"));
    var started := manager.StartTask(request, now, Spawned);
    assert request.id in manager.runningTasks;
    manager.ExecuteTask(request, agent, now);
    cancelled := manager.CancelTask(request.id, now);
    final := manager.taskResults[request.id];
  }
}
