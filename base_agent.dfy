// The common agent machinery of src/agents/BaseAgent.ts: the task map with
// create, update and lookup, the initialise/shutdown flag, message
// dispatch to the registered handler types, and the registry that routes
// messages between agents by id. Fresh uuids and the clock are parameters.

module BaseAgent {
  import opened Wrappers

  datatype TaskStatus = Pending | Running | Completed | Failed | Cancelled

  /**
   * A task record. `result` stands for any value (None: undefined) and
   * `error` for an Error's message (None: no error); dates are timestamps.
   */
  datatype Task = Task(
    id: string,
    agentId: string,
    taskType: string,
    status: TaskStatus,
    progress: real,
    result: Option<string>,
    error: Option<string>,
    createdAt: int,
    updatedAt: int)

  /** A message between agents; the payload stands for any value. */
  datatype AgentMessage = AgentMessage(
    id: string,
    fromAgentId: string,
    toAgentId: string,
    messageType: string,
    payload: string,
    timestamp: int)

  /** What receiveMessage did with a message. */
  datatype Delivery =
    | NoHandler      // no handler for the type: a warning, nothing else
    | Handled        // the handler ran
    | HandlerFailed  // the handler threw; the error was logged and not rethrown

  /**
   * The fields updateTask writes: status, progress and the update time
   * always, result only when given (not undefined), error only when given.
   */
  function UpdatedTask(t: Task, status: TaskStatus, progress: real, result: Option<string>, error: Option<string>, now: int): (r: Task)
    ensures r.id == t.id && r.agentId == t.agentId && r.taskType == t.taskType && r.createdAt == t.createdAt
    ensures r.status == status && r.progress == progress && r.updatedAt == now
    ensures r.result == (if result.Some? then result else t.result)
    ensures r.error == (if error.Some? then error else t.error)
  {
    t.(status := status, progress := progress, updatedAt := now,
       result := if result.Some? then result else t.result,
       error := if error.Some? then error else t.error)
  }

  class Agent {
    const id: string
    const name: string
    const description: string
    var tasks: map<string, Task>
    /** The message types with a registered handler. */
    var messageHandlers: set<string>
    var isInitialized: bool

    /** A new agent under a fresh id, with no tasks and no handlers, not initialised. */
    constructor (name: string, description: string, freshId: string)
      ensures this.id == freshId && this.name == name && this.description == description
      ensures tasks == map[] && messageHandlers == {} && !isInitialized
    {
      this.id := freshId;
      this.name := name;
      this.description := description;
      tasks := map[];
      messageHandlers := {};
      isInitialized := false;
    }

    /**
     * initialize: a second call does nothing; otherwise the subclass's
     * handlers (`handlerTypes`) are registered and the flag goes up.
     */
    method Initialize(handlerTypes: set<string>)
      modifies this
      ensures isInitialized
      ensures old(isInitialized) ==> messageHandlers == old(messageHandlers)
      ensures !old(isInitialized) ==> messageHandlers == old(messageHandlers) + handlerTypes
      ensures tasks == old(tasks)
    {
      if isInitialized {
        return;
      }
      messageHandlers := messageHandlers + handlerTypes;
      isInitialized := true;
    }

    /**
     * shutdown: on an agent that is not initialised it does nothing;
     * otherwise the handlers are cleared (as every agent's
     * unregisterMessageHandlers does) and the flag goes down.
     */
    method Shutdown()
      modifies this
      ensures !isInitialized
      ensures !old(isInitialized) ==> messageHandlers == old(messageHandlers)
      ensures old(isInitialized) ==> messageHandlers == {}
      ensures tasks == old(tasks)
    {
      if !isInitialized {
        return;
      }
      messageHandlers := {};
      isInitialized := false;
    }

    /** createTask: a pending task at progress 0, owned by this agent, stored under its fresh id. */
    method CreateTask(taskType: string, freshId: string, now: int) returns (task: Task)
      modifies this
      ensures task == Task(freshId, id, taskType, Pending, 0.0, None, None, now, now)
      ensures tasks == old(tasks)[freshId := task]
      ensures freshId !in old(tasks) ==> |tasks| == |old(tasks)| + 1
      ensures messageHandlers == old(messageHandlers) && isInitialized == old(isInitialized)
    {
      task := Task(freshId, id, taskType, Pending, 0.0, None, None, now, now);
      tasks := tasks[freshId := task];
    }

    /**
     * updateTask: null and no change for an unknown id; otherwise the task
     * is rewritten as UpdatedTask says and every other task stays.
     */
    method UpdateTask(taskId: string, status: TaskStatus, progress: real, result: Option<string>, error: Option<string>, now: int)
      returns (updated: Option<Task>)
      modifies this
      ensures taskId !in old(tasks) ==> updated.None? && tasks == old(tasks)
      ensures taskId in old(tasks) ==>
                updated == Some(UpdatedTask(old(tasks)[taskId], status, progress, result, error, now)) &&
                tasks == old(tasks)[taskId := updated.value]
      ensures tasks.Keys == old(tasks).Keys
      ensures messageHandlers == old(messageHandlers) && isInitialized == old(isInitialized)
    {
      if taskId !in tasks {
        return None;
      }
      var task := UpdatedTask(tasks[taskId], status, progress, result, error, now);
      tasks := tasks[taskId := task];
      updated := Some(task);
    }

    /** A handler's bookkeeping when its work succeeds: create, run, complete. */
    method CompleteTask(taskId: string, taskType: string, result: Option<string>, now: int)
      modifies this
      ensures tasks == old(tasks)[taskId := CompletedTask(id, taskId, taskType, result, now)]
      ensures messageHandlers == old(messageHandlers) && isInitialized == old(isInitialized)
    {
      var task := CreateTask(taskType, taskId, now);
      var _ := UpdateTask(taskId, Running, 0.0, None, None, now);
      var _ := UpdateTask(taskId, Completed, 100.0, result, None, now);
    }

    /** A handler's bookkeeping when its work throws: create, run, fail with the error. */
    method FailTask(taskId: string, taskType: string, error: string, now: int)
      modifies this
      ensures tasks == old(tasks)[taskId := FailedTask(id, taskId, taskType, error, now)]
      ensures messageHandlers == old(messageHandlers) && isInitialized == old(isInitialized)
    {
      var task := CreateTask(taskType, taskId, now);
      var _ := UpdateTask(taskId, Running, 0.0, None, None, now);
      var _ := UpdateTask(taskId, Failed, 0.0, None, Some(error), now);
    }

    /** getTask: the stored task, or null. */
    function GetTask(taskId: string): (r: Option<Task>)
      reads this
      ensures r.Some? <==> taskId in tasks
      ensures r.Some? ==> r.value == tasks[taskId]
    {
      if taskId in tasks then Some(tasks[taskId]) else None
    }

    /** getAllTasks: every stored task (the order of the map is not modelled). */
    function AllTasks(): (r: set<Task>)
      reads this
      ensures forall t :: t in r <==> exists k :: k in tasks && tasks[k] == t
    {
      set k | k in tasks :: tasks[k]
    }

    /** The message sendMessage builds: from this agent, with a fresh id and the current time. */
    function OutgoingMessage(toAgentId: string, messageType: string, payload: string, freshId: string, now: int): (m: AgentMessage)
      ensures m.fromAgentId == id && m.toAgentId == toAgentId && m.messageType == messageType
      ensures m.payload == payload && m.id == freshId && m.timestamp == now
    {
      AgentMessage(freshId, id, toAgentId, messageType, payload, now)
    }

    /**
     * receiveMessage: a message without a handler only logs; a handler's
     * exception is caught. `handlerThrows` says whether the handler throws.
     */
    method ReceiveMessage(message: AgentMessage, handlerThrows: bool) returns (delivery: Delivery)
      ensures delivery == NoHandler <==> message.messageType !in messageHandlers
      ensures delivery == HandlerFailed <==> message.messageType in messageHandlers && handlerThrows
    {
      if message.messageType !in messageHandlers {
        return NoHandler;
      }
      delivery := if handlerThrows then HandlerFailed else Handled;
    }
  }

  /**
   * The task a message handler leaves behind when its work succeeds:
   * created as `taskType`, set running, then completed at progress 100
   * with the given result.
   */
  function CompletedTask(agentId: string, taskId: string, taskType: string, result: Option<string>, now: int): (t: Task)
    ensures t.id == taskId && t.agentId == agentId && t.taskType == taskType
    ensures t.status == Completed && t.progress == 100.0 && t.result == result && t.error == None
  {
    Task(taskId, agentId, taskType, Completed, 100.0, result, None, now, now)
  }

  /** The task a message handler leaves behind when its work throws: failed at progress 0 with the error. */
  function FailedTask(agentId: string, taskId: string, taskType: string, error: string, now: int): (t: Task)
    ensures t.id == taskId && t.agentId == agentId && t.taskType == taskType
    ensures t.status == Failed && t.progress == 0.0 && t.result == None && t.error == Some(error)
  {
    Task(taskId, agentId, taskType, Failed, 0.0, None, Some(error), now, now)
  }

  /** A task created and then updated keeps its identity and creation time. */
  method CreateThenUpdate(agent: Agent, taskType: string, freshId: string, t0: int, t1: int, status: TaskStatus)
    returns (task: Task, updated: Option<Task>)
    modifies agent
    ensures updated.Some? && updated.value.id == freshId && updated.value.agentId == agent.id
    ensures updated.value.status == status && updated.value.createdAt == t0 && updated.value.updatedAt == t1
    ensures agent.GetTask(freshId) == updated
  {
    task := agent.CreateTask(taskType, freshId, t0);
    updated := agent.UpdateTask(freshId, status, 100.0, None, None, t1);
  }

  /** The registry of agents by id (a static map in the source). */
  class AgentRegistry {
    var agents: map<string, Agent>

    constructor ()
      ensures agents == map[]
    {
      agents := map[];
    }

    /** registerAgent: maps the agent's id to it, replacing any agent under that id. */
    method RegisterAgent(agent: Agent)
      modifies this
      ensures agents == old(agents)[agent.id := agent]
    {
      agents := agents[agent.id := agent];
    }

    /** unregisterAgent: removes that id only; an unknown id changes nothing. */
    method UnregisterAgent(agentId: string)
      modifies this
      ensures agents == old(agents) - {agentId}
      ensures agentId !in old(agents) ==> agents == old(agents)
    {
      if agentId in agents {
        agents := agents - {agentId};
      }
    }

    function GetAgent(agentId: string): (r: Option<Agent>)
      reads this
      ensures r.Some? <==> agentId in agents
      ensures r.Some? ==> r.value == agents[agentId]
    {
      if agentId in agents then Some(agents[agentId]) else None
    }

    /** routeMessage: an unknown target gets nothing; otherwise its receiveMessage runs. */
    method RouteMessage(message: AgentMessage, handlerThrows: bool) returns (delivery: Option<Delivery>)
      ensures delivery.None? <==> message.toAgentId !in agents
      ensures delivery.Some? ==>
                (delivery.value == NoHandler <==> message.messageType !in agents[message.toAgentId].messageHandlers)
      ensures delivery.Some? ==>
                (delivery.value == HandlerFailed <==> message.messageType in agents[message.toAgentId].messageHandlers && handlerThrows)
    {
      if message.toAgentId !in agents {
        return None;
      }
      var target := agents[message.toAgentId];
      var d := target.ReceiveMessage(message, handlerThrows);
      delivery := Some(d);
    }
  }
}
