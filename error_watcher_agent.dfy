// The error watcher of src/agents/ErrorWatcherAgent.ts: a map of error
// records by id, resolved and retried in place, a set of listeners told of
// every new or resolved record, and the message handlers around them.
// Listeners are named by numbers; generated ids and the clock are
// parameters.

module ErrorWatcherAgent {
  import opened Wrappers
  import opened BaseAgent

  /** An error record; `stack` and `context` are optional. */
  datatype ErrorRecord = ErrorRecord(
    id: string,
    agentId: string,
    message: string,
    stack: Option<string>,
    timestamp: int,
    context: Option<string>,
    resolved: bool,
    retryCount: nat)

  /** `error.message || 'Unknown error'`. */
  function MessageOrDefault(message: string): (r: string)
    ensures |r| > 0
    ensures |message| > 0 ==> r == message
  {
    if |message| > 0 then message else "Unknown error"
  }

  /** The `error` object of an `error:report` payload: its message and its optional stack. */
  datatype ReportedError = ReportedError(message: string, stack: Option<string>)

  /** The message of the TypeError `error.message` throws when the payload has no `error` (V8's wording). */
  const MissingErrorMessage := "Cannot read properties of undefined (reading 'message')"

  class ErrorWatcher {
    const agent: Agent
    var errors: map<string, ErrorRecord>
    var errorListeners: set<nat>

    constructor (freshId: string)
      ensures fresh(agent) && agent.id == freshId && agent.tasks == map[]
      ensures !agent.isInitialized && agent.messageHandlers == {}
      ensures errors == map[] && errorListeners == {}
    {
      agent := new Agent("ErrorWatcherAgent", "Detects and logs errors, retries actions, provides user feedback", freshId);
      errors := map[];
      errorListeners := {};
    }

    /** The types registerMessageHandlers installs. */
    static const HandledTypes: set<string> := {"error:report", "error:resolve", "error:retry", "error:get_all"}

    /** getAllErrors: every stored record (the map's order is not modelled). */
    function AllErrors(): (r: set<ErrorRecord>)
      reads this
      ensures forall e :: e in r <==> exists k :: k in errors && errors[k] == e
    {
      set k | k in errors :: errors[k]
    }

    /** getUnresolvedErrors: exactly the stored records not yet resolved. */
    function UnresolvedErrors(): (r: set<ErrorRecord>)
      reads this
      ensures forall e :: e in r <==> e in AllErrors() && !e.resolved
    {
      set k | k in errors && !errors[k].resolved :: errors[k]
    }

    /** addErrorListener. */
    method AddErrorListener(listener: nat)
      modifies this
      ensures errorListeners == old(errorListeners) + {listener}
      ensures errors == old(errors)
    {
      errorListeners := errorListeners + {listener};
    }

    /** The unsubscribe addErrorListener returns. */
    method RemoveErrorListener(listener: nat)
      modifies this
      ensures errorListeners == old(errorListeners) - {listener}
      ensures errors == old(errors)
    {
      errorListeners := errorListeners - {listener};
    }

    /**
     * reportError: stores an unresolved record with no retries under the
     * generated id, owned by this agent, and notifies every listener.
     */
    method ReportError(message: string, stack: Option<string>, context: Option<string>, freshId: string, now: int)
      returns (errorId: string, notified: set<nat>)
      modifies this
      ensures errorId == freshId
      ensures errors == old(errors)[freshId := ErrorRecord(freshId, agent.id, message, stack, now, context, false, 0)]
      ensures notified == errorListeners && errorListeners == old(errorListeners)
    {
      var record := ErrorRecord(freshId, agent.id, message, stack, now, context, false, 0);
      errors := errors[freshId := record];
      notified := errorListeners;
      errorId := record.id;
    }

    /**
     * resolveError: false and no change for an unknown id; otherwise the
     * record is marked resolved, every listener is notified and the result
     * is true.
     */
    method ResolveError(errorId: string) returns (found: bool, notified: set<nat>)
      modifies this
      ensures found <==> errorId in old(errors)
      ensures !found ==> errors == old(errors) && notified == {}
      ensures found ==> errors == old(errors)[errorId := old(errors)[errorId].(resolved := true)]
      ensures found ==> notified == errorListeners
      ensures errorListeners == old(errorListeners)
    {
      if errorId !in errors {
        return false, {};
      }
      errors := errors[errorId := errors[errorId].(resolved := true)];
      found := true;
      notified := errorListeners;
    }

    /**
     * handleErrorReport: the record is keyed by the task id, owned by the
     * sender, with the error's message or 'Unknown error'; the task is
     * completed and the sender told the id. A payload without an `error`
     * object (None) makes `error.message` throw a TypeError before anything
     * is stored: the task fails with that TypeError and the sender gets
     * 'error:report:failed'. `rendered` stands for the record as the task
     * result.
     */
    method HandleErrorReport(message: AgentMessage, error: Option<ReportedError>, context: Option<string>,
                             rendered: ErrorRecord -> string, taskId: string, replyId: string, now: int)
      returns (reply: AgentMessage, notified: set<nat>)
      modifies this, agent
      ensures error.Some? ==>
                var record := ErrorRecord(taskId, message.fromAgentId, MessageOrDefault(error.value.message), error.value.stack,
                                          now, context, false, 0);
                errors == old(errors)[taskId := record] &&
                agent.tasks == old(agent.tasks)[taskId := CompletedTask(agent.id, taskId, "error:report", Some(rendered(record)), now)] &&
                reply == agent.OutgoingMessage(message.fromAgentId, "error:report:completed", taskId, replyId, now) &&
                notified == errorListeners
      ensures error.None? ==>
                errors == old(errors) && notified == {} &&
                agent.tasks == old(agent.tasks)[taskId := FailedTask(agent.id, taskId, "error:report", MissingErrorMessage, now)] &&
                reply == agent.OutgoingMessage(message.fromAgentId, "error:report:failed", MissingErrorMessage, replyId, now)
      ensures errorListeners == old(errorListeners)
    {
      if error.None? {
        agent.FailTask(taskId, "error:report", MissingErrorMessage, now);
        reply := agent.OutgoingMessage(message.fromAgentId, "error:report:failed", MissingErrorMessage, replyId, now);
        return reply, {};
      }
      var record := ErrorRecord(taskId, message.fromAgentId, MessageOrDefault(error.value.message), error.value.stack,
                                now, context, false, 0);
      errors := errors[taskId := record];
      notified := errorListeners;
      agent.CompleteTask(taskId, "error:report", Some(rendered(record)), now);
      reply := agent.OutgoingMessage(message.fromAgentId, "error:report:completed", taskId, replyId, now);
    }

    /**
     * handleErrorResolve: an unknown id fails the task and replies
     * 'error:resolve:failed'; otherwise as resolveError, then completed.
     */
    method HandleErrorResolve(message: AgentMessage, errorId: string, rendered: ErrorRecord -> string,
                              taskId: string, replyId: string, now: int)
      returns (reply: AgentMessage, notified: set<nat>)
      modifies this, agent
      ensures errorId !in old(errors) ==>
                errors == old(errors) && notified == {} &&
                agent.tasks == old(agent.tasks)[taskId := FailedTask(agent.id, taskId, "error:resolve:" + errorId, NotFound(errorId), now)] &&
                reply.messageType == "error:resolve:failed"
      ensures errorId in old(errors) ==>
                errors == old(errors)[errorId := old(errors)[errorId].(resolved := true)] &&
                notified == errorListeners &&
                agent.tasks == old(agent.tasks)[taskId := CompletedTask(agent.id, taskId, "error:resolve:" + errorId, Some(rendered(errors[errorId])), now)] &&
                reply.messageType == "error:resolve:completed"
      ensures reply.toAgentId == message.fromAgentId
      ensures errorListeners == old(errorListeners)
    {
      if errorId !in errors {
        agent.FailTask(taskId, "error:resolve:" + errorId, NotFound(errorId), now);
        reply := agent.OutgoingMessage(message.fromAgentId, "error:resolve:failed", errorId, replyId, now);
        return reply, {};
      }
      errors := errors[errorId := errors[errorId].(resolved := true)];
      notified := errorListeners;
      agent.CompleteTask(taskId, "error:resolve:" + errorId, Some(rendered(errors[errorId])), now);
      reply := agent.OutgoingMessage(message.fromAgentId, "error:resolve:completed", errorId, replyId, now);
    }

    /**
     * handleErrorRetry: an unknown id fails without changing any record;
     * otherwise the record's retryCount goes up by exactly one, a retry
     * request goes to the agent that caused the error, and the task
     * completes.
     */
    method HandleErrorRetry(message: AgentMessage, errorId: string, rendered: ErrorRecord -> string,
                            taskId: string, requestId: string, replyId: string, now: int)
      returns (retryRequest: Option<AgentMessage>, reply: AgentMessage)
      modifies this, agent
      ensures errorId !in old(errors) ==>
                errors == old(errors) && retryRequest.None? &&
                agent.tasks == old(agent.tasks)[taskId := FailedTask(agent.id, taskId, "error:retry:" + errorId, NotFound(errorId), now)] &&
                reply.messageType == "error:retry:failed"
      ensures errorId in old(errors) ==>
                errors == old(errors)[errorId := old(errors)[errorId].(retryCount := old(errors)[errorId].retryCount + 1)] &&
                retryRequest == Some(agent.OutgoingMessage(old(errors)[errorId].agentId, "error:retry:request", errorId, requestId, now)) &&
                agent.tasks == old(agent.tasks)[taskId := CompletedTask(agent.id, taskId, "error:retry:" + errorId, Some(rendered(errors[errorId])), now)] &&
                reply.messageType == "error:retry:completed"
      ensures reply.toAgentId == message.fromAgentId
      ensures errorListeners == old(errorListeners)
    {
      if errorId !in errors {
        agent.FailTask(taskId, "error:retry:" + errorId, NotFound(errorId), now);
        reply := agent.OutgoingMessage(message.fromAgentId, "error:retry:failed", errorId, replyId, now);
        return None, reply;
      }
      var record := errors[errorId];
      record := record.(retryCount := record.retryCount + 1);
      errors := errors[errorId := record];
      retryRequest := Some(agent.OutgoingMessage(record.agentId, "error:retry:request", errorId, requestId, now));
      agent.CompleteTask(taskId, "error:retry:" + errorId, Some(rendered(record)), now);
      reply := agent.OutgoingMessage(message.fromAgentId, "error:retry:completed", errorId, replyId, now);
    }

    /** handleGetAllErrors: completes the task with every record as its result; nothing else changes. */
    method HandleGetAllErrors(message: AgentMessage, renderAll: set<ErrorRecord> -> string, taskId: string, replyId: string, now: int)
      returns (reply: AgentMessage)
      modifies agent
      ensures agent.tasks == old(agent.tasks)[taskId := CompletedTask(agent.id, taskId, "error:get_all", Some(renderAll(AllErrors())), now)]
      ensures reply == agent.OutgoingMessage(message.fromAgentId, "error:get_all:completed", renderAll(AllErrors()), replyId, now)
    {
      var all := AllErrors();
      agent.CompleteTask(taskId, "error:get_all", Some(renderAll(all)), now);
      reply := agent.OutgoingMessage(message.fromAgentId, "error:get_all:completed", renderAll(all), replyId, now);
    }
  }

  /** The error a lookup of an unknown id throws; the id reads back from the message. */
  function NotFound(errorId: string): (r: string)
    ensures |r| == |errorId| + 24
    ensures r[..14] == "Error with ID " && r[14..|r| - 10] == errorId && r[|r| - 10..] == " not found"
  {
    "Error with ID " + errorId + " not found"
  }

  /** Registering a new listener and then calling its unsubscribe restores the set. */
  method AddThenUnsubscribe(w: ErrorWatcher, listener: nat)
    requires listener !in w.errorListeners
    modifies w
    ensures w.errorListeners == old(w.errorListeners) && w.errors == old(w.errors)
  {
    w.AddErrorListener(listener);
    w.RemoveErrorListener(listener);
  }

  /** Resolving twice leaves the same records as resolving once, and the second call reports true. */
  method ResolveTwice(w: ErrorWatcher, errorId: string) returns (first: bool, second: bool)
    modifies w
    ensures first == second && (first <==> errorId in old(w.errors))
    ensures first ==> w.errors == old(w.errors)[errorId := old(w.errors)[errorId].(resolved := true)]
    ensures !first ==> w.errors == old(w.errors)
  {
    var n1, n2;
    first, n1 := w.ResolveError(errorId);
    var afterFirst := w.errors;
    second, n2 := w.ResolveError(errorId);
    if first {
      assert w.errors == afterFirst;
    }
  }
}
