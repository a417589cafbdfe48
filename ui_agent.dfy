// The UI agent of src/agents/UIAgent.ts: a key/value state map whose
// listeners are told of every write, a stack of open modals whose
// visibility and props live in the state map under "modal:<id>", and the
// four message handlers that wrap these operations in a task record.
// Listeners are named by numbers and kept per key in the order they were
// added, as a JavaScript Set iterates; calling them is reported as the
// sequence of listeners notified.

module UIAgent {
  import opened Wrappers
  import opened BaseAgent

  /** A modal's `props`: not given (undefined), null, or a value. */
  datatype Props = Undefined | Null | Given(value: string)

  /**
   * A state value: a modal's `{visible, props}` object, or any other value
   * written through `ui:set_state` (truthy iff `payload` is non-empty).
   */
  datatype StateValue = ModalState(visible: bool, props: Props) | Other(payload: string)

  /** The state key of a modal. */
  function ModalKey(modalId: string): (k: string)
    ensures |k| == |modalId| + 6 && k[6..] == modalId
  {
    "modal:" + modalId
  }

  /** Distinct modals have distinct state keys. */
  lemma ModalKeyInjective(a: string, b: string)
    requires ModalKey(a) == ModalKey(b)
    ensures a == b
  {
    assert a == ModalKey(a)[6..];
  }

  /**
   * `modalStack.filter(id => id !== modalId)`; on a key's listeners it is
   * the Set's `delete`, which keeps the others in insertion order.
   */
  function Without<T(==,!new)>(stack: seq<T>, modalId: T): (r: seq<T>)
    ensures forall x :: x in r <==> x in stack && x != modalId
    ensures |r| <= |stack|
    ensures modalId !in stack ==> r == stack
  {
    if |stack| == 0 then []
    else if stack[0] == modalId then Without(stack[1..], modalId)
    else [stack[0]] + Without(stack[1..], modalId)
  }

  /** The filter keeps the other ids in their order: it distributes over concatenation. */
  lemma {:induction false} WithoutConcat<T(!new)>(s: seq<T>, t: seq<T>, modalId: T)
    ensures Without(s + t, modalId) == Without(s, modalId) + Without(t, modalId)
    decreases |s|
  {
    if |s| == 0 {
      assert s + t == t;
    } else {
      assert (s + t)[1..] == s[1..] + t;
      WithoutConcat(s[1..], t, modalId);
    }
  }

  /** Hiding a modal after showing it on top leaves the stack as hiding it before would. */
  lemma ShowThenHide(stack: seq<string>, modalId: string)
    ensures Without(stack + [modalId], modalId) == Without(stack, modalId)
  {
    WithoutConcat(stack, [modalId], modalId);
    assert Without([modalId], modalId) == [];
  }

  /**
   * What setState's listener loop leaves: `notified` is the prefix of the
   * key's listeners, in insertion order, that were called; a listener that
   * throws (`throws(l)` is its error message) stops the loop, and `thrown`
   * is that listener, the last one called. With no throwing listener every
   * listener is called.
   */
  predicate ListenerRun(listeners: seq<nat>, throws: nat -> Option<string>, notified: seq<nat>, thrown: Option<nat>)
  {
    |notified| <= |listeners| && notified == listeners[..|notified|] &&
    (thrown.None? <==> forall i :: 0 <= i < |listeners| ==> throws(listeners[i]).None?) &&
    (thrown.None? ==> notified == listeners) &&
    (thrown.Some? ==> |notified| > 0 && thrown.value == notified[|notified| - 1] && throws(thrown.value).Some? &&
                      forall i :: 0 <= i < |notified| - 1 ==> throws(notified[i]).None?)
  }

  /** The listener run is determined: the listeners called are exactly those up to the first that throws. */
  lemma ListenerRunUnique(listeners: seq<nat>, throws: nat -> Option<string>,
                          n1: seq<nat>, t1: Option<nat>, n2: seq<nat>, t2: Option<nat>)
    requires ListenerRun(listeners, throws, n1, t1) && ListenerRun(listeners, throws, n2, t2)
    ensures n1 == n2 && t1 == t2
  {
  }

  class UI {
    /** The base agent whose task map and messages the handlers use. */
    const agent: Agent
    var modalStack: seq<string>
    var uiState: map<string, StateValue>
    var stateListeners: map<string, seq<nat>>

    constructor (freshId: string)
      ensures fresh(agent) && agent.id == freshId && agent.tasks == map[]
      ensures !agent.isInitialized && agent.messageHandlers == {}
      ensures modalStack == [] && uiState == map[] && stateListeners == map[]
    {
      agent := new Agent("UIAgent", "Handles transitions, modals, and state updates", freshId);
      modalStack := [];
      uiState := map[];
      stateListeners := map[];
    }

    /** The types registerMessageHandlers installs. */
    static const HandledTypes: set<string> := {"ui:show_modal", "ui:hide_modal", "ui:set_state", "ui:get_state"}

    /** getState: the stored value, or undefined. */
    function GetState(key: string): (r: Option<StateValue>)
      reads this
      ensures r.Some? <==> key in uiState
      ensures r.Some? ==> r.value == uiState[key]
    {
      if key in uiState then Some(uiState[key]) else None
    }

    /** The listeners registered for a key, in the order they were added. */
    function ListenersOf(key: string): (r: seq<nat>)
      reads this
      ensures key !in stateListeners ==> r == []
      ensures key in stateListeners ==> r == stateListeners[key]
    {
      if key in stateListeners then stateListeners[key] else []
    }

    /**
     * setState: stores the value, then calls the listeners of that key
     * with it until one throws; the throw leaves setState with the value
     * already stored.
     */
    method SetState(key: string, value: StateValue, throws: nat -> Option<string>)
      returns (notified: seq<nat>, thrown: Option<nat>)
      modifies this
      ensures uiState == old(uiState)[key := value]
      ensures GetState(key) == Some(value)
      ensures forall k :: k != key ==> GetState(k) == old(GetState(k))
      ensures ListenerRun(old(ListenersOf(key)), throws, notified, thrown)
      ensures modalStack == old(modalStack) && stateListeners == old(stateListeners)
    {
      uiState := uiState[key := value];
      var listeners := ListenersOf(key);
      var i := 0;
      notified, thrown := [], None;
      while i < |listeners| && thrown.None?
        invariant 0 <= i <= |listeners| && notified == listeners[..i]
        invariant thrown.None? ==> forall j :: 0 <= j < i ==> throws(listeners[j]).None?
        invariant thrown.Some? ==> i > 0 && thrown.value == listeners[i - 1] && throws(thrown.value).Some? &&
                                   forall j :: 0 <= j < i - 1 ==> throws(listeners[j]).None?
        invariant uiState == old(uiState)[key := value]
        invariant modalStack == old(modalStack) && stateListeners == old(stateListeners)
      {
        notified := notified + [listeners[i]];
        if throws(listeners[i]).Some? {
          thrown := Some(listeners[i]);
        }
        i := i + 1;
      }
    }

    /**
     * subscribeToState: creates the key's set if absent and adds the
     * listener at the end; a listener already there keeps its place.
     */
    method SubscribeToState(key: string, listener: nat)
      modifies this
      ensures listener !in old(ListenersOf(key)) ==>
                stateListeners == old(stateListeners)[key := old(ListenersOf(key)) + [listener]]
      ensures listener in old(ListenersOf(key)) ==>
                stateListeners == old(stateListeners)[key := old(ListenersOf(key))]
      ensures listener in ListenersOf(key)
      ensures modalStack == old(modalStack) && uiState == old(uiState)
    {
      var listeners := ListenersOf(key);
      if listener !in listeners {
        listeners := listeners + [listener];
      }
      stateListeners := stateListeners[key := listeners];
    }

    /**
     * The unsubscribe function subscribeToState returns: removes the
     * listener and drops the key once its set is empty.
     */
    method Unsubscribe(key: string, listener: nat)
      modifies this
      ensures key !in old(stateListeners) ==> stateListeners == old(stateListeners)
      ensures key in old(stateListeners) && Without(old(stateListeners)[key], listener) == [] ==>
                stateListeners == old(stateListeners) - {key}
      ensures key in old(stateListeners) && Without(old(stateListeners)[key], listener) != [] ==>
                stateListeners == old(stateListeners)[key := Without(old(stateListeners)[key], listener)]
      ensures listener !in ListenersOf(key)
      ensures modalStack == old(modalStack) && uiState == old(uiState)
    {
      if key in stateListeners {
        var remaining := Without(stateListeners[key], listener);
        if remaining == [] {
          stateListeners := stateListeners - {key};
        } else {
          stateListeners := stateListeners[key := remaining];
        }
      }
    }

    /** isModalVisible: `state ? state.visible : false`. */
    function IsModalVisible(modalId: string): (r: bool)
      reads this
      ensures ModalKey(modalId) !in uiState ==> !r
      ensures r <==> ModalKey(modalId) in uiState && uiState[ModalKey(modalId)].ModalState? && uiState[ModalKey(modalId)].visible
    {
      match GetState(ModalKey(modalId))
      case None => false
      case Some(ModalState(visible, _)) => visible
      case Some(Other(_)) => false
    }

    /**
     * getModalProps: `state ? state.props : null`; a truthy value that is
     * not a modal object has no props field (undefined).
     */
    function GetModalProps(modalId: string): (r: Props)
      reads this
      ensures ModalKey(modalId) !in uiState ==> r == Null
      ensures ModalKey(modalId) in uiState && uiState[ModalKey(modalId)].ModalState? ==>
                r == uiState[ModalKey(modalId)].props
    {
      match GetState(ModalKey(modalId))
      case None => Null
      case Some(ModalState(_, props)) => props
      case Some(Other(payload)) => if |payload| > 0 then Undefined else Null
    }

    /** getTopModal: the last element of the stack, or null. */
    function GetTopModal(): (r: Option<string>)
      reads this
      ensures r.None? <==> |modalStack| == 0
      ensures r.Some? ==> r.value == modalStack[|modalStack| - 1]
    {
      if |modalStack| > 0 then Some(modalStack[|modalStack| - 1]) else None
    }

    /**
     * showModal: marks the modal visible with its props, then pushes it; it
     * is then the top modal, and other modals' state is unchanged. A
     * listener that throws leaves showModal before the push.
     */
    method ShowModal(modalId: string, props: Props, throws: nat -> Option<string>)
      returns (notified: seq<nat>, thrown: Option<nat>)
      modifies this
      ensures uiState == old(uiState)[ModalKey(modalId) := ModalState(true, props)]
      ensures ListenerRun(old(ListenersOf(ModalKey(modalId))), throws, notified, thrown)
      ensures thrown.None? ==> modalStack == old(modalStack) + [modalId] && GetTopModal() == Some(modalId)
      ensures thrown.Some? ==> modalStack == old(modalStack)
      ensures IsModalVisible(modalId) && GetModalProps(modalId) == props
      ensures forall other :: other != modalId ==>
                IsModalVisible(other) == old(IsModalVisible(other)) && GetModalProps(other) == old(GetModalProps(other))
      ensures stateListeners == old(stateListeners)
    {
      notified, thrown := SetState(ModalKey(modalId), ModalState(true, props), throws);
      if thrown.None? {
        modalStack := modalStack + [modalId];
      }
      forall other | other != modalId
        ensures IsModalVisible(other) == old(IsModalVisible(other)) && GetModalProps(other) == old(GetModalProps(other))
      {
        if ModalKey(other) == ModalKey(modalId) {
          ModalKeyInjective(other, modalId);
        }
      }
    }

    /**
     * hideModal: marks the modal hidden with null props, then removes every
     * occurrence of it from the stack, keeping the other ids in order. A
     * listener that throws leaves hideModal before the filter.
     */
    method HideModal(modalId: string, throws: nat -> Option<string>) returns (notified: seq<nat>, thrown: Option<nat>)
      modifies this
      ensures uiState == old(uiState)[ModalKey(modalId) := ModalState(false, Null)]
      ensures ListenerRun(old(ListenersOf(ModalKey(modalId))), throws, notified, thrown)
      ensures thrown.None? ==> modalStack == Without(old(modalStack), modalId) && modalId !in modalStack
      ensures thrown.Some? ==> modalStack == old(modalStack)
      ensures !IsModalVisible(modalId) && GetModalProps(modalId) == Null
      ensures forall other :: other != modalId ==>
                IsModalVisible(other) == old(IsModalVisible(other)) && GetModalProps(other) == old(GetModalProps(other))
      ensures stateListeners == old(stateListeners)
    {
      notified, thrown := SetState(ModalKey(modalId), ModalState(false, Null), throws);
      if thrown.None? {
        modalStack := Without(modalStack, modalId);
      }
      forall other | other != modalId
        ensures IsModalVisible(other) == old(IsModalVisible(other)) && GetModalProps(other) == old(GetModalProps(other))
      {
        if ModalKey(other) == ModalKey(modalId) {
          ModalKeyInjective(other, modalId);
        }
      }
    }

    /**
     * handleShowModal: pushes, sets the state, then completes the task and
     * replies to the sender; a listener that throws fails the task with
     * its error and the reply says so, the push and the state staying.
     */
    method HandleShowModal(message: AgentMessage, modalId: string, props: Props, throws: nat -> Option<string>,
                           taskId: string, replyId: string, now: int)
      returns (reply: AgentMessage, notified: seq<nat>, thrown: Option<nat>)
      modifies this, agent
      ensures modalStack == old(modalStack) + [modalId]
      ensures uiState == old(uiState)[ModalKey(modalId) := ModalState(true, props)]
      ensures ListenerRun(old(ListenersOf(ModalKey(modalId))), throws, notified, thrown)
      ensures thrown.None? ==>
                agent.tasks == old(agent.tasks)[taskId := CompletedTask(agent.id, taskId, "ui:show_modal:" + modalId, None, now)] &&
                reply == agent.OutgoingMessage(message.fromAgentId, "ui:show_modal:completed", modalId, replyId, now)
      ensures thrown.Some? ==>
                agent.tasks == old(agent.tasks)[taskId := FailedTask(agent.id, taskId, "ui:show_modal:" + modalId,
                                                                     throws(thrown.value).value, now)] &&
                reply == agent.OutgoingMessage(message.fromAgentId, "ui:show_modal:failed", modalId, replyId, now)
      ensures stateListeners == old(stateListeners)
    {
      modalStack := modalStack + [modalId];
      notified, thrown := SetState(ModalKey(modalId), ModalState(true, props), throws);
      if thrown.Some? {
        agent.FailTask(taskId, "ui:show_modal:" + modalId, throws(thrown.value).value, now);
        reply := agent.OutgoingMessage(message.fromAgentId, "ui:show_modal:failed", modalId, replyId, now);
      } else {
        agent.CompleteTask(taskId, "ui:show_modal:" + modalId, None, now);
        reply := agent.OutgoingMessage(message.fromAgentId, "ui:show_modal:completed", modalId, replyId, now);
      }
    }

    /**
     * handleHideModal: filters the stack, sets the state, completes the
     * task and replies; a listener that throws fails the task instead.
     */
    method HandleHideModal(message: AgentMessage, modalId: string, throws: nat -> Option<string>,
                           taskId: string, replyId: string, now: int)
      returns (reply: AgentMessage, notified: seq<nat>, thrown: Option<nat>)
      modifies this, agent
      ensures modalStack == Without(old(modalStack), modalId)
      ensures uiState == old(uiState)[ModalKey(modalId) := ModalState(false, Null)]
      ensures ListenerRun(old(ListenersOf(ModalKey(modalId))), throws, notified, thrown)
      ensures thrown.None? ==>
                agent.tasks == old(agent.tasks)[taskId := CompletedTask(agent.id, taskId, "ui:hide_modal:" + modalId, None, now)] &&
                reply == agent.OutgoingMessage(message.fromAgentId, "ui:hide_modal:completed", modalId, replyId, now)
      ensures thrown.Some? ==>
                agent.tasks == old(agent.tasks)[taskId := FailedTask(agent.id, taskId, "ui:hide_modal:" + modalId,
                                                                     throws(thrown.value).value, now)] &&
                reply == agent.OutgoingMessage(message.fromAgentId, "ui:hide_modal:failed", modalId, replyId, now)
      ensures stateListeners == old(stateListeners)
    {
      modalStack := Without(modalStack, modalId);
      notified, thrown := SetState(ModalKey(modalId), ModalState(false, Null), throws);
      if thrown.Some? {
        agent.FailTask(taskId, "ui:hide_modal:" + modalId, throws(thrown.value).value, now);
        reply := agent.OutgoingMessage(message.fromAgentId, "ui:hide_modal:failed", modalId, replyId, now);
      } else {
        agent.CompleteTask(taskId, "ui:hide_modal:" + modalId, None, now);
        reply := agent.OutgoingMessage(message.fromAgentId, "ui:hide_modal:completed", modalId, replyId, now);
      }
    }

    /**
     * handleSetState: writes the value, completes the task and replies
     * with the key; a listener that throws fails the task instead.
     */
    method HandleSetState(message: AgentMessage, key: string, value: StateValue, throws: nat -> Option<string>,
                          taskId: string, replyId: string, now: int)
      returns (reply: AgentMessage, notified: seq<nat>, thrown: Option<nat>)
      modifies this, agent
      ensures uiState == old(uiState)[key := value]
      ensures ListenerRun(old(ListenersOf(key)), throws, notified, thrown)
      ensures thrown.None? ==>
                agent.tasks == old(agent.tasks)[taskId := CompletedTask(agent.id, taskId, "ui:set_state:" + key, None, now)] &&
                reply == agent.OutgoingMessage(message.fromAgentId, "ui:set_state:completed", key, replyId, now)
      ensures thrown.Some? ==>
                agent.tasks == old(agent.tasks)[taskId := FailedTask(agent.id, taskId, "ui:set_state:" + key,
                                                                     throws(thrown.value).value, now)] &&
                reply == agent.OutgoingMessage(message.fromAgentId, "ui:set_state:failed", key, replyId, now)
      ensures modalStack == old(modalStack) && stateListeners == old(stateListeners)
    {
      notified, thrown := SetState(key, value, throws);
      if thrown.Some? {
        agent.FailTask(taskId, "ui:set_state:" + key, throws(thrown.value).value, now);
        reply := agent.OutgoingMessage(message.fromAgentId, "ui:set_state:failed", key, replyId, now);
      } else {
        agent.CompleteTask(taskId, "ui:set_state:" + key, None, now);
        reply := agent.OutgoingMessage(message.fromAgentId, "ui:set_state:completed", key, replyId, now);
      }
    }

    /**
     * handleGetState: reads the value and records it as the task's result;
     * `rendered` stands for the value as the task result and reply payload.
     */
    method HandleGetState(message: AgentMessage, key: string, rendered: StateValue -> string, taskId: string, replyId: string, now: int)
      returns (reply: AgentMessage)
      modifies agent
      ensures var result := if key in uiState then Some(rendered(uiState[key])) else None;
              agent.tasks == old(agent.tasks)[taskId := CompletedTask(agent.id, taskId, "ui:get_state:" + key, result, now)]
      ensures reply.messageType == "ui:get_state:completed" && reply.toAgentId == message.fromAgentId
    {
      var value := GetState(key);
      var result := if value.Some? then Some(rendered(value.value)) else None;
      agent.CompleteTask(taskId, "ui:get_state:" + key, result, now);
      reply := agent.OutgoingMessage(message.fromAgentId, "ui:get_state:completed",
                                     if value.Some? then rendered(value.value) else "", replyId, now);
    }
  }

  /** A modal nobody has shown is not visible and has null props. */
  lemma NeverShownModal(ui: UI, modalId: string)
    requires ModalKey(modalId) !in ui.uiState
    ensures !ui.IsModalVisible(modalId) && ui.GetModalProps(modalId) == Null
  {
  }
}
