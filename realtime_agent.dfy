// The realtime agent of src/agents/RealtimeAgent.ts: the map of database
// subscriptions keyed by "channel:event:subscriber", de-duplicated on
// subscribe, and the map from event names to listener sets that database
// and setlist events are broadcast to. The database channels themselves
// are not modelled; a subscription records what it was opened for.
// Listeners are named by numbers.

module RealtimeAgent {
  import opened Wrappers
  import opened BaseAgent

  /** What a stored subscription was opened for. */
  datatype Subscription = Subscription(channel: string, event: string, subscriber: string, filter: Option<string>)

  /** `${channel}:${event}:${fromAgentId}`. */
  function SubscriptionId(channel: string, event: string, from: string): (r: string)
    ensures |r| == |channel| + |event| + |from| + 2
  {
    channel + ":" + event + ":" + from
  }

  /** The six events subscribeToSetlistUpdates listens on. */
  const SetlistEvents: seq<string> :=
    ["setlist:created", "setlist:updated", "setlist:deleted", "setlist:item:added", "setlist:item:removed", "setlist:reordered"]

  /** The six setlist events are different names. */
  lemma SetlistEventsDistinct()
    ensures forall i, j :: 0 <= i < j < |SetlistEvents| ==> SetlistEvents[i] != SetlistEvents[j]
  {
    forall i, j | 0 <= i < j < |SetlistEvents| ensures SetlistEvents[i] != SetlistEvents[j] {
      assert (SetlistEvents[i][8], SetlistEvents[i][13]) != (SetlistEvents[j][8], SetlistEvents[j][13]);
    }
  }

  /** The message types whose handler only broadcasts an event of the same name. */
  const BroadcastTypes: set<string> := {"song:updated"} + set e | e in SetlistEvents

  class Realtime {
    const agent: Agent
    var subscriptions: map<string, Subscription>
    var eventListeners: map<string, set<nat>>

    constructor (freshId: string)
      ensures fresh(agent) && agent.id == freshId && agent.tasks == map[]
      ensures !agent.isInitialized && agent.messageHandlers == {}
      ensures subscriptions == map[] && eventListeners == map[]
    {
      agent := new Agent("RealtimeAgent", "Listens to Supabase DB changes and refreshes UI in real time", freshId);
      subscriptions := map[];
      eventListeners := map[];
    }

    /** The types registerMessageHandlers installs. */
    static const HandledTypes: set<string> := {"realtime:subscribe", "realtime:unsubscribe"} + BroadcastTypes

    /** The listeners of an event. */
    function ListenersOf(event: string): (r: set<nat>)
      reads this
      ensures event !in eventListeners ==> r == {}
      ensures event in eventListeners ==> r == eventListeners[event]
    {
      if event in eventListeners then eventListeners[event] else {}
    }

    /**
     * addEventListener: creates the event's set if absent and adds the
     * listener; a second add of the same listener stores nothing new.
     */
    method AddEventListener(event: string, listener: nat)
      modifies this
      ensures eventListeners == old(eventListeners)[event := old(ListenersOf(event)) + {listener}]
      ensures ListenersOf(event) == old(ListenersOf(event)) + {listener}
      ensures listener in old(ListenersOf(event)) ==> ListenersOf(event) == old(ListenersOf(event))
      ensures forall e :: e != event ==> ListenersOf(e) == old(ListenersOf(e))
      ensures subscriptions == old(subscriptions)
    {
      eventListeners := eventListeners[event := ListenersOf(event) + {listener}];
    }

    /** The unsubscribe addEventListener returns: removes the listener, and the event once empty. */
    method RemoveEventListener(event: string, listener: nat)
      modifies this
      ensures event !in old(eventListeners) ==> eventListeners == old(eventListeners)
      ensures event in old(eventListeners) && old(eventListeners)[event] - {listener} == {} ==>
                eventListeners == old(eventListeners) - {event}
      ensures event in old(eventListeners) && old(eventListeners)[event] - {listener} != {} ==>
                eventListeners == old(eventListeners)[event := old(eventListeners)[event] - {listener}]
      ensures ListenersOf(event) == old(ListenersOf(event)) - {listener}
      ensures forall e :: e != event ==> ListenersOf(e) == old(ListenersOf(e))
      ensures subscriptions == old(subscriptions)
    {
      if event in eventListeners {
        var remaining := eventListeners[event] - {listener};
        if remaining == {} {
          eventListeners := eventListeners - {event};
        } else {
          eventListeners := eventListeners[event := remaining];
        }
      }
    }

    /**
     * notifyListeners: calls every listener of the event once, in some
     * order; a listener that throws (`throws`) is logged and the rest are
     * still called.
     */
    method NotifyListeners(event: string, throws: nat -> bool) returns (called: set<nat>, failed: set<nat>)
      ensures called == ListenersOf(event)
      ensures failed == set l | l in called && throws(l)
    {
      var pending := ListenersOf(event);
      called, failed := {}, {};
      while pending != {}
        invariant called + pending == ListenersOf(event) && called !! pending
        invariant failed <= called && forall l :: l in called ==> (l in failed <==> throws(l))
        decreases |pending|
      {
        var listener :| listener in pending;
        if throws(listener) {
          failed := failed + {listener};
        }
        called := called + {listener};
        pending := pending - {listener};
      }
      assert failed == set l | l in called && throws(l);
    }

    /**
     * handleSubscribe: an existing id adds no second subscription; a new
     * one is stored under `channel:event:sender`. Either way the task
     * completes and the sender is told the subscription id.
     */
    method HandleSubscribe(message: AgentMessage, channel: string, event: string, filter: Option<string>,
                           taskId: string, replyId: string, now: int)
      returns (reply: AgentMessage, created: bool)
      modifies this, agent
      ensures var id := SubscriptionId(channel, event, message.fromAgentId);
              (created <==> id !in old(subscriptions)) &&
              (!created ==> subscriptions == old(subscriptions)) &&
              (created ==> subscriptions == old(subscriptions)[id := Subscription(id, event, message.fromAgentId, filter)]) &&
              reply == agent.OutgoingMessage(message.fromAgentId, "realtime:subscribe:completed", id, replyId, now)
      ensures agent.tasks == old(agent.tasks)[taskId := CompletedTask(agent.id, taskId, "realtime:subscribe:" + channel + ":" + event, None, now)]
      ensures eventListeners == old(eventListeners)
    {
      var id := SubscriptionId(channel, event, message.fromAgentId);
      created := id !in subscriptions;
      if created {
        subscriptions := subscriptions[id := Subscription(id, event, message.fromAgentId, filter)];
      }
      agent.CompleteTask(taskId, "realtime:subscribe:" + channel + ":" + event, None, now);
      reply := agent.OutgoingMessage(message.fromAgentId, "realtime:subscribe:completed", id, replyId, now);
    }

    /**
     * handleUnsubscribe: an unknown id reports `exists: false` and changes
     * nothing; otherwise exactly that entry is removed.
     */
    method HandleUnsubscribe(message: AgentMessage, subscriptionId: string, taskId: string, replyId: string, now: int)
      returns (reply: AgentMessage, exists_: bool)
      modifies this, agent
      ensures exists_ <==> subscriptionId in old(subscriptions)
      ensures subscriptions == old(subscriptions) - {subscriptionId}
      ensures reply == agent.OutgoingMessage(message.fromAgentId, "realtime:unsubscribe:completed", subscriptionId, replyId, now)
      ensures agent.tasks == old(agent.tasks)[taskId := CompletedTask(agent.id, taskId, "realtime:unsubscribe:" + subscriptionId, None, now)]
      ensures eventListeners == old(eventListeners)
    {
      exists_ := subscriptionId in subscriptions;
      if exists_ {
        subscriptions := subscriptions - {subscriptionId};
      }
      agent.CompleteTask(taskId, "realtime:unsubscribe:" + subscriptionId, None, now);
      reply := agent.OutgoingMessage(message.fromAgentId, "realtime:unsubscribe:completed", subscriptionId, replyId, now);
    }

    /** handleSongUpdated and the six setlist handlers: broadcast an event named as the message. */
    method HandleBroadcast(message: AgentMessage, throws: nat -> bool) returns (called: set<nat>, failed: set<nat>)
      requires message.messageType in BroadcastTypes
      ensures called == ListenersOf(message.messageType)
      ensures failed == set l | l in called && throws(l)
    {
      called, failed := NotifyListeners(message.messageType, throws);
    }

    /** subscribeToTable: stores a subscription under `table:event:suffix`, the suffix being random. */
    method SubscribeToTable(table: string, event: string, randomSuffix: string) returns (subscriptionId: string)
      modifies this
      ensures subscriptionId == SubscriptionId(table, event, randomSuffix)
      ensures subscriptions == old(subscriptions)[subscriptionId := Subscription(subscriptionId, event, "", Some(table))]
      ensures eventListeners == old(eventListeners)
    {
      subscriptionId := SubscriptionId(table, event, randomSuffix);
      subscriptions := subscriptions[subscriptionId := Subscription(subscriptionId, event, "", Some(table))];
    }

    /** The unsubscribe subscribeToTable returns: removes that entry if it is still there. */
    method UnsubscribeFromTable(subscriptionId: string)
      modifies this
      ensures subscriptions == old(subscriptions) - {subscriptionId}
      ensures eventListeners == old(eventListeners)
    {
      if subscriptionId in subscriptions {
        subscriptions := subscriptions - {subscriptionId};
      }
    }

    /** subscribeToSongUpdates: the callback listens on "song:updated" and nowhere else. */
    method SubscribeToSongUpdates(callback: nat)
      modifies this
      ensures ListenersOf("song:updated") == old(ListenersOf("song:updated")) + {callback}
      ensures forall e :: e != "song:updated" ==> ListenersOf(e) == old(ListenersOf(e))
      ensures subscriptions == old(subscriptions)
    {
      AddEventListener("song:updated", callback);
    }

    /** subscribeToSetlistUpdates: one callback on each of the six setlist events. */
    method SubscribeToSetlistUpdates(callback: nat)
      modifies this
      ensures forall i :: 0 <= i < |SetlistEvents| ==> ListenersOf(SetlistEvents[i]) == old(ListenersOf(SetlistEvents[i])) + {callback}
      ensures forall e :: e !in SetlistEvents ==> ListenersOf(e) == old(ListenersOf(e))
      ensures subscriptions == old(subscriptions)
    {
      SetlistEventsDistinct();
      var i := 0;
      while i < |SetlistEvents|
        invariant 0 <= i <= |SetlistEvents|
        invariant forall j :: 0 <= j < i ==> ListenersOf(SetlistEvents[j]) == old(ListenersOf(SetlistEvents[j])) + {callback}
        invariant forall j :: i <= j < |SetlistEvents| ==> ListenersOf(SetlistEvents[j]) == old(ListenersOf(SetlistEvents[j]))
        invariant forall e :: e !in SetlistEvents ==> ListenersOf(e) == old(ListenersOf(e))
        invariant subscriptions == old(subscriptions)
      {
        AddEventListener(SetlistEvents[i], callback);
        i := i + 1;
      }
    }

    /** The unsubscribe subscribeToSetlistUpdates returns: removes the callback from all six events. */
    method UnsubscribeFromSetlistUpdates(callback: nat)
      modifies this
      ensures forall i :: 0 <= i < |SetlistEvents| ==> ListenersOf(SetlistEvents[i]) == old(ListenersOf(SetlistEvents[i])) - {callback}
      ensures forall e :: e !in SetlistEvents ==> ListenersOf(e) == old(ListenersOf(e))
      ensures subscriptions == old(subscriptions)
    {
      SetlistEventsDistinct();
      var i := 0;
      while i < |SetlistEvents|
        invariant 0 <= i <= |SetlistEvents|
        invariant forall j :: 0 <= j < i ==> ListenersOf(SetlistEvents[j]) == old(ListenersOf(SetlistEvents[j])) - {callback}
        invariant forall j :: i <= j < |SetlistEvents| ==> ListenersOf(SetlistEvents[j]) == old(ListenersOf(SetlistEvents[j]))
        invariant forall e :: e !in SetlistEvents ==> ListenersOf(e) == old(ListenersOf(e))
        invariant subscriptions == old(subscriptions)
      {
        RemoveEventListener(SetlistEvents[i], callback);
        i := i + 1;
      }
    }

    /** shutdown: besides clearing the handlers, an initialised agent drops every subscription. */
    method Shutdown()
      modifies this, agent
      ensures !agent.isInitialized
      ensures old(agent.isInitialized) ==> subscriptions == map[] && agent.messageHandlers == {}
      ensures !old(agent.isInitialized) ==> subscriptions == old(subscriptions) && agent.messageHandlers == old(agent.messageHandlers)
      ensures eventListeners == old(eventListeners) && agent.tasks == old(agent.tasks)
    {
      if agent.isInitialized {
        subscriptions := map[];
      }
      agent.Shutdown();
    }
  }

  /** Adding a listener the event did not have and then unsubscribing it restores the listeners. */
  method AddThenRemove(r: Realtime, event: string, listener: nat)
    requires listener !in r.ListenersOf(event)
    modifies r
    ensures forall e :: r.ListenersOf(e) == old(r.ListenersOf(e))
  {
    r.AddEventListener(event, listener);
    r.RemoveEventListener(event, listener);
  }
}
