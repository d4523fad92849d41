/** The FastAPI server around the registry (mahilo/server.py): the table of open websocket
    connections per agent type, the guard on text sent to an inactive agent, and one pass of
    the background loop that forwards queued messages to the connections. */
module Server {
  import opened Common
  import opened Sessions
  import opened Agents

  /** An accepted websocket; only its identity matters here. */
  type Socket = string

  /** The connections table: agent type, then connection id, then socket. */
  type Connections = map<string, map<string, Socket>>

  /** The connections of one type, empty when the type has none. */
  function ConnectionsOf(connections: Connections, agentType: string): map<string, Socket> {
    if agentType in connections then connections[agentType] else map[]
  }

  /** What one pass of the loop sees of an agent: its type, whether it has a session, and
      its queue. */
  datatype Inbox = Inbox(agentType: string, active: bool, queue: seq<string>)

  function InboxOf(a: BaseAgent): Inbox
    reads a
  {
    Inbox(a.agentType, a.IsActive(), a.queue)
  }

  /** The inboxes of the agents registered under `types`, in that order. */
  function InboxesOf(m: AgentManager, types: seq<string>): (r: seq<Inbox>)
    reads m, m.agents.Values
    requires forall t :: t in types ==> t in m.agents
    ensures |r| == |types| && forall i :: 0 <= i < |types| ==> r[i] == InboxOf(m.agents[types[i]])
    decreases |types|
  {
    if types == [] then [] else InboxesOf(m, types[..|types| - 1]) + [InboxOf(m.agents[types[|types| - 1]])]
  }

  /** The loop pops from an agent that is active and has something queued. */
  predicate Pops(b: Inbox) {
    b.active && b.queue != []
  }

  /** The inbox after one pass: the head is gone when the agent pops, nothing else changes. */
  function AfterTick(b: Inbox): (r: Inbox)
    ensures r.agentType == b.agentType && r.active == b.active
    ensures |r.queue| == if Pops(b) then |b.queue| - 1 else |b.queue|
    ensures b.queue == b.queue[..|b.queue| - |r.queue|] + r.queue
  {
    if Pops(b) then b.(queue := b.queue[1..]) else b
  }

  /** One `send_text(message)` to each of the listed connections of a type. */
  datatype Delivery = Delivery(agentType: string, message: string, connectionIds: set<string>)

  /** `d` is what the loop sends for inbox `b`: the popped head, to every connection of the
      agent's type. */
  predicate Delivers(b: Inbox, connections: Connections, d: Delivery) {
    Pops(b) && b.agentType in connections &&
    d == Delivery(b.agentType, b.queue[0], connections[b.agentType].Keys)
  }

  /** The sends of one pass over the inboxes, in order. An agent whose type has no open
      connection pops its head all the same, and that message is sent nowhere. */
  function TickDeliveries(inboxes: seq<Inbox>, connections: Connections): (r: seq<Delivery>)
    ensures |r| <= |inboxes|
    decreases |inboxes|
  {
    if inboxes == [] then []
    else TickDeliveries(inboxes[..|inboxes| - 1], connections) + SendsOf(inboxes[|inboxes| - 1], connections)
  }

  /** What the loop sends for one inbox: at most one delivery. */
  function SendsOf(b: Inbox, connections: Connections): (r: seq<Delivery>)
    ensures |r| <= 1
  {
    if Pops(b) && b.agentType in connections then [Delivery(b.agentType, b.queue[0], connections[b.agentType].Keys)] else []
  }

  /** A pass sends exactly the heads of the popping agents whose type has connections. */
  lemma {:induction false} TickDeliversConnectedHeads(inboxes: seq<Inbox>, connections: Connections, d: Delivery)
    ensures d in TickDeliveries(inboxes, connections) <==>
      exists i :: 0 <= i < |inboxes| && Delivers(inboxes[i], connections, d)
    decreases |inboxes|
  {
    if inboxes != [] {
      var n := |inboxes|;
      var init := inboxes[..n - 1];
      TickDeliversConnectedHeads(init, connections, d);
      assert forall i :: 0 <= i < n - 1 ==> init[i] == inboxes[i];
      if exists i :: 0 <= i < n && Delivers(inboxes[i], connections, d) {
        var i :| 0 <= i < n && Delivers(inboxes[i], connections, d);
        if i < n - 1 {
          assert Delivers(init[i], connections, d);
        }
      }
    }
  }

  /** Extending a pass by one more inbox appends that inbox's send, if any. */
  lemma TickDeliveriesStep(inboxes: seq<Inbox>, k: nat, connections: Connections)
    requires k < |inboxes|
    ensures TickDeliveries(inboxes[..k + 1], connections) == TickDeliveries(inboxes[..k], connections) + SendsOf(inboxes[k], connections)
  {
    assert inboxes[..k + 1][..k] == inboxes[..k];
  }

  /** A pass in which no agent pops sends nothing. */
  lemma {:induction false} QuietTick(inboxes: seq<Inbox>, connections: Connections)
    requires forall i :: 0 <= i < |inboxes| ==> !Pops(inboxes[i])
    ensures TickDeliveries(inboxes, connections) == []
    decreases |inboxes|
  {
    if inboxes != [] {
      var init := inboxes[..|inboxes| - 1];
      assert forall i :: 0 <= i < |init| ==> init[i] == inboxes[i];
      QuietTick(init, connections);
    }
  }

  /** What one pass of the loop reads and writes of an agent: its inbox, together with the
      fields the loop leaves alone. */
  datatype AgentView = AgentView(inbox: Inbox, session: Session?, canContact: seq<string>, customTools: seq<Tool>,
                                 manager: AgentManager?)

  function ViewOf(a: BaseAgent): AgentView
    reads a
  {
    AgentView(InboxOf(a), a.session, a.canContact, a.customTools, a.manager)
  }

  /** The agent after its turn: the inbox as `AfterTick` says, every other field as it was. */
  function TickView(v: AgentView): (r: AgentView)
    ensures r.inbox == AfterTick(v.inbox)
    ensures r.session == v.session && r.canContact == v.canContact && r.customTools == v.customTools
    ensures r.manager == v.manager
  {
    v.(inbox := AfterTick(v.inbox))
  }

  /** The inboxes of a sequence of views. */
  function Inboxes(views: seq<AgentView>): (r: seq<Inbox>)
    ensures |r| == |views| && forall j :: 0 <= j < |views| ==> r[j] == views[j].inbox
  {
    seq(|views|, j requires 0 <= j < |views| => views[j].inbox)
  }

  /** `agent._queue.pop(0)` under the loop's guard: the head when the agent is active and has
      something queued, nothing otherwise. */
  method PopHead(agent: BaseAgent) returns (popped: Option<string>)
    modifies agent
    ensures ViewOf(agent) == TickView(old(ViewOf(agent)))
    ensures popped.Some? <==> Pops(old(InboxOf(agent)))
    ensures popped.Some? ==> popped.value == old(agent.queue[0])
  {
    if agent.IsActive() && agent.queue != [] {
      popped := Some(agent.queue[0]);
      agent.queue := agent.queue[1..];
    } else {
      popped := None;
    }
  }

  /** One agent's turn in the loop: pop its head if it is active and has one, and send it to
      the connections of its type. */
  method DeliverOne(agent: BaseAgent, connections: Connections, ghost v: AgentView) returns (sent: seq<Delivery>)
    requires ViewOf(agent) == v
    modifies agent
    ensures sent == SendsOf(v.inbox, connections)
    ensures ViewOf(agent) == TickView(v)
  {
    var popped := PopHead(agent);
    sent := [];
    if popped.Some? && agent.agentType in connections {
      sent := [Delivery(agent.agentType, popped.value, connections[agent.agentType].Keys)];
    }
  }

  /** The body of the delivery loop, run over `agents` in order; `before` is what the loop
      sees of each agent when it starts. */
  method DeliverEach(agents: seq<BaseAgent>, connections: Connections, ghost before: seq<AgentView>)
    returns (deliveries: seq<Delivery>)
    requires forall i, j :: 0 <= i < j < |agents| ==> agents[i] != agents[j]
    requires |before| == |agents| && forall j :: 0 <= j < |agents| ==> ViewOf(agents[j]) == before[j]
    modifies set a | a in agents
    ensures deliveries == TickDeliveries(Inboxes(before), connections)
    ensures forall j :: 0 <= j < |agents| ==> ViewOf(agents[j]) == TickView(before[j])
  {
    ghost var inboxes := Inboxes(before);
    deliveries := [];
    var i := 0;
    while i < |agents|
      invariant 0 <= i <= |agents|
      invariant deliveries == TickDeliveries(inboxes[..i], connections)
      invariant forall j :: 0 <= j < i ==> ViewOf(agents[j]) == TickView(before[j])
      invariant forall j :: i <= j < |agents| ==> ViewOf(agents[j]) == before[j]
    {
      TickDeliveriesStep(inboxes, i, connections);
      label Pre:
      var sent := DeliverOne(agents[i], connections, before[i]);
      forall j | 0 <= j < |agents| && j != i
        ensures ViewOf(agents[j]) == old@Pre(ViewOf(agents[j]))
      {
        assert agents[j] != agents[i];
      }
      deliveries := deliveries + sent;
      i := i + 1;
    }
    assert inboxes[..|agents|] == inboxes;
  }

  /** What the text endpoint does with one received text. */
  datatype TextOutcome =
    | NotActive(reply: string)
    | Crashed(failure: Failure)

  /** The exception `agent.process_message(data)` raises: the agent class has no such method. */
  const NoProcessMessage: Failure := AttributeError("'BaseAgent' object has no attribute 'process_message'")

  class ServerManager {
    const agentManager: AgentManager
    var connections: Connections

    /** The registry is consistent and no type is left with an empty connection map. */
    ghost predicate Valid()
      reads this, agentManager
    {
      agentManager.Valid() && forall t :: t in connections ==> connections[t] != map[]
    }

    /** `__init__`: starts with no connections and fills the empty contact lists once. */
    constructor (agentManager: AgentManager)
      requires agentManager.Valid()
      modifies agentManager.agents.Values
      ensures Valid() && this.agentManager == agentManager && connections == map[]
      ensures forall t :: t in agentManager.agents ==>
        agentManager.agents[t].canContact ==
          if old(agentManager.agents[t].canContact) == [] then agentManager.order else old(agentManager.agents[t].canContact)
      ensures forall t :: t in agentManager.agents ==> agentManager.agents[t].canContact != []
      ensures forall t :: t in agentManager.agents ==>
        agentManager.agents[t].queue == old(agentManager.agents[t].queue) &&
        agentManager.agents[t].session == old(agentManager.agents[t].session) &&
        agentManager.agents[t].customTools == old(agentManager.agents[t].customTools) &&
        agentManager.agents[t].manager == old(agentManager.agents[t].manager)
    {
      this.agentManager := agentManager;
      connections := map[];
      new;
      agentManager.PopulateCanContactForAgents();
    }

    /** Registering an accepted websocket under its type; the type's map is created if absent. */
    method Connect(agentType: string, connectionId: string, socket: Socket)
      requires Valid()
      modifies this
      ensures Valid()
      ensures connections == old(connections)[agentType := ConnectionsOf(old(connections), agentType)[connectionId := socket]]
      ensures ConnectionsOf(connections, agentType).Keys == ConnectionsOf(old(connections), agentType).Keys + {connectionId}
    {
      if agentType !in connections {
        connections := connections[agentType := map[]];
      }
      var updated := connections[agentType][connectionId := socket];
      assert connectionId in updated;
      connections := connections[agentType := updated];
    }

    /** The voice endpoint's bookkeeping: without credentials it replies and closes, and the
        table is left alone; otherwise the socket is registered like any other. */
    method VoiceConnect(credentialsConfigured: bool, agentType: string, connectionId: string, socket: Socket)
      returns (reply: Option<string>)
      requires Valid()
      modifies this
      ensures Valid()
      ensures reply.Some? <==> !credentialsConfigured
      ensures reply.Some? ==>
        (reply.value == "Azure OpenAI credentials not configured. Voice streaming is unavailable." &&
         connections == old(connections))
      ensures reply.None? ==>
        (connections == old(connections)[agentType := ConnectionsOf(old(connections), agentType)[connectionId := socket]])
    {
      if !credentialsConfigured {
        return Some("Azure OpenAI credentials not configured. Voice streaming is unavailable.");
      }
      Connect(agentType, connectionId, socket);
      reply := None;
    }

    /** The `WebSocketDisconnect` handler of both endpoints: drops the connection id and then the
        type once no connection is left. `del` of a missing key raises KeyError and changes
        nothing. */
    method Disconnect(agentType: string, connectionId: string) returns (failure: Option<Failure>)
      requires Valid()
      modifies this
      ensures Valid()
      ensures failure.None? <==> agentType in old(connections) && connectionId in old(connections)[agentType]
      ensures failure.Some? ==>
        (connections == old(connections) &&
         failure.value == KeyError(if agentType in old(connections) then connectionId else agentType))
      ensures failure.None? ==>
        connections == if old(connections)[agentType].Keys == {connectionId} then old(connections) - {agentType}
                       else old(connections)[agentType := old(connections)[agentType] - {connectionId}]
      ensures connectionId !in ConnectionsOf(connections, agentType)
      ensures forall t :: t != agentType ==> ConnectionsOf(connections, t) == ConnectionsOf(old(connections), t)
    {
      if agentType !in connections {
        return Some(KeyError(agentType));
      }
      if connectionId !in connections[agentType] {
        return Some(KeyError(connectionId));
      }
      var remaining := connections[agentType] - {connectionId};
      if remaining == map[] {
        assert connections[agentType].Keys == {connectionId} by {
          forall k | k in connections[agentType] ensures k == connectionId {
            assert k !in remaining;
          }
        }
        connections := connections - {agentType};
      } else {
        assert connections[agentType].Keys != {connectionId} by {
          var k :| k in remaining;
        }
        connections := connections[agentType := remaining];
      }
      failure := None;
    }

    /** One text received by the text endpoint. An unknown type makes `agent.is_active()` raise.
        An inactive agent gets a fixed reply and the text is not processed. An active agent is
        asked to `process_message`, which the agent class does not define, so that raises too.
        Either exception ends the loop in the generic handler, and the connection stays in the
        table. */
    function ReceiveText(agentType: string, data: string): (r: TextOutcome)
      reads this, agentManager, agentManager.agents.Values
      requires Valid()
      ensures r.NotActive? <==> agentManager.IsAgentRegistered(agentType) && !agentManager.agents[agentType].IsActive()
      ensures r.NotActive? ==> r.reply == "Agent " + agentType + " is not active."
      ensures r.Crashed? <==> !agentManager.IsAgentRegistered(agentType) || agentManager.agents[agentType].IsActive()
      ensures !agentManager.IsAgentRegistered(agentType) ==> r == Crashed(AttributeError("'NoneType' object has no attribute 'is_active'"))
      ensures agentManager.IsAgentRegistered(agentType) && agentManager.agents[agentType].IsActive() ==> r == Crashed(NoProcessMessage)
    {
      var agent := agentManager.GetAgent(agentType);
      if agent == null then Crashed(AttributeError("'NoneType' object has no attribute 'is_active'"))
      else if !agent.IsActive() then NotActive("Agent " + agentType + " is not active.")
      else Crashed(NoProcessMessage)
    }

    /** One pass of `_handle_inter_agent_communication` over the agents in registration order:
        each active agent with a queued message loses exactly its head, which is sent to every
        connection of its type; every other agent is left as it was. */
    method Tick() returns (deliveries: seq<Delivery>)
      requires Valid()
      modifies agentManager.agents.Values
      ensures Valid()
      ensures deliveries == TickDeliveries(old(InboxesOf(agentManager, agentManager.order)), connections)
      ensures forall t :: t in agentManager.agents ==>
        ViewOf(agentManager.agents[t]) == TickView(old(ViewOf(agentManager.agents[t])))
    {
      var agents := agentManager.GetAllAgents();
      ghost var views := seq(|agents|, j requires 0 <= j < |agents| reads agents => ViewOf(agents[j]));
      assert Inboxes(views) == InboxesOf(agentManager, agentManager.order);
      deliveries := DeliverEach(agents, connections, views);
      forall t | t in agentManager.agents
        ensures ViewOf(agentManager.agents[t]) == TickView(old(ViewOf(agentManager.agents[t])))
      {
        var j :| 0 <= j < |agentManager.order| && agentManager.order[j] == t;
        assert agents[j] == agentManager.agents[t] && views[j] == old(ViewOf(agentManager.agents[t]));
      }
    }
  }
}
