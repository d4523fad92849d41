/** The earlier agent registry (agent_manager.py at the repository root): agents with a queue
    and a legacy session, and a type-keyed `AgentManager` that fills an empty contact list with
    the types registered before the agent. */
module LegacyAgents {
  import opened Common
  import opened Sessions
  import opened LegacySessions
  import opened Agents

  /** `description.split("\n")[0]`: the description up to its first newline. */
  function FirstLine(description: string): (p: string)
    ensures |p| <= |description| && p == description[..|p|]
    ensures '\n' !in p
    ensures |p| < |description| ==> description[|p|] == '\n'
  {
    FirstPieceIsPrefix(description, '\n');
    Split(description, '\n')[0]
  }

  /** The legacy `BaseAgent`. */
  class LegacyAgent {
    const agentType: string
    const description: Option<string>
    var canContact: seq<string>
    var queue: seq<string>
    var session: LegacySession?
    var manager: LegacyAgentManager?

    constructor (agentType: string, description: Option<string>, canContact: seq<string>)
      ensures this.agentType == agentType && this.description == description && this.canContact == canContact
      ensures queue == [] && session == null && manager == null
    {
      this.agentType := agentType;
      this.description := description;
      this.canContact := canContact;
      queue := [];
      session := null;
      manager := null;
    }

    /** `is_active`: a session is set. */
    predicate IsActive()
      reads this
    {
      session != null
    }

    /** `add_message_to_queue`: appends `"<sender>: <message>"` at the tail. */
    method AddMessageToQueue(message: string, sender: string)
      modifies this
      ensures queue == old(queue) + [QueueEntry(sender, message)]
      ensures canContact == old(canContact) && session == old(session) && manager == old(manager)
    {
      queue := queue + [QueueEntry(sender, message)];
    }

    /** `activate`: `Session(self.TYPE)` loads `<type>.json` with no `try`, so a file that
        cannot be read or parsed raises out of `activate` and the agent stays as it was;
        otherwise the agent gets a fresh session holding what loading found. */
    method Activate(file: SessionFile) returns (failure: Option<Failure>)
      modifies this
      ensures failure.Some? <==> file.Unreadable?
      ensures failure.Some? ==> failure.value == SessionLoadError(SessionFileOf(agentType)) && session == old(session)
      ensures failure.None? ==>
        IsActive() && fresh(session) && session.agentId == agentType &&
        session.messages == if file.Lines? then file.messages else []
      ensures canContact == old(canContact) && queue == old(queue) && manager == old(manager)
    {
      match LoadMessages(SessionFileOf(agentType), file)
      case Err(f) =>
        failure := Some(f);
      case Ok(loaded) =>
        session := new LegacySession(agentType, loaded);
        failure := None;
    }

    /** `get_contactable_agents_with_description`: the registry's entries whose type is in the
        contact list and is not the agent's own. */
    function GetContactableAgentsWithDescription(): (r: Result<map<string, string>>)
      reads this, manager, if manager == null then {} else manager.agents.Values
      ensures r.Ok? <==> manager != null && manager.DescriptionsPresent()
      ensures r.Ok? ==> forall t :: t in r.value <==> t in manager.agents && t in canContact && t != agentType
      ensures r.Ok? ==> forall t :: t in r.value ==> r.value[t] == FirstLine(manager.agents[t].description.value)
    {
      if manager == null then Err(AttributeError("'BaseAgent' object has no attribute '_agent_manager'"))
      else
        match manager.GetAgentTypesWithDescription()
        case Err(f) => Err(f)
        case Ok(all) => Ok(map t | t in all && t in canContact && t != agentType :: all[t])
    }

    /** `ask_an_agent`: activates the target if it is inactive and queues the question with this
        agent's type as the sender. Without a registry, or for an unknown type, the attribute
        lookup raises and nothing changes; `file` is what activating the target finds on disk,
        and an activation that raises ends the call before anything is queued. */
    method AskAnAgent(targetType: string, question: string, file: SessionFile)
      returns (reply: Result<string>)
      requires manager != null ==> manager.Valid()
      modifies if manager != null && targetType in manager.agents then {manager.agents[targetType]} else {}
      ensures manager == old(manager)
      ensures manager == null ==> reply.Err?
      ensures manager != null && targetType !in manager.agents ==> reply.Err?
      ensures manager != null && targetType in manager.agents ==>
        var target := old(manager.agents[targetType]);
        var raises := !old(target.IsActive()) && file.Unreadable?;
        (raises ==>
          reply == Err(SessionLoadError(SessionFileOf(targetType))) &&
          target.queue == old(target.queue) && !target.IsActive()) &&
        (!raises ==>
          reply == Ok("I have put the question '" + question + "' in the queue for the agent of type " + targetType + ".You will hear back soon.") &&
          target.queue == old(target.queue) + [QueueEntry(agentType, question)] &&
          target.IsActive() &&
          (old(target.IsActive()) ==> target.session == old(target.session)) &&
          (!old(target.IsActive()) ==>
            (fresh(target.session) && target.session.agentId == targetType &&
             target.session.messages == if file.Lines? then file.messages else []))) &&
        target.canContact == old(target.canContact) && target.manager == old(target.manager)
    {
      if manager == null {
        return Err(AttributeError("'BaseAgent' object has no attribute '_agent_manager'"));
      }
      var target := manager.GetAgent(targetType);
      if target == null {
        return Err(AttributeError("'NoneType' object has no attribute 'is_active'"));
      }
      if !target.IsActive() {
        var failure := target.Activate(file);
        if failure.Some? {
          return Err(failure.value);
        }
      }
      target.AddMessageToQueue(question, agentType);
      reply := Ok("I have put the question '" + question + "' in the queue for the agent of type " + targetType + ".You will hear back soon.");
    }
  }

  /** The legacy `AgentManager`: `agents` is the dict, `order` its insertion order. */
  class LegacyAgentManager {
    var agents: map<string, LegacyAgent>
    var order: seq<string>

    /** `order` lists each key once, and every agent sits under its own type. */
    ghost predicate Valid()
      reads this
    {
      Distinct(order) &&
      (forall t :: t in agents <==> t in order) &&
      (forall t :: t in agents ==> agents[t].agentType == t)
    }

    constructor ()
      ensures Valid() && agents == map[] && order == []
    {
      agents := map[];
      order := [];
    }

    /** `register_agent`: a type already present raises ValueError and changes nothing.
        Otherwise an empty contact list becomes the types registered so far (so not the agent's
        own type, and nothing at all for the first agent), and the agent is stored. */
    method RegisterAgent(agent: LegacyAgent) returns (failure: Option<Failure>)
      requires Valid()
      modifies this, agent
      ensures Valid()
      ensures failure.Some? <==> agent.agentType in old(agents)
      ensures failure.Some? ==>
        failure.value == ValueError("Agent of type " + agent.agentType + " is already registered.") &&
        agents == old(agents) && order == old(order) &&
        agent.manager == old(agent.manager) && agent.canContact == old(agent.canContact)
      ensures failure.None? ==>
        agents == old(agents)[agent.agentType := agent] && order == old(order) + [agent.agentType] && agent.manager == this &&
        agent.canContact == if old(agent.canContact) == [] then old(order) else old(agent.canContact)
      ensures failure.None? ==> agent.agentType !in agent.canContact || agent.agentType in old(agent.canContact)
      ensures agent.queue == old(agent.queue) && agent.session == old(agent.session)
    {
      if agent.agentType in agents {
        return Some(ValueError("Agent of type " + agent.agentType + " is already registered."));
      }
      agent.manager := this;
      if agent.canContact == [] {
        agent.canContact := GetAllAgentTypes();
      }
      agents := agents[agent.agentType := agent];
      order := order + [agent.agentType];
      failure := None;
    }

    /** `get_agent`: None for an unknown type. */
    function GetAgent(agentType: string): (r: LegacyAgent?)
      reads this
      requires Valid()
      ensures r != null <==> IsAgentRegistered(agentType)
      ensures r != null ==> r == agents[agentType] && r.agentType == agentType
    {
      if agentType in agents then agents[agentType] else null
    }

    /** `is_agent_registered`. */
    predicate IsAgentRegistered(agentType: string)
      reads this
    {
      agentType in agents
    }

    /** `get_all_agent_types`: every registered type once, in registration order. */
    function GetAllAgentTypes(): (r: seq<string>)
      reads this
      requires Valid()
      ensures r == order
      ensures |r| == |agents| && Distinct(r)
      ensures forall t :: t in r <==> IsAgentRegistered(t)
    {
      DistinctCardinality(order);
      assert agents.Keys == set t | t in order;
      order
    }

    /** `get_all_agents`: the agents in registration order. */
    function GetAllAgents(): (r: seq<LegacyAgent>)
      reads this
      requires Valid()
      ensures |r| == |order| == |agents|
      ensures forall i :: 0 <= i < |r| ==> order[i] in agents && r[i] == agents[order[i]] && r[i].agentType == order[i]
      ensures forall t :: t in agents ==> agents[t] in r
    {
      DistinctCardinality(order);
      assert agents.Keys == set t | t in order;
      var types, registered := order, agents;
      assert forall i :: 0 <= i < |types| ==> types[i] in registered;
      var r := seq(|types|, i requires 0 <= i < |types| => registered[types[i]]);
      assert forall t :: t in agents ==> agents[t] in r by {
        forall t | t in agents ensures agents[t] in r {
          var i :| 0 <= i < |order| && order[i] == t;
          assert r[i] == agents[t];
        }
      }
      r
    }

    /** `unregister_agent`: removes only that type; an unknown type changes nothing. */
    method UnregisterAgent(agentType: string)
      requires Valid()
      modifies this
      ensures Valid()
      ensures agents == old(agents) - {agentType} && order == Without(old(order), agentType)
      ensures agentType !in old(agents) ==> agents == old(agents) && order == old(order)
    {
      WithoutKeepsDistinct(order, agentType);
      if agentType in agents {
        agents := agents - {agentType};
        order := Without(order, agentType);
      }
    }

    /** `unregister_all_agents`: `clear()`. */
    method UnregisterAllAgents()
      modifies this
      ensures Valid() && agents == map[] && order == []
    {
      agents := map[];
      order := [];
    }

    /** Every registered agent has a description (otherwise `description.split` raises). */
    predicate DescriptionsPresent()
      reads this
    {
      forall t :: t in agents ==> agents[t].description.Some?
    }

    /** `get_agent_types_with_description`: every registered type, mapped to the first line of
        its description. */
    function GetAgentTypesWithDescription(): (r: Result<map<string, string>>)
      reads this, agents.Values
      ensures r.Ok? <==> DescriptionsPresent()
      ensures r.Ok? ==> r.value.Keys == agents.Keys
      ensures r.Ok? ==> forall t :: t in r.value ==>
        r.value[t] == FirstLine(agents[t].description.value) &&
        StartsWith(agents[t].description.value, r.value[t]) && '\n' !in r.value[t]
      ensures r.Err? ==> r.failure == AttributeError("'NoneType' object has no attribute 'split'")
    {
      if DescriptionsPresent() then
        Ok(map t | t in agents :: FirstLine(agents[t].description.value))
      else Err(AttributeError("'NoneType' object has no attribute 'split'"))
    }

    /** The sessions of the registered agents. */
    function SessionObjects(): set<LegacySession>
      reads this, agents.Values
    {
      set t | t in agents && agents[t].session != null :: agents[t].session
    }

    /** What `get_agent_messages` reads of the agent registered under `t`: its last three
        messages, by a plain slice. */
    function EntryOf(t: string): Entry
      reads this, agents.Values, SessionObjects()
      requires t in agents
    {
      var a := agents[t];
      Entry(t, if a.session == null then None else Some(LastN(a.session.messages, 3)))
    }

    /** What `get_agent_messages` reads, agent by agent in the order of `types`. */
    function EntriesOf(types: seq<string>): (r: seq<Entry>)
      reads this, agents.Values, SessionObjects()
      requires forall t :: t in types ==> t in agents
      ensures |r| == |types| && forall i :: 0 <= i < |types| ==> r[i] == EntryOf(types[i])
      decreases |types|
    {
      if types == [] then [] else EntriesOf(types[..|types| - 1]) + [EntryOf(types[|types| - 1])]
    }

    /** The entry of the `i`-th registered agent describes that agent. */
    lemma EntryFacts(entries: seq<Entry>, i: nat)
      requires Valid() && i < |order| && entries == EntriesOf(order)
      ensures order[i] in agents
      ensures entries[i].agentType == agents[order[i]].agentType
      ensures entries[i].recent.Some? <==> agents[order[i]].session != null
      ensures agents[order[i]].session != null ==> entries[i].recent.value == LastN(agents[order[i]].session.messages, 3)
    {
      assert entries[i] == EntryOf(order[i]);
    }

    /** `get_agent_messages`: one block per other agent with a session, in registration order. */
    method GetAgentMessages(agentType: string) returns (text: string)
      requires Valid()
      ensures text == ConversationsText(EntriesOf(order), agentType)
    {
      var entries := EntriesOf(order);
      text := "";
      var i := 0;
      while i < |order|
        invariant 0 <= i <= |order|
        invariant text == ConversationsText(entries[..i], agentType)
      {
        var agent := agents[order[i]];
        assert Contributes(entries[i], agentType) <==> agent.agentType != agentType && agent.session != null by {
          EntryFacts(entries, i);
        }
        assert agent.session != null ==>
          entries[i].agentType == agent.agentType && entries[i].recent == Some(LastN(agent.session.messages, 3)) by {
          EntryFacts(entries, i);
        }
        ghost var block := if Contributes(entries[i], agentType) then ConversationBlock(entries[i].agentType, entries[i].recent.value) else "";
        assert ConversationsText(entries[..i + 1], agentType) == ConversationsText(entries[..i], agentType) + block by {
          ConversationsTextStep(entries, i, agentType);
        }
        if agent.agentType != agentType && agent.session != null {
          var recent := agent.session.GetLastNMessages(3);
          text := text + ConversationBlock(agent.agentType, recent);
        }
        i := i + 1;
      }
      assert entries[..|order|] == entries;
    }
  }
}
