/** Agents and their registry (mahilo/agent.py and mahilo/agent_manager.py): the tool list,
    the inbound queue, activation, and the type-keyed `AgentManager`. */
module Agents {
  import opened Common
  import opened Sessions

  /** The `"function"` entry of a tool dict; `details` stands for the rest of the schema. */
  datatype ToolFunction = ToolFunction(name: Option<string>, details: string)

  /** A tool dict, which may lack its `"function"` entry. */
  datatype Tool = Tool(toolFunction: Option<ToolFunction>)

  /** `t.get("function", {}).get("name")`. */
  function ToolName(t: Tool): Option<string> {
    if t.toolFunction.Some? then t.toolFunction.value.name else None
  }

  const ChatWithAgent: string := "chat_with_agent"
  const ContactHuman: string := "contact_human"

  predicate IsReservedToolName(name: string) {
    name == ChatWithAgent || name == ContactHuman
  }

  /** `_get_base_tools`: the two tools every agent has (their descriptions are not modelled). */
  function BaseTools(): seq<Tool> {
    [Tool(Some(ToolFunction(Some(ChatWithAgent), ""))), Tool(Some(ToolFunction(Some(ContactHuman), "")))]
  }

  predicate HasToolNamed(tools: seq<Tool>, name: string) {
    exists i :: 0 <= i < |tools| && ToolName(tools[i]) == Some(name)
  }

  /** The tool has a name, and it is not a base tool's name. */
  predicate ToolAllowed(t: Tool) {
    ToolName(t).Some? && !IsReservedToolName(ToolName(t).value)
  }

  /** Every custom tool has a name, and none takes a base tool's name. */
  predicate ToolNamesAllowed(tools: seq<Tool>) {
    forall i :: 0 <= i < |tools| ==> ToolAllowed(tools[i])
  }

  /** No two tools share a name. */
  predicate ToolNamesDistinct(tools: seq<Tool>) {
    forall i, j :: 0 <= i < j < |tools| ==> ToolName(tools[i]) != ToolName(tools[j])
  }

  /** The exception the constructor's check of the supplied tools raises, if any: indexing a
      missing key raises KeyError, a base tool's name raises ValueError. The first offending
      tool decides. */
  function InitialToolsFailure(tools: seq<Tool>): (r: Option<Failure>)
    ensures r.None? <==> ToolNamesAllowed(tools)
    decreases |tools|
  {
    if tools == [] then None
    else
      var rest := InitialToolsFailure(tools[1..]);
      assert ToolNamesAllowed(tools) <==> ToolAllowed(tools[0]) && ToolNamesAllowed(tools[1..]) by {
        if ToolAllowed(tools[0]) && ToolNamesAllowed(tools[1..]) {
          forall i | 0 <= i < |tools| ensures ToolAllowed(tools[i]) {
            if i > 0 { assert tools[i] == tools[1..][i - 1]; }
          }
        }
        if ToolNamesAllowed(tools) {
          forall i | 0 <= i < |tools[1..]| ensures ToolAllowed(tools[1..][i]) {
            assert tools[1..][i] == tools[i + 1];
          }
        }
      }
      match tools[0].toolFunction
      case None => Some(KeyError("function"))
      case Some(f) =>
        match f.name
        case None => Some(KeyError("name"))
        case Some(n) =>
          if IsReservedToolName(n) then Some(ValueError("Tool with name '" + n + "' cannot be used as it is a base tool."))
          else rest
  }

  /** `[t for t in tools if t.get("function", {}).get("name") != name]`. */
  function WithoutTool(tools: seq<Tool>, name: string): (r: seq<Tool>)
    ensures forall t :: t in r <==> t in tools && ToolName(t) != Some(name)
    decreases |tools|
  {
    if tools == [] then []
    else if ToolName(tools[0]) == Some(name) then WithoutTool(tools[1..], name)
    else [tools[0]] + WithoutTool(tools[1..], name)
  }

  /** Filtering by name keeps every custom tool name allowed. */
  lemma {:induction false} WithoutToolKeepsAllowed(tools: seq<Tool>, name: string)
    requires ToolNamesAllowed(tools)
    ensures ToolNamesAllowed(WithoutTool(tools, name))
  {
    var r := WithoutTool(tools, name);
    forall i | 0 <= i < |r| ensures ToolAllowed(r[i]) {
      assert r[i] in tools;
    }
  }

  /** Filtering by name keeps custom tool names distinct. */
  lemma {:induction false} WithoutToolKeepsDistinct(tools: seq<Tool>, name: string)
    requires ToolNamesDistinct(tools)
    ensures ToolNamesDistinct(WithoutTool(tools, name))
    decreases |tools|
  {
    if tools != [] {
      var tail := tools[1..];
      assert ToolNamesDistinct(tail) by {
        forall i, j | 0 <= i < j < |tail| ensures ToolName(tail[i]) != ToolName(tail[j]) {
          assert tail[i] == tools[i + 1] && tail[j] == tools[j + 1];
        }
      }
      WithoutToolKeepsDistinct(tail, name);
      var rest := WithoutTool(tail, name);
      if ToolName(tools[0]) != Some(name) {
        var r := [tools[0]] + rest;
        forall t | t in rest ensures ToolName(t) != ToolName(tools[0]) {
          var k :| 0 <= k < |tail| && tail[k] == t;
          assert tools[k + 1] == t;
        }
        forall i, j | 0 <= i < j < |r| ensures ToolName(r[i]) != ToolName(r[j]) {
          if i == 0 {
            assert r[j] == rest[j - 1] && rest[j - 1] in rest;
          } else {
            assert r[i] == rest[i - 1] && r[j] == rest[j - 1];
          }
        }
      }
    }
  }

  /** `f"{sender}: {message}"`, the form a queued message takes. */
  function QueueEntry(sender: string, message: string): string {
    sender + ": " + message
  }

  /** `f"{message['role']}: {message['content']}"` for every message. */
  function TranscriptLines(messages: seq<SessionMessage>): (r: seq<string>)
    ensures |r| == |messages|
    ensures forall i :: 0 <= i < |r| ==> r[i] == messages[i].role + ": " + messages[i].content
  {
    seq(|messages|, i requires 0 <= i < |messages| => messages[i].role + ": " + messages[i].content)
  }

  /** What `get_agent_messages` sees of one registered agent: its type and, when it has a
      session, the messages `get_last_n_messages(3)` returns. */
  datatype Entry = Entry(agentType: string, recent: Option<seq<SessionMessage>>)

  /** One agent's block of `get_agent_messages`. */
  function ConversationBlock(agentType: string, recent: seq<SessionMessage>): (b: string)
    ensures StartsWith(b, "Other Conversations: ") && |b| > 0 && b[|b| - 1] == '\n'
  {
    "Other Conversations: " + agentType + ": " + Join("\n", TranscriptLines(recent)) + "\n"
  }

  /** The text `get_agent_messages(self_type)` builds from the entries, in order. */
  function ConversationsText(entries: seq<Entry>, selfType: string): string
    decreases |entries|
  {
    if entries == [] then ""
    else
      var last := entries[|entries| - 1];
      ConversationsText(entries[..|entries| - 1], selfType) +
      (if last.agentType != selfType && last.recent.Some? then ConversationBlock(last.agentType, last.recent.value) else "")
  }

  /** An entry that contributes a block: another agent, with a session. */
  predicate Contributes(e: Entry, selfType: string) {
    e.agentType != selfType && e.recent.Some?
  }

  /** One more entry appends its block, or nothing when it does not contribute. */
  lemma ConversationsTextStep(entries: seq<Entry>, i: nat, selfType: string)
    requires i < |entries|
    ensures ConversationsText(entries[..i + 1], selfType) ==
      ConversationsText(entries[..i], selfType) +
      (if Contributes(entries[i], selfType) then ConversationBlock(entries[i].agentType, entries[i].recent.value) else "")
  {
    assert entries[..i + 1][..i] == entries[..i];
  }

  /** The text is empty exactly when no other agent has a session. */
  lemma {:induction false} ConversationsEmptyIff(entries: seq<Entry>, selfType: string)
    ensures ConversationsText(entries, selfType) == "" <==>
      forall i :: 0 <= i < |entries| ==> !Contributes(entries[i], selfType)
    decreases |entries|
  {
    if entries != [] {
      var init := entries[..|entries| - 1];
      ConversationsEmptyIff(init, selfType);
      assert forall i :: 0 <= i < |init| ==> init[i] == entries[i];
    }
  }

  /** The agent's own transcript and the transcripts of agents without a session never show:
      replacing an entry that does not contribute by any other non-contributing entry leaves
      the text unchanged. */
  lemma {:induction false} ConversationsIgnoreNonContributors(entries: seq<Entry>, selfType: string, i: nat, e: Entry)
    requires i < |entries|
    requires !Contributes(entries[i], selfType) && !Contributes(e, selfType)
    ensures ConversationsText(entries[i := e], selfType) == ConversationsText(entries, selfType)
    decreases |entries|
  {
    var n := |entries|;
    var updated := entries[i := e];
    if i < n - 1 {
      assert updated[..n - 1] == entries[..n - 1][i := e];
      ConversationsIgnoreNonContributors(entries[..n - 1], selfType, i, e);
    } else {
      assert updated[..n - 1] == entries[..n - 1];
    }
  }

  /** `BaseAgent`. `TYPE` and the descriptions are never reassigned, so they are constants. */
  class BaseAgent {
    const agentType: string
    const description: Option<string>
    const shortDescription: Option<string>
    var canContact: seq<string>
    var queue: seq<string>
    var session: Session?
    var customTools: seq<Tool>
    var manager: AgentManager?

    /** `__init__` once its tool check has passed (see `NewAgent`). */
    constructor (agentType: string, description: Option<string>, canContact: seq<string>,
                 shortDescription: Option<string>, tools: seq<Tool>)
      ensures this.agentType == agentType && this.description == description
      ensures this.shortDescription == shortDescription && this.canContact == canContact
      ensures queue == [] && session == null && customTools == tools && manager == null
    {
      this.agentType := agentType;
      this.description := description;
      this.canContact := canContact;
      this.shortDescription := shortDescription;
      queue := [];
      session := null;
      customTools := tools;
      manager := null;
    }

    /** `is_active`: a session is set. */
    predicate IsActive()
      reads this
    {
      session != null
    }

    /** `tools`: the base tools followed by the custom tools. Building the base tools reads the
        registry's descriptions, which raises when the agent was never registered or a
        registered agent has no description. */
    function Tools(): (r: Result<seq<Tool>>)
      reads this, manager
      ensures r.Ok? <==> manager != null && manager.DescriptionsPresent()
      ensures r.Ok? ==> |r.value| == 2 + |customTools| && r.value[..2] == BaseTools() && r.value[2..] == customTools
    {
      if manager == null then Err(AttributeError("'BaseAgent' object has no attribute '_agent_manager'"))
      else
        match manager.GetAgentTypesWithDescription()
        case Err(f) => Err(f)
        case Ok(_) => Ok(BaseTools() + customTools)
    }

    /** `get_contactable_agents_with_description`: the registry's entries whose type is in the
        contact list and is not the agent's own. */
    function GetContactableAgentsWithDescription(): (r: Result<map<string, string>>)
      reads this, manager
      ensures r.Ok? <==> manager != null && manager.DescriptionsPresent()
      ensures r.Ok? ==> forall t :: t in r.value <==> t in manager.agents && t in canContact && t != agentType
      ensures r.Ok? ==> manager.GetAgentTypesWithDescription().Ok?
      ensures r.Ok? ==> forall t :: t in r.value ==> r.value[t] == manager.GetAgentTypesWithDescription().value[t] == ""
    {
      if manager == null then Err(AttributeError("'BaseAgent' object has no attribute '_agent_manager'"))
      else
        match manager.GetAgentTypesWithDescription()
        case Err(f) => Err(f)
        case Ok(all) => Ok(map t | t in all && t in canContact && t != agentType :: all[t])
    }

    /** `add_tool`: rejects a tool without a name and a name already among the tools (the two
        base names included); otherwise appends it. */
    method AddTool(tool: Tool) returns (failure: Option<Failure>)
      modifies this
      ensures ToolName(tool).None? ==> failure == Some(ValueError("Tool must have a 'function' property with a 'name' field"))
      ensures ToolName(tool).Some? && old(Tools()).Err? ==> failure == Some(old(Tools()).failure)
      ensures failure.None? <==>
        ToolName(tool).Some? && old(Tools()).Ok? && !HasToolNamed(old(Tools()).value, ToolName(tool).value)
      ensures customTools == if failure.None? then old(customTools) + [tool] else old(customTools)
      ensures ToolNamesAllowed(old(customTools)) ==> ToolNamesAllowed(customTools)
      ensures ToolNamesDistinct(old(customTools)) ==> ToolNamesDistinct(customTools)
      ensures canContact == old(canContact) && queue == old(queue) && session == old(session) && manager == old(manager)
    {
      if ToolName(tool).None? {
        return Some(ValueError("Tool must have a 'function' property with a 'name' field"));
      }
      var name := ToolName(tool).value;
      var current := Tools();
      if current.Err? {
        return Some(current.failure);
      }
      if HasToolNamed(current.value, name) {
        return Some(ValueError("Tool with name '" + name + "' already exists. Please note that " +
                               "'chat_with_agent' and 'contact_human' are predefined tools and can't be modified."));
      }
      assert forall i :: 0 <= i < |customTools| ==> current.value[i + 2] == customTools[i];
      assert current.value[0] == BaseTools()[0] && current.value[1] == BaseTools()[1];
      customTools := customTools + [tool];
      failure := None;
    }

    /** `remove_tool`: the base tools cannot be removed; otherwise every custom tool with the
        name goes, the rest stay in order. */
    method RemoveTool(name: string) returns (failure: Option<Failure>)
      modifies this
      ensures IsReservedToolName(name) <==> failure.Some?
      ensures failure.Some? ==> failure.value == ValueError("Tool with name '" + name + "' cannot be removed. It is a base tool.")
      ensures customTools == if failure.None? then WithoutTool(old(customTools), name) else old(customTools)
      ensures !HasToolNamed(old(customTools), name) ==> customTools == old(customTools)
      ensures failure.None? ==> !HasToolNamed(customTools, name)
      ensures ToolNamesAllowed(old(customTools)) ==> ToolNamesAllowed(customTools)
      ensures ToolNamesDistinct(old(customTools)) ==> ToolNamesDistinct(customTools)
      ensures canContact == old(canContact) && queue == old(queue) && session == old(session) && manager == old(manager)
    {
      if IsReservedToolName(name) {
        return Some(ValueError("Tool with name '" + name + "' cannot be removed. It is a base tool."));
      }
      NoMatchingToolRemoved(customTools, name);
      if ToolNamesAllowed(customTools) {
        WithoutToolKeepsAllowed(customTools, name);
      }
      if ToolNamesDistinct(customTools) {
        WithoutToolKeepsDistinct(customTools, name);
      }
      customTools := WithoutTool(customTools, name);
      failure := None;
    }

    /** `add_message_to_queue`: appends `"<sender>: <message>"` at the tail. */
    method AddMessageToQueue(message: string, sender: string)
      modifies this
      ensures queue == old(queue) + [QueueEntry(sender, message)]
      ensures canContact == old(canContact) && session == old(session) && customTools == old(customTools) && manager == old(manager)
    {
      queue := queue + [QueueEntry(sender, message)];
    }

    /** `activate`: a fresh session for the agent's type; `file` is what loading its session
        file finds. */
    method Activate(serverId: Option<string>, file: SessionFile)
      modifies this
      ensures IsActive() && fresh(session)
      ensures session.agentName == agentType && session.messages == if file.Lines? then file.messages else []
      ensures canContact == old(canContact) && queue == old(queue) && customTools == old(customTools) && manager == old(manager)
    {
      session := new Session(agentType, serverId, file);
    }

    /** `chat_with_agent`: activates the target if it is inactive and queues the question with
        this agent's type as the sender. Without a registry, or for an unknown type, the
        attribute lookup raises and nothing changes. */
    method ChatWithAgent(targetType: string, question: string, file: SessionFile) returns (reply: Result<string>)
      requires manager != null ==> manager.Valid()
      modifies if manager != null && targetType in manager.agents then {manager.agents[targetType]} else {}
      ensures manager == old(manager)
      ensures manager == null ==> reply.Err?
      ensures manager != null && targetType !in manager.agents ==> reply.Err?
      ensures manager != null && targetType in manager.agents ==>
        var target := old(manager.agents[targetType]);
        reply == Ok("I have put the question '" + question + "' in the queue for the agent of type " + targetType + ".You will hear back soon.") &&
        target.queue == old(target.queue) + [QueueEntry(agentType, question)] &&
        target.IsActive() &&
        (old(target.IsActive()) ==> target.session == old(target.session)) &&
        (!old(target.IsActive()) ==>
          (fresh(target.session) && target.session.agentName == targetType &&
           target.session.messages == if file.Lines? then file.messages else [])) &&
        target.canContact == old(target.canContact) && target.customTools == old(target.customTools) &&
        target.manager == old(target.manager)
    {
      if manager == null {
        return Err(AttributeError("'BaseAgent' object has no attribute '_agent_manager'"));
      }
      var target := manager.GetAgent(targetType);
      if target == null {
        return Err(AttributeError("'NoneType' object has no attribute 'is_active'"));
      }
      if !target.IsActive() {
        target.Activate(None, file);
      }
      target.AddMessageToQueue(question, agentType);
      reply := Ok("I have put the question '" + question + "' in the queue for the agent of type " + targetType + ".You will hear back soon.");
    }
  }

  /** Removing a name that no tool carries changes nothing. */
  lemma {:induction false} NoMatchingToolRemoved(tools: seq<Tool>, name: string)
    ensures !HasToolNamed(tools, name) ==> WithoutTool(tools, name) == tools
    decreases |tools|
  {
    if tools != [] && !HasToolNamed(tools, name) {
      assert ToolName(tools[0]) != Some(name);
      assert !HasToolNamed(tools[1..], name) by {
        forall i | 0 <= i < |tools[1..]| ensures ToolName(tools[1..][i]) != Some(name) {
          assert tools[1..][i] == tools[i + 1];
        }
      }
      NoMatchingToolRemoved(tools[1..], name);
      assert tools == [tools[0]] + tools[1..];
    }
  }

  /** `BaseAgent.__init__`: the supplied tools are checked in order before the agent exists;
      None and an empty list both give no custom tools. */
  method NewAgent(agentType: string, description: Option<string>, canContact: seq<string>,
                  shortDescription: Option<string>, tools: seq<Tool>)
    returns (agent: BaseAgent?, failure: Option<Failure>)
    ensures failure == InitialToolsFailure(tools)
    ensures failure.None? <==> agent != null
    ensures agent != null ==> (fresh(agent) && agent.agentType == agentType && agent.customTools == tools &&
                               agent.queue == [] && !agent.IsActive() && agent.canContact == canContact && agent.manager == null)
  {
    var i := 0;
    while i < |tools|
      invariant 0 <= i <= |tools|
      invariant InitialToolsFailure(tools) == InitialToolsFailure(tools[i..])
    {
      assert tools[i..][1..] == tools[i + 1..];
      var name := ToolName(tools[i]);
      if tools[i].toolFunction.None? {
        return null, Some(KeyError("function"));
      }
      if name.None? {
        return null, Some(KeyError("name"));
      }
      if IsReservedToolName(name.value) {
        return null, Some(ValueError("Tool with name '" + name.value + "' cannot be used as it is a base tool."));
      }
      i := i + 1;
    }
    agent := new BaseAgent(agentType, description, canContact, shortDescription, tools);
    failure := None;
  }

  /** `AgentManager`: `agents` is the dict, `order` its insertion order. */
  class AgentManager {
    var agents: map<string, BaseAgent>
    var order: seq<string>

    /** `order` lists each key once, and every agent sits under its own type. */
    ghost predicate Valid()
      reads this
    {
      Distinct(order) &&
      (forall t :: t in agents <==> t in order) &&
      (forall t :: t in agents ==> agents[t].agentType == t)
    }

    constructor ()
      ensures Valid() && agents == map[] && order == []
    {
      agents := map[];
      order := [];
    }

    /** `register_agent`: a type already present raises ValueError and changes nothing;
        otherwise the agent is linked back to the manager and stored under its type. */
    method RegisterAgent(agent: BaseAgent) returns (failure: Option<Failure>)
      requires Valid()
      modifies this, agent
      ensures Valid()
      ensures failure.Some? <==> agent.agentType in old(agents)
      ensures failure.Some? ==>
        failure.value == ValueError("Agent of type " + agent.agentType + " is already registered.") &&
        agents == old(agents) && order == old(order) && agent.manager == old(agent.manager)
      ensures failure.None? ==>
        agents == old(agents)[agent.agentType := agent] && order == old(order) + [agent.agentType] && agent.manager == this
      ensures agent.canContact == old(agent.canContact) && agent.queue == old(agent.queue) && agent.session == old(agent.session)
      ensures agent.customTools == old(agent.customTools)
    {
      if agent.agentType in agents {
        return Some(ValueError("Agent of type " + agent.agentType + " is already registered."));
      }
      agent.manager := this;
      agents := agents[agent.agentType := agent];
      order := order + [agent.agentType];
      failure := None;
    }

    /** `get_agent`: None for an unknown type. */
    function GetAgent(agentType: string): (r: BaseAgent?)
      reads this
      requires Valid()
      ensures r != null <==> IsAgentRegistered(agentType)
      ensures r != null ==> r == agents[agentType] && r.agentType == agentType
    {
      if agentType in agents then agents[agentType] else null
    }

    /** `is_agent_registered`. */
    predicate IsAgentRegistered(agentType: string)
      reads this
    {
      agentType in agents
    }

    /** `get_all_agent_types`: every registered type once, in registration order. */
    function GetAllAgentTypes(): (r: seq<string>)
      reads this
      requires Valid()
      ensures r == order
      ensures |r| == |agents| && Distinct(r)
      ensures forall t :: t in r <==> IsAgentRegistered(t)
    {
      DistinctCardinality(order);
      assert agents.Keys == set t | t in order;
      order
    }

    /** `get_all_agents`: the agents in registration order. */
    function GetAllAgents(): (r: seq<BaseAgent>)
      reads this
      requires Valid()
      ensures |r| == |order| == |agents|
      ensures forall i :: 0 <= i < |r| ==> order[i] in agents && r[i] == agents[order[i]] && r[i].agentType == order[i]
      ensures forall t :: t in agents ==> agents[t] in r
      ensures forall i, j :: 0 <= i < j < |r| ==> r[i] != r[j]
    {
      DistinctCardinality(order);
      assert agents.Keys == set t | t in order;
      var types, registered := order, agents;
      assert forall i :: 0 <= i < |types| ==> types[i] in registered;
      var r := seq(|types|, i requires 0 <= i < |types| => registered[types[i]]);
      assert forall t :: t in agents ==> agents[t] in r by {
        forall t | t in agents ensures agents[t] in r {
          var i :| 0 <= i < |order| && order[i] == t;
          assert r[i] == agents[t];
        }
      }
      r
    }

    /** `unregister_agent`: removes only that type; an unknown type changes nothing. */
    method UnregisterAgent(agentType: string)
      requires Valid()
      modifies this
      ensures Valid()
      ensures agents == old(agents) - {agentType} && order == Without(old(order), agentType)
      ensures agentType !in old(agents) ==> agents == old(agents) && order == old(order)
    {
      WithoutKeepsDistinct(order, agentType);
      agents := agents - {agentType};
      order := Without(order, agentType);
    }

    /** `unregister_all_agents`. */
    method UnregisterAllAgents()
      modifies this
      ensures Valid() && agents == map[] && order == []
    {
      agents := map[];
      order := [];
    }

    /** Every registered agent has a description (otherwise `description.split` raises). */
    predicate DescriptionsPresent()
      reads this
    {
      forall t :: t in agents ==> agents[t].description.Some?
    }

    /** `get_agent_types_with_description`: one entry per registered type holding the first
        zero words of its description, which is always the empty text. */
    function GetAgentTypesWithDescription(): (r: Result<map<string, string>>)
      reads this
      ensures r.Ok? <==> DescriptionsPresent()
      ensures r.Ok? ==> r.value.Keys == agents.Keys && forall t :: t in r.value ==> r.value[t] == ""
    {
      if DescriptionsPresent() then
        Ok(map t | t in agents :: Join(" ", Split(agents[t].description.value, ' ')[..0]))
      else Err(AttributeError("'NoneType' object has no attribute 'split'"))
    }

    /** The sessions of the registered agents. */
    function SessionObjects(): set<Session>
      reads this, agents.Values
    {
      set t | t in agents && agents[t].session != null :: agents[t].session
    }

    /** What `get_agent_messages` reads of the agent registered under `t`. */
    function EntryOf(t: string): Entry
      reads this, agents.Values, SessionObjects()
      requires t in agents
    {
      var a := agents[t];
      Entry(t, if a.session == null then None else Some(LastNPaired(a.session.messages, 3)))
    }

    /** What `get_agent_messages` reads, agent by agent in the order of `types`. */
    function EntriesOf(types: seq<string>): (r: seq<Entry>)
      reads this, agents.Values, SessionObjects()
      requires forall t :: t in types ==> t in agents
      ensures |r| == |types| && forall i :: 0 <= i < |types| ==> r[i] == EntryOf(types[i])
      decreases |types|
    {
      if types == [] then [] else EntriesOf(types[..|types| - 1]) + [EntryOf(types[|types| - 1])]
    }

    /** The entry of the `i`-th registered agent describes that agent. */
    lemma EntryFacts(entries: seq<Entry>, i: nat)
      requires Valid() && i < |order| && entries == EntriesOf(order)
      ensures order[i] in agents
      ensures entries[i].agentType == agents[order[i]].agentType
      ensures entries[i].recent.Some? <==> agents[order[i]].session != null
      ensures agents[order[i]].session != null ==> entries[i].recent.value == LastNPaired(agents[order[i]].session.messages, 3)
    {
      assert entries[i] == EntryOf(order[i]);
    }

    /** `get_agent_messages`: one block per other agent with a session, in registration order. */
    method GetAgentMessages(agentType: string) returns (text: string)
      requires Valid()
      ensures text == ConversationsText(EntriesOf(order), agentType)
    {
      var entries := EntriesOf(order);
      text := "";
      var i := 0;
      while i < |order|
        invariant 0 <= i <= |order|
        invariant text == ConversationsText(entries[..i], agentType)
      {
        var agent := agents[order[i]];
        assert Contributes(entries[i], agentType) <==> agent.agentType != agentType && agent.session != null by {
          EntryFacts(entries, i);
        }
        assert agent.session != null ==>
          entries[i].agentType == agent.agentType && entries[i].recent == Some(LastNPaired(agent.session.messages, 3)) by {
          EntryFacts(entries, i);
        }
        ghost var block := if Contributes(entries[i], agentType) then ConversationBlock(entries[i].agentType, entries[i].recent.value) else "";
        assert ConversationsText(entries[..i + 1], agentType) == ConversationsText(entries[..i], agentType) + block by {
          ConversationsTextStep(entries, i, agentType);
        }
        if agent.agentType != agentType && agent.session != null {
          var recent := agent.session.GetLastNMessages(3);
          assert recent == entries[i].recent.value;
          text := text + ConversationBlock(agent.agentType, recent);
        }
        i := i + 1;
      }
      assert entries[..|order|] == entries;
    }

    /** `populate_can_contact_for_agents`: every empty contact list becomes the list of all
        registered types (the agent's own included); the others stay. Afterwards no list is
        empty, so a second call changes nothing. */
    method PopulateCanContactForAgents()
      requires Valid()
      modifies agents.Values`canContact
      ensures forall t :: t in agents ==>
        agents[t].canContact == if old(agents[t].canContact) == [] then order else old(agents[t].canContact)
      ensures forall t :: t in agents ==> agents[t].canContact != []
      ensures forall t :: t in agents ==> agents[t].queue == old(agents[t].queue) && agents[t].session == old(agents[t].session)
      ensures forall t :: t in agents ==>
        agents[t].customTools == old(agents[t].customTools) && agents[t].manager == old(agents[t].manager)
    {
      var allTypes := GetAllAgentTypes();
      // The agents in registration order, and their contact lists on entry; `Valid()` makes
      // the agents pairwise distinct, since each one's `agentType` is its own key.
      ghost var objs := seq(|order|, j requires 0 <= j < |order| && order[j] in agents reads this => agents[order[j]]);
      ghost var before := seq(|objs|, j requires 0 <= j < |objs| reads objs => objs[j].canContact);
      assert forall j, k :: 0 <= j < |order| && 0 <= k < |order| && j != k ==> objs[j] != objs[k] by {
        forall j, k | 0 <= j < |order| && 0 <= k < |order| && j != k ensures objs[j] != objs[k] {
          assert objs[j].agentType == order[j] && objs[k].agentType == order[k];
        }
      }
      var i := 0;
      while i < |order|
        invariant 0 <= i <= |order|
        invariant forall j :: 0 <= j < |order| ==>
          objs[j].canContact == if j < i && before[j] == [] then allTypes else before[j]
      {
        var agent := agents[order[i]];
        assert agent == objs[i];
        if agent.canContact == [] {
          agent.canContact := allTypes;
        }
        i := i + 1;
      }
      forall t | t in agents
        ensures agents[t].canContact == if old(agents[t].canContact) == [] then order else old(agents[t].canContact)
        ensures agents[t].canContact != []
      {
        var j :| 0 <= j < |order| && order[j] == t;
        assert objs[j] == agents[t];
      }
    }
  }
}
