/** The `chat_with_agent` tool handed to the language model (mahilo/tools.py): it routes a
    question to a registered agent by name through the global registry. */
module AgentTools {
  import opened Common
  import opened Sessions
  import opened Agents

  /** The confirmation the tool returns once the question is queued. */
  function Confirmation(agentName: string, question: string): string {
    "I have put the question '" + question + "' in the queue for the agent named " + agentName + ". You will hear back soon."
  }

  /** The tool body. `registry` is what `GlobalRegistry.get_agent_registry()` returns (null
      when none was set) and `file` is what activating the target finds on disk. Both error
      replies leave every agent as it was; otherwise the target is activated if it is inactive
      and the question is queued with an empty sender. */
  method ChatWithAgentTool(registry: AgentManager?, agentName: string, question: string, file: SessionFile)
    returns (reply: string)
    requires registry != null ==> registry.Valid()
    modifies if registry != null && agentName in registry.agents then {registry.agents[agentName]} else {}
    ensures registry == null ==> reply == "Error: Agent registry not initialized"
    ensures registry != null && agentName !in registry.agents ==> reply == "Error: Agent '" + agentName + "' not found"
    ensures registry != null && agentName in registry.agents ==>
      var target := old(registry.agents[agentName]);
      reply == Confirmation(agentName, question) &&
      target.queue == old(target.queue) + [": " + question] &&
      target.IsActive() &&
      (old(target.IsActive()) ==> target.session == old(target.session)) &&
      (!old(target.IsActive()) ==>
        (fresh(target.session) && target.session.agentName == agentName &&
         target.session.messages == if file.Lines? then file.messages else [])) &&
      target.canContact == old(target.canContact) && target.customTools == old(target.customTools) &&
      target.manager == old(target.manager)
  {
    if registry == null {
      return "Error: Agent registry not initialized";
    }
    var agent := registry.GetAgent(agentName);
    if agent == null {
      return "Error: Agent '" + agentName + "' not found";
    }
    if !agent.IsActive() {
      agent.Activate(None, file);
    }
    agent.AddMessageToQueue(question, "");
    assert QueueEntry("", question) == ": " + question;
    reply := Confirmation(agentName, question);
  }

  /** The confirmation names the agent and quotes the question. */
  lemma ConfirmationMentions(agentName: string, question: string)
    ensures Contains(Confirmation(agentName, question), question)
    ensures Contains(Confirmation(agentName, question), agentName)
  {
    var c := Confirmation(agentName, question);
    var p := "I have put the question '";
    assert OccursAt(c, question, |p|) by {
      assert c[|p|..|p| + |question|] == question;
    }
    var q := p + question + "' in the queue for the agent named ";
    assert OccursAt(c, agentName, |q|) by {
      assert c[|q|..|q| + |agentName|] == agentName;
    }
  }
}
