/** The prototype dispatcher server (server.py at the repository root): a dispatcher that
    answers every message, starts a new agent when asked to, and lets clients talk to a
    started agent by id over a websocket. */
module ToyServer {
  import opened Common

  /** `Agent.process_message`: the agent's fixed acknowledgement (the simulated delay is not
      modelled). */
  function Received(agentName: string, message: string): (r: string)
    ensures StartsWith(r, agentName + " received: ")
    ensures r[|agentName + " received: "|..] == message
  {
    agentName + " received: " + message
  }

  /** `activate_new_agent`'s choice of agent: "police" wins over "ambulance", and a message
      with neither gets a generic agent. Both tests ignore case. */
  function ChooseAgent(message: string): (name: string)
    ensures name == "Police" <==> Contains(Lower(message), "police")
    ensures name == "Ambulance" <==> !Contains(Lower(message), "police") && Contains(Lower(message), "ambulance")
    ensures name == "Generic" <==> !Contains(Lower(message), "police") && !Contains(Lower(message), "ambulance")
  {
    if Contains(Lower(message), "police") then "Police"
    else if Contains(Lower(message), "ambulance") then "Ambulance"
    else "Generic"
  }

  /** `message.lower()` does not depend on the case the message was written in. */
  lemma {:induction false} LowerIgnoresCase(message: string)
    ensures Lower(Upper(message)) == Lower(message)
  {
    forall i | 0 <= i < |message|
      ensures Lower(Upper(message))[i] == Lower(message)[i]
    {
      var c := message[i];
      assert Upper(message)[i] == UpperChar(c);
      if 'a' <= c <= 'z' {
        assert LowerChar(UpperChar(c)) == c;
      }
    }
  }

  /** The routing and the activation trigger read the message without regard to case. */
  lemma RoutingIgnoresCase(message: string)
    ensures ChooseAgent(Upper(message)) == ChooseAgent(message)
    ensures Contains(Lower(Upper(message)), "activate") == Contains(Lower(message), "activate")
  {
    LowerIgnoresCase(message);
  }

  /** A message that names the police routes to the police even when it also names an
      ambulance. */
  lemma PoliceBeforeAmbulance(message: string)
    requires Contains(Lower(message), "police")
    ensures ChooseAgent(message) == "Police"
    ensures ChooseAgent(message + " ambulance") == "Police"
  {
    var m := Lower(message);
    var m2 := Lower(message + " ambulance");
    var k := IndexOf(m, "police").value;
    assert m2[..|m|] == m;
    assert m2[k..k + 6] == m[k..k + 6];
    assert OccursAt(m2, "police", k);
  }

  /** The dispatcher and the agents it started, by id. Only an agent's name is ever read, so
      each entry holds the name. */
  class Dispatcher {
    var activeAgents: map<string, string>

    constructor ()
      ensures activeAgents == map[]
    {
      activeAgents := map[];
    }

    /** `activate_new_agent`: starts the agent the message asks for under the fresh id
        `newId` (a uuid4) and returns its name. */
    method ActivateNewAgent(message: string, newId: string) returns (name: string)
      modifies this
      ensures name == ChooseAgent(message)
      ensures activeAgents == old(activeAgents)[newId := name]
    {
      name := ChooseAgent(message);
      activeAgents := activeAgents[newId := name];
    }

    /** `Dispatcher.process_message`: the dispatcher's acknowledgement, followed by the name of
        the new agent when the message mentions "activate" in any case. `newId` is the uuid
        used if an agent is started. */
    method ProcessMessage(message: string, newId: string) returns (response: string)
      modifies this
      ensures Contains(Lower(message), "activate") ==>
        response == Received("Dispatcher", message) + "\nActivated new agent: " + ChooseAgent(message) &&
        activeAgents == old(activeAgents)[newId := ChooseAgent(message)]
      ensures !Contains(Lower(message), "activate") ==>
        response == Received("Dispatcher", message) && activeAgents == old(activeAgents)
    {
      response := Received("Dispatcher", message);
      if Contains(Lower(message), "activate") {
        var name := ActivateNewAgent(message, newId);
        response := response + "\nActivated new agent: " + name;
      }
    }

    /** The opening of `agent_websocket`: an unknown id is told so and the socket closed
        (None); a known id is greeted with the agent's name, which later replies use. */
    method Connect(agentId: string) returns (greeting: string, agentName: Option<string>)
      ensures agentId !in activeAgents ==> greeting == "Invalid agent ID" && agentName == None
      ensures agentId in activeAgents ==>
        agentName == Some(activeAgents[agentId]) && greeting == "Connected to " + activeAgents[agentId]
    {
      if agentId !in activeAgents {
        return "Invalid agent ID", None;
      }
      var name := activeAgents[agentId];
      greeting := "Connected to " + name;
      agentName := Some(name);
    }

    /** The bare `except` around the receive loop: the agent is dropped from the table, and an
        id already gone is ignored. */
    method ConnectionLost(agentId: string)
      modifies this
      ensures activeAgents == old(activeAgents) - {agentId}
      ensures agentId !in activeAgents
    {
      activeAgents := activeAgents - {agentId};
    }
  }

  /** Starting an agent and connecting to it greets the client with the chosen agent's name,
      and once the connection is lost the id is refused. */
  method StartAndConnectScenario(message: string, newId: string)
    returns (greeting: string, later: string)
    requires Contains(Lower(message), "activate")
    ensures greeting == "Connected to " + ChooseAgent(message)
    ensures later == "Invalid agent ID"
  {
    var dispatcher := new Dispatcher();
    var response := dispatcher.ProcessMessage(message, newId);
    var name;
    greeting, name := dispatcher.Connect(newId);
    dispatcher.ConnectionLost(newId);
    later, name := dispatcher.Connect(newId);
  }
}
