# mahilo, modelled in Dafny

mahilo is a multi-agent framework. Agents register with an `AgentManager` under their type,
queue questions for each other, and keep a session transcript. A FastAPI server forwards queued
messages to the websocket connections of each agent type. Around this core sit:

- a policy engine that screens inter-agent messages: heuristic predicates plus an LLM judge
  whose reply text is parsed;
- a signed message envelope with an in-memory retry broker;
- a SQLite message store;
- an earlier generation of the registry and sessions at the repository root;
- a toy dispatcher server;
- an example property-search tool;
- a terminal client.

This project models that bookkeeping in Dafny and proves what the code promises about it. Each
source file becomes one module:

| file | module | source |
|---|---|---|
| `common.dfy` | `Common` | Option/Result/Failure and the Python string operations used (`strip`, ASCII `lower`/`upper`, `in`, `split`, `join`) |
| `protocol.dfy` | `Protocol` | `mahilo/message_protocol.py` |
| `store.dfy` | `Store` | `mahilo/message_store.py`; the table is a map keyed by `message_id` |
| `policy.dfy` | `Policies` | `mahilo/policy.py` |
| `sessions.dfy` | `Sessions` | `mahilo/session.py` |
| `agents.dfy` | `Agents` | `mahilo/agent.py` and `mahilo/agent_manager.py` |
| `tools.dfy` | `AgentTools` | `mahilo/tools.py` |
| `server.dfy` | `Server` | `mahilo/server.py` |
| `legacy_session.dfy` | `LegacySessions` | `session.py` |
| `legacy_agents.dfy` | `LegacyAgents` | `agent_manager.py` |
| `toy_server.dfy` | `ToyServer` | `server.py` |
| `real_estate.dfy` | `RealEstate` | `examples/real_estate_management/tools.py` |
| `client.dfy` | `Client` | `mahilo/client.py` |

## How the model is built

- Objects whose fields the code updates in place are classes: `PolicyManager`, `MessageBroker`,
  `MessageStore`, `BaseAgent`, `AgentManager`, `Session`, `ServerManager`, `Dispatcher` and
  `MahiloClient`, plus the legacy classes.
- A Python dict whose insertion order matters is a `map` plus an `order: seq` of its keys.
  `Valid()` ties the two together.
- Records and enums are datatypes.
- A Python exception is a `Failure` value returned in place of the result, as `Result`, as
  `Option<Failure>`, or as `null` plus a failure. The state is then left exactly as the code
  leaves it.
- Values from outside arrive as parameters: uuids, clock readings, session-file contents,
  whether credentials or PyAudio are present, and the global registry.
- Collaborators whose behaviour is not in this code are oracles, passed in as function values:
  `SequenceMatcher.ratio`, the judging model, and custom heuristic callables.
- JWT signing is a token that records the claims and the key. Decoding succeeds only with the
  same key, which is the round-trip HS256 guarantees.
- Where the code loops, the model loops: `evaluate_message`, `get_policy`, `get_agent_messages`,
  `populate_can_contact_for_agents`, the delivery tick, the constructor's tool check, and the
  table scans of the store. Each loop is proved against a specification function.

Points where the code behaves in a way worth stating, all modelled as written:

- `get_agent_types_with_description` in `mahilo/agent_manager.py` keeps the first *zero* words
  of each description, so every value is the empty string. It still raises when a registered
  agent has no description.
- `BaseAgent.chat_with_agent` and the legacy `ask_an_agent` reply "... of type X.You will hear
  back soon." with no space after the period. The `chat_with_agent` tool in `mahilo/tools.py`
  has the space.
- In the text endpoint, text for an unregistered type makes `agent.is_active()` raise. Text for
  an active agent calls `agent.process_message(data)`, which mahilo's `BaseAgent` does not
  define, so it raises AttributeError. In both cases the generic handler swallows the
  exception, the receive loop ends, and the connection stays in the table. Only an inactive
  agent's fixed reply is ever sent back.
- A session file path is built with `os.path.join`, so an agent name starting with `/` puts the
  file outside the `sessions` directory.
- The store accepts any state text and any transition. `update_message_state` on a processed
  message can set it back to pending.
- The legacy `register_agent` fills an empty contact list with the types registered *before*
  the agent, so the first agent keeps an empty list. The newer `AgentManager` fills it later
  with all types, the agent's own included.
- `get_last_n_messages(0)` slices `[-0:]`, which is the whole list.
- The voice URL formats a missing agent name as `None`.

## Model

| member | source | states |
|---|---|---|
| Protocol.ParseType | mahilo/message_store.py:186 | `MessageType(text)` succeeds only on a text that is some type's stored value |
| Protocol.ParseTypeValue | mahilo/message_protocol.py:9-13 | reading back a type's stored value gives the same type |
| Protocol.Decode | mahilo/message_protocol.py:61 | decoding succeeds only on a token that was encoded with the same key |
| Protocol.DecodeEncode | mahilo/message_protocol.py:48-52 | decoding with the signing key returns the signed claims; any other key fails |
| Protocol.Create | mahilo/message_protocol.py:29-54 | every field is copied from the arguments; no signature without a non-empty key; with one, the signature covers id and payload and the envelope verifies |
| Protocol.Verify | mahilo/message_protocol.py:56-65 | true exactly when a signature is present, decodes under the key, and carries the envelope's own id and payload |
| Protocol.TamperingBreaksSignature | mahilo/message_protocol.py:46-65 | a signed envelope verifies under its key, and stops verifying when its payload or id changes or the key differs |
| Protocol.WithoutId | mahilo/message_protocol.py:95-98 | never longer than the queue, and keeps no entry with the removed id |
| Protocol.WithoutIdMembers | mahilo/message_protocol.py:95-98 | keeps exactly the entries with another id |
| Protocol.WithoutIdAppend | mahilo/message_protocol.py:95-98 | filtering distributes over concatenation, so the kept entries stay in order |
| Protocol.WithoutAbsentId | mahilo/message_protocol.py:95-98 | filtering an id nobody carries changes nothing |
| Protocol.MessageBroker.constructor | mahilo/message_protocol.py:76-80 | a broker starts with no pending lists and no retry counts |
| Protocol.MessageBroker.PendingFor | mahilo/message_protocol.py:88-90 | observer used by the broker's contracts: the recipient's list, or an empty list for an unknown recipient |
| Protocol.MessageBroker.SendMessage | mahilo/message_protocol.py:82-86 | the envelope goes to the tail of its recipient's list (created if absent); other lists and the retry counts are unchanged |
| Protocol.MessageBroker.AcknowledgeMessage | mahilo/message_protocol.py:92-100 | drops every entry with the id from the recipient's list, in order, and forgets the id's count; an unknown recipient changes nothing |
| Protocol.MessageBroker.HandleFailure | mahilo/message_protocol.py:102-107 | the id's count grows by exactly one from 0; the answer is "retry" while the count is at most 3; pending lists are untouched |
| Protocol.RetryBudgetScenario | mahilo/message_protocol.py:102-107 | on a fresh broker the first three failures ask for a retry and the fourth does not; acknowledging resets the count |
| Store.RowRoundTrip | mahilo/message_store.py:180-192 | the row `save_message` inserts for an envelope has a parsable type column, so rebuilding it cannot raise, and it reads back as the same envelope |
| Store.InsertByTime | mahilo/message_store.py:138 | inserting into a newest-first list keeps it newest first and adds exactly that envelope |
| Store.SortByTimeDesc | mahilo/message_store.py:138 | `ORDER BY timestamp DESC`: newest first, and a permutation of its input |
| Store.MessageStore.constructor | mahilo/message_store.py:61-80 | a new store has an empty table |
| Store.MessageStore.GetMessage | mahilo/message_store.py:103-112 | the stored envelope for a known id, None otherwise |
| Store.MessageStore.GetRetryCount | mahilo/message_store.py:171-178 | the stored count, 0 for an unknown id |
| Store.MessageStore.SaveMessage | mahilo/message_store.py:88-101 | inserts one row with the state and retry count 0, after which `get_message` returns the envelope; a duplicate id fails and leaves the table unchanged |
| Store.MessageStore.Select | mahilo/message_store.py:116-119 | the result holds the envelope of every row the WHERE clause selects exactly once, and nothing else |
| Store.MessageStore.GetPendingMessages | mahilo/message_store.py:114-120 | exactly the pending rows addressed to the recipient, in no promised order |
| Store.MessageStore.GetMessageHistory | mahilo/message_store.py:122-142 | exactly the rows the agent sent or received within the inclusive bounds, newest first |
| Store.MessageStore.SelectionReordered | mahilo/message_store.py:138-142 | reordering a query's result keeps it that query's result |
| Store.MessageStore.UpdateMessageState | mahilo/message_store.py:144-161 | sets state and last retry, and the retry count only when given; an unknown id changes nothing; any transition is accepted; the stored envelope is unchanged |
| Store.MessageStore.CleanupOldMessages | mahilo/message_store.py:163-169 | the cutoff is the local-clock timestamp of now minus the days; a cutoff that raises (OverflowError for more than 999999999 days either way, or a date off the calendar) is returned and deletes nothing; otherwise exactly the processed rows older than the cutoff are deleted and every other row stays as it was |
| Policies.MessageLengthVerdict | mahilo/policy.py:363-375 | fails exactly when the stripped payload is under 10 characters or the payload is over 4000; the too-short reason wins |
| Policies.LastIndexFrom | mahilo/policy.py:322-324 | finds the sender's last entry in the history: a match with no later match, or None when the sender never spoke |
| Policies.AntiLoopVerdict | mahilo/policy.py:304-352 | passes without a history of 4 or more entries; otherwise fails exactly on a repeat of the sender's last message (> 0.8) or an alternating pattern with both similarities > 0.7, the repeat reason first |
| Policies.ExtractReason | mahilo/policy.py:146-147 | a reason exists exactly when "reason:" occurs in any case, and it is a single line |
| Policies.FallbackReason | mahilo/policy.py:155-156 | the joined later lines, stripped, hold no line break |
| Policies.JudgeReplyVerdict | mahilo/policy.py:142-157 | passes exactly on "COMPLIANCE: YES", or on a reply without either marker that starts with "yes"; a failing reply carries a one-line reason, the extracted one after "COMPLIANCE: NO" or the default |
| Policies.EvaluatePolicy | mahilo/policy.py:54-159 | a disabled policy passes; a heuristic policy without a callable raises |
| Policies.ViolationFor | mahilo/policy.py:249-252 | a violation names its policy and always has a reason, "Violated policy: <name>" when none was given |
| Policies.ViolationsAreFailuresBeforeStop | mahilo/policy.py:240-263 | the violations are exactly the failing enabled policies up to the first failing hard-stop policy, in list order |
| Policies.HorizonIsFirstStop | mahilo/policy.py:256-258 | evaluation runs past no earlier failing policy of priority 100 or more |
| Policies.PassesIffNoFailure | mahilo/policy.py:240-263 | the message passes exactly when no enabled policy returns a failing verdict |
| Policies.HardStopIgnoresLater | mahilo/policy.py:256-258 | after a failing policy of priority 100 or more, later policies cannot change the result |
| Policies.SoftFailureContinues | mahilo/policy.py:242-261 | a failing policy below 100 records its violation and evaluation goes on; a disabled, passing or raising policy records nothing |
| Policies.InsertionPoint | mahilo/policy.py:182-184 | where a stable sort places a new policy: after every policy of at least its priority and before the first of lower priority |
| Policies.InsertAtInsertionPoint | mahilo/policy.py:182-184 | inserting into a sorted list places the policy after all of higher or equal priority and keeps the list sorted |
| Policies.SortSortedIsIdentity | mahilo/policy.py:184 | stable sorting of an already sorted list changes nothing |
| Policies.SortAfterAppend | mahilo/policy.py:182-184 | append-then-stable-sort equals inserting at the insertion point, and the result is sorted |
| Policies.WithoutName | mahilo/policy.py:192 | keeps only policies that were in the list |
| Policies.WithoutNameMembers | mahilo/policy.py:192 | a policy survives exactly when it was in the list and has another name |
| Policies.WithoutNameKeepsSorted | mahilo/policy.py:192 | removing by name keeps a list sorted by descending priority sorted |
| Policies.WithoutNameAppend | mahilo/policy.py:192 | filtering distributes over concatenation, so the survivors keep their order |
| Policies.FirstIndexNamed | mahilo/policy.py:203-206 | the first position holding the name, or None when no policy has it |
| Policies.DefaultPolicyOrder | mahilo/policy.py:290-410 | the four defaults evaluate as toxicity, anti_loop, relevance, message_length, and only toxicity is a hard stop |
| Policies.ShortGreetingRejected | mahilo/policy.py:363-383 | the length policy alone rejects "hi" with the too-short reason |
| Policies.PolicyManager.constructor | mahilo/policy.py:164-174 | a manager starts with no policies and no history |
| Policies.PolicyManager.AddPolicy | mahilo/policy.py:176-184 | the list stays sorted by descending priority, and the new policy follows every policy of equal priority |
| Policies.PolicyManager.RemovePolicy | mahilo/policy.py:186-192 | every policy with the name goes, the rest keep their order, and the list stays sorted |
| Policies.PolicyManager.FindPolicy | mahilo/policy.py:203-206 | the loop returns the first position holding the name |
| Policies.PolicyManager.GetPolicy | mahilo/policy.py:194-206 | the first policy with the name, or None exactly when no policy has it |
| Policies.PolicyManager.SetPolicyEnabled | mahilo/policy.py:208-226 | only the first policy with the name changes, and only its flag; an unknown name changes nothing |
| Policies.PolicyManager.EnablePolicy | mahilo/policy.py:208-216 | as `SetPolicyEnabled` with true |
| Policies.PolicyManager.DisablePolicy | mahilo/policy.py:218-226 | as `SetPolicyEnabled` with false |
| Policies.PolicyManager.EvaluateMessage | mahilo/policy.py:228-263 | returns the violations of the walk (skip disabled, stop after a failing hard-stop, pass over raising), appends exactly them to the history, and passes exactly when there are none |
| Sessions.LastN | session.py:58-59 | `[-n:]`: a suffix of length min(n, len) for n >= 1, the whole list for n = 0 |
| Sessions.LastNPaired | mahilo/session.py:67-74 | always a suffix of the transcript |
| Sessions.LastNPairedLength | mahilo/session.py:69-73 | for n >= 1 the length is min(n, len), widened to min(n + 1, len) when that is odd and above one; for n >= 2 with more than n messages it is even (for n = 1 a single message is never widened) |
| Sessions.LastNPairedZero | mahilo/session.py:69-73 | for n = 0 the whole list, except that an odd list longer than one gives only its last message |
| Sessions.PathJoin | mahilo/session.py:30 | `os.path.join`: an absolute second part replaces the first; otherwise the result starts with the first part and ends with a separator and the second part |
| Sessions.SessionPath | mahilo/session.py:27-30 | `os.path.join`: a relative name gives `<dir>/<name>.json` inside `sessions` (or `sessions/<server_id>`); an absolute name gives `<name>.json` alone |
| Sessions.PlainNameInServerDir | mahilo/session.py:27-30 | agent "planner" on server "s1" keeps its file at `sessions/s1/planner.json` |
| Sessions.AbsoluteNameEscapes | mahilo/session.py:30 | agent "/tmp/a" keeps its file at `/tmp/a.json`, outside `sessions` |
| Sessions.Session.constructor | mahilo/session.py:22-40 | the transcript is the file's messages when they load, and empty when the file is absent or fails to load |
| Sessions.Session.AddMessage | mahilo/session.py:53-55 | appends one message at the end; earlier messages are unchanged |
| Sessions.Session.UpdateAndReplaceMessages | mahilo/session.py:58-64 | the transcript becomes the argument |
| Sessions.Session.GetLastNMessages | mahilo/session.py:67-74 | a suffix of the transcript, of length n or n + 1 when there are at least n messages |
| LegacySessions.LoadMessages | session.py:27-31 | an absent file gives no messages and a parsed file gives its lines; an unreadable or unparsable file raises, since nothing catches it |
| LegacySessions.LegacySession.constructor | session.py:21-25 | the session for a type is named after it, is stored in `<type>.json`, and holds the loaded messages |
| LegacySessions.LegacySession.AddMessage | session.py:40-47 | appends one message at the end |
| LegacySessions.LegacySession.UpdateAndReplaceMessages | session.py:49-56 | the transcript becomes the argument |
| LegacySessions.LegacySession.GetLastNMessages | session.py:58-59 | the suffix of length min(n, len) for n >= 1, the whole list for n = 0 |
| Agents.InitialToolsFailure | mahilo/agent.py:54-57 | the constructor's check fails exactly when some supplied tool lacks a name or takes a base tool's name |
| Agents.NewAgent | mahilo/agent.py:47-58 | the loop raises the first offending tool's exception; otherwise a fresh inactive agent with an empty queue and the supplied tools |
| Agents.WithoutTool | mahilo/agent.py:181-182 | keeps exactly the tools with another name |
| Agents.WithoutToolKeepsAllowed | mahilo/agent.py:181-182 | removal keeps every custom tool named and clear of the base names |
| Agents.WithoutToolKeepsDistinct | mahilo/agent.py:181-182 | removal keeps custom tool names distinct |
| Agents.NoMatchingToolRemoved | mahilo/agent.py:181-182 | removing a name no tool has changes nothing |
| Agents.TranscriptLines | mahilo/agent_manager.py:64 | formatter used by the conversation lemmas: one "role: content" line per message, in order |
| Agents.ConversationBlock | mahilo/agent_manager.py:63-65 | a block starts with "Other Conversations: " and ends with a line break |
| Agents.ConversationsEmptyIff | mahilo/agent_manager.py:53-66 | the context text is empty exactly when no other agent has a session |
| Agents.ConversationsIgnoreNonContributors | mahilo/agent_manager.py:59-60 | the caller's own transcript and inactive agents never affect the text |
| Agents.BaseAgent.constructor | mahilo/agent.py:47-58 | a new agent is inactive, unregistered, with an empty queue and the given tools |
| Agents.BaseAgent.Tools | mahilo/agent.py:154-157 | the two base tools followed by the custom tools; raises when the agent is unregistered or a registered agent lacks a description |
| Agents.BaseAgent.GetContactableAgentsWithDescription | mahilo/agent.py:61-63 | exactly the registry's entries for the registered types in the contact list other than the agent's own, so every value is the registry's empty text; raises as `Tools` does |
| Agents.BaseAgent.AddTool | mahilo/agent.py:159-172 | rejects a tool without a name or with a name among the current tools (base names included), leaving the list; otherwise appends exactly it; custom names stay allowed and distinct |
| Agents.BaseAgent.RemoveTool | mahilo/agent.py:174-182 | refuses the base names; otherwise removes every custom tool with the name, keeps the rest in order, and changes nothing for an absent name |
| Agents.BaseAgent.AddMessageToQueue | mahilo/agent.py:569-571 | appends "<sender>: <message>" at the tail; nothing else changes |
| Agents.BaseAgent.Activate | mahilo/agent.py:578-580 | the agent becomes active with a fresh session for its type |
| Agents.BaseAgent.ChatWithAgent | mahilo/agent.py:582-594 | activates an inactive target with a fresh session for its type holding what its file loads, keeps an active target's session, and queues the question with the caller's type as sender; the target's contacts, tools and registry link stay; no registry or an unknown type raises |
| Agents.AgentManager.constructor | mahilo/agent_manager.py:10-11 | a new registry is empty |
| Agents.AgentManager.RegisterAgent | mahilo/agent_manager.py:13-19 | a duplicate type raises ValueError and changes nothing; otherwise the agent is stored under its type, last in order, with its back-link set |
| Agents.AgentManager.GetAgent | mahilo/agent_manager.py:21-35 | not None exactly when the type is registered, and then the agent of that type |
| Agents.AgentManager.GetAllAgentTypes | mahilo/agent_manager.py:25-27 | the registered types in registration order, each once, as many as the map holds |
| Agents.AgentManager.GetAllAgents | mahilo/agent_manager.py:29-31 | the registered agents in registration order, each once |
| Agents.AgentManager.UnregisterAgent | mahilo/agent_manager.py:37-40 | removes only that type; an absent type changes nothing |
| Agents.AgentManager.UnregisterAllAgents | mahilo/agent_manager.py:42-44 | the registry becomes empty |
| Agents.AgentManager.GetAgentTypesWithDescription | mahilo/agent_manager.py:46-50 | one entry per registered type, every value empty; raises when a description is missing |
| Agents.AgentManager.EntriesOf | mahilo/agent_manager.py:59-61 | what the loop reads of each agent, in order |
| Agents.AgentManager.GetAgentMessages | mahilo/agent_manager.py:53-66 | the loop builds the text of one block per other agent with a session, in registration order |
| Agents.AgentManager.PopulateCanContactForAgents | mahilo/agent_manager.py:68-73 | each empty contact list becomes all registered types (own included), others stay; afterwards none is empty, so a second call changes nothing; only contact lists are written, and every agent's queue, session, custom tools and manager are unchanged |
| AgentTools.ChatWithAgentTool | mahilo/tools.py:7-27 | no registry or an unknown name gives the error reply and changes nothing; otherwise an inactive target is activated with a fresh session named after it that holds the loaded file's messages (none when the file is absent or unreadable), an active one keeps its session, ": <question>" is queued, and its contact list, custom tools and manager are unchanged |
| AgentTools.ConfirmationMentions | mahilo/tools.py:24-27 | the confirmation contains both the question and the agent name |
| Server.AfterTick | mahilo/server.py:110-111 | a queue loses exactly its head when the agent is active and has one, and is otherwise unchanged |
| Server.SendsOf | mahilo/server.py:112-117 | at most one send per agent per pass |
| Server.TickDeliveries | mahilo/server.py:109-117 | a pass sends at most one message per agent |
| Server.TickDeliversConnectedHeads | mahilo/server.py:109-117 | a pass sends exactly the heads of the popping agents whose type has connections, to all of them |
| Server.QuietTick | mahilo/server.py:110 | when no agent is active with a queued message, nothing is sent |
| Server.PopHead | mahilo/server.py:110-111 | pops the head exactly under the guard; the session, contact list, custom tools and manager stay |
| Server.DeliverOne | mahilo/server.py:110-117 | one agent's turn: its pop and its send, if any; every field other than the queue stays, the manager included |
| Server.DeliverEach | mahilo/server.py:109-117 | the loop over the agents sends what the specification pass sends, and leaves each agent as after its turn: queue popped under the guard, session, contact list, custom tools and manager unchanged |
| Server.ServerManager.constructor | mahilo/server.py:17-27 | starts with no connections, with every empty contact list filled once; every agent's queue, session, custom tools and manager are unchanged |
| Server.ServerManager.Connect | mahilo/server.py:74-79 | adds the connection under its type, creating the type's map if absent |
| Server.ServerManager.VoiceConnect | mahilo/server.py:33-44 | without credentials it replies with the fixed text and leaves the table; otherwise it registers like `Connect` |
| Server.ServerManager.Disconnect | mahilo/server.py:94-99 | removes the id, and the type once its map is empty, so no type maps to an empty map; a missing key raises KeyError and changes nothing |
| Server.ServerManager.ReceiveText | mahilo/server.py:82-101 | text for an inactive agent gets "Agent <type> is not active." and is not processed; an unknown type raises on `is_active`, and an active agent raises on the missing `process_message`; both end the loop |
| Server.ServerManager.Tick | mahilo/server.py:107-118 | one pass sends exactly `TickDeliveries` of the inboxes before it; every registered agent ends as `TickView` of how it started: its queue as after its turn, its session, contact list, custom tools and manager unchanged |
| LegacyAgents.FirstLine | agent_manager.py:312 | the description up to its first line break, with no line break in it |
| LegacyAgents.LegacyAgent.constructor | agent_manager.py:44-48 | a new agent is inactive, unregistered, with an empty queue |
| LegacyAgents.LegacyAgent.AddMessageToQueue | agent_manager.py:235-237 | appends "<sender>: <message>" at the tail |
| LegacyAgents.LegacyAgent.Activate | agent_manager.py:244-246 | with a readable session file the agent becomes active with a fresh session for its type holding the file's messages; an unreadable file raises and leaves the session as it was; queue, contacts and registry link stay |
| LegacyAgents.LegacyAgent.GetContactableAgentsWithDescription | agent_manager.py:51-53 | exactly the registered types in the contact list other than the agent's own, each mapped to the first line of its description |
| LegacyAgents.LegacyAgent.AskAnAgent | agent_manager.py:248-260 | activates an inactive target with a fresh session for its type holding the file's messages, and queues the question with the caller's type as sender; an inactive target whose session file is unreadable raises before anything is queued and stays inactive; the target's contacts and registry link stay; no registry or an unknown type raises |
| LegacyAgents.LegacyAgentManager.constructor | agent_manager.py:268-269 | a new registry is empty |
| LegacyAgents.LegacyAgentManager.RegisterAgent | agent_manager.py:271-280 | a duplicate raises and changes nothing; otherwise an empty contact list becomes the types registered before, never the agent's own |
| LegacyAgents.LegacyAgentManager.GetAgent | agent_manager.py:282-284 | not None exactly when the type is registered |
| LegacyAgents.LegacyAgentManager.GetAllAgentTypes | agent_manager.py:286-288 | the registered types in registration order, each once |
| LegacyAgents.LegacyAgentManager.GetAllAgents | agent_manager.py:290-292 | the registered agents in registration order |
| LegacyAgents.LegacyAgentManager.UnregisterAgent | agent_manager.py:298-301 | removes only that type; an absent type changes nothing |
| LegacyAgents.LegacyAgentManager.UnregisterAllAgents | agent_manager.py:303-305 | the registry becomes empty |
| LegacyAgents.LegacyAgentManager.GetAgentTypesWithDescription | agent_manager.py:307-312 | one entry per registered type holding the first line of its description (the text before the first line break); raises when a description is missing |
| LegacyAgents.LegacyAgentManager.EntriesOf | agent_manager.py:321-323 | what the loop reads of each agent, in order |
| LegacyAgents.LegacyAgentManager.GetAgentMessages | agent_manager.py:315-328 | one block per other agent with a session, holding its last three messages, in registration order |
| ToyServer.Received | server.py:16-19 | the reply is "<name> received: " followed by the message |
| ToyServer.ChooseAgent | server.py:33-39 | Police exactly when "police" occurs in any case; else Ambulance exactly when "ambulance" does; else Generic |
| ToyServer.LowerIgnoresCase | server.py:28 | lower-casing makes the message's case irrelevant |
| ToyServer.RoutingIgnoresCase | server.py:28-39 | routing and the activation trigger give the same answer for an upper-cased message |
| ToyServer.PoliceBeforeAmbulance | server.py:34-37 | a message naming the police routes there even when it also names an ambulance |
| ToyServer.Dispatcher.constructor | server.py:22-24 | no agent is active at start |
| ToyServer.Dispatcher.ActivateNewAgent | server.py:33-43 | adds exactly the chosen agent under the fresh id; other entries stay |
| ToyServer.Dispatcher.ProcessMessage | server.py:26-31 | with "activate" in any case, one agent is started and named in the reply; otherwise the plain reply and no change |
| ToyServer.Dispatcher.Connect | server.py:58-65 | an unknown id gets "Invalid agent ID"; a known one is greeted with its agent's name |
| ToyServer.Dispatcher.ConnectionLost | server.py:72-73 | the id is dropped, and an absent id is ignored |
| ToyServer.StartAndConnectScenario | server.py:26-73 | after activation the client is greeted by the chosen agent; once the connection is lost the id is refused |
| RealEstate.FilterByLocation | examples/real_estate_management/tools.py:40 | keeps exactly the listings whose location contains the query, ignoring case |
| RealEstate.FilterByLocationAppend | examples/real_estate_management/tools.py:40 | filtering distributes over concatenation, so the kept listings stay in catalogue order |
| RealEstate.SearchProperties | examples/real_estate_management/tools.py:5-42 | the whole catalogue without a location; otherwise exactly the matching listings |
| RealEstate.OtherPreferencesIgnored | examples/real_estate_management/tools.py:38-42 | no key other than "location" affects the result |
| RealEstate.EmptyLocationKeepsAll | examples/real_estate_management/tools.py:39-40 | an empty location keeps the whole catalogue |
| RealEstate.FilterAllMatching | examples/real_estate_management/tools.py:40 | when every listing matches, filtering changes nothing |
| RealEstate.SearchKoramangala | examples/real_estate_management/tools.py:11-42 | "KORAMANGALA" finds prop1 and prop3, in that order |
| RealEstate.LongQueryFindsNothing | examples/real_estate_management/tools.py:11-42 | a query longer than every location finds nothing |
| Client.SeparatorEnd | mahilo/client.py:41 | where the text after the last "://" begins, or 0 without one |
| Client.HostPart | mahilo/client.py:41 | `split('://')[-1]`: a suffix with no separator, preceded by one when the URL has one, and the whole URL when it has none |
| Client.HostOfSchemedUrl | mahilo/client.py:41 | the host part of "scheme://host" is the host |
| Client.HostPartIdempotent | mahilo/client.py:41 | taking the host part twice changes nothing |
| Client.WebsocketUrl | mahilo/client.py:39-43 | "ws://" + host part + "/ws/", then "voice-stream/<name>" for voice, else the name or "main" when it is missing or empty |
| Client.HttpServerUrls | mahilo/client.py:39-43 | an http server URL gives ws://host/ws/name and ws://host/ws/voice-stream/name |
| Client.MahiloClient.constructor | mahilo/client.py:18-26 | a new client is neither connected nor recording |
| Client.MahiloClient.Connect | mahilo/client.py:39-45 | opens the derived URL and becomes connected |
| Client.MahiloClient.SendMessage | mahilo/client.py:70-79 | raises before `connect`; a text client sends the message; a voice client schedules recording unless it is already recording |
| Client.MahiloClient.RecordAndSendAudio | mahilo/client.py:81-86 | a text client gets the RuntimeError; a voice client starts recording |
| Client.MahiloClient.PlayAudio | mahilo/client.py:130-132 | the guard only: a text client gets the RuntimeError, a voice client none |
| Client.NewClient | mahilo/client.py:18-37 | a voice client needs PyAudio (ImportError) and an input device (RuntimeError); a text client needs neither |

## Left out

- The LLM side is not modelled: prompt building, the judge call, `process_chat_message`/`process_queue_message` and their tool-call loops, and the realtime audio relay. The judge's reply enters as the `judge` oracle and only its parsing is modelled.
- `SequenceMatcher.ratio` is an oracle. Only its comparisons with 0.8 and 0.7 are modelled.
- Case-insensitive matching (`lower`, `upper`, the regex IGNORECASE flag) maps ASCII letters only. Python's full Unicode case mapping is not modelled.
- The `REASON:` regex is modelled by its effect: after the first "reason:" in any case, skip whitespace, take the rest of the line, strip it. `\s` is taken to be the `str.isspace` set.
- HS256 signing is a token that records claims and key. Cryptographic strength and the token's text form are not modelled.
- The SQLite database becomes a map. Connections, indexes, `created_at`, and the physical order of rows are not modelled, so `get_pending_messages` promises no order, as the SQL does not.
- Session files are not modelled: reading, JSON encoding, directory creation and `save_messages`. What loading finds is a parameter, and writes are left out.
- Concurrency is not modelled: the endless `while True` loop and its `asyncio.sleep(1)`, FastAPI/uvicorn routes, and message interleaving. One pass of the delivery loop is modelled as `Tick`.
- Websockets are identities: sends are recorded as `Delivery` values. The OpenAI realtime relay of the voice endpoint is not modelled, nor its generic exception handler.
- Tool descriptions and parameter schemas are not modelled, only tool names. `tools_for_realtime` is not modelled.
- `PolicyViolation.timestamp` is left out: its default is evaluated once, at import.
- Policies are values, so a policy object shared by two managers or added twice is not modelled as aliased. `enable_policy` changes the first policy with the name, as the code does.
- `search_properties` reads `preferences["location"]` as a string. Non-string values, which would make `.lower()` raise, are not modelled.
- The shared mutable default `can_contact=[]` is not modelled. Every agent gets its own list value.
- The `BaseAgent` constructor does not reject duplicate custom tool names, and neither does the model: `AddTool` keeps names distinct only when they already were.
- LegacySessions.LegacySession.AddMessage: the legacy `save_messages` (session.py:33-38) has no try, so a failing write raises after the append. File writes are not modelled, and the model always returns normally.
- Store.MessageStore.CleanupOldMessages: local time, daylight saving and the clock itself are not modelled. The cutoff, or the exception computing it raises, is a parameter.
- Sessions.Session.GetLastNMessages: states only the suffix and "n or n + 1" lengths. The exact counts are proved separately, in `Sessions.LastNPairedLength` and `Sessions.LastNPairedZero`.
- Server.ServerManager.Tick, Server.DeliverEach: every `send_text` succeeds. A send that raises (for example on a connection the text endpoint left in the table) ends the background task in the source: the popped message is lost and no later agent or pass is served. Failing sockets are not modelled.
- Agents.InitialToolsFailure, Agents.BaseAgent.AddTool: a tool whose `"name"` key is present but holds None is treated as a tool without a name. The source accepts it in the constructor, and `add_tool` accepts it unless another tool already has no name. Only string names and missing keys are modelled.
- Server.ServerManager.ReceiveText: an agent subclass that defines its own `process_message` is not modelled; no agent class in the repository's `mahilo` package defines one.
- Server.TickDeliveries: states only the bound of one send per agent. Which messages are sent is the content of `Server.TickDeliversConnectedHeads`.
- Client.MahiloClient.Connect: the websocket handshake and the `_listen` task are not modelled.
- `mahilo/registry.py` is not part of this model. The global registry is a nullable parameter of the tool.
- `rich` printing and the `print` logging throughout are not modelled.
