# MarCom-Core simulation core in Dafny

MarCom-Core runs marketing simulations. Each agent is a language-model persona.
In every cycle the agents, in roster order, choose to BUY a product, SKIP, or
TALK to another agent, and the core streams the resulting events to a web
backend over gRPC. This project models the deterministic glue around the
text-generation calls and proves properties of it:

- **Retry gate** (`Utils`, utils.py). The chain is invoked again and again
  until a response parses to a mapping that holds every expected field and
  passes an optional check.
- **Agents** (`Agents`, agent.py):
  - the attribute, roster, memory and product renderings;
  - the rewritten description, which joins two gated rewrites;
  - the class-level memory that every `Agent` instance appends to.
- **Simulation** (`Simulations`, simulation.py):
  - the constructor's initialisation events;
  - `proceed_cycle`. Every agent in roster order is sent "Cycle n start" and
    plays its turn. A turn ends on BUY or SKIP. On TALK the loosely formatted
    target id is parsed and looked up, the target is asked to reply, and the
    sender is told the reply and asked again.
- **Registry** (`Servicer`, MarcomCoreServicer.py). This covers the list of
  running simulations and the id → generator map, acted on by
  StartSimulation, PauseSimulation and StreamSimulationUpdates.

The text generator is an oracle everywhere:
- The retry gate gets the finite sequence of outcomes that successive invokes
  would return.
- A simulation's agents share one scripted sequence of replies, consumed in
  call order. Every prompt an agent receives is recorded as a `Call`, so the
  proofs talk about who is asked what, and in which order.
- A rewrite request maps to the outcomes of its own invokes.

`Turn` and `CycleFrom` are the specification functions of the turn loop and of
a cycle. `Simulation.PlayStep`, `Simulation.TakeTurn`, `Simulation.PlayRound` and
`Simulation.PlayCycle` are the imperative loops and loop bodies, proved equal
to them; `Simulation.ProceedCycle` adds the cycle counter.

The code as written behaves as follows in these cases, and the model follows it:
- A TALK target that is a bare non-numeric string such as `"abc"` is not a
  format error. No message is set and no lookup is made, so the sender gets the
  "sends you a message" text back (`Unparsed`).
- Nothing forbids an agent from talking to itself (`SelfTalk`).
- Duplicate agent ids are not rejected. The first match is asked to reply, and
  it is sent the "Agent do not exist in environment" text (`Duplicate`).
- When the generator runs out, the stream does not end cleanly and does not
  remove the simulation. The comprehension in the `StopIteration` handler reads
  a local before it is assigned, so it raises. The list is never shrunk, and
  the generator entry is never deleted (`Raised`).
- A digit-only *string* id is compared unconverted with the int ids, so it
  matches nothing. The empty match list is not `None`, so it is then indexed
  (`EmptyLookup`).

## Model

| member | source | states |
|---|---|---|
| Text.IntToString | simulation.py:42 | `str(n)` is all digits exactly when n is non-negative, which is what decides the `isdigit` branch for an int target |
| Text.NatToStringRoundTrip | simulation.py:50-51 | `int(str(n)) == n` for a natural number: reading back a rendered id gives the id |
| Text.SplitShape | simulation.py:47 | `s.split(':')` has one more piece than there are colons, and no piece holds a colon |
| Text.SplitJoin | simulation.py:47 | joining the pieces of a split with the separator gives back the original string |
| Text.JoinSplit | agent.py:99-100 | splitting a join gives back the pieces when none holds the separator |
| Utils.FirstAccepted | utils.py:13-24 | the returned invocation is acceptable, and every earlier invocation was rejected |
| Utils.JudgeMeaning | utils.py:15-23 | one response is accepted exactly when it parsed to a mapping that holds every expected field and passes the check; a parse fault is an output-parser error; `None` or a missing field is an invalid-JSON error; a failed check is reported only for a mapping holding every field |
| Utils.Accepted | utils.py:18-24 | the accepted response holds every expected field and, when a check is given, passes it |
| Utils.GetChainResponseJson | utils.py:12-30 | the retry loop returns a parsed (never `None`) response that holds every expected field and passes the check; it is the first acceptable response; every earlier one is rejected for the reason the source raises (parse fault, missing field or `None`, failed check) |
| Utils.LenientGate | utils.py:16-24 | with no expected fields and no check, the first response that parsed to any mapping is returned, even an empty one |
| Agents.AttributeString | agent.py:14-15 | the attribute renders as `{key, value}`; key and value can be read back at fixed offsets |
| Agents.AttributeListReadBack | agent.py:24 | when no key or value holds an opening brace, splitting the inside of the bracketed list at `{` gives an empty piece, then every attribute's `key, value}` text, in order, each but the last followed by the separating comma |
| Agents.AttributeListBraces | agent.py:24 | the bracketed list holds exactly one opening brace per attribute, when keys and values hold no brace |
| Agents.GetAgentDescRewrite | agent.py:21-38 | the result is the gated rewrite of the description followed by the gated rewrite of the attribute list, each required to hold "description" |
| Agents.RosterSplit | agent.py:100 | for a non-empty roster, the roster prompt's inner text splits at commas back into one `(agent_id:…)` string per agent, in roster order |
| Agents.AgentPromptStrReadBack | agent.py:112-113 | an agent's `(agent_id:…)` string holds no comma, and the id between the label and the closing parenthesis is all digits exactly when it is non-negative, and then reads back as the id |
| Products.ProductPromptStrReadBack | product.py:19-21 | the product's id, name, description and price each read back from its prompt string after their labels, at offsets fixed by the lengths of the fields before them; a non-negative id reads back as its value |
| Agents.MemoryPromptRoundTrip | agent.py:99 | when there is at least one entry and no entry holds a newline, splitting the memory prompt at newlines gives back the entries; an entry added by `add_cycle_result` may hold newlines, and then this does not hold |
| Agents.AgentClass.constructor | agent.py:71 | the class-level memory starts empty |
| Agents.Agent.constructor | agent.py:73-83 | the agent keeps its id, name, description, attributes and simulation id, and its `sim_desc` is the two-part rewrite |
| Agents.Agent.GetAction | agent.py:94-106 | the action holds every AgentAction field (action, reason, additional_data_id, additional_data_content); it is the gate's first acceptable response for a prompt built from the memory before the call, unchanged; then exactly "Cycle" is appended to the shared memory |
| Agents.Agent.AddCycleResult | agent.py:109-110 | exactly `res` is appended to the shared memory |
| Db.EventTable.Create | db.py:31-37 | creating a SimulationEvent appends exactly that row |
| Simulations.Classify | simulation.py:30-35 | an action name is matched as BUY, SKIP or TALK exactly when it equals that string |
| Simulations.Matches | simulation.py:43 | the match list holds exactly the roster positions whose id equals the target, in roster order |
| Simulations.LookupMeaning | simulation.py:43-45 | the match list is empty exactly when no id equals the target; otherwise its first element is the first match, which is unique when the list has length 1 |
| Simulations.Resolve | simulation.py:42-59 | the resolver of a TALK target: it crashes exactly on a negative int, a format error or an unparsed target comes only from a string, and a resolved or duplicate target is a roster position; each target shape is stated by the lemmas below |
| Simulations.ResolveInt | simulation.py:42-47 | a non-negative int target is looked up by equality; a negative one reaches `.split` on an int |
| Simulations.ResolveDigitString | simulation.py:42-43 | a digit-only string target matches no agent |
| Simulations.ResolveBareName | simulation.py:47-59 | a colon-free, non-digit string sets no message and makes no lookup |
| Simulations.ResolveLabelled | simulation.py:54-57 | `p:q` is looked up as `int(q)` when q is all digits, whatever p is, and is a format error otherwise |
| Simulations.ResolveManyColons | simulation.py:47-49 | a string with two or more colons is a format error |
| Simulations.Render | simulation.py:24-71 | only the opening prompt of a turn starts with "Cycle "; message, reply and not-found prompts start with "Agent " |
| Simulations.TurnStep | simulation.py:28-71 | one pass of the turn loop consumes exactly one scripted reply per answered prompt |
| Simulations.Turn | simulation.py:28-71 | the rest of a turn reads scripted replies from its position on and never past the end of the script; how it ends and what it asks are stated by the lemmas below |
| Simulations.TurnEnds | simulation.py:28-35 | a turn ends only on a BUY or a SKIP, and spins only on a name that is none of BUY, SKIP and TALK |
| Simulations.TurnReplies | simulation.py:28-71 | every prompt of a turn consumes exactly one scripted reply, except an unanswered last one |
| Simulations.TurnShape | simulation.py:28-71 | within a turn only the sender is asked for actions, never with a cycle-opening prompt, and it is the only peer given to a replying agent, which is on the roster |
| Simulations.DecisionEndsTurn | simulation.py:30-34 | a BUY or SKIP ends the turn with no further prompt; a name that is none of BUY, SKIP and TALK leaves the loop spinning |
| Simulations.TalkStep | simulation.py:62-71 | one pass of the loop for a TALK to a uniquely resolved target asks the target to reply to the sender's content, tells the sender the reply, and goes on with the sender's next scripted action |
| Simulations.TalkRelay | simulation.py:62-71 | with a uniquely resolved target, the target is sent "Agent s sends you a message:…", then the sender is sent "Agent t replies you:…", and the turn goes on with the sender's next action |
| Simulations.SelfTalk | simulation.py:43 | an agent may talk to itself: it is asked to reply to its own message |
| Simulations.DigitStringTalkFails | simulation.py:42-45 | a TALK to a digit-only string fails at `agent_to_talk[0]` |
| Simulations.UnknownIdFails | simulation.py:43-45 | a TALK to a non-negative id that no agent has fails at `agent_to_talk[0]` |
| Simulations.NegativeIdFails | simulation.py:42-47 | a TALK to a negative int fails at `.split` |
| Simulations.DuplicateTalk | simulation.py:43-45 | a TALK to an id shared by several agents asks the first of them, with the not-found text |
| Simulations.BareNameReprompts | simulation.py:62-66 | a TALK to a bare name re-asks the sender with the default "sends you a message" text |
| Simulations.CycleFrom | simulation.py:22-72 | a cycle either gives every remaining agent a final action, or stops at one agent whose turn did not end |
| Simulations.CycleStep | simulation.py:24-71 | the turn of one roster entry either stops the cycle at that entry, on a turn that did not end and with no final action, or goes on having consumed at least one reply |
| Simulations.TurnsInRosterOrder | simulation.py:23-26 | the "Cycle n start" prompts go to roster entries 0, 1, … in order, once each, up to the last agent or the one whose turn stopped the cycle |
| Simulations.RoundDecides | simulation.py:30-34 | a cycle goes past an agent only when its turn ended on a BUY or a SKIP |
| Simulations.CycleFinals | simulation.py:30-34 | every final action recorded in a cycle is a BUY or a SKIP |
| Simulations.CycleFinishes | simulation.py:22-34 | a finished cycle gives every agent one final action, each a BUY or a SKIP |
| Simulations.InitEventsShape | simulation.py:16-19 | the constructor writes exactly one row per agent whose init reported a first run, in roster order, each a simulation-level SIMULATION row naming that agent's name and rewritten description, and no other row |
| Simulations.FirstRunsMeaning | simulation.py:16-18 | the positions of the agents whose init reported a first run are listed exactly once each, in increasing order |
| Simulations.ParseTalkTarget | simulation.py:36-63 | the message and match list the TALK branch leaves: a format error sets the format text and no list; an unparsed target leaves the default text; a failed lookup leaves an empty list; a duplicate sets the not-found text; a unique match leaves the default text; an int that is not all digits crashes |
| Simulations.Simulation.constructor | simulation.py:7-19 | the simulation stores its fields, starts at cycle 1 with the paused flag false (the model's choice; see Left out), and appends the initialisation rows in roster order |
| Simulations.Simulation.PlayStep | simulation.py:28-71 | one pass of the turn loop, as imperative code, equals TurnStep |
| Simulations.Simulation.TakeTurn | simulation.py:28-71 | the `while True` loop of one agent equals Turn |
| Simulations.Simulation.PlayRound | simulation.py:24-71 | the loop body for one roster entry, as imperative code, equals CycleStep: the opening prompt, then the agent's turn |
| Simulations.Simulation.PlayCycle | simulation.py:23-71 | the roster loop, as imperative code, equals CycleFrom from the first roster entry |
| Simulations.Simulation.ProceedCycle | simulation.py:22-72 | the cycle's loop equals CycleFrom for the pre-increment cycle number, and the counter goes up by exactly one once every turn ended |
| Servicer.ToUpdate | MarcomCoreServicer.py:107-115 | an update copies the event's type, content, cycle and simulation id; agent id 0 stands for no agent |
| Servicer.Updates | MarcomCoreServicer.py:104-115 | one update per event, in event order |
| Servicer.UpdatesAppend | MarcomCoreServicer.py:104-115 | streaming two runs of events gives their updates in sequence |
| Servicer.Find | MarcomCoreServicer.py:24-27 | the first simulation with the requested id, or none exactly when no listed simulation has it |
| Servicer.BuildAttributes | MarcomCoreServicer.py:37-39 | the attributes of a requested agent, in request order |
| Servicer.BuildProducts | MarcomCoreServicer.py:50-61 | the products of the request, in request order, each tagged with the request's simulation id |
| Servicer.BuildAgents | MarcomCoreServicer.py:35-48 | the agents of the request, in request order, each built from its entry for the request's simulation |
| Servicer.Registry.constructor | MarcomCoreServicer.py:15-19 | the registry starts with no simulation and no generator |
| Servicer.Registry.StartSimulation | MarcomCoreServicer.py:21-75 | a listed id is resumed, with nothing added; a new id appends exactly one simulation built from the request and registers its generator under the id. The new simulation's agents carry every field of their request entry and their gated rewritten description, and its products carry every field of theirs. No listed simulation changes but for its paused flag, and the registry stays consistent |
| Servicer.Registry.PauseSimulation | MarcomCoreServicer.py:77-91 | the first simulation with the id is paused, and no other listed simulation changes; an unknown id changes nothing and gets the "No such simulation" message |
| Servicer.Registry.StreamSimulationUpdates | MarcomCoreServicer.py:93-124 | only the generators and the paused flag of the streamed simulation can change; an unknown id yields nothing and changes nothing; otherwise the updates are those of the first events of the generator, which keeps the rest; a set paused flag stops the stream before any pull; exhaustion raises and removes nothing; the stream itself never sets the flag, which afterwards is set exactly when it was set before or the concurrent pause fell within the events |
| Servicer.Registry.Drain | MarcomCoreServicer.py:104-124 | the stream loop checks the flag before each pull, yields one update per pulled event, and raises when the generator is exhausted; the flag afterwards is set exactly when it was set before or the concurrent pause fell within the events |

## Left out

- The language model, Ollama, `PromptTemplate` and `JsonOutputParser` are not modelled. Scripted outcome sequences stand in for them, and the prompt template text and format instructions are not modelled.
- The calls `proceed_cycle` makes to its agents do not match the `Agent` class in agent.py: `get_action` takes a different argument list, and `get_talk_response` and `init_agent` are missing. So a simulation's agents are a scripted reply sequence, and the memory append of `get_action` is not replayed inside `ProceedCycle`.
- `init_agent` is not modelled. Its first-run result is the `firstRun` parameter of the constructor.
- `pause_simulation`, `resume_simulation`, `paused` and `run_simulation` are not defined in simulation.py. They are modelled as a boolean flag and a finite event sequence, and the event sequence is a parameter of `StartSimulation`. simulation.py never assigns `paused`, so the flag is taken to start false.
- Concurrency between gRPC threads is not modelled. A PauseSimulation served while a stream runs is the `pauseAfter` parameter of the stream.
- Simulations.TurnStep: an action other than BUY, SKIP or TALK makes the source loop forever without a call. The model stops with `Spinning`. A prompt with no scripted reply left stops with `Unanswered`. Both are finite stand-ins for a run that does not end.
- Utils.GetChainResponseJson: requires a script with an acceptable response. Without one the source never returns.
- Simulations.Simulation.ProceedCycle: an exception (`SplitOnInt`, `EmptyLookup`) is a `Stopped` outcome rather than propagating out of the call.
- The text of the two rewrite prompts (`RequestText`) is written out for the record. The rewrite oracle is keyed by the request value, so this text never reaches it and nothing is proved about it.
- The rewrite oracle is a function of the request, so two agents with the same name, description and attributes get the same rewrite. The source invokes the generator separately for each agent. No proof depends on this.
- The rows the constructor writes carry no cycle (`None`). Persistence is not part of this model, so the integer column that the table declares for the cycle, and whatever value it would store for these rows, are not modelled.
- The additional_data_id that the JSON parser hands over is limited to an int or a string. Other JSON values are not modelled.
- `str.isdigit` is modelled for ASCII digits only.
- Product prices and costs are floats in the source. Here they are the text that reaches the prompt.
- The following are not part of this model: researcher.py (web search and report chains), main.py (bootstrap and demo), SimulationServicer.py (a superseded stub), ResearchProductCompetitor, and db.py's persistence, timestamps and AgentInfo/AgentMemory tables.
- `print` calls, logging, and the conversion to and from gRPC messages are not modelled.
