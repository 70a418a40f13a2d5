/**
 * agent.py: the string renderings that go into prompts, the description
 * rewrite obtained through the retry gate, and the Agent class whose memory is
 * a single class-level list shared by every instance.
 */
module Agents {
  import opened Wrappers
  import opened Text
  import opened Utils
  import opened Products

  /** AgentAttribute: a key/value pair describing an agent. */
  datatype Attribute = Attribute(key: string, value: string)

  /**
   * AgentAttribute.string: the pair in braces, separated by a comma and a space.
   * The key and the value can be read back at fixed offsets.
   */
  function AttributeString(a: Attribute): (r: string)
    ensures |r| == |a.key| + |a.value| + 4
    ensures r[0] == '{' && r[|r| - 1] == '}'
    ensures r[1..|a.key| + 1] == a.key
    ensures r[|a.key| + 1..|a.key| + 3] == ", "
    ensures r[|a.key| + 3..|r| - 1] == a.value
  {
    "{" + a.key + ", " + a.value + "}"
  }

  function AttributeStrings(attrs: seq<Attribute>): seq<string> {
    seq(|attrs|, i requires 0 <= i < |attrs| => AttributeString(attrs[i]))
  }

  /** kvInStr of get_agent_desc_rewrite: the attribute strings comma-joined in brackets. */
  function AttributeList(attrs: seq<Attribute>): (r: string)
    ensures |r| >= 2 && r[0] == '[' && r[|r| - 1] == ']'
  {
    "[" + Join(AttributeStrings(attrs), ",") + "]"
  }

  lemma AttributeStringBrace(a: Attribute)
    requires '{' !in a.key && '{' !in a.value
    ensures Count(AttributeString(a), '{') == 1
  {
    CountAbsent(a.key, '{');
    CountAbsent(a.value, '{');
    CountAppend("{" + a.key + ", " + a.value, "}", '{');
    CountAppend("{" + a.key + ", ", a.value, '{');
    CountAppend("{" + a.key, ", ", '{');
    CountAppend("{", a.key, '{');
  }

  lemma {:induction false} JoinedBraces(attrs: seq<Attribute>)
    requires forall i :: 0 <= i < |attrs| ==> '{' !in attrs[i].key && '{' !in attrs[i].value
    ensures Count(Join(AttributeStrings(attrs), ","), '{') == |attrs|
  {
    var strs := AttributeStrings(attrs);
    if |attrs| == 1 {
      AttributeStringBrace(attrs[0]);
    } else if |attrs| > 1 {
      AttributeStringBrace(attrs[0]);
      JoinedBraces(attrs[1..]);
      assert AttributeStrings(attrs[1..]) == strs[1..];
      CountAppend(strs[0] + ",", Join(strs[1..], ","), '{');
      CountAppend(strs[0], ",", '{');
    }
  }

  /**
   * Each attribute contributes exactly one opening brace to the rendered list
   * (one opening brace per attribute), provided no key or value holds a brace.
   */
  lemma AttributeListBraces(attrs: seq<Attribute>)
    requires forall i :: 0 <= i < |attrs| ==> '{' !in attrs[i].key && '{' !in attrs[i].value
    ensures Count(AttributeList(attrs), '{') == |attrs|
  {
    var j := Join(AttributeStrings(attrs), ",");
    JoinedBraces(attrs);
    CountAppend("[" + j, "]", '{');
    CountAppend("[", j, '{');
  }

  /**
   * The attribute list reads back: when no key or value holds an opening
   * brace, splitting the inside of the brackets at '{' gives an empty piece,
   * then each attribute's string without its brace, in order, followed by the
   * comma that separates it from the next.
   */
  lemma AttributeListReadBack(attrs: seq<Attribute>)
    requires forall i :: 0 <= i < |attrs| ==> '{' !in attrs[i].key && '{' !in attrs[i].value
    ensures var r := AttributeList(attrs); var pieces := Split(r[1..|r| - 1], '{');
      && |pieces| == |attrs| + 1 && pieces[0] == ""
      && forall i :: 0 <= i < |attrs| ==>
           pieces[i + 1] == AttributeString(attrs[i])[1..] + (if i + 1 < |attrs| then "," else "")
  {
    var bodies := seq(|attrs|, i requires 0 <= i < |attrs| => AttributeString(attrs[i])[1..]);
    forall i | 0 <= i < |attrs| ensures '{' !in bodies[i] && AttributeStrings(attrs)[i] == ['{'] + bodies[i] {
      var a := attrs[i];
      assert bodies[i] == a.key + ", " + a.value + "}";
    }
    assert AttributeStrings(attrs) == Led(bodies, '{');
    SplitLed(bodies, '{', ',');
    var r := AttributeList(attrs);
    assert r[1..|r| - 1] == Join(AttributeStrings(attrs), ",");
  }

  /** The two requests get_agent_desc_rewrite sends to the rewrite generator. */
  datatype RewriteRequest =
    | RewriteDescription(name: string, desc: string) // the third-person description, to be retold in second person
    | RewriteAttributes(attrs: seq<Attribute>)       // the attribute list, to be told as a second-person paragraph

  /**
   * The action text of a request, written out for the record: the rewrite
   * oracle is keyed by the request itself, so this text does not reach it.
   */
  function RequestText(req: RewriteRequest): string {
    match req
    case RewriteDescription(name, desc) =>
      "Given description about the agent " + name + " in third person view: " + desc
      + ", rewrite it so that it provides context about an agent that is in a simulation, "
      + "hinting there are other agents in the simulation, starting with 'You are in a "
      + "simulation with other agents as " + name + "', write it in second person point of view in a short paragraph and be concise"
    case RewriteAttributes(attrs) =>
      "Given the following {key,value} pairs in a list " + AttributeList(attrs)
      + ", write a paragraph in a second person point of view, try to fit everything in a short "
      + "paragraph, be concise"
  }

  /** The one field a rewrite response must hold. */
  const RewriteFields: seq<string> := ["description"]

  /**
   * The rewrite generator answers both requests eventually. `rewriter` gives, for
   * each request, the responses the chain returns on successive invokes.
   */
  predicate RewriteAnswers(rewriter: RewriteRequest -> seq<Outcome<string>>, name: string, desc: string, attrs: seq<Attribute>) {
    && Answers(rewriter(RewriteDescription(name, desc)), RewriteFields, None)
    && Answers(rewriter(RewriteAttributes(attrs)), RewriteFields, None)
  }

  /**
   * get_agent_desc_rewrite, returning the one "description" value of its result:
   * the rewrite of the description followed by the rewrite of the attributes, each
   * the description field of the first response that holds one.
   */
  method GetAgentDescRewrite(name: string, desc: string, attrs: seq<Attribute>, rewriter: RewriteRequest -> seq<Outcome<string>>)
    returns (r: string)
    requires RewriteAnswers(rewriter, name, desc, attrs)
    ensures r == Accepted(rewriter(RewriteDescription(name, desc)), RewriteFields, None)["description"]
               + Accepted(rewriter(RewriteAttributes(attrs)), RewriteFields, None)["description"]
  {
    var resDesc, _ := GetChainResponseJson(rewriter(RewriteDescription(name, desc)), RewriteFields, None);
    var res, _ := GetChainResponseJson(rewriter(RewriteAttributes(attrs)), RewriteFields, None);
    r := resDesc["description"] + res["description"];
  }

  /** The fields of AgentAction in declaration order: the fields get_action requires. */
  const ActionFields: seq<string> := ["action", "reason", "additional_data_id", "additional_data_content"]

  /** Agent.to_prompt_str for an agent with this id. */
  function AgentPromptStr(id: int): string {
    "(agent_id:" + IntToString(id) + ")"
  }

  /**
   * An agent's prompt string holds no comma, and the id reads back from
   * between "(agent_id:" and the closing parenthesis: it is all digits exactly
   * when the id is non-negative, and then its value is the id.
   */
  lemma AgentPromptStrReadBack(id: int)
    ensures var r := AgentPromptStr(id); var inner := r[10..|r| - 1];
      && |r| > 11 && r[..10] == "(agent_id:" && r[|r| - 1] == ')' && ',' !in r
      && (IsDigits(inner) <==> id >= 0)
      && (id >= 0 ==> DigitsValue(inner) == id)
  {
    var r := AgentPromptStr(id);
    var n := IntToString(id);
    assert r[10..|r| - 1] == n;
    assert ',' !in n;
    if id >= 0 {
      NatToStringRoundTrip(id);
    }
  }

  function AgentStrings(ids: seq<int>): seq<string> {
    seq(|ids|, i requires 0 <= i < |ids| => AgentPromptStr(ids[i]))
  }

  /** The roster prompt: the agents' prompt strings comma-joined in brackets. */
  function Roster(ids: seq<int>): string {
    "[" + Join(AgentStrings(ids), ",") + "]"
  }

  /** Splitting the inside of the roster at commas gives back one prompt string per agent, in order. */
  lemma RosterSplit(ids: seq<int>)
    requires |ids| > 0
    ensures var r := Roster(ids); Split(r[1..|r| - 1], ',') == AgentStrings(ids)
  {
    var strs := AgentStrings(ids);
    forall i | 0 <= i < |strs| ensures ',' !in strs[i] {
      AgentPromptStrReadBack(ids[i]);
    }
    JoinSplit(strs, ',');
    var r := Roster(ids);
    assert r[1..|r| - 1] == Join(strs, [',']);
  }

  /** The memory prompt: the entries joined by newlines. */
  function MemoryPrompt(memory: seq<string>): string {
    Join(memory, "\n")
  }

  /** The memory prompt loses nothing: splitting at newlines gives the entries back. */
  lemma MemoryPromptRoundTrip(memory: seq<string>)
    requires |memory| > 0
    requires forall i :: 0 <= i < |memory| ==> '\n' !in memory[i]
    ensures Split(MemoryPrompt(memory), '\n') == memory
  {
    JoinSplit(memory, '\n');
  }

  function ProductStrings(products: seq<Product>): seq<string> {
    seq(|products|, i requires 0 <= i < |products| => ProductPromptStr(products[i]))
  }

  /** The four inputs of the action prompt. */
  datatype ActionInput = ActionInput(systemPrompt: string, memory: string, agents: string, products: string)

  function ActionInputFor(envDesc: string, simDesc: string, memory: seq<string>, agentIds: seq<int>, products: seq<Product>): ActionInput {
    ActionInput(envDesc + "\n" + simDesc, MemoryPrompt(memory), Roster(agentIds), "[" + Join(ProductStrings(products), ",") + "]")
  }

  /** The class-level state of Agent: the one memory list that every instance appends to. */
  class AgentClass {
    var memory: seq<string>

    constructor ()
      ensures memory == []
    {
      memory := [];
    }
  }

  class Agent {
    const id: int
    const name: string
    const desc: string
    const attrs: seq<Attribute>
    const simulationId: int
    /** The rewritten second-person description, computed once at construction. */
    const simDesc: string
    /** The class this agent is an instance of; its memory is shared. */
    const cls: AgentClass

    constructor (id: int, name: string, desc: string, attrs: seq<Attribute>, simulationId: int,
                 cls: AgentClass, rewriter: RewriteRequest -> seq<Outcome<string>>)
      requires RewriteAnswers(rewriter, name, desc, attrs)
      ensures this.id == id && this.name == name && this.desc == desc && this.attrs == attrs
      ensures this.simulationId == simulationId && this.cls == cls
      ensures simDesc == Accepted(rewriter(RewriteDescription(name, desc)), RewriteFields, None)["description"]
                         + Accepted(rewriter(RewriteAttributes(attrs)), RewriteFields, None)["description"]
    {
      this.id := id;
      this.name := name;
      this.desc := desc;
      this.attrs := attrs;
      this.simulationId := simulationId;
      var d := GetAgentDescRewrite(name, desc, attrs, rewriter);
      this.simDesc := d;
      this.cls := cls;
    }

    /**
     * get_action: the gate's first response holding every AgentAction field,
     * returned unchanged, for a prompt built from the memory as it was before
     * the call; then the literal "Cycle" is appended to the shared memory.
     */
    method GetAction<V>(envDesc: string, products: seq<Product>, agents: seq<Agent>, respond: ActionInput -> seq<Outcome<V>>)
      returns (action: map<string, V>)
      requires Answers(respond(ActionInputFor(envDesc, simDesc, cls.memory, Ids(agents), products)), ActionFields, None)
      modifies cls
      ensures forall f :: f in ActionFields ==> f in action
      ensures action == Accepted(respond(ActionInputFor(envDesc, simDesc, old(cls.memory), Ids(agents), products)), ActionFields, None)
      ensures cls.memory == old(cls.memory) + ["Cycle"]
    {
      var input := ActionInput(envDesc + "\n" + simDesc, Join(cls.memory, "\n"),
                               "[" + Join(AgentStrings(Ids(agents)), ",") + "]",
                               "[" + Join(ProductStrings(products), ",") + "]");
      assert input == ActionInputFor(envDesc, simDesc, cls.memory, Ids(agents), products);
      var rejected;
      action, rejected := GetChainResponseJson(respond(input), ActionFields, None);
      cls.memory := cls.memory + ["Cycle"];
    }

    /** add_cycle_result: appends one entry to the shared memory. */
    method AddCycleResult(res: string)
      modifies cls
      ensures cls.memory == old(cls.memory) + [res]
    {
      cls.memory := cls.memory + [res];
    }
  }

  /** The ids of a roster, in roster order. */
  function Ids(agents: seq<Agent>): (ids: seq<int>)
    ensures |ids| == |agents| && forall i :: 0 <= i < |agents| ==> ids[i] == agents[i].id
  {
    seq(|agents|, i requires 0 <= i < |agents| => agents[i].id)
  }
}
