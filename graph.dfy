/** The conversation graph (backend-node/graph/graph.js): a router node
    classifies the last message, at most one domain agent answers, and a
    respond node appends the answer. Node updates are merged into the state
    through the channels' reducers; the agents and the model are function
    parameters. */
module ChatGraph {
  import opened Wrappers
  import opened JsValue
  import IntentRouter

  // ---------------------------------------------------------------------
  // Messages and state
  // ---------------------------------------------------------------------

  datatype Role = Human | Ai

  /** A chat message with text content. */
  datatype ChatMessage = ChatMessage(role: Role, content: string)

  /** `m._getType()`. */
  function TypeName(r: Role): string {
    match r
    case Human => "human"
    case Ai => "ai"
  }

  /** The graph state: the `messages` channel and the three last-value
      channels; `None` is `null` or `undefined`. */
  datatype GraphState = GraphState(
    messages: seq<ChatMessage>,
    intent: Option<string>,
    answer: Option<string>,
    citations: Option<Json>)

  /** What a node returns: `Some` for each key it sets. */
  datatype Update = Update(
    messages: Option<seq<ChatMessage>>,
    intent: Option<Option<string>>,
    answer: Option<Option<string>>,
    citations: Option<Option<Json>>)

  /** `addMessage`: the message is appended and nothing else changes. */
  function AddMessage(state: GraphState, m: ChatMessage): (r: GraphState)
    ensures |r.messages| == |state.messages| + 1 && r.messages[|state.messages|] == m
    ensures r.messages[..|state.messages|] == state.messages
    ensures r.(messages := state.messages) == state
  {
    state.(messages := state.messages + [m])
  }

  /** The `messages` reducer: concatenation, `null`/`undefined` read as []. */
  function Reduce(x: Option<seq<ChatMessage>>, y: Option<seq<ChatMessage>>): (r: seq<ChatMessage>)
    ensures |r| == |x.GetOr([])| + |y.GetOr([])|
    ensures r[..|x.GetOr([])|] == x.GetOr([]) && r[|x.GetOr([])|..] == y.GetOr([])
  {
    x.GetOr([]) + y.GetOr([])
  }

  /** The reducer is associative and has `null` (or []) as identity on
      either side. */
  lemma ReduceMonoid(x: Option<seq<ChatMessage>>, y: Option<seq<ChatMessage>>, z: Option<seq<ChatMessage>>)
    ensures Reduce(Some(Reduce(x, y)), z) == Reduce(x, Some(Reduce(y, z)))
    ensures Reduce(None, y) == y.GetOr([]) && Reduce(x, None) == x.GetOr([])
  {
  }

  /** Merges a node's update into the state: `messages` through the
      reducer, the other channels overwritten when set. */
  function Apply(state: GraphState, u: Update): (r: GraphState)
    ensures u.messages.None? ==> r.messages == state.messages
    ensures u.messages.Some? ==> r.messages == state.messages + u.messages.value
    ensures r.intent == (if u.intent.Some? then u.intent.value else state.intent)
    ensures r.answer == (if u.answer.Some? then u.answer.value else state.answer)
    ensures r.citations == (if u.citations.Some? then u.citations.value else state.citations)
  {
    GraphState(
      if u.messages.Some? then Reduce(Some(state.messages), u.messages) else state.messages,
      if u.intent.Some? then u.intent.value else state.intent,
      if u.answer.Some? then u.answer.value else state.answer,
      if u.citations.Some? then u.citations.value else state.citations)
  }

  // ---------------------------------------------------------------------
  // Nodes
  // ---------------------------------------------------------------------

  /** The text the router classifies: the last message's content, or ""
      when there is none. */
  function UserText(state: GraphState): (t: string)
    ensures state.messages == [] ==> t == ""
    ensures state.messages != [] ==> t == state.messages[|state.messages| - 1].content
  {
    if state.messages == [] then "" else state.messages[|state.messages| - 1].content
  }

  /** `routerNode`: sets only `intent`, to the classification of the last
      message. `reply` is the model's answer to an utterance. */
  function RouterNode(state: GraphState, reply: string -> string, parse: Parser): (u: Update)
    ensures u.messages.None? && u.answer.None? && u.citations.None?
    ensures u.intent == Some(Some(IntentRouter.ClassifyIntent(UserText(state), reply(UserText(state)), parse)))
  {
    var userText := UserText(state);
    Update(None, Some(Some(IntentRouter.ClassifyIntent(userText, reply(userText), parse))), None, None)
  }

  /** One history line: `type: content`. */
  function HistoryEntry(m: ChatMessage): (e: string)
    ensures e == TypeName(m.role) + ": " + m.content
  {
    TypeName(m.role) + ": " + m.content
  }

  /** The history a domain agent receives: one line per message, in order. */
  function History(messages: seq<ChatMessage>): (h: seq<string>)
    ensures |h| == |messages|
    ensures forall i :: 0 <= i < |messages| ==> h[i] == HistoryEntry(messages[i])
  {
    seq(|messages|, i requires 0 <= i < |messages| => HistoryEntry(messages[i]))
  }

  /** What an agent answers: `{answer, citations}`. */
  datatype AgentReply = AgentReply(answer: Option<string>, citations: Option<Json>)

  /** A domain agent, from the question and the history; `None` when it
      rejects. */
  type Agent = (string, seq<string>) -> Option<AgentReply>

  /** The three domain nodes: ask the agent with the last message as the
      question and the history; set `answer` and `citations`. `None` when
      there is no message (reading the last one's content throws) or the
      agent rejects. */
  function DomainNode(state: GraphState, agent: Agent): (u: Option<Update>)
    ensures state.messages == [] ==> u.None?
    ensures state.messages != [] ==>
      var reply := agent(state.messages[|state.messages| - 1].content, History(state.messages));
      (reply.None? ==> u.None?)
      && (reply.Some? ==> u == Some(Update(None, None, Some(reply.value.answer), Some(reply.value.citations))))
  {
    if state.messages == [] then None
    else
      var question := state.messages[|state.messages| - 1].content;
      match agent(question, History(state.messages))
      case None => None
      case Some(reply) => Some(Update(None, None, Some(reply.answer), Some(reply.citations)))
  }

  const Clarify: string := "I'm not sure yet. Could you clarify?"

  /** The answer `respondNode` speaks: `answer ?? Clarify`. */
  function AnswerText(state: GraphState): (a: string)
    ensures state.answer.Some? ==> a == state.answer.value
    ensures state.answer.None? ==> a == Clarify
  {
    state.answer.GetOr(Clarify)
  }

  /** `respondNode`: returns the whole message list with one AI message
      appended, and sets nothing else. */
  function RespondNode(state: GraphState): (u: Update)
    ensures u.intent.None? && u.answer.None? && u.citations.None?
    ensures u.messages.Some?
    ensures |u.messages.value| == |state.messages| + 1
    ensures u.messages.value[..|state.messages|] == state.messages
    ensures u.messages.value[|state.messages|] == ChatMessage(Ai, AnswerText(state))
  {
    Update(Some(state.messages + [ChatMessage(Ai, AnswerText(state))]), None, None, None)
  }

  /** Because `respondNode` returns the full list and the reducer
      concatenates, merging its update repeats the history before the
      answer: old ++ old ++ [answer]. An empty answer is kept as it is. */
  lemma RespondMergeDuplicates(state: GraphState)
    ensures Apply(state, RespondNode(state)).messages
            == state.messages + state.messages + [ChatMessage(Ai, AnswerText(state))]
    ensures |Apply(state, RespondNode(state)).messages| == 2 * |state.messages| + 1
    ensures state.answer == Some("") ==> Apply(state, RespondNode(state)).messages[2 * |state.messages|].content == ""
    ensures Apply(state, RespondNode(state)).(messages := state.messages) == state
  {
    var u := RespondNode(state);
    assert u.messages.value == state.messages + [ChatMessage(Ai, AnswerText(state))];
  }

  // ---------------------------------------------------------------------
  // Topology
  // ---------------------------------------------------------------------

  datatype Node = Start | Router | Name | Bank | Insurance | Respond | End

  /** The router's conditional edge. */
  function Route(intent: Option<string>): (n: Node)
    ensures n == Name <==> intent == Some("name_change")
    ensures n == Bank <==> intent == Some("bank_account_change")
    ensures n == Insurance <==> intent == Some("insurance_product")
    ensures n == Respond <==> intent !in {Some("name_change"), Some("bank_account_change"), Some("insurance_product")}
  {
    match intent
    case Some("name_change") => Name
    case Some("bank_account_change") => Bank
    case Some("insurance_product") => Insurance
    case _ => Respond
  }

  predicate IsDomain(n: Node) {
    n == Name || n == Bank || n == Insurance
  }

  /** The edges: START to the router, the router's conditional edge, each
      domain node to respond, respond to END. */
  function Successor(n: Node, intent: Option<string>): Node {
    match n
    case Start => Router
    case Router => Route(intent)
    case Name => Respond
    case Bank => Respond
    case Insurance => Respond
    case Respond => End
    case End => End
  }

  /** Distance to END; every edge but END's shortens it. */
  function Rank(n: Node): nat {
    match n
    case Start => 4
    case Router => 3
    case Name => 2
    case Bank => 2
    case Insurance => 2
    case Respond => 1
    case End => 0
  }

  /** The nodes visited from `n` up to END, following the edges with the
      intent the router set. */
  function Visit(n: Node, intent: Option<string>): (p: seq<Node>)
    decreases Rank(n)
  {
    if n == End then [End]
    else
      var next := Successor(n, intent);
      assert Rank(next) < Rank(n);
      [n] + Visit(next, intent)
  }

  /** Every run goes START, router, at most one domain node (the one the
      intent names), respond, END. */
  lemma {:induction false} RunVisits(intent: Option<string>)
    ensures var p := Visit(Start, intent);
      && p == [Start, Router] + (if IsDomain(Route(intent)) then [Route(intent)] else []) + [Respond, End]
      && 4 <= |p| <= 5
      && (forall i :: 0 <= i < |p| && IsDomain(p[i]) ==> i == 2 && p[i] == Route(intent))
  {
    var r := Route(intent);
    assert Visit(Respond, intent) == [Respond, End];
    if IsDomain(r) {
      assert Visit(r, intent) == [r, Respond, End];
    }
    assert Visit(Router, intent) == [Router] + Visit(r, intent);
  }

  // ---------------------------------------------------------------------
  // A whole run
  // ---------------------------------------------------------------------

  /** The agents of the three domain nodes. */
  datatype Agents = Agents(nameChange: Agent, bankAccountChange: Agent, insuranceProduct: Agent)

  function AgentFor(agents: Agents, n: Node): Agent
    requires IsDomain(n)
  {
    match n
    case Name => agents.nameChange
    case Bank => agents.bankAccountChange
    case Insurance => agents.insuranceProduct
  }

  /** `graph.invoke({messages})`: the input goes through the reducer, then
      router, the routed domain node if any, and respond. `None` when a
      domain node throws. */
  function Invoke(input: seq<ChatMessage>, reply: string -> string, parse: Parser, agents: Agents): Option<GraphState>
  {
    var s0 := GraphState(Reduce(None, Some(input)), None, None, None);
    var s1 := Apply(s0, RouterNode(s0, reply, parse));
    var next := Route(s1.intent);
    var s2 := if IsDomain(next) then
                match DomainNode(s1, AgentFor(agents, next))
                case None => None
                case Some(u) => Some(Apply(s1, u))
              else Some(s1);
    if s2.None? then None else Some(Apply(s2.value, RespondNode(s2.value)))
  }

  /** A completed run ends with the input twice and then the one answer:
      the agent's answer for the routed domain, or the clarification when
      the intent routes straight to respond. The intent is always one of
      the router's four. */
  lemma InvokeResult(input: seq<ChatMessage>, reply: string -> string, parse: Parser, agents: Agents)
    requires Invoke(input, reply, parse, agents).Some?
    ensures var r := Invoke(input, reply, parse, agents).value;
      var text := UserText(GraphState(input, None, None, None));
      var intent := IntentRouter.ClassifyIntent(text, reply(text), parse);
      && r.intent == Some(intent)
      && intent in IntentRouter.Intents
      && |r.messages| == 2 * |input| + 1
      && r.messages[..|input|] == input
      && r.messages[|input|..2 * |input|] == input
      && r.messages[2 * |input|].role == Ai
      && (!IsDomain(Route(Some(intent))) ==> r.messages[2 * |input|].content == Clarify && r.answer.None?)
      && (IsDomain(Route(Some(intent))) ==>
            input != []
            && var a := AgentFor(agents, Route(Some(intent)))(input[|input| - 1].content, History(input));
            && a.Some? && r.answer == a.value.answer && r.citations == a.value.citations
            && r.messages[2 * |input|].content == a.value.answer.GetOr(Clarify))
  {
    var s0 := GraphState(Reduce(None, Some(input)), None, None, None);
    assert s0.messages == input;
    var s1 := Apply(s0, RouterNode(s0, reply, parse));
    var next := Route(s1.intent);
    if IsDomain(next) {
      var s2 := Apply(s1, DomainNode(s1, AgentFor(agents, next)).value);
      RespondMergeDuplicates(s2);
    } else {
      RespondMergeDuplicates(s1);
    }
  }
}
