/**
 * The three-node agent graph of src/agents.py: the shared state and the
 * framework's merge rule, the Researcher's tool dispatch, the Analyst and the
 * Writer, and the linear edge set Researcher -> Analyst -> Writer -> END.
 * The language models are parameters; only what the code does around them
 * is modelled.
 */
module Agents {
  import opened Wrappers
  import opened Text
  import Retrieval
  import Tools

  // ---------------------------------------------------------------------------
  // Messages and state
  // ---------------------------------------------------------------------------

  datatype Role = System | Human | Assistant

  /** A tool argument: a string, or any other JSON value together with its `str()` rendering. */
  datatype ArgValue = StrArg(s: string) | OtherArg(rendered: string)

  /** Python's `str(value)`. */
  function PyStr(v: ArgValue): string {
    match v
    case StrArg(s) => s
    case OtherArg(rendered) => rendered
  }

  /** One tool call requested by the model: a tool name and its argument dict. */
  datatype ToolCall = ToolCall(name: string, args: map<string, ArgValue>)

  /** A chat message; `toolCalls` is empty unless the model asked for tools. */
  datatype Message = Message(role: Role, content: string, toolCalls: seq<ToolCall>)

  /** One entry of `chart_data`, a dict. */
  datatype ChartItem = ChartItem(fields: map<string, string>)

  /**
   * `AgentState`. A field is `None` when its key is absent from the state dict;
   * `messages` is always present.
   */
  datatype AgentState = AgentState(
    messages: seq<Message>,
    researcherData: Option<seq<string>>,
    chartData: Option<seq<ChartItem>>)

  /** The partial dict a node returns: a key it does not return is `None`. */
  datatype Update = Update(
    messages: Option<seq<Message>>,
    researcherData: Option<seq<string>>,
    chartData: Option<seq<ChartItem>>)

  const NoUpdate := Update(None, None, None)

  /**
   * How the framework folds a node's update into the state: `messages` has
   * the `operator.add` reducer, so returned messages are appended; every other
   * returned key replaces the old value.
   */
  function Merge(s: AgentState, u: Update): AgentState {
    AgentState(
      s.messages + u.messages.GetOr([]),
      if u.researcherData.Some? then u.researcherData else s.researcherData,
      if u.chartData.Some? then u.chartData else s.chartData)
  }

  /**
   * Merging never loses history: the old messages stay a prefix, in order, and
   * what follows them is exactly the update's messages.
   */
  lemma MergeKeepsHistory(s: AgentState, u: Update)
    ensures s.messages <= Merge(s, u).messages
    ensures |Merge(s, u).messages| == |s.messages| + |u.messages.GetOr([])|
    ensures Merge(s, u).messages[|s.messages|..] == u.messages.GetOr([])
  {
  }

  /** An update that returns no key leaves the state as it is. */
  lemma MergeNothing(s: AgentState)
    ensures Merge(s, NoUpdate) == s
  {
  }

  function Last(s: AgentState): Message
    requires s.messages != []
  {
    s.messages[|s.messages| - 1]
  }

  // ---------------------------------------------------------------------------
  // External services
  // ---------------------------------------------------------------------------

  /** The three tools' outside collaborators. */
  datatype Services = Services(
    similaritySearch: Retrieval.SimilaritySearch,
    webSearch: Tools.WebSearch,
    parseFeed: Tools.FeedParser)

  /**
   * `toolModel` is the model with the three tools bound (called with a message
   * list), `model` the plain model (called with a prompt string).
   */
  datatype Env = Env(
    toolModel: seq<Message> -> Message,
    model: string -> Message,
    services: Services)

  // ---------------------------------------------------------------------------
  // Researcher
  // ---------------------------------------------------------------------------

  const SystemInstruction := Message(System, "You are a data gatherer. Use tools when needed.", [])

  /** The model's reply to the system instruction followed by the last message. */
  function ResearcherReply(s: AgentState, env: Env): Message
    requires s.messages != []
  {
    env.toolModel([SystemInstruction, Last(s)])
  }

  /** `str(tool_args.get("query", ""))`. */
  function QueryArg(args: map<string, ArgValue>): string {
    if "query" in args then PyStr(args["query"]) else ""
  }

  /** What the tool selected by exact name answers, or `Unknown tool`. */
  function ToolAnswer(name: string, query: string, services: Services): string {
    if name == "lookup_policy_docs" then Tools.PolicyDocsAnswer(query, services.similaritySearch)
    else if name == "web_search_stub" then Tools.WebSearchOutput(services.webSearch(query, Tools.WebMaxResults))
    else if name == "rss_feed_search" then Tools.RssOutput(query, services.parseFeed)
    else "Unknown tool"
  }

  function Finding(call: ToolCall, services: Services): string {
    "Source: " + call.name + "\nData:\n" + ToolAnswer(call.name, QueryArg(call.args), services)
  }

  /** One finding per requested tool call, in call order. */
  function Findings(calls: seq<ToolCall>, services: Services): seq<string> {
    seq(|calls|, i requires 0 <= i < |calls| => Finding(calls[i], services))
  }

  /** The Researcher's dispatch on the exact tool name. */
  method CallTool(name: string, query: string, services: Services) returns (res: string)
    ensures res == ToolAnswer(name, query, services)
  {
    if name == "lookup_policy_docs" {
      res := Tools.LookupPolicyDocs(query, services.similaritySearch);
    } else if name == "web_search_stub" {
      res := Tools.WebSearchStub(query, services.webSearch);
    } else if name == "rss_feed_search" {
      res := Tools.RssFeedSearch(query, services.parseFeed);
    } else {
      res := "Unknown tool";
    }
  }

  /** The Researcher's loop over the requested tool calls: one finding per call, in call order. */
  method GatherFindings(calls: seq<ToolCall>, services: Services) returns (findings: seq<string>)
    ensures findings == Findings(calls, services)
  {
    findings := [];
    for i := 0 to |calls|
      invariant |findings| == i
      invariant forall j :: 0 <= j < i ==> findings[j] == Finding(calls[j], services)
    {
      var toolCall := calls[i];
      var toolName := toolCall.name;
      var q := QueryArg(toolCall.args);
      var res := CallTool(toolName, q, services);
      var finding := "Source: " + toolName + "\nData:\n" + res;
      assert finding == Finding(toolCall, services);
      findings := findings + [finding];
    }
  }

  /**
   * `researcher_node`: fails (IndexError) on an empty history; otherwise asks
   * the tool-bound model, runs every requested call in order and returns the
   * reply as the one new message and the findings as `researcher_data`.
   */
  method ResearcherNode(s: AgentState, env: Env) returns (r: Result<Update>)
    ensures s.messages == [] <==> r.Err?
    ensures r.Ok? ==> r.value == Update(
      Some([ResearcherReply(s, env)]),
      Some(Findings(ResearcherReply(s, env).toolCalls, env.services)),
      None)
  {
    if s.messages == [] {
      return Err("IndexError: list index out of range");
    }
    var lastMessage := s.messages[|s.messages| - 1];
    var response := env.toolModel([SystemInstruction, lastMessage]);
    var researchFindings: seq<string> := [];
    if response.toolCalls != [] {
      researchFindings := GatherFindings(response.toolCalls, env.services);
    }
    assert researchFindings == Findings(response.toolCalls, env.services);
    r := Ok(Update(Some([response]), Some(researchFindings), None));
  }

  /** A tool name outside the three registered ones yields the fixed fallback finding. */
  lemma UnknownToolFinding(call: ToolCall, services: Services)
    requires call.name !in {"lookup_policy_docs", "web_search_stub", "rss_feed_search"}
    ensures Finding(call, services) == "Source: " + call.name + "\nData:\nUnknown tool"
  {
  }

  /**
   * After the merge the Researcher's reply is the one message appended, the
   * findings replace `researcher_data`, and `chart_data` is untouched.
   */
  lemma ResearcherStep(s: AgentState, env: Env, u: Update)
    requires s.messages != []
    requires u == Update(Some([ResearcherReply(s, env)]), Some(Findings(ResearcherReply(s, env).toolCalls, env.services)), None)
    ensures Merge(s, u).messages == s.messages + [ResearcherReply(s, env)]
    ensures Merge(s, u).researcherData == Some(Findings(ResearcherReply(s, env).toolCalls, env.services))
    ensures |Merge(s, u).researcherData.value| == |ResearcherReply(s, env).toolCalls|
    ensures Merge(s, u).chartData == s.chartData
  {
  }

  // ---------------------------------------------------------------------------
  // Analyst
  // ---------------------------------------------------------------------------

  const AnalystPreamble := "\nYou are a senior analyst.\nExtract trends, patterns, and numeric insights from the data below.\n\n"

  function AnalystPrompt(rawData: string): string {
    AnalystPreamble + rawData + "\n"
  }

  /** The findings joined by a blank line; no findings (or no key) give the empty string. */
  function RawData(s: AgentState): string {
    Join("\n\n", s.researcherData.GetOr([]))
  }

  /** `analyst_node`: one model call, one new message, `chart_data` reset to empty. */
  function AnalystNode(s: AgentState, model: string -> Message): (u: Update)
    ensures u.messages.Some? && |u.messages.value| == 1
    ensures u.researcherData.None? && u.chartData == Some([])
  {
    Update(Some([model(AnalystPrompt(RawData(s)))]), None, Some([]))
  }

  /** The Analyst's prompt holds every finding of the state, unchanged. */
  lemma AnalystPromptHoldsFindings(s: AgentState, k: int)
    requires s.researcherData.Some? && 0 <= k < |s.researcherData.value|
    ensures Contains(AnalystPrompt(RawData(s)), s.researcherData.value[k])
  {
    var finding := s.researcherData.value[k];
    JoinContainsPart("\n\n", s.researcherData.value, k);
    ContainsInSuffix(AnalystPreamble, RawData(s), finding);
    ContainsInPrefix(AnalystPreamble + RawData(s), "\n", finding);
  }

  /** Without findings the Analyst still runs, on the bare preamble. */
  lemma AnalystWithoutFindings(s: AgentState)
    requires s.researcherData.None? || s.researcherData == Some([])
    ensures AnalystPrompt(RawData(s)) == AnalystPreamble + "\n"
  {
  }

  // ---------------------------------------------------------------------------
  // Writer
  // ---------------------------------------------------------------------------

  const WriterPreamble := "\nYou are a newsletter editor.\n\nCompile the analysis into a professional HTML newsletter.\n\nCRITICAL:\n- Preserve all markdown links [Title](URL)\n- Convert them into clickable HTML links:\n  <a href=\"URL\">Title</a>\n\nTRENDS & ANALYSIS:\n"

  function WriterPrompt(insights: string): string {
    WriterPreamble + insights + "\n"
  }

  /** `writer_node`: fails on an empty history, else one model call on the last message's content. */
  function WriterNode(s: AgentState, model: string -> Message): (r: Result<Update>)
    ensures s.messages == [] <==> r.Err?
    ensures r.Ok? ==> r.value.messages.Some? && |r.value.messages.value| == 1
    ensures r.Ok? ==> r.value.researcherData.None? && r.value.chartData.None?
  {
    if s.messages == [] then Err("IndexError: list index out of range")
    else Ok(Update(Some([model(WriterPrompt(Last(s).content))]), None, None))
  }

  /** The Writer sees nothing but the content of the last message. */
  lemma WriterReadsOnlyLastContent(s1: AgentState, s2: AgentState, model: string -> Message)
    requires s1.messages != [] && s2.messages != []
    requires Last(s1).content == Last(s2).content
    ensures WriterNode(s1, model) == WriterNode(s2, model)
  {
  }

  /** The Writer's prompt embeds the insights it was given, unchanged. */
  lemma WriterPromptHoldsInsights(insights: string)
    ensures Contains(WriterPrompt(insights), insights)
  {
    ContainsMiddle(WriterPreamble, insights, "\n");
  }

  // ---------------------------------------------------------------------------
  // The base graph
  // ---------------------------------------------------------------------------

  datatype Node = Researcher | Analyst | Writer | HumanApproval | End

  const BaseEntry := Researcher
  const BaseEdges: set<(Node, Node)> := {(Researcher, Analyst), (Analyst, Writer), (Writer, End)}

  predicate InBaseGraph(n: Node) {
    n == Researcher || n == Analyst || n == Writer
  }

  /** The unique successor of a node of the base graph. */
  function BaseNext(n: Node): (m: Node)
    requires InBaseGraph(n)
    ensures (n, m) in BaseEdges
  {
    match n
    case Researcher => Analyst
    case Analyst => Writer
    case Writer => End
  }

  /** Distance to END along the base edges. */
  function BaseRank(n: Node): nat {
    match n
    case Researcher => 3
    case Analyst => 2
    case Writer => 1
    case _ => 0
  }

  /** The nodes run from `n` until END. */
  function BaseTrace(n: Node): seq<Node>
    requires InBaseGraph(n) || n == End
    decreases BaseRank(n)
  {
    if n == End then [] else [n] + BaseTrace(BaseNext(n))
  }

  /** From the entry point each of the three nodes runs exactly once, in order. */
  lemma BaseRunsEachNodeOnce()
    ensures BaseTrace(BaseEntry) == [Researcher, Analyst, Writer]
    ensures forall n :: InBaseGraph(n) ==> multiset(BaseTrace(BaseEntry))[n] == 1
  {
    assert BaseTrace(End) == [];
    assert BaseTrace(Writer) == [Writer];
    assert BaseTrace(Analyst) == [Analyst, Writer];
    assert BaseTrace(Researcher) == [Researcher, Analyst, Writer];
  }

  /** The state after one run of the base graph, written in closed form. */
  function BaseOutcome(input: AgentState, env: Env): AgentState
    requires input.messages != []
  {
    var reply := ResearcherReply(input, env);
    var findings := Findings(reply.toolCalls, env.services);
    var analysis := env.model(AnalystPrompt(Join("\n\n", findings)));
    var draft := env.model(WriterPrompt(analysis.content));
    AgentState(input.messages + [reply, analysis, draft], Some(findings), Some([]))
  }

  /**
   * One run of the compiled base graph: Researcher, Analyst, Writer along the
   * edges, each update merged before the next node reads the state. The calls
   * follow `BaseTrace(BaseEntry)`, the walk along `BaseNext` from the entry
   * point, which `BaseRunsEachNodeOnce` proves to be exactly this order.
   */
  method RunBase(input: AgentState, env: Env) returns (r: Result<AgentState>)
    ensures input.messages == [] <==> r.Err?
    ensures r.Ok? ==> r.value == BaseOutcome(input, env)
  {
    var researched := ResearcherNode(input, env);
    if researched.Err? {
      return Err(researched.error);
    }
    var s1 := Merge(input, researched.value);
    var s2 := Merge(s1, AnalystNode(s1, env.model));
    var written := WriterNode(s2, env.model);
    r := Ok(Merge(s2, written.value));
  }

  /** The newsletter a base run produces is the Writer's reply to the Analyst's output. */
  lemma BaseOutcomeNewsletter(input: AgentState, env: Env)
    requires input.messages != []
    ensures var out := BaseOutcome(input, env);
      && |out.messages| == |input.messages| + 3
      && out.messages[..|input.messages|] == input.messages
      && Last(out) == env.model(WriterPrompt(out.messages[|out.messages| - 2].content))
  {
  }
}
