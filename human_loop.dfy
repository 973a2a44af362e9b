/**
 * The human-in-the-loop variant of the graph (src/phase4_human_loop.py):
 * Writer hands over to a pass-through approval node, execution is suspended
 * before that node, and on resume a router either ends the run or sends it
 * back to the Writer. The command-line driver contributes its exact
 * `approve` test and the feedback message it injects.
 */
module HumanLoop {
  import opened Wrappers
  import opened Text
  import opened Agents

  // ---------------------------------------------------------------------------
  // The approval node
  // ---------------------------------------------------------------------------

  /** `human_approval_node` as written: it returns the state it was given. */
  function HumanApprovalNode(s: AgentState): AgentState {
    s
  }

  /** A whole state returned by a node is an update that carries every key of it. */
  function StateAsUpdate(s: AgentState): Update {
    Update(Some(s.messages), s.researcherData, s.chartData)
  }

  /**
   * Returning the whole state from the approval node feeds the full history
   * back through the `operator.add` reducer, so the history is doubled: the
   * node is not the no-op it is meant to be.
   */
  lemma HumanApprovalDoublesHistory(s: AgentState)
    ensures Merge(s, StateAsUpdate(HumanApprovalNode(s))).messages == s.messages + s.messages
    ensures s.messages != [] ==> Merge(s, StateAsUpdate(HumanApprovalNode(s))) != s
    ensures Merge(s, StateAsUpdate(HumanApprovalNode(s))).researcherData == s.researcherData
    ensures Merge(s, StateAsUpdate(HumanApprovalNode(s))).chartData == s.chartData
  {
    if s.messages != [] {
      assert |(s.messages + s.messages)| > |s.messages|;
    }
  }

  /** The approval node as intended: a pause point that returns no key at all. */
  function HumanApprovalPause(s: AgentState): (u: Update)
    ensures Merge(s, u) == s
  {
    NoUpdate
  }

  // ---------------------------------------------------------------------------
  // Routing after the approval node
  // ---------------------------------------------------------------------------

  datatype Route = ToWriter | ToEnd

  /** `route_after_human`: end when the lowercased last message contains `approve`. */
  function RouteAfterHuman(s: AgentState): (r: Result<Route>)
    ensures s.messages == [] <==> r.Err?
    ensures r.Ok? ==> (r.value == ToEnd <==> Contains(Lower(Last(s).content), "approve"))
  {
    if s.messages == [] then Err("IndexError: list index out of range")
    else if Contains(Lower(Last(s).content), "approve") then Ok(ToEnd)
    else Ok(ToWriter)
  }

  /** Routing reads only the last message's content. */
  lemma RouteReadsOnlyLastContent(s1: AgentState, s2: AgentState)
    requires s1.messages != [] && s2.messages != []
    requires Last(s1).content == Last(s2).content
    ensures RouteAfterHuman(s1) == RouteAfterHuman(s2)
  {
  }

  /**
   * Passing through the approval node, as written or as intended, leaves the
   * last message and hence the route unchanged: routing again gives the same answer.
   */
  lemma RouteStableAcrossApproval(s: AgentState)
    ensures RouteAfterHuman(Merge(s, HumanApprovalPause(s))) == RouteAfterHuman(s)
    ensures RouteAfterHuman(Merge(s, StateAsUpdate(HumanApprovalNode(s)))) == RouteAfterHuman(s)
  {
    var doubled := Merge(s, StateAsUpdate(HumanApprovalNode(s)));
    if s.messages != [] {
      assert Last(doubled) == Last(s);
    }
  }

  /** Any message holding a word that lowercases to `approve` ends the run. */
  lemma RouteEndsOnApproveInside(s: AgentState, before: string, word: string, after: string)
    requires s.messages != [] && Last(s).content == before + word + after
    requires Lower(word) == "approve"
    ensures RouteAfterHuman(s) == Ok(ToEnd)
  {
    assert Lower(before + word + after) == Lower(before) + Lower(word) + Lower(after);
    ContainsMiddle(Lower(before), Lower(word), Lower(after));
  }

  /** "disapprove" holds "approve", so it ends the run as an approval would. */
  lemma RouteEndsOnDisapprove(s: AgentState)
    requires s.messages != [] && Last(s).content == "disapprove"
    ensures RouteAfterHuman(s) == Ok(ToEnd)
  {
    assert Lower("approve") == "approve";
    RouteEndsOnApproveInside(s, "dis", "approve", "");
  }

  // ---------------------------------------------------------------------------
  // The edges, the interrupt point and checkpoints
  // ---------------------------------------------------------------------------

  /** Execution is suspended before these nodes run. */
  const InterruptBefore: set<Node> := {HumanApproval}

  /** Every node each node may hand over to, conditional targets included. */
  function Successors(n: Node): set<Node> {
    match n
    case Researcher => {Analyst}
    case Analyst => {Writer}
    case Writer => {HumanApproval}
    case HumanApproval => {Writer, End}
    case End => {}
  }

  /** The node that follows `n` once it has run on state `s`. */
  function Next(n: Node, s: AgentState): (r: Result<Node>)
    requires n != End
    ensures r.Ok? ==> r.value in Successors(n)
    ensures n != HumanApproval ==> r.Ok?
  {
    match n
    case Researcher => Ok(Analyst)
    case Analyst => Ok(Writer)
    case Writer => Ok(HumanApproval)
    case HumanApproval =>
      match RouteAfterHuman(s)
      case Err(e) => Err(e)
      case Ok(ToEnd) => Ok(End)
      case Ok(ToWriter) => Ok(Writer)
  }

  /** The approval node is entered only from Writer, and only it is an interrupt point. */
  lemma ApprovalEnteredOnlyFromWriter(n: Node)
    ensures HumanApproval in Successors(n) <==> n == Writer
    ensures n in InterruptBefore <==> n == HumanApproval
  {
  }

  /** A suspended or finished run: its state and the node it resumes at. */
  datatype Checkpoint = Checkpoint(state: AgentState, next: Node)

  /**
   * The first stretch of a run: Researcher, Analyst, Writer, then suspension
   * before the approval node.
   */
  method Start(input: AgentState, env: Env) returns (r: Result<Checkpoint>)
    ensures input.messages == [] <==> r.Err?
    ensures r.Ok? ==> r.value == Checkpoint(BaseOutcome(input, env), HumanApproval)
  {
    var ran := RunBase(input, env);
    if ran.Err? {
      return Err(ran.error);
    }
    var next := Next(Writer, ran.value);
    assert next.value in InterruptBefore;
    r := Ok(Checkpoint(ran.value, next.value));
  }

  /**
   * Resuming a checkpoint: the approval node, the router, and on the way back
   * the Writer, up to the next suspension. A finished run stays finished.
   */
  function Resume(cp: Checkpoint, model: string -> Message): (r: Result<Checkpoint>)
    ensures cp.next != HumanApproval ==> r == Ok(cp)
    ensures r.Ok? && cp.next == HumanApproval ==> r.value.next in InterruptBefore + {End}
  {
    if cp.next != HumanApproval then Ok(cp)
    else
      var s := Merge(cp.state, HumanApprovalPause(cp.state));
      match Next(HumanApproval, s)
      case Err(e) => Err(e)
      case Ok(n) =>
        if n == End then Ok(Checkpoint(s, End))
        else
          match WriterNode(s, model)
          case Err(e) => Err(e)
          case Ok(u) => Ok(Checkpoint(Merge(s, u), HumanApproval))
  }

  // ---------------------------------------------------------------------------
  // The command-line approval round
  // ---------------------------------------------------------------------------

  /** The driver stops only on feedback that is exactly `approve` after strip and lower. */
  predicate CliApproves(feedback: string) {
    Lower(Strip(feedback)) == "approve"
  }

  function FeedbackMessage(feedback: string): Message {
    Message(Human, feedback, [])
  }

  datatype Round = Finalized(cp: Checkpoint) | Resumed(cp: Checkpoint)

  /**
   * One pass of the driver's loop: stop on `approve`, otherwise append the
   * feedback as a human message and resume the graph.
   */
  function CliRound(cp: Checkpoint, feedback: string, model: string -> Message): Result<Round> {
    if CliApproves(feedback) then Ok(Finalized(cp)) else FeedbackResume(cp, feedback, model)
  }

  /** `update_state` with the feedback as a human message, then `stream(None)`. */
  function FeedbackResume(cp: Checkpoint, feedback: string, model: string -> Message): Result<Round> {
    var s := Merge(cp.state, Update(Some([FeedbackMessage(feedback)]), None, None));
    match Resume(Checkpoint(s, cp.next), model)
    case Err(e) => Err(e)
    case Ok(c) => Ok(Resumed(c))
  }

  /** Feedback the driver accepts as approval would also make the router end the run. */
  lemma CliApprovalImpliesRouteEnd(feedback: string)
    requires CliApproves(feedback)
    ensures Contains(Lower(feedback), "approve")
  {
    var t := Strip(feedback);
    var i :| 0 <= i <= |feedback| - |t| && OccursAt(feedback, t, i);
    LowerSlice(feedback, i, i + |t|);
    ContainsWitness(Lower(feedback), "approve", i);
  }

  /** The converse fails: "disapprove" is not approval for the driver, yet the router ends on it. */
  lemma CliRejectsDisapprove()
    ensures !CliApproves("disapprove")
    ensures Contains(Lower("disapprove"), "approve")
  {
    var w := "disapprove";
    assert !IsSpace(w[0]) && !IsSpace(w[|w| - 1]);
    assert StripLeft(w) == w;
    assert StripRight(w) == w;
    assert |Lower(Strip(w))| == 10;
    LowerSlice(w, 3, 10);
    assert w[3..10] == "approve";
    assert Lower("approve") == "approve";
    ContainsWitness(Lower(w), "approve", 3);
  }

  /**
   * Resuming before the approval node on a state whose last message is
   * `text`: the run ends when `text` contains `approve` in any case,
   * otherwise the Writer answers `text` and the run is suspended again.
   */
  lemma {:induction false} ResumeAfterMessage(s: AgentState, text: string, model: string -> Message)
    requires s.messages != [] && Last(s).content == text
    ensures var r := Resume(Checkpoint(s, HumanApproval), model);
      && r.Ok?
      && (r.value.next == End <==> Contains(Lower(text), "approve"))
      && (r.value.next == End ==> r.value.state == s)
      && (r.value.next != End ==>
            r.value.next == HumanApproval
            && r.value.state == AgentState(s.messages + [model(WriterPrompt(text))], s.researcherData, s.chartData))
  {
    assert Merge(s, HumanApprovalPause(s)) == s;
    if !Contains(Lower(text), "approve") {
      assert WriterNode(s, model) == Ok(Update(Some([model(WriterPrompt(text))]), None, None));
    }
  }

  /**
   * A feedback round that is not approval appends exactly one human message
   * and resumes: the run ends when the feedback contains `approve` in any case,
   * otherwise the Writer rewrites from the feedback and the run is suspended
   * again. Findings and chart data are untouched.
   */
  lemma FeedbackRound(cp: Checkpoint, feedback: string, model: string -> Message)
    requires cp.next == HumanApproval && !CliApproves(feedback)
    ensures var r := CliRound(cp, feedback, model);
      && r.Ok? && r.value.Resumed?
      && (r.value.cp.next == End <==> Contains(Lower(feedback), "approve"))
      && (r.value.cp.next == End ==>
            r.value.cp.state.messages == cp.state.messages + [FeedbackMessage(feedback)])
      && (r.value.cp.next != End ==>
            r.value.cp.next == HumanApproval
            && r.value.cp.state.messages == cp.state.messages + [FeedbackMessage(feedback), model(WriterPrompt(feedback))])
      && r.value.cp.state.researcherData == cp.state.researcherData
      && r.value.cp.state.chartData == cp.state.chartData
  {
    FeedbackResumeRewrites(cp, feedback, model);
  }

  lemma FeedbackResumeRewrites(cp: Checkpoint, feedback: string, model: string -> Message)
    requires cp.next == HumanApproval
    ensures var r := FeedbackResume(cp, feedback, model);
      && r.Ok? && r.value.Resumed?
      && (r.value.cp.next == End <==> Contains(Lower(feedback), "approve"))
      && (r.value.cp.next == End ==>
            r.value.cp.state.messages == cp.state.messages + [FeedbackMessage(feedback)])
      && (r.value.cp.next != End ==>
            r.value.cp.next == HumanApproval
            && r.value.cp.state.messages == cp.state.messages + [FeedbackMessage(feedback), model(WriterPrompt(feedback))])
      && r.value.cp.state.researcherData == cp.state.researcherData
      && r.value.cp.state.chartData == cp.state.chartData
  {
    var s := AgentState(cp.state.messages + [FeedbackMessage(feedback)], cp.state.researcherData, cp.state.chartData);
    assert Merge(cp.state, Update(Some([FeedbackMessage(feedback)]), None, None)) == s;
    assert Last(s) == FeedbackMessage(feedback);
    ResumeAfterMessage(s, feedback, model);
    assert s.messages + [model(WriterPrompt(feedback))] == cp.state.messages + [FeedbackMessage(feedback), model(WriterPrompt(feedback))];
  }

  /** Approval at the prompt closes the loop without touching the checkpoint. */
  lemma ApprovalRoundFinalizes(cp: Checkpoint, feedback: string, model: string -> Message)
    requires CliApproves(feedback)
    ensures CliRound(cp, feedback, model) == Ok(Finalized(cp))
  {
  }
}
