// Runs on which the service does less than one might expect of it, each in the smallest world that
// shows it. The conditions under which it cannot happen are theorems of RunRefinement, RunAnswers
// and RunDecisions.
module RunCounterexamples {
  import opened Outcome
  import opened AgentSpecs
  import opened RunModel
  import opened RunLoop
  import opened RunInvariants
  import opened RunHistory
  import opened RunTheorems
  import opened RunDecisions
  import opened RunAnswers
  import opened Uninterrupted

  // ---- one agent, one tool ------------------------------------------------------

  const NO_DICT: Dict := map[]

  const DEFINITION := ToolDefinition("t", "", REST, NO_DICT, "tool.execute", HIGH, None, true,
                                     map["_tool_id" := Text("id")])

  const SPEC := AgentSpec("a", 1, "agent", "alias", "", [DEFINITION], [], false, 2, 0.2)

  const TOOL := Tool("id", true, REST, "tool.execute", HIGH)

  const CALL := ToolCall("1", "t", NO_DICT)

  const SECOND := ToolCall("2", "t", NO_DICT)

  const STARTER := Actor(1, false, {"tool.execute"})

  const APPROVER := Actor(2, false, {})

  // The model makes these calls at once and then answers. Its name resolves as `resolve` says, and
  // after the decision the catalogue holds `listed` under the tool's name.
  function Scene(resolve: (nat, string) -> Result<string, string>, listed: Option<Tool>, calls: seq<ToolCall>): World {
    World(
      (i: nat) => {HIGH, CRITICAL}, (i: nat) => {}, None, resolve,
      (i: nat, r: ChatRequest) => if i == 1 then Completion("", calls, 0, 0) else Completion("done", [], 0, 0),
      (i: nat, k: nat, name: string) => Some(TOOL),
      (i: nat, k: nat, x: Tool, a: Dict) => ToolResult(true, ""),
      (i: nat, name: string) => listed,
      (i: nat, x: Tool, a: Dict) => ToolResult(true, ""))
  }

  function Stable(iteration: nat, model: string): Result<string, string> {
    Ok("served")
  }

  function Vanishing(iteration: nat, model: string): Result<string, string> {
    if iteration == 0 then Ok("served") else Err("gone")
  }

  function Beginning(w: World): Step {
    Step.Start(w, true, Some(SPEC), "hello", STARTER, 0)
  }

  function Answer(w: World, approved: bool): Step {
    Step.Approve(w, 0, approved, APPROVER, None, 1)
  }

  // The message whose first call is waited on, as the checkpoint has it.
  ghost predicate Asked(p: Platform, calls: seq<ToolCall>) {
    && |p.runs| == 1 && p.runs[0].checkpoint.Suspended? && p.runs[0].checkpoint.pendingCall == CALL
    && p.runs[0].checkpoint.conversation == [User("hello"), Assistant("", calls)]
    && |p.runs[0].requests| == 1
  }

  ghost predicate WaitsOnCall(p: Platform) {
    && |p.runs| == 1 && p.runs[0].state == WAITING_FOR_APPROVAL && p.runs[0].version == SPEC
    && p.runs[0].userId == Some(1) && p.runs[0].userPermissions == {"tool.execute"}
    && p.runs[0].checkpoint.Suspended? && p.runs[0].checkpoint.iteration == 1
    && |p.executions| == 1
    && p.executions[0].runId == 0 && p.executions[0].approvalState == PENDING && p.executions[0].requestedAt == 0
    && p.executions[0].toolId == "id" && p.executions[0].toolName == "t"
  }

  lemma OnlyGrant()
    ensures Granted(SPEC) == {"id"}
  {
    assert DEFINITION in SPEC.tools;
  }

  // The stream of the first step, up to its suspension.
  lemma SceneStream(resolve: (nat, string) -> Result<string, string>, listed: Option<Tool>, calls: seq<ToolCall>)
    requires resolve(0, "alias") == Ok("served") && calls != [] && calls[0] == CALL
    ensures var w := Scene(resolve, listed, calls);
            var n := Execute(w, 0, SPEC, "hello", NewRun(SPEC, STARTER), [], 0);
            var q := Platform([n.run], n.executions);
            WaitsOnCall(q) && Asked(q, calls)
  {
    hide Offers, Names, SpecToJson;
    var w := Scene(resolve, listed, calls);
    OnlyGrant();
    var l := Live(NewRun(SPEC, STARTER), [], [User("hello")], 1, 0);
    var o := Open(w, SPEC, l);
    var r := Request(SPEC, "served", o.conversation);
    var c := w.chat(1, r);
    var b := Receive(Ask(SPEC, "served", o), c);
    var s := Say(b, Assistant(c.content, c.toolCalls));
    var n := Handle(w, 0, Granted(SPEC), CALL, 0, s, 0);
    assert n.run.state == WAITING_FOR_APPROVAL;
    assert Batch(w, 0, Granted(SPEC), calls, 0, s, 0) == n;
    assert Iterate(w, 0, SPEC, "served", o, 0) == n;
    assert Drain(w, 0, SPEC, l, 0) == n;
    assert s.conversation == [User("hello"), Assistant("", calls)];
  }

  lemma SceneWaits(resolve: (nat, string) -> Result<string, string>, listed: Option<Tool>, calls: seq<ToolCall>)
    requires resolve(0, "alias") == Ok("served") && calls != [] && calls[0] == CALL
    ensures WaitsOnCall(Apply(EMPTY, Beginning(Scene(resolve, listed, calls))))
    ensures Asked(Apply(EMPTY, Beginning(Scene(resolve, listed, calls))), calls)
    ensures Inv(Apply(EMPTY, Beginning(Scene(resolve, listed, calls))))
    ensures PendingFor(Apply(EMPTY, Beginning(Scene(resolve, listed, calls))).executions, 0) == Some(0)
  {
    SceneStream(resolve, listed, calls);
    StepInv(EMPTY, Beginning(Scene(resolve, listed, calls)));
    hide Execute, Inv, Asked;
  }

  // Refusing the call re-enters the loop here.
  lemma RefusedServes(p: Platform, w: World) returns (head: Live)
    requires Inv(p) && WaitsOnCall(p) && PendingFor(p.executions, 0) == Some(0)
    ensures head.run.state == RUNNING && head.iteration == 1 && head.run.requests == p.runs[0].requests
    ensures head.conversation
         == p.runs[0].checkpoint.conversation + [ToolReply(p.runs[0].checkpoint.pendingCall, Refused("t", None))]
    ensures var n := Serve(w, 0, Persisted(SPEC), head, 1);
            Apply(p, Answer(w, false)) == Platform([n.run], n.executions)
  {
    hide Iterate, WellAnswered, Logged, Numbered, Granted, Offers;
    var run := p.runs[0];
    assert AtRest(run);
    PausedSpec(run);
    var d := Decision(false, APPROVER.id, None);
    var l := Decide(w, 0, d, run, p.executions, 1);
    DecideKeeps(w, 0, d, run, p.executions, 1) by {
      PendingMatches(p, 0);
    }
    assert l.sequence != 1 && MayDecide(run, APPROVER);
    head := l.(run := l.run.(state := RUNNING));
    hide Inv, Serve, Decide, Ledger;
    assert Resume(w, 0, 0, d, run, p.executions, 1) == Serve(w, 0, Persisted(SPEC), head, 1);
  }

  // ---- the model's name is resolved again -------------------------------------------------

  lemma ResumedWithoutModel(p: Platform, w: World)
    requires Inv(p) && WaitsOnCall(p) && PendingFor(p.executions, 0) == Some(0)
    requires w.resolve(1, "alias") == Err("gone")
    ensures var q := Apply(p, Answer(w, false));
            && |q.runs| == 1 && q.runs[0].state == FAILED && q.runs[0].error == Some(ModelUnavailable("alias", "gone"))
  {
    var head := RefusedServes(p, w);
  }

  lemma PlainLoopAnswers(w: World, decide: nat -> Decision)
    requires w.retrieval.None? && !decide(1).approved
    requires forall r :: w.chat(1, r) == Completion("", [CALL], 0, 0)
    requires forall r :: w.chat(2, r) == Completion("done", [], 0, 0)
    requires w.catalogue(1, 0, "t") == Some(TOOL) && REST !in w.disabledTypes(1) && HIGH in w.approvalRequired(1)
    ensures Loop(w, decide, TermsOf(SPEC), {"tool.execute"}, "served", false, Fresh(w, SPEC, "hello")).ending
         == Ending.Concluded("done")
  {
    var terms, permissions := TermsOf(SPEC), {"tool.execute"};
    var t := Fresh(w, SPEC, "hello");
    OnlyGrant();
    var c := w.chat(1, NextRequest(terms, "served", t));
    var d := Through(w, decide, terms, permissions, "served", t);
    assert NeedsHuman(w, terms.granted, permissions, CALL, 0, 1);
    assert d.iteration == 1;
    assert Loop(w, decide, terms, permissions, "served", false, t)
        == Loop(w, decide, terms, permissions, "served", false, d);
  }

  // The name resolves when the run starts and no longer when it is answered: the run fails, where
  // a loop that resolved the name once would have completed.
  lemma ModelMayVanishWhileWaiting(decide: nat -> Decision)
    requires decide(1) == Decision(false, APPROVER.id, None)
    ensures var w := Scene(Vanishing, Some(TOOL), [CALL]);
            var waiting := Apply(EMPTY, Beginning(w));
            var answered := Apply(waiting, Answer(w, false));
            && WaitsOnCall(waiting)
            && |answered.runs| == 1 && answered.runs[0].state == FAILED
            && answered.runs[0].error == Some(ModelUnavailable("alias", "gone"))
            && w.resolve(0, "alias") == Ok("served")
            && Loop(w, decide, TermsOf(SPEC), STARTER.permissions, "served", false, Fresh(w, SPEC, "hello")).ending
               == Ending.Concluded("done")
  {
    hide Apply, Loop, Inv, WaitsOnCall, Fresh, TermsOf;
    var w := Scene(Vanishing, Some(TOOL), [CALL]);
    SceneWaits(Vanishing, Some(TOOL), [CALL]);
    ResumedWithoutModel(Apply(EMPTY, Beginning(w)), w);
    PlainLoopAnswers(w, decide);
  }

  // ---- a sweep strands the run ------------------------------------------------------------

  lemma TwoSteps(s: Step, t: Step)
    ensures After(EMPTY, [s, t]) == Apply(Apply(EMPTY, s), t)
  {
    hide Apply;
    AfterOneMore(EMPTY, [s], t);
    assert [s] + [t] == [s, t] && [] + [s] == [s];
    AfterOneMore(EMPTY, [], s);
  }

  // Start a run that stops, let its call expire: it waits, and nobody can answer it.
  lemma ExpiryLeavesARunWaiting()
    ensures Stranded(After(EMPTY, [Beginning(Scene(Stable, Some(TOOL), [CALL])), ExpireOlderThan(1, 1)]), 0)
  {
    var start, sweep := Beginning(Scene(Stable, Some(TOOL), [CALL])), ExpireOlderThan(1, 1);
    SceneWaits(Stable, Some(TOOL), [CALL]);
    TwoSteps(start, sweep);
    hide Apply, Inv, Scene, Stranded;
    SweepStrandsExactlyTheOverdue(Apply(EMPTY, start), 0, 1, 1);
  }

  // ---- the name of a tool is looked up again ----------------------------------------------

  const OTHER := Tool("other", false, REST, "tool.execute", HIGH)

  lemma OtherToolRuns(p: Platform, w: World)
    requires Inv(p) && WaitsOnCall(p) && PendingFor(p.executions, 0) == Some(0)
    requires w.catalogueAtDecision(1, "t") == Some(OTHER)
    ensures var q := Apply(p, Answer(w, true));
            && |q.runs| == 1 && |q.executions| >= 1 && q.executions[0].runId == 0 && q.runs[0].version == SPEC
            && q.executions[0].approvalState == APPROVED
            && Ran(q.runs[0], 0, "other")
  {
    hide Resume, Inv, Ran;
    var answer := Answer(w, true);
    var q := Apply(p, answer);
    assert MayDecide(p.runs[0], APPROVER);
    assert Decides(p, answer, 0);
    ApprovalRunsTheToolShownExactlyWhenStillListed(p, answer);
    NowDecided(p, answer, 0);
    StepEvolves(p, answer);
    assert RunEvolves(p.runs[0], q.runs[0]) && RowEvolves(p.executions[0], q.executions[0]);
  }

  // While the run waits, the tool it asked for is deleted and another registered under its name, one
  // the agent was never granted: approving the call runs that one.
  lemma ApprovalMayRunAnotherTool()
    ensures var w := Scene(Stable, Some(OTHER), [CALL]);
            var p := After(EMPTY, [Beginning(w), Answer(w, true)]);
            && |p.runs| == 1 && |p.executions| >= 1 && p.executions[0].runId == 0
            && p.executions[0].approvalState == APPROVED
            && w.catalogue(1, 0, "t") == Some(TOOL)
            && Ran(p.runs[0], 0, "other")
            && "other" !in Granted(p.runs[0].version)
  {
    hide Apply, After, Inv, Ran, WaitsOnCall, Granted;
    var w := Scene(Stable, Some(OTHER), [CALL]);
    SceneWaits(Stable, Some(OTHER), [CALL]);
    OnlyGrant();
    TwoSteps(Beginning(w), Answer(w, true));
    OtherToolRuns(Apply(EMPTY, Beginning(w)), w);
  }

  // ---- calls after the suspended one ------------------------------------------------------

  lemma FinalExchange(w: World, id: nat, spec: AgentSpec, served: string, l: Live, now: int)
    requires l.iteration < spec.maxIterations
    requires var c := w.chat(l.iteration + 1, Request(spec, served, l.conversation)); c.Completion? && c.toolCalls == []
    ensures var n := Iterate(w, id, spec, served, l, now);
            n.run.state == COMPLETED && n.run.requests == l.run.requests + [Request(spec, served, l.conversation)]
  {
  }

  lemma RefusedThenDone(p: Platform, w: World)
    requires Inv(p) && WaitsOnCall(p) && Asked(p, [CALL, SECOND]) && PendingFor(p.executions, 0) == Some(0)
    requires w.resolve(1, "alias") == Ok("served") && forall r :: w.chat(2, r) == Completion("done", [], 0, 0)
    ensures var q := Apply(p, Answer(w, false));
            && |q.runs| == 1 && q.runs[0].state == COMPLETED && |q.runs[0].requests| == 2
            && q.runs[0].requests[1].messages
               == [System(""), User("hello"), Assistant("", [CALL, SECOND]), ToolReply(CALL, Refused("t", None))]
  {
    hide Iterate, Inv, Apply, Offers, Granted;
    var head := RefusedServes(p, w);
    FinalExchange(w, 0, Persisted(SPEC), "served", head, 1);
  }

  // The model makes two calls in one message and the first waits. It is answered, and the next
  // request goes out with the second call unanswered.
  lemma LaterCallsGoUnanswered()
    ensures var w := Scene(Stable, Some(TOOL), [CALL, SECOND]);
            var p := After(EMPTY, [Beginning(w), Answer(w, false)]);
            && |p.runs| == 1 && p.runs[0].state == COMPLETED && |p.runs[0].requests| == 2
            && p.runs[0].requests[1].messages
               == [System(""), User("hello"), Assistant("", [CALL, SECOND]), ToolReply(CALL, Refused("t", None))]
  {
    hide Apply, After, Inv, WaitsOnCall, Asked;
    var w := Scene(Stable, Some(TOOL), [CALL, SECOND]);
    SceneWaits(Stable, Some(TOOL), [CALL, SECOND]);
    TwoSteps(Beginning(w), Answer(w, false));
    RefusedThenDone(Apply(EMPTY, Beginning(w)), w);
  }
}
