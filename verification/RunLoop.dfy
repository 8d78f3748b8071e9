// What one drained event stream does to a run: the bounded loop of services/agent_runtime.py and
// the authorisation pipeline of services/tool_pipeline.py, as functions from state to state.
module RunLoop {
  import opened Outcome
  import opened AgentSpecs
  import opened RunModel
  import opened Text

  // The loop's live state: the run row it mutates, the tool_executions table it appends to, and
  // its local variables.
  datatype Live = Live(
    run: Run,
    executions: seq<ToolExecution>,
    conversation: seq<Message>,
    sequence: nat,
    iteration: nat)

  // `yield` followed by the consumer writing the event down, and `sequence += 1`.
  function Emit(l: Live, body: Body): Live {
    l.(run := l.run.(events := l.run.events + [RunEvent(l.sequence, body)]), sequence := l.sequence + 1)
  }

  function Say(l: Live, m: Message): Live {
    l.(conversation := l.conversation + [m])
  }

  function ToolReply(call: ToolCall, reply: Reply): Message {
    ToolMessage(call.id, call.name, reply)
  }

  // ---- _complete, _fail, _suspend ---------------------------------------------------------

  function Complete(l: Live, output: string, now: int): Live {
    l.(run := l.run.(state := COMPLETED, output := Some(output), finishedAt := Some(now), checkpoint := Cleared))
  }

  function Fail(l: Live, error: RunError, now: int): Live {
    l.(run := l.run.(state := FAILED, error := Some(error), finishedAt := Some(now)))
  }

  function SpecOf(c: Checkpoint): Dict {
    if c.Cleared? then map[] else c.spec
  }

  function Suspend(l: Live, call: ToolCall): Live {
    l.(run := l.run.(
       state := WAITING_FOR_APPROVAL,
       checkpoint := Suspended(l.conversation, call, l.iteration, l.sequence + 1, SpecOf(l.run.checkpoint))))
  }

  // ---- the pipeline -----------------------------------------------------------------------

  // `_authorise`: enabled, of an executable type, granted to the version, permitted to the user.
  function Authorise(w: World, iteration: nat, tool: Tool, granted: set<string>,
                     permissions: set<string>): Option<Denial> {
    if !tool.enabled then Some(ToolDisabled)
    else if tool.kind in w.disabledTypes(iteration) then Some(TypeDisabled)
    else if tool.id !in granted then Some(NotGranted)
    else if tool.requiredPermission !in permissions then Some(LacksPermission(tool.requiredPermission))
    else None
  }

  function Requested(id: nat, tool: Tool, call: ToolCall, now: int): ToolExecution {
    ToolExecution(id, tool.id, call.name, call.arguments, tool.riskLevel, NOT_REQUIRED, now, None, None, None, None)
  }

  function RejectedRow(row: ToolExecution, now: int): ToolExecution {
    row.(approvalState := REJECTED, success := Some(false), decidedAt := Some(now))
  }

  function PendingRow(row: ToolExecution): ToolExecution {
    row.(approvalState := PENDING)
  }

  function FinishedRow(row: ToolExecution, result: ToolResult): ToolExecution {
    row.(success := Some(result.success), result := if result.content == "" then None else Some(result.content))
  }

  function Insert(l: Live, row: ToolExecution): Live {
    l.(executions := l.executions + [row])
  }

  function Perform(l: Live, execution: nat, tool: Tool, name: string, arguments: Dict): Live {
    l.(run := l.run.(invocations := l.run.invocations + [Invocation(execution, tool, name, arguments)]))
  }

  // ---- the loop ---------------------------------------------------------------------------

  const NO_PARAMETERS: Dict :=
    map["type" := Text("object"), "properties" := Object(map[]), "required" := Array([])]

  // `_openai_tool_spec` for each tool; a tool without a schema takes no parameters.
  function Offers(tools: seq<ToolDefinition>): seq<Offer> {
    if tools == [] then []
    else [Offer(tools[0].name, tools[0].description,
                if tools[0].parametersSchema == map[] then NO_PARAMETERS else tools[0].parametersSchema)]
         + Offers(tools[1..])
  }

  function Request(spec: AgentSpec, served: string, conversation: seq<Message>): ChatRequest {
    ChatRequest([System(spec.systemPrompt)] + conversation, served, spec.temperature, Offers(spec.tools))
  }

  function Names(calls: seq<ToolCall>): (names: seq<string>)
    ensures |names| == |calls| && forall i :: 0 <= i < |calls| ==> names[i] == calls[i].name
  {
    if calls == [] then [] else [calls[0].name] + Names(calls[1..])
  }

  // `iteration += 1`, LLM_REQUEST, and the request itself.
  function Ask(spec: AgentSpec, served: string, l: Live): Live {
    var a := l.(iteration := l.iteration + 1, run := l.run.(iterations := l.iteration + 1));
    var b := Emit(a, LlmRequest(a.iteration, |a.conversation|));
    b.(run := b.run.(requests := b.run.requests + [Request(spec, served, b.conversation)]))
  }

  // Token accounting and LLM_RESPONSE.
  function Receive(l: Live, c: ChatOutcome): Live
    requires c.Completion?
  {
    Emit(l.(run := l.run.(promptTokens := l.run.promptTokens + c.promptTokens,
                          completionTokens := l.run.completionTokens + c.completionTokens)),
         LlmResponse(l.iteration, c.content, Names(c.toolCalls), c.promptTokens, c.completionTokens))
  }

  // `ToolPipeline.invoke` and what the loop makes of its outcome.
  function Dispatch(w: World, id: nat, granted: set<string>, call: ToolCall, k: nat, tool: Tool, l: Live,
                    now: int): (n: Live)
    ensures n.iteration == l.iteration
  {
    var row := Requested(id, tool, call, now);
    var denial := Authorise(w, l.iteration, tool, granted, l.run.userPermissions);
    if denial.Some? then
      var reply := Denied(call.name, denial.value);
      Say(Emit(Insert(l, RejectedRow(row, now)), ToolRejected(call.name, reply)), ToolReply(call, reply))
    else if tool.riskLevel in w.approvalRequired(l.iteration) then
      Emit(Suspend(Insert(l, PendingRow(row)), call), ToolApprovalRequired(call.name, |l.executions|))
    else
      var result := w.execute(l.iteration, k, tool, call.arguments);
      var done := Insert(Perform(l, |l.executions|, tool, call.name, call.arguments), FinishedRow(row, result));
      Say(Emit(done, ToolExecuted(call.name, result.success)), ToolReply(call, Result(result.content)))
  }

  // One pass of `for call in tool_calls`: `k` is the position of the call in its batch.
  function Handle(w: World, id: nat, granted: set<string>, call: ToolCall, k: nat, l: Live, now: int): (n: Live)
    ensures n.iteration == l.iteration
  {
    var a := Emit(l, ToolRequested(call.name));
    match w.catalogue(a.iteration, k, call.name)
    case None => Say(a, ToolReply(call, NoSuchTool(call.name)))
    case Some(tool) => Dispatch(w, id, granted, call, k, tool, a, now)
  }

  // The calls of one assistant message from position k on, stopping at one that must wait.
  function Batch(w: World, id: nat, granted: set<string>, calls: seq<ToolCall>, k: nat, l: Live, now: int): (n: Live)
    requires k <= |calls|
    ensures n.iteration == l.iteration
    decreases |calls| - k
  {
    if k == |calls| then l else
    var n := Handle(w, id, granted, calls[k], k, l, now);
    if n.run.state == WAITING_FOR_APPROVAL then n else Batch(w, id, granted, calls, k + 1, n, now)
  }

  // The assistant message of an iteration and its batch of calls.
  function Turn(w: World, id: nat, spec: AgentSpec, c: ChatOutcome, l: Live, now: int): (n: Live)
    requires c.Completion?
    ensures n.iteration == l.iteration
  {
    Batch(w, id, Granted(spec), c.toolCalls, 0, Say(l, Assistant(c.content, c.toolCalls)), now)
  }

  // `while iteration < spec.max_iterations`.
  function Iterate(w: World, id: nat, spec: AgentSpec, served: string, l: Live, now: int): Live
    decreases spec.maxIterations - l.iteration
  {
    if l.iteration >= spec.maxIterations then
      Fail(Emit(l, RunFailed(OutOfIterations(spec.maxIterations))), OutOfIterations(spec.maxIterations), now)
    else
      var a := Ask(spec, served, l);
      var c := w.chat(a.iteration, Request(spec, served, l.conversation));
      if c.ProviderError? then
        Fail(Emit(a, RunFailed(ModelUnreachable(c.cause))), ModelUnreachable(c.cause), now)
      else
        var b := Receive(a, c);
        if c.toolCalls == [] then
          Complete(Emit(b, RunCompleted(c.content, b.iteration)), c.content, now)
        else
          var d := Turn(w, id, spec, c, b, now);
          if d.run.state == WAITING_FOR_APPROVAL then d
          else Iterate(w, id, spec, served, d, now)
  }

  // ---- entry: RUN_STARTED, retrieval, model resolution ------------------------------------

  // The content of the last user message, "" if there is none.
  function Question(conversation: seq<Message>): string {
    if conversation == [] then ""
    else if conversation[|conversation| - 1].User? then conversation[|conversation| - 1].content
    else Question(conversation[..|conversation| - 1])
  }

  function Clip(s: string, n: nat): string {
    if |s| <= n then s else s[..n]
  }

  function Inject(question: string, found: Found, l: Live): Live {
    var a := if found.bases == [] then l else Emit(l, RagSearch(Clip(question, 200), found.bases));
    var b := if found.memories == 0 then a else Emit(a, MemoryRead(found.memories));
    if found.context == "" then b else b.(conversation := [System(found.context)] + b.conversation)
  }

  function Retrieve(gather: (AgentSpec, string) -> Option<Found>, spec: AgentSpec, l: Live): Live {
    var question := Question(l.conversation);
    if Blank(question) then l else
    match gather(spec, question)
    case None => l
    case Some(found) => Inject(question, found, l)
  }

  // Only a run that has emitted nothing yet announces itself and searches.
  function Open(w: World, spec: AgentSpec, l: Live): Live {
    if l.sequence != 1 then l else
    var a := Emit(l, RunStarted(spec.name, spec.version, spec.model));
    if w.retrieval.None? then a else Retrieve(w.retrieval.value, spec, a)
  }

  // `_provider_factory`, then the loop.
  function Serve(w: World, id: nat, spec: AgentSpec, l: Live, now: int): Live {
    match w.resolve(l.iteration, spec.model)
    case Err(cause) =>
      Fail(Emit(l, RunFailed(ModelUnavailable(spec.model, cause))), ModelUnavailable(spec.model, cause), now)
    case Ok(served) => Iterate(w, id, spec, served, l, now)
  }

  function Drain(w: World, id: nat, spec: AgentSpec, l: Live, now: int): Live {
    Serve(w, id, spec, Open(w, spec, l), now)
  }

  // ---- execute and resume -----------------------------------------------------------------

  function NewRun(spec: AgentSpec, actor: Actor): Run {
    Run(Some(actor.id), actor.permissions, spec, RUNNING, 0, 0, 0, None, None,
        Started(SpecToJson(spec)), None, [], [], [])
  }

  function Execute(w: World, id: nat, spec: AgentSpec, message: string, run: Run, executions: seq<ToolExecution>,
                   now: int): Live {
    Drain(w, id, spec, Live(run, executions, [User(message)], 1, 0), now)
  }

  function Decided(row: ToolExecution, d: Decision, now: int): ToolExecution {
    row.(approver := Some(d.approver), decidedAt := Some(now),
         approvalState := if d.approved then APPROVED else REJECTED)
  }

  // What `_resume` reads from a checkpoint, with its defaults for the keys that are not there.
  function Restored(c: Checkpoint): (r: Checkpoint)
    ensures r.Suspended? && (c.Suspended? ==> r == c)
  {
    if c.Suspended? then c else Suspended([], ToolCall("", "", map[]), 0, 1, SpecOf(c))
  }

  function Refuse(row: ToolExecution, reason: Option<string>, call: ToolCall, l: Live): Live {
    var reply := Refused(row.toolName, reason);
    Say(Emit(l, ToolRejected(row.toolName, reply)), ToolReply(call, reply))
  }

  function RunApproved(w: World, p: nat, row: ToolExecution, tool: Tool, call: ToolCall, l: Live): Live
    requires p < |l.executions|
  {
    var result := w.executeApproved(l.iteration, tool, row.arguments);
    var a := Perform(l, p, tool, row.toolName, row.arguments);
    var b := a.(executions := a.executions[p := FinishedRow(row, result)]);
    Say(Emit(b, ToolExecuted(row.toolName, result.success)), ToolReply(call, Result(result.content)))
  }

  // Straight to execution: the pipeline is not asked again.
  function Approve(w: World, p: nat, row: ToolExecution, approver: UserId, call: ToolCall, l: Live): Live
    requires p < |l.executions|
  {
    var a := Emit(l, ToolApproved(row.toolName, approver));
    match w.catalogueAtDecision(l.iteration, row.toolName)
    case None => Say(a, ToolReply(call, NoLongerExists(row.toolName)))
    case Some(tool) => RunApproved(w, p, row, tool, call, a)
  }

  // The decision on the pending row `p`, up to the point where `_resume` re-enters `_run`.
  function Decide(w: World, p: nat, d: Decision, run: Run, executions: seq<ToolExecution>, now: int): Live
    requires p < |executions|
  {
    var cp := Restored(run.checkpoint);
    var row := Decided(executions[p], d, now);
    var l := Live(run, executions[p := row], cp.conversation, cp.sequence, cp.iteration);
    if d.approved then Approve(w, p, row, d.approver, cp.pendingCall, l) else Refuse(row, d.reason, cp.pendingCall, l)
  }

  // `_resume` once its guard has passed. Reading the stored spec may raise; the state is only
  // set to RUNNING after it has been read.
  function Resume(w: World, id: nat, p: nat, d: Decision, run: Run, executions: seq<ToolExecution>, now: int): Live
    requires p < |executions|
  {
    var l := Decide(w, p, d, run, executions, now);
    match SpecFromJson(SpecOf(run.checkpoint))
    case Err(_) => l
    case Ok(spec) => Drain(w, id, spec, l.(run := l.run.(state := RUNNING)), now)
  }
}
