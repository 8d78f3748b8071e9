// An agent loop with no suspension in it: the call that needs a human is settled in place, the
// rest of its batch is skipped, and nothing is written down to be read back. Suspending,
// checkpointing and resuming refines it.
module Uninterrupted {
  import opened Outcome
  import opened AgentSpecs
  import opened RunModel
  import opened RunLoop
  import opened RunInvariants
  import opened Text

  // What the loop uses of an agent.
  datatype Terms = Terms(
    model: string,
    systemPrompt: string,
    temperature: real,
    offers: seq<Offer>,
    maxIterations: int,
    granted: set<string>)

  function TermsOf(spec: AgentSpec): Terms {
    Terms(spec.model, spec.systemPrompt, spec.temperature, Offers(spec.tools), spec.maxIterations, Granted(spec))
  }

  // What an executor was asked to do.
  datatype Call = Call(tool: Tool, name: string, arguments: Dict)

  datatype Ending = Concluded(output: string) | Broke(error: RunError)

  // The loop's variables and its effects so far.
  datatype Trial = Trial(
    conversation: seq<Message>,
    iteration: nat,
    prompt: nat,
    completion: nat,
    requests: seq<ChatRequest>,
    calls: seq<Call>,
    trace: seq<Body>)

  // Everything an observer of the finished run can see, its events in order included.
  datatype Verdict = Verdict(
    iterations: nat,
    prompt: nat,
    completion: nat,
    requests: seq<ChatRequest>,
    calls: seq<Call>,
    trace: seq<Body>,
    ending: Ending)

  function Saw(t: Trial, event: Body): Trial {
    t.(trace := t.trace + [event])
  }

  function Stop(t: Trial, ending: Ending): Verdict {
    var last := match ending
      case Concluded(output) => RunCompleted(output, t.iteration)
      case Broke(error) => RunFailed(error);
    Verdict(t.iteration, t.prompt, t.completion, t.requests, t.calls, t.trace + [last], ending)
  }

  function Told(t: Trial, call: ToolCall, reply: Reply): Trial {
    t.(conversation := t.conversation + [ToolMessage(call.id, call.name, reply)])
  }

  // The call is about to be answered, one way or another.
  function Taken(t: Trial, call: ToolCall): Trial {
    Saw(t, ToolRequested(call.name))
  }

  function Called(t: Trial, tool: Tool, call: ToolCall): Trial {
    t.(calls := t.calls + [Call(tool, call.name, call.arguments)])
  }

  predicate NeedsHuman(w: World, granted: set<string>, permissions: set<string>, call: ToolCall, k: nat,
                       iteration: nat) {
    var found := w.catalogue(iteration, k, call.name);
    && found.Some?
    && Authorise(w, iteration, found.value, granted, permissions).None?
    && found.value.riskLevel in w.approvalRequired(iteration)
  }

  // A call nobody has to be asked about.
  function AnswerCall(w: World, granted: set<string>, permissions: set<string>, call: ToolCall, k: nat,
                      t: Trial): Trial {
    match w.catalogue(t.iteration, k, call.name)
    case None => Told(t, call, NoSuchTool(call.name))
    case Some(tool) =>
      var denial := Authorise(w, t.iteration, tool, granted, permissions);
      if denial.Some? then
        Told(Saw(t, ToolRejected(call.name, Denied(call.name, denial.value))), call, Denied(call.name, denial.value))
      else
        var result := w.execute(t.iteration, k, tool, call.arguments);
        Told(Saw(Called(t, tool, call), ToolExecuted(call.name, result.success)), call, Result(result.content))
  }

  // A call settled by a human, in place.
  function AskHuman(w: World, d: Decision, call: ToolCall, t: Trial): Trial {
    if !d.approved then
      Told(Saw(t, ToolRejected(call.name, Refused(call.name, d.reason))), call, Refused(call.name, d.reason)) else
    match w.catalogueAtDecision(t.iteration, call.name)
    case None => Told(t, call, NoLongerExists(call.name))
    case Some(tool) =>
      var result := w.executeApproved(t.iteration, tool, call.arguments);
      Told(Saw(Called(t, tool, call), ToolExecuted(call.name, result.success)), call, Result(result.content))
  }

  // Does the batch, from position k on, reach a call that needs a human?
  predicate Interrupted(w: World, granted: set<string>, permissions: set<string>, calls: seq<ToolCall>, k: nat,
                        iteration: nat)
    requires k <= |calls|
    decreases |calls| - k
  {
    k < |calls|
    && (NeedsHuman(w, granted, permissions, calls[k], k, iteration)
        || Interrupted(w, granted, permissions, calls, k + 1, iteration))
  }

  function AnswerBatch(w: World, decide: nat -> Decision, granted: set<string>, permissions: set<string>,
                       calls: seq<ToolCall>, k: nat, t: Trial): (r: Trial)
    requires k <= |calls|
    ensures r.iteration == t.iteration
    decreases |calls| - k
  {
    if k == |calls| then t
    else if NeedsHuman(w, granted, permissions, calls[k], k, t.iteration)
    then AskHuman(w, decide(t.iteration), calls[k], Taken(t, calls[k]))
    else
      AnswerBatch(w, decide, granted, permissions, calls, k + 1,
                  AnswerCall(w, granted, permissions, calls[k], k, Taken(t, calls[k])))
  }

  function Posed(t: Trial, request: ChatRequest): Trial {
    Saw(t.(iteration := t.iteration + 1, requests := t.requests + [request]),
        LlmRequest(t.iteration + 1, |t.conversation|))
  }

  function Heard(t: Trial, c: ChatOutcome): Trial
    requires c.Completion?
  {
    Saw(t.(prompt := t.prompt + c.promptTokens, completion := t.completion + c.completionTokens),
        LlmResponse(t.iteration, c.content, Names(c.toolCalls), c.promptTokens, c.completionTokens))
  }

  function Spoken(t: Trial, c: ChatOutcome): Trial
    requires c.Completion?
  {
    t.(conversation := t.conversation + [Assistant(c.content, c.toolCalls)])
  }

  function Reserve(w: World, decide: nat -> Decision, terms: Terms, permissions: set<string>, t: Trial): Verdict
    decreases terms.maxIterations - t.iteration, 1
  {
    match w.resolve(t.iteration, terms.model)
    case Err(cause) => Stop(t, Broke(ModelUnavailable(terms.model, cause)))
    case Ok(served) => Loop(w, decide, terms, permissions, served, true, t)
  }

  // The loop. `again` says whether the model's name is resolved afresh after a human answered.
  function Loop(w: World, decide: nat -> Decision, terms: Terms, permissions: set<string>, served: string,
                again: bool, t: Trial): Verdict
    decreases terms.maxIterations - t.iteration, 0
  {
    if t.iteration >= terms.maxIterations then Stop(t, Broke(OutOfIterations(terms.maxIterations))) else
    var request := ChatRequest([System(terms.systemPrompt)] + t.conversation, served, terms.temperature, terms.offers);
    var a := Posed(t, request);
    var c := w.chat(a.iteration, request);
    if c.ProviderError? then Stop(a, Broke(ModelUnreachable(c.cause))) else
    var b := Heard(a, c);
    if c.toolCalls == [] then Stop(b, Concluded(c.content)) else
    var d := AnswerBatch(w, decide, terms.granted, permissions, c.toolCalls, 0, Spoken(b, c));
    if again && Interrupted(w, terms.granted, permissions, c.toolCalls, 0, b.iteration)
    then Reserve(w, decide, terms, permissions, d)
    else Loop(w, decide, terms, permissions, served, again, d)
  }

  // The conversation a run opens with: what was retrieved for the question, then the question.
  function Opening(w: World, spec: AgentSpec, message: string): seq<Message> {
    if w.retrieval.None? || Blank(message) then [User(message)] else
    var found := w.retrieval.value(spec, message);
    if found.None? || found.value.context == "" then [User(message)]
    else [System(found.value.context), User(message)]
  }

  // What is reported of it: the knowledge bases the first 200 characters were looked up in, if any,
  // and the memories recalled, if any.
  function Gathered(w: World, spec: AgentSpec, message: string): seq<Body> {
    if w.retrieval.None? || Blank(message) then [] else
    var found := w.retrieval.value(spec, message);
    if found.None? then [] else
    (if found.value.bases == [] then []
     else [RagSearch(if |message| > 200 then message[..200] else message, found.value.bases)])
    + (if found.value.memories == 0 then [] else [MemoryRead(found.value.memories)])
  }

  function Fresh(w: World, spec: AgentSpec, message: string): Trial {
    Trial(Opening(w, spec, message), 0, 0, 0, [], [],
          [RunStarted(spec.name, spec.version, spec.model)] + Gathered(w, spec, message))
  }

  // ---- the abstraction --------------------------------------------------------------------

  function Calls(invocations: seq<Invocation>): seq<Call> {
    if invocations == [] then [] else
    var last := invocations[|invocations| - 1];
    Calls(invocations[..|invocations| - 1]) + [Call(last.tool, last.name, last.arguments)]
  }

  predicate OfApproval(b: Body) {
    b.ToolApprovalRequired? || b.ToolApproved?
  }

  // The events of a run, but for those that only a suspension has.
  function Trace(events: seq<RunEvent>): seq<Body> {
    if events == [] then [] else
    var last := events[|events| - 1].body;
    Trace(events[..|events| - 1]) + if OfApproval(last) then [] else [last]
  }

  function Abs(l: Live): Trial {
    Trial(l.conversation, l.iteration, l.run.promptTokens, l.run.completionTokens, l.run.requests,
          Calls(l.run.invocations), Trace(l.run.events))
  }

  // A suspended run, read from its row alone.
  function AbsPaused(run: Run): Trial
    requires run.checkpoint.Suspended?
  {
    Trial(run.checkpoint.conversation, run.checkpoint.iteration, run.promptTokens, run.completionTokens, run.requests,
          Calls(run.invocations), Trace(run.events))
  }

  function VerdictOf(run: Run): Verdict
    requires run.state == COMPLETED ==> run.output.Some?
    requires run.state != COMPLETED ==> run.error.Some?
  {
    Verdict(run.iterations, run.promptTokens, run.completionTokens, run.requests, Calls(run.invocations),
            Trace(run.events), if run.state == COMPLETED then Concluded(run.output.value) else Broke(run.error.value))
  }

  // What the uninterrupted loop would still do from where a suspended run stands.
  function Remainder(w: World, decide: nat -> Decision, run: Run): Verdict
    requires run.checkpoint.Suspended?
  {
    var t := AbsPaused(run);
    Reserve(w, decide, TermsOf(run.version), run.userPermissions,
            AskHuman(w, decide(t.iteration), run.checkpoint.pendingCall, t))
  }

  // The run, suspended or finished, is on its way to `v`.
  ghost predicate Towards(w: World, decide: nat -> Decision, run: Run, v: Verdict) {
    if run.state == WAITING_FOR_APPROVAL
    then run.checkpoint.Suspended? && Remainder(w, decide, run) == v
    else && (run.state == COMPLETED ==> run.output.Some?)
         && (run.state != COMPLETED ==> run.error.Some?)
         && VerdictOf(run) == v
  }

  lemma TermsPersisted(spec: AgentSpec)
    ensures TermsOf(Persisted(spec)) == TermsOf(spec)
  {
    OffersPersisted(spec.tools);
    PersistedKeepsGrants(spec);
  }

  lemma TraceOneMore(events: seq<RunEvent>, e: RunEvent)
    ensures Trace(events + [e]) == Trace(events) + if OfApproval(e.body) then [] else [e.body]
  {
    assert (events + [e])[..|events|] == events;
  }

  // An event emitted is an event seen.
  lemma EmitSaw(l: Live, b: Body)
    ensures Abs(Emit(l, b)) == if OfApproval(b) then Abs(l) else Saw(Abs(l), b)
  {
    TraceOneMore(l.run.events, RunEvent(l.sequence, b));
  }

  lemma CallsOneMore(invocations: seq<Invocation>, i: Invocation)
    ensures Calls(invocations + [i]) == Calls(invocations) + [Call(i.tool, i.name, i.arguments)]
  {
  }

  // ---- simulation: one call, one batch ----------------------------------------------------

  // A call of a tool the catalogue has.
  lemma DispatchSimulates(w: World, id: nat, granted: set<string>, call: ToolCall, k: nat, tool: Tool, l: Live,
                          now: int)
    requires l.run.state == RUNNING && w.catalogue(l.iteration, k, call.name) == Some(tool)
    ensures var n := Dispatch(w, id, granted, call, k, tool, l, now);
            var p := l.run.userPermissions;
            && n.run.userPermissions == p && n.run.version == l.run.version
            && (n.run.state == WAITING_FOR_APPROVAL <==> NeedsHuman(w, granted, p, call, k, l.iteration))
            && (n.run.state == WAITING_FOR_APPROVAL ==>
                  n.run.checkpoint.Suspended? && n.run.checkpoint.pendingCall == call && AbsPaused(n.run) == Abs(l))
            && (n.run.state != WAITING_FOR_APPROVAL ==>
                  n.run.state == RUNNING && n.run.iterations == l.run.iterations
                  && Abs(n) == AnswerCall(w, granted, p, call, k, Abs(l)))
  {
    hide Trace, Calls, Authorise, SpecOf;
    var row := Requested(id, tool, call, now);
    var denial := Authorise(w, l.iteration, tool, granted, l.run.userPermissions);
    if denial.Some? {
      EmitSaw(Insert(l, RejectedRow(row, now)), ToolRejected(call.name, Denied(call.name, denial.value)));
    } else if tool.riskLevel in w.approvalRequired(l.iteration) {
      TraceOneMore(l.run.events, RunEvent(l.sequence, ToolApprovalRequired(call.name, |l.executions|)));
    } else {
      var result := w.execute(l.iteration, k, tool, call.arguments);
      var done := Insert(Perform(l, |l.executions|, tool, call.name, call.arguments), FinishedRow(row, result));
      CallsOneMore(l.run.invocations, Invocation(|l.executions|, tool, call.name, call.arguments));
      EmitSaw(done, ToolExecuted(call.name, result.success));
    }
  }

  lemma CallSimulates(w: World, id: nat, granted: set<string>, call: ToolCall, k: nat, l: Live, now: int)
    requires l.run.state == RUNNING
    ensures var n := Handle(w, id, granted, call, k, l, now);
            var p := l.run.userPermissions;
            && n.run.userPermissions == p && n.run.version == l.run.version
            && (n.run.state == WAITING_FOR_APPROVAL <==> NeedsHuman(w, granted, p, call, k, l.iteration))
            && (n.run.state == WAITING_FOR_APPROVAL ==>
                  n.run.checkpoint.Suspended? && n.run.checkpoint.pendingCall == call
                  && AbsPaused(n.run) == Taken(Abs(l), call))
            && (n.run.state != WAITING_FOR_APPROVAL ==>
                  n.run.state == RUNNING && n.run.iterations == l.run.iterations
                  && Abs(n) == AnswerCall(w, granted, p, call, k, Taken(Abs(l), call)))
  {
    EmitSaw(l, ToolRequested(call.name));
    hide Trace, Calls, Dispatch, Authorise;
    var a := Emit(l, ToolRequested(call.name));
    match w.catalogue(a.iteration, k, call.name)
    case None =>
    case Some(tool) => DispatchSimulates(w, id, granted, call, k, tool, a, now);
  }

  lemma {:induction false} BatchSimulates(w: World, id: nat, decide: nat -> Decision, granted: set<string>,
                                          calls: seq<ToolCall>, k: nat, l: Live, now: int)
    requires k <= |calls| && l.run.state == RUNNING
    ensures var n := Batch(w, id, granted, calls, k, l, now);
            var p := l.run.userPermissions;
            var t := AnswerBatch(w, decide, granted, p, calls, k, Abs(l));
            && n.run.userPermissions == p && n.run.version == l.run.version
            && (n.run.state == WAITING_FOR_APPROVAL <==> Interrupted(w, granted, p, calls, k, l.iteration))
            && (n.run.state == WAITING_FOR_APPROVAL ==>
                  && n.run.checkpoint.Suspended?
                  && n.run.checkpoint.iteration == l.iteration
                  && t == AskHuman(w, decide(l.iteration), n.run.checkpoint.pendingCall, AbsPaused(n.run)))
            && (n.run.state != WAITING_FOR_APPROVAL ==>
                  n.run.state == RUNNING && n.run.iterations == l.run.iterations && t == Abs(n))
    decreases |calls| - k
  {
    hide AnswerCall, AskHuman, Handle, NeedsHuman, Trace, Calls;
    if k < |calls| {
      CallSimulates(w, id, granted, calls[k], k, l, now);
      var n := Handle(w, id, granted, calls[k], k, l, now);
      if n.run.state != WAITING_FOR_APPROVAL {
        BatchSimulates(w, id, decide, granted, calls, k + 1, n, now);
      }
    }
  }

  // ---- simulation: the loop ---------------------------------------------------------------

  lemma AskSimulates(spec: AgentSpec, served: string, l: Live)
    ensures Abs(Ask(spec, served, l)) == Posed(Abs(l), Request(spec, served, l.conversation))
  {
    TraceOneMore(l.run.events, RunEvent(l.sequence, LlmRequest(l.iteration + 1, |l.conversation|)));
    hide Offers, Trace, Calls;
  }

  lemma ExchangeSimulates(spec: AgentSpec, served: string, l: Live, c: ChatOutcome)
    requires l.run.state == RUNNING && c.Completion?
    ensures var a := Ask(spec, served, l);
            var b := Receive(a, c);
            var r := Request(spec, served, l.conversation);
            && Abs(a) == Posed(Abs(l), r)
            && Abs(b) == Heard(Posed(Abs(l), r), c)
            && Abs(Say(b, Assistant(c.content, c.toolCalls))) == Spoken(Heard(Posed(Abs(l), r), c), c)
            && b.run.state == RUNNING && b.run.iterations == b.iteration == l.iteration + 1
            && b.run.userPermissions == l.run.userPermissions && b.run.version == l.run.version
  {
    hide Offers, Trace, Calls;
    AskSimulates(spec, served, l);
    var a := Ask(spec, served, l);
    var heard := LlmResponse(a.iteration, c.content, Names(c.toolCalls), c.promptTokens, c.completionTokens);
    TraceOneMore(a.run.events, RunEvent(a.sequence, heard));
  }

  // One iteration that ends in tool calls.
  lemma TurnSimulates(w: World, id: nat, decide: nat -> Decision, spec: AgentSpec, served: string, l: Live,
                      c: ChatOutcome, now: int)
    requires l.run.state == RUNNING && c.Completion?
    ensures var d := Turn(w, id, spec, c, Receive(Ask(spec, served, l), c), now);
            var p := l.run.userPermissions;
            var t := AnswerBatch(w, decide, Granted(spec), p, c.toolCalls, 0,
                                 Spoken(Heard(Posed(Abs(l), Request(spec, served, l.conversation)), c), c));
            && d.run.userPermissions == p && d.run.version == l.run.version
            && (d.run.state == WAITING_FOR_APPROVAL <==>
                  Interrupted(w, Granted(spec), p, c.toolCalls, 0, l.iteration + 1))
            && (d.run.state == WAITING_FOR_APPROVAL ==>
                  && d.run.checkpoint.Suspended?
                  && d.run.checkpoint.iteration == l.iteration + 1
                  && t == AskHuman(w, decide(l.iteration + 1), d.run.checkpoint.pendingCall, AbsPaused(d.run)))
            && (d.run.state != WAITING_FOR_APPROVAL ==>
                  d.run.state == RUNNING && d.run.iterations == d.iteration == l.iteration + 1 && t == Abs(d))
  {
    ExchangeSimulates(spec, served, l, c);
    var b := Say(Receive(Ask(spec, served, l), c), Assistant(c.content, c.toolCalls));
    BatchSimulates(w, id, decide, Granted(spec), c.toolCalls, 0, b, now);
  }

  lemma FailSimulates(l: Live, error: RunError, now: int)
    requires l.iteration == l.run.iterations
    ensures VerdictOf(Fail(Emit(l, RunFailed(error)), error, now).run) == Stop(Abs(l), Broke(error))
  {
    TraceOneMore(l.run.events, RunEvent(l.sequence, RunFailed(error)));
    hide Trace, Calls;
  }

  lemma CompleteSimulates(l: Live, output: string, now: int)
    requires l.iteration == l.run.iterations
    ensures VerdictOf(Complete(Emit(l, RunCompleted(output, l.iteration)), output, now).run)
         == Stop(Abs(l), Concluded(output))
  {
    TraceOneMore(l.run.events, RunEvent(l.sequence, RunCompleted(output, l.iteration)));
    hide Trace, Calls;
  }

  // An iteration that ends the run, or none left.
  lemma LastSimulates(w: World, id: nat, decide: nat -> Decision, spec: AgentSpec, served: string, l: Live, now: int)
    requires l.run.state == RUNNING && l.iteration == l.run.iterations
    requires TermsOf(spec) == TermsOf(l.run.version)
    requires l.iteration < spec.maxIterations ==>
      var c := w.chat(l.iteration + 1, Request(spec, served, l.conversation));
      c.ProviderError? || c.toolCalls == []
    ensures var n := Iterate(w, id, spec, served, l, now);
            Towards(w, decide, n.run, Loop(w, decide, TermsOf(spec), l.run.userPermissions, served, true, Abs(l)))
  {
    hide Batch, AnswerBatch, Interrupted, Offers, Granted, Names, Calls, Remainder, Reserve, Trace, Stop, VerdictOf;
    if l.iteration >= spec.maxIterations {
      FailSimulates(l, OutOfIterations(spec.maxIterations), now);
    } else {
      var c := w.chat(l.iteration + 1, Request(spec, served, l.conversation));
      var a := Ask(spec, served, l);
      AskSimulates(spec, served, l);
      if c.ProviderError? {
        FailSimulates(a, ModelUnreachable(c.cause), now);
      } else {
        ExchangeSimulates(spec, served, l, c);
        CompleteSimulates(Receive(a, c), c.content, now);
      }
    }
  }

  lemma {:induction false} LoopSimulates(w: World, id: nat, decide: nat -> Decision, spec: AgentSpec, served: string,
                                         l: Live, now: int)
    requires l.run.state == RUNNING && l.iteration == l.run.iterations
    requires TermsOf(spec) == TermsOf(l.run.version)
    ensures var n := Iterate(w, id, spec, served, l, now);
            Towards(w, decide, n.run, Loop(w, decide, TermsOf(spec), l.run.userPermissions, served, true, Abs(l)))
    decreases spec.maxIterations - l.iteration
  {
    hide Batch, Handle, AnswerBatch, Interrupted, AskHuman, Offers, Granted, Names, Calls;
    var r := Request(spec, served, l.conversation);
    var c := w.chat(l.iteration + 1, r);
    if l.iteration < spec.maxIterations && c.Completion? && c.toolCalls != [] {
      ExchangeSimulates(spec, served, l, c);
      TurnSimulates(w, id, decide, spec, served, l, c, now);
      var d := Turn(w, id, spec, c, Receive(Ask(spec, served, l), c), now);
      if d.run.state != WAITING_FOR_APPROVAL {
        LoopSimulates(w, id, decide, spec, served, d, now);
      }
    } else {
      LastSimulates(w, id, decide, spec, served, l, now);
    }
  }

  lemma ServeSimulates(w: World, id: nat, decide: nat -> Decision, spec: AgentSpec, l: Live, now: int)
    requires l.run.state == RUNNING && l.iteration == l.run.iterations
    requires TermsOf(spec) == TermsOf(l.run.version)
    ensures Towards(w, decide, Serve(w, id, spec, l, now).run,
                    Reserve(w, decide, TermsOf(spec), l.run.userPermissions, Abs(l)))
  {
    match w.resolve(l.iteration, spec.model)
    case Err(cause) => FailSimulates(l, ModelUnavailable(spec.model, cause), now);
    case Ok(served) => LoopSimulates(w, id, decide, spec, served, l, now);
  }

  lemma InjectSimulates(question: string, found: Found, l: Live)
    ensures var events := (if found.bases == [] then [] else [RagSearch(Clip(question, 200), found.bases)])
                          + (if found.memories == 0 then [] else [MemoryRead(found.memories)]);
            var n := Inject(question, found, l);
            && Abs(n) == Abs(l).(trace := Abs(l).trace + events, conversation := n.conversation)
            && n.conversation
               == (if found.context == "" then l.conversation else [System(found.context)] + l.conversation)
  {
    hide Clip, Trace, Calls;
    var rag, memory := RagSearch(Clip(question, 200), found.bases), MemoryRead(found.memories);
    var rags := if found.bases == [] then [] else [rag];
    var memories := if found.memories == 0 then [] else [memory];
    var a := if found.bases == [] then l else Emit(l, rag);
    EmitSaw(l, rag);
    assert Abs(a) == Abs(l).(trace := Abs(l).trace + rags);
    var b := if found.memories == 0 then a else Emit(a, memory);
    EmitSaw(a, memory);
    assert Abs(b) == Abs(a).(trace := Abs(a).trace + memories);
    assert (Abs(l).trace + rags) + memories == Abs(l).trace + (rags + memories);
  }

  // The events and the conversation a run opens with.
  lemma OpenSimulates(w: World, spec: AgentSpec, message: string, actor: Actor, executions: seq<ToolExecution>)
    ensures Abs(Open(w, spec, Live(NewRun(spec, actor), executions, [User(message)], 1, 0))) == Fresh(w, spec, message)
  {
    hide SpecToJson;
    var l := Live(NewRun(spec, actor), executions, [User(message)], 1, 0);
    var started := RunStarted(spec.name, spec.version, spec.model);
    EmitSaw(l, started);
    assert [] + [started] == [started];
    var a := Emit(l, started);
    assert Question([User(message)]) == message;
    if w.retrieval.Some? && !Blank(message) {
      var found := w.retrieval.value(spec, message);
      if found.Some? {
        InjectSimulates(message, found.value, a);
      }
    }
  }

  lemma OpenLeaves(w: World, spec: AgentSpec, l: Live)
    ensures var o := Open(w, spec, l);
            && o.run.state == l.run.state && o.run.iterations == l.run.iterations && o.iteration == l.iteration
            && o.run.version == l.run.version && o.run.userPermissions == l.run.userPermissions
  {
    hide Question, Clip;
  }

  // Starting a run sets it on its way to what the uninterrupted loop computes.
  lemma StartRefines(w: World, id: nat, decide: nat -> Decision, spec: AgentSpec, message: string, actor: Actor,
                     executions: seq<ToolExecution>, now: int)
    ensures var n := Execute(w, id, spec, message, NewRun(spec, actor), executions, now);
            Towards(w, decide, n.run, Reserve(w, decide, TermsOf(spec), actor.permissions, Fresh(w, spec, message)))
  {
    var l := Live(NewRun(spec, actor), executions, [User(message)], 1, 0);
    OpenSimulates(w, spec, message, actor, executions);
    OpenLeaves(w, spec, l);
    hide Open, Serve, Fresh, Abs, TermsOf, SpecToJson;
    ServeSimulates(w, id, decide, spec, Open(w, spec, l), now);
  }

  // The decision, in the row's terms and in the reference's.
  lemma DecideSimulates(w: World, p: nat, d: Decision, run: Run, executions: seq<ToolExecution>, now: int)
    requires p < |executions| && run.checkpoint.Suspended?
    requires executions[p].toolName == run.checkpoint.pendingCall.name
    requires executions[p].arguments == run.checkpoint.pendingCall.arguments
    ensures Abs(Decide(w, p, d, run, executions, now)) == AskHuman(w, d, run.checkpoint.pendingCall, AbsPaused(run))
  {
    hide Trace, Calls;
    var cp := run.checkpoint;
    var row := Decided(executions[p], d, now);
    var l := Live(run, executions[p := row], cp.conversation, cp.sequence, cp.iteration);
    if d.approved {
      EmitSaw(l, ToolApproved(row.toolName, d.approver));
      var a := Emit(l, ToolApproved(row.toolName, d.approver));
      var found := w.catalogueAtDecision(cp.iteration, row.toolName);
      if found.Some? {
        var result := w.executeApproved(cp.iteration, found.value, row.arguments);
        CallsOneMore(run.invocations, Invocation(p, found.value, row.toolName, row.arguments));
        var b := Perform(a, p, found.value, row.toolName, row.arguments);
        EmitSaw(b.(executions := b.executions[p := FinishedRow(row, result)]),
                ToolExecuted(row.toolName, result.success));
      }
    } else {
      EmitSaw(l, ToolRejected(row.toolName, Refused(row.toolName, d.reason)));
    }
  }

  // A suspended run that is given the decision the uninterrupted loop would have taken stays on
  // its way, whichever process resumes it: only the row and the pending execution are read.
  lemma ResumeRefines(w: World, id: nat, p: nat, decide: nat -> Decision, run: Run, executions: seq<ToolExecution>,
                      now: int)
    requires Paused(run) && p < |executions|
    requires executions[p].toolName == run.checkpoint.pendingCall.name
    requires executions[p].arguments == run.checkpoint.pendingCall.arguments
    ensures var n := Resume(w, id, p, decide(run.checkpoint.iteration), run, executions, now);
            Towards(w, decide, n.run, Remainder(w, decide, run))
  {
    hide AskHuman, Trace, Calls, Offers, Granted, SpecToJson, Numbered, Logged, WellAnswered;
    var cp := run.checkpoint;
    var d := decide(cp.iteration);
    var l := Decide(w, p, d, run, executions, now);
    DecideSimulates(w, p, d, run, executions, now);
    SpecRoundTrip(run.version);
    TermsPersisted(run.version);
    DecideKeeps(w, p, d, run, executions, now);
    assert l.sequence != 1 && l.iteration == l.run.iterations && l.run.userPermissions == run.userPermissions;
    hide AskHuman, Decide, Trace, Calls;
    ServeSimulates(w, id, decide, Persisted(run.version), l.(run := l.run.(state := RUNNING)), now);
  }

  // ---- resolving the model's name once, or again after every answer ------------------------

  // What the loop sends next.
  function NextRequest(terms: Terms, served: string, t: Trial): ChatRequest {
    ChatRequest([System(terms.systemPrompt)] + t.conversation, served, terms.temperature, terms.offers)
  }

  // One iteration that ends in tool calls, all of them answered.
  function Through(w: World, decide: nat -> Decision, terms: Terms, permissions: set<string>, served: string,
                   t: Trial): Trial
    requires w.chat(t.iteration + 1, NextRequest(terms, served, t)).Completion?
  {
    var c := w.chat(t.iteration + 1, NextRequest(terms, served, t));
    AnswerBatch(w, decide, terms.granted, permissions, c.toolCalls, 0,
                Spoken(Heard(Posed(t, NextRequest(terms, served, t)), c), c))
  }

  // Wherever the plain loop stops for a human, the model's name still resolves: to the name
  // served so far, or, once the iterations are used up, to any.
  predicate StillServed(w: World, decide: nat -> Decision, terms: Terms, permissions: set<string>, served: string,
                        t: Trial)
    decreases terms.maxIterations - t.iteration
  {
    t.iteration < terms.maxIterations ==>
      var c := w.chat(t.iteration + 1, NextRequest(terms, served, t));
      c.Completion? && c.toolCalls != [] ==>
        var d := Through(w, decide, terms, permissions, served, t);
        && (Interrupted(w, terms.granted, permissions, c.toolCalls, 0, d.iteration) ==>
              && w.resolve(d.iteration, terms.model).Ok?
              && (d.iteration < terms.maxIterations ==> w.resolve(d.iteration, terms.model).value == served))
        && StillServed(w, decide, terms, permissions, served, d)
  }

  lemma {:induction false} BatchAsksNothing(w: World, decide: nat -> Decision, granted: set<string>,
                                            permissions: set<string>,
                                            calls: seq<ToolCall>, k: nat, t: Trial)
    requires k <= |calls|
    ensures AnswerBatch(w, decide, granted, permissions, calls, k, t).requests == t.requests
    decreases |calls| - k
  {
    if k < |calls| && !NeedsHuman(w, granted, permissions, calls[k], k, t.iteration) {
      BatchAsksNothing(w, decide, granted, permissions, calls, k + 1,
                       AnswerCall(w, granted, permissions, calls[k], k, Taken(t, calls[k])));
    }
  }

  // Whatever the loop comes to, what was already sent stays sent, and what is sent next is sent.
  lemma {:induction false} VerdictKeepsRequests(w: World, decide: nat -> Decision, terms: Terms,
                                                permissions: set<string>, served: string,
                                                again: bool, t: Trial)
    ensures var v := Loop(w, decide, terms, permissions, served, again, t);
            if t.iteration < terms.maxIterations
            then t.requests + [NextRequest(terms, served, t)] <= v.requests
            else v.requests == t.requests
    decreases terms.maxIterations - t.iteration
  {
    hide AnswerBatch, Interrupted, Names;
    if t.iteration < terms.maxIterations {
      var c := w.chat(t.iteration + 1, NextRequest(terms, served, t));
      if c.Completion? && c.toolCalls != [] {
        var b := Spoken(Heard(Posed(t, NextRequest(terms, served, t)), c), c);
        var d := Through(w, decide, terms, permissions, served, t);
        BatchAsksNothing(w, decide, terms.granted, permissions, c.toolCalls, 0, b);
        VerdictKeepsRequests(w, decide, terms, permissions, served, again, d);
        if again && w.resolve(d.iteration, terms.model).Ok? {
          VerdictKeepsRequests(w, decide, terms, permissions, w.resolve(d.iteration, terms.model).value, again, d);
        }
      }
    }
  }

  // Resolving again at a stop shows, unless the answer is as it was or no longer matters.
  lemma StopShows(w: World, decide: nat -> Decision, terms: Terms, permissions: set<string>, served: string, d: Trial)
    ensures var r := w.resolve(d.iteration, terms.model);
            var plain := Loop(w, decide, terms, permissions, served, false, d);
            Reserve(w, decide, terms, permissions, d) == plain <==>
              && r.Ok?
              && (d.iteration < terms.maxIterations ==>
                    r.value == served && Loop(w, decide, terms, permissions, served, true, d) == plain)
  {
    VerdictKeepsRequests(w, decide, terms, permissions, served, false, d);
    match w.resolve(d.iteration, terms.model)
    case Err(_) =>
    case Ok(other) =>
      VerdictKeepsRequests(w, decide, terms, permissions, other, true, d);
      if d.iteration < terms.maxIterations && other != served {
        var v := Loop(w, decide, terms, permissions, served, false, d);
        var u := Loop(w, decide, terms, permissions, other, true, d);
        assert v.requests[|d.requests|] == NextRequest(terms, served, d);
        assert u.requests[|d.requests|] == NextRequest(terms, other, d);
      }
  }

  // The loop that resolves the model's name afresh after every answer comes to what the plain
  // loop comes to exactly when the name is still served at every stop of the plain loop.
  lemma {:induction false} ResolvingAgainShows(w: World, decide: nat -> Decision, terms: Terms,
                                               permissions: set<string>, served: string, t: Trial)
    ensures Loop(w, decide, terms, permissions, served, true, t)
         == Loop(w, decide, terms, permissions, served, false, t)
       <==> StillServed(w, decide, terms, permissions, served, t)
    decreases terms.maxIterations - t.iteration
  {
    if t.iteration < terms.maxIterations {
      var c := w.chat(t.iteration + 1, NextRequest(terms, served, t));
      if c.Completion? && c.toolCalls != [] {
        var d := Through(w, decide, terms, permissions, served, t);
        ResolvingAgainShows(w, decide, terms, permissions, served, d);
        assert Loop(w, decide, terms, permissions, served, false, t)
            == Loop(w, decide, terms, permissions, served, false, d);
        if Interrupted(w, terms.granted, permissions, c.toolCalls, 0, d.iteration) {
          assert Loop(w, decide, terms, permissions, served, true, t) == Reserve(w, decide, terms, permissions, d);
          StopShows(w, decide, terms, permissions, served, d);
        } else {
          assert Loop(w, decide, terms, permissions, served, true, t)
              == Loop(w, decide, terms, permissions, served, true, d);
        }
      }
    }
  }

  // ---- which messages are answered in full ------------------------------------------------

  // No call before the last needs a human.
  predicate NoEarlyStop(w: World, granted: set<string>, permissions: set<string>, calls: seq<ToolCall>, k: nat,
                        iteration: nat)
  {
    forall j :: k <= j < |calls| - 1 ==> !NeedsHuman(w, granted, permissions, calls[j], j, iteration)
  }

  // A human's answer ends the batch: it is answered in full if and only if no call before its last
  // needs one, and never by more messages than it has calls.
  lemma {:induction false} BatchAnsweredInFullExactlyWhenNoEarlyStop(w: World, decide: nat -> Decision,
                                                                     granted: set<string>, permissions: set<string>,
                                                                     calls: seq<ToolCall>, k: nat, t: Trial)
    requires k <= |calls|
    ensures var n := |AnswerBatch(w, decide, granted, permissions, calls, k, t).conversation|;
            && n <= |t.conversation| + |calls| - k
            && (n == |t.conversation| + |calls| - k <==> NoEarlyStop(w, granted, permissions, calls, k, t.iteration))
    decreases |calls| - k
  {
    if k < |calls| {
      if NeedsHuman(w, granted, permissions, calls[k], k, t.iteration) {
        assert |AskHuman(w, decide(t.iteration), calls[k], Taken(t, calls[k])).conversation| == |t.conversation| + 1;
      } else {
        var n := AnswerCall(w, granted, permissions, calls[k], k, Taken(t, calls[k]));
        assert |n.conversation| == |t.conversation| + 1 && n.iteration == t.iteration;
        BatchAnsweredInFullExactlyWhenNoEarlyStop(w, decide, granted, permissions, calls, k + 1, n);
      }
    }
  }

  // What the conversation of a run is once the batch is behind it: at once if nobody had to be
  // asked, else after the decision.
  function Behind(w: World, n: Live, p: nat, d: Decision, now: int): seq<Message>
    requires p < |n.executions|
  {
    if n.run.state == WAITING_FOR_APPROVAL then Decide(w, p, d, n.run, n.executions, now).conversation
    else n.conversation
  }

  // The same of the run itself, suspended and answered on whichever row.
  lemma MessageAnsweredInFullExactlyWhenNoEarlyStop(w: World, id: nat, granted: set<string>, calls: seq<ToolCall>,
                                                    l: Live,
                                                    p: nat, d: Decision, now: int, later: int)
    requires l.run.state == RUNNING
    requires p < |Batch(w, id, granted, calls, 0, l, now).executions|
    ensures var n := Batch(w, id, granted, calls, 0, l, now);
            |Behind(w, n, p, d, later)| == |l.conversation| + |calls| <==>
              NoEarlyStop(w, granted, l.run.userPermissions, calls, 0, l.iteration)
  {
    var decide := (i: nat) => d;
    var n := Batch(w, id, granted, calls, 0, l, now);
    BatchSimulates(w, id, decide, granted, calls, 0, l, now);
    BatchAnsweredInFullExactlyWhenNoEarlyStop(w, decide, granted, l.run.userPermissions, calls, 0, Abs(l));
    hide Batch, AnswerBatch, NeedsHuman;
    if n.run.state == WAITING_FOR_APPROVAL {
      var c := n.run.checkpoint;
      assert |Decide(w, p, d, n.run, n.executions, later).conversation| == |c.conversation| + 1;
      assert |AskHuman(w, d, c.pendingCall, AbsPaused(n.run)).conversation| == |c.conversation| + 1;
    }
  }

  lemma SentNext(w: World, decide: nat -> Decision, terms: Terms, permissions: set<string>,
                 served: Result<string, string>,
                 d: Trial)
    requires served == w.resolve(d.iteration, terms.model)
    ensures var v := Reserve(w, decide, terms, permissions, d);
            && d.requests <= v.requests
            && (|v.requests| > |d.requests| ==>
                  served.Ok? && v.requests[|d.requests|] == NextRequest(terms, served.value, d))
  {
    if served.Ok? {
      VerdictKeepsRequests(w, decide, terms, permissions, served.value, true, d);
    }
  }

  // And of what is sent: the request after a message with calls, if there is one, answers every one
  // of them if and only if none before the last needs a human.
  lemma NextRequestAnswersInFullExactlyWhenNoEarlyStop(w: World, decide: nat -> Decision, terms: Terms,
                                                       permissions: set<string>, served: string, again: bool, t: Trial)
    requires t.iteration < terms.maxIterations
    requires var c := w.chat(t.iteration + 1, NextRequest(terms, served, t)); c.Completion? && c.toolCalls != []
    requires |Loop(w, decide, terms, permissions, served, again, t).requests| > |t.requests| + 1
    ensures var v := Loop(w, decide, terms, permissions, served, again, t);
            var calls := w.chat(t.iteration + 1, NextRequest(terms, served, t)).toolCalls;
            && v.requests[|t.requests|] == NextRequest(terms, served, t)
            && (|v.requests[|t.requests| + 1].messages| == |v.requests[|t.requests|].messages| + 1 + |calls| <==>
                  NoEarlyStop(w, terms.granted, permissions, calls, 0, t.iteration + 1))
  {
    var r := NextRequest(terms, served, t);
    var c := w.chat(t.iteration + 1, r);
    var b := Spoken(Heard(Posed(t, r), c), c);
    var d := Through(w, decide, terms, permissions, served, t);
    var v := Loop(w, decide, terms, permissions, served, again, t);
    BatchAsksNothing(w, decide, terms.granted, permissions, c.toolCalls, 0, b);
    BatchAnsweredInFullExactlyWhenNoEarlyStop(w, decide, terms.granted, permissions, c.toolCalls, 0, b);
    assert d.requests == t.requests + [r];
    if again && Interrupted(w, terms.granted, permissions, c.toolCalls, 0, d.iteration) {
      assert v == Reserve(w, decide, terms, permissions, d);
      SentNext(w, decide, terms, permissions, w.resolve(d.iteration, terms.model), d);
    } else {
      assert v == Loop(w, decide, terms, permissions, served, again, d);
      VerdictKeepsRequests(w, decide, terms, permissions, served, again, d);
      assert v.requests[|d.requests|] == NextRequest(terms, served, d);
    }
  }
}
