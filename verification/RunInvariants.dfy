// What every drained event stream keeps: numbering, accounting, answered tool calls, and the
// agreement between the trace and the row it leaves behind.
module RunInvariants {
  import opened Outcome
  import opened AgentSpecs
  import opened RunModel
  import opened RunLoop

  // ---- reading a trace --------------------------------------------------------------------

  // One assistant message that asked for tools: how many of its calls were taken up, and
  // whether the last of those stopped for a human.
  datatype Asked = Asked(requested: nat, suspended: bool)

  datatype Totals = Totals(requests: nat, suspensions: nat, prompt: nat, completion: nat, batches: seq<Asked>)

  function Amend(batches: seq<Asked>, more: nat, suspends: bool): seq<Asked> {
    if batches == [] then [] else
    var last := batches[|batches| - 1];
    batches[|batches| - 1 := Asked(last.requested + more, last.suspended || suspends)]
  }

  function Count(t: Totals, b: Body): Totals {
    match b
    case LlmRequest(_, _) => t.(requests := t.requests + 1)
    case LlmResponse(_, _, tools, p, c) =>
      t.(prompt := t.prompt + p, completion := t.completion + c,
         batches := if tools == [] then t.batches else t.batches + [Asked(0, false)])
    case ToolRequested(_) => t.(batches := Amend(t.batches, 1, false))
    case ToolApprovalRequired(_, _) => t.(suspensions := t.suspensions + 1, batches := Amend(t.batches, 0, true))
    case _ => t
  }

  function Read(events: seq<RunEvent>): Totals {
    if events == [] then Totals(0, 0, 0, 0, [])
    else Count(Read(events[..|events| - 1]), events[|events| - 1].body)
  }

  lemma ReadOneMore(events: seq<RunEvent>, e: RunEvent)
    ensures Read(events + [e]) == Count(Read(events), e.body)
  {
  }

  // ---- invariants -------------------------------------------------------------------------

  // Sequence numbers are exactly 1, 2, ..., n.
  ghost predicate Numbered(events: seq<RunEvent>) {
    forall i :: 0 <= i < |events| ==> events[i].sequence == i + 1
  }

  // RUN_STARTED comes first, and only there.
  ghost predicate Opened(events: seq<RunEvent>) {
    && events != []
    && forall i :: 0 <= i < |events| ==> (events[i].body.RunStarted? <==> i == 0)
  }

  predicate Stops(b: Body) {
    b.RunCompleted? || b.RunFailed? || b.ToolApprovalRequired?
  }

  // No event from position `from` on ends a stream.
  ghost predicate Quiet(events: seq<RunEvent>, from: nat) {
    forall i :: from <= i < |events| ==> !Stops(events[i].body)
  }

  predicate Answers(m: Message, call: ToolCall) {
    m.ToolMessage? && m.callId == call.id && m.name == call.name
  }

  // From position p: an assistant message and tool messages answering its first n calls in order.
  ghost predicate Answered(conversation: seq<Message>, p: int, n: nat) {
    && 0 <= p && p + 1 + n == |conversation|
    && conversation[p].Assistant?
    && n <= |conversation[p].toolCalls|
    && forall j :: 0 <= j < n ==> Answers(conversation[p + 1 + j], conversation[p].toolCalls[j])
  }

  // The conversation is an opening without tools followed by one answered turn per batch of the
  // trace: all of its calls, or, in a batch that was suspended, the calls up to the suspended one.
  ghost predicate WellAnswered(conversation: seq<Message>, batches: seq<Asked>)
    decreases |batches|
  {
    if batches == [] then forall m :: m in conversation ==> m.System? || m.User? else
    var last := batches[|batches| - 1];
    var p := |conversation| - 1 - last.requested;
    && Answered(conversation, p, last.requested)
    && (if last.suspended then last.requested >= 1 else last.requested == |conversation[p].toolCalls|)
    && WellAnswered(conversation[..p], batches[..|batches| - 1])
  }

  // What the model is told of a tool: its name, its description and its schema as registered, or,
  // if that is empty, the schema of no parameters.
  predicate Describes(o: Offer, t: ToolDefinition) {
    && o.name == t.name
    && o.description == t.description
    && (t.parametersSchema != map[] ==> o.parameters == t.parametersSchema)
    && (t.parametersSchema == map[] ==>
          o.parameters == map["type" := Text("object"), "properties" := Object(map[]), "required" := Array([])])
  }

  ghost predicate Offered(offers: seq<Offer>, tools: seq<ToolDefinition>) {
    |offers| == |tools| && forall i :: 0 <= i < |tools| ==> Describes(offers[i], tools[i])
  }

  lemma {:induction false} OffersDescribeTools(tools: seq<ToolDefinition>)
    ensures Offered(Offers(tools), tools)
  {
    if tools != [] {
      OffersDescribeTools(tools[1..]);
      var o := Offers(tools)[0];
      assert Offers(tools) == [o] + Offers(tools[1..]) && Describes(o, tools[0]);
    }
  }

  // What the provider was sent before the n-th batch: this agent's prompt, temperature and tools,
  // and a conversation that answers every earlier batch.
  ghost predicate Sent(r: ChatRequest, spec: AgentSpec, batches: seq<Asked>) {
    && r.messages != []
    && r.messages[0] == System(spec.systemPrompt)
    && r.temperature == spec.temperature
    && Offered(r.tools, spec.tools)
    && WellAnswered(r.messages[1..], batches)
  }

  ghost predicate Logged(requests: seq<ChatRequest>, spec: AgentSpec, batches: seq<Asked>) {
    forall n :: 0 <= n < |requests| ==> n <= |batches| && Sent(requests[n], spec, batches[..n])
  }

  // Only the batches before a request matter to it, so amending the newest batch is harmless.
  lemma LoggedAmended(requests: seq<ChatRequest>, spec: AgentSpec, b: seq<Asked>, c: seq<Asked>)
    requires Logged(requests, spec, b) && |requests| <= |b| == |c|
    requires b != [] && b[..|b| - 1] == c[..|c| - 1]
    ensures Logged(requests, spec, c)
  {
    forall n | 0 <= n < |requests|
      ensures n <= |c| && Sent(requests[n], spec, c[..n])
    {
      assert c[..n] == c[..|c| - 1][..n] == b[..|b| - 1][..n] == b[..n];
    }
  }

  // The row's counters are the trace's totals, and every request was well formed.
  ghost predicate Ledger(run: Run) {
    var t := Read(run.events);
    && Numbered(run.events)
    && Opened(run.events)
    && t.requests == run.iterations == |run.requests|
    && t.prompt == run.promptTokens
    && t.completion == run.completionTokens
    && (run.iterations <= run.version.maxIterations || run.iterations == 0)
    && t.suspensions <= |t.batches| <= run.iterations
    && Logged(run.requests, run.version, t.batches)
  }

  // The spec the loop runs under: the run's own version, directly or through the checkpoint.
  ghost predicate Under(spec: AgentSpec, run: Run) {
    spec == run.version || spec == Persisted(run.version)
  }

  // Not over: the checkpoint carries the version's JSON, and no end has been recorded.
  ghost predicate Carries(run: Run) {
    !run.checkpoint.Cleared? && run.checkpoint.spec == SpecToJson(run.version) && run.finishedAt.None?
  }

  // At the head of the loop.
  ghost predicate AtHead(l: Live) {
    var t := Read(l.run.events);
    && l.run.state == RUNNING
    && Ledger(l.run)
    && Carries(l.run)
    && l.sequence == |l.run.events| + 1
    && l.iteration == l.run.iterations == |t.batches|
    && WellAnswered(l.conversation, t.batches)
  }

  // Inside the batch `calls`, k of which have been answered and `requested` taken up.
  ghost predicate MidTurn(conversation: seq<Message>, batches: seq<Asked>, calls: seq<ToolCall>, k: nat) {
    var p := |conversation| - 1 - k;
    && batches != []
    && Answered(conversation, p, k)
    && conversation[p].toolCalls == calls
    && WellAnswered(conversation[..p], batches[..|batches| - 1])
  }

  ghost predicate InBatch(l: Live, calls: seq<ToolCall>, k: nat) {
    var t := Read(l.run.events);
    && l.run.state == RUNNING
    && Ledger(l.run)
    && Carries(l.run)
    && l.sequence == |l.run.events| + 1
    && l.iteration == l.run.iterations == |t.batches|
    && MidTurn(l.conversation, t.batches, calls, k)
    && t.batches[|t.batches| - 1] == Asked(k, false)
    && t.suspensions < |t.batches|
  }

  // Suspended: everything the loop needs is in the row, and agrees with the trace.
  ghost predicate Paused(run: Run) {
    var t := Read(run.events);
    var cp := run.checkpoint;
    && run.state == WAITING_FOR_APPROVAL
    && Ledger(run)
    && cp.Suspended?
    && Carries(run)
    && cp.sequence == |run.events| + 1
    && cp.iteration == run.iterations == |t.batches|
    && run.events[|run.events| - 1].body.ToolApprovalRequired?
    && t.batches != []
    && t.batches[|t.batches| - 1].suspended
    && t.batches[|t.batches| - 1].requested >= 1
    && var k := t.batches[|t.batches| - 1].requested - 1;
       var p := |cp.conversation| - 1 - k;
       && Answered(cp.conversation, p, k)
       && k < |cp.conversation[p].toolCalls|
       && cp.conversation[p].toolCalls[k] == cp.pendingCall
       && WellAnswered(cp.conversation[..p], t.batches[..|t.batches| - 1])
  }

  // Finished by the loop itself.
  ghost predicate Ended(run: Run) {
    && Ledger(run)
    && run.finishedAt.Some?
    && var last := run.events[|run.events| - 1].body;
       || (run.state == COMPLETED && run.checkpoint.Cleared? && last.RunCompleted? && run.output == Some(last.output))
       || (run.state == FAILED && last.RunFailed? && run.error == Some(last.error)
           && !run.checkpoint.Cleared? && run.checkpoint.spec == SpecToJson(run.version))
  }

  // A drained stream: it emitted something, ended on the one event that stops it, and left the
  // row in the state that event announces.
  ghost predicate Drained(run: Run, from: nat) {
    && from < |run.events|
    && Quiet(run.events[..|run.events| - 1], from)
    && (Paused(run) || Ended(run))
  }

  // ---- preservation: one event ------------------------------------------------------------

  // An event that leaves the totals alone leaves the ledger alone.
  lemma EmitPlain(l: Live, b: Body)
    requires Ledger(l.run) && l.sequence == |l.run.events| + 1
    requires !b.RunStarted? && !b.LlmRequest? && !b.LlmResponse? && !b.ToolRequested? && !b.ToolApprovalRequired?
    ensures Ledger(Emit(l, b).run)
    ensures Read(Emit(l, b).run.events) == Read(l.run.events)
  {
  }

  lemma EmitRequested(l: Live, tool: string, calls: seq<ToolCall>, k: nat)
    requires InBatch(l, calls, k)
    ensures var n := Emit(l, ToolRequested(tool)); var t := Read(n.run.events);
            && Ledger(n.run) && n.run.state == RUNNING && Carries(n.run)
            && t.suspensions == Read(l.run.events).suspensions
            && t.batches == Read(l.run.events).batches[|t.batches| - 1 := Asked(k + 1, false)]
            && |t.batches| == l.iteration
            && MidTurn(n.conversation, t.batches, calls, k)
  {
    hide WellAnswered, Sent;
    var e := RunEvent(l.sequence, ToolRequested(tool));
    ReadOneMore(l.run.events, e);
    var t, u := Read(l.run.events), Read(l.run.events + [e]);
    assert u.batches[..|u.batches| - 1] == t.batches[..|t.batches| - 1];
    LoggedAmended(l.run.requests, l.run.version, t.batches, u.batches);
  }

  // Answering the next call moves the turn on by one message.
  lemma AnswerNext(conversation: seq<Message>, batches: seq<Asked>, calls: seq<ToolCall>, k: nat, m: Message)
    requires MidTurn(conversation, batches, calls, k)
    requires k < |calls| && Answers(m, calls[k])
    ensures MidTurn(conversation + [m], batches, calls, k + 1)
  {
    var c := conversation + [m];
    var p := |conversation| - 1 - k;
    assert c[..p] == conversation[..p];
  }

  lemma EmitSuspended(l: Live, call: ToolCall, execution: nat, calls: seq<ToolCall>, k: nat)
    requires Ledger(l.run) && Carries(l.run)
    requires l.sequence == |l.run.events| + 1
    requires l.iteration == l.run.iterations == |Read(l.run.events).batches|
    requires MidTurn(l.conversation, Read(l.run.events).batches, calls, k)
    requires k < |calls| && call == calls[k]
    requires var t := Read(l.run.events);
             t.batches[|t.batches| - 1] == Asked(k + 1, false) && t.suspensions < |t.batches|
    ensures Paused(Emit(Suspend(l, call), ToolApprovalRequired(call.name, execution)).run)
  {
    hide WellAnswered, Sent;
    var e := RunEvent(l.sequence, ToolApprovalRequired(call.name, execution));
    ReadOneMore(l.run.events, e);
    var t, u := Read(l.run.events), Read(l.run.events + [e]);
    assert u.batches[..|u.batches| - 1] == t.batches[..|t.batches| - 1];
    LoggedAmended(l.run.requests, l.run.version, t.batches, u.batches);
  }

  // ---- preservation: one call, one batch --------------------------------------------------

  // A call has been taken up but not answered yet.
  ghost predicate TakenUp(l: Live, calls: seq<ToolCall>, k: nat) {
    var t := Read(l.run.events);
    && l.run.state == RUNNING
    && Ledger(l.run)
    && Carries(l.run)
    && l.sequence == |l.run.events| + 1
    && l.iteration == l.run.iterations == |t.batches|
    && k < |calls|
    && MidTurn(l.conversation, t.batches, calls, k)
    && t.batches[|t.batches| - 1] == Asked(k + 1, false)
    && t.suspensions < |t.batches|
  }

  lemma TakeUp(l: Live, calls: seq<ToolCall>, k: nat, from: nat)
    requires InBatch(l, calls, k) && k < |calls| && Quiet(l.run.events, from)
    ensures var n := Emit(l, ToolRequested(calls[k].name)); TakenUp(n, calls, k) && Quiet(n.run.events, from)
  {
    EmitRequested(l, calls[k].name, calls, k);
  }

  // Answering it, with or without an event that leaves the totals alone.
  lemma Reply(l: Live, calls: seq<ToolCall>, k: nat, m: Message)
    requires TakenUp(l, calls, k) && Answers(m, calls[k])
    ensures InBatch(Say(l, m), calls, k + 1)
  {
    AnswerNext(l.conversation, Read(l.run.events).batches, calls, k, m);
  }

  lemma EmitMidCall(l: Live, b: Body, calls: seq<ToolCall>, k: nat, from: nat)
    requires TakenUp(l, calls, k) && Quiet(l.run.events, from)
    requires b.ToolRejected? || b.ToolExecuted?
    ensures TakenUp(Emit(l, b), calls, k) && Quiet(Emit(l, b).run.events, from)
  {
    EmitPlain(l, b);
  }

  lemma DispatchKeeps(w: World, id: nat, granted: set<string>, calls: seq<ToolCall>, k: nat, tool: Tool, l: Live,
                      now: int, from: nat)
    requires TakenUp(l, calls, k) && from <= |l.run.events| && Quiet(l.run.events, from)
    ensures var n := Dispatch(w, id, granted, calls[k], k, tool, l, now);
            && n.run.version == l.run.version
            && if n.run.state == WAITING_FOR_APPROVAL
               then Drained(n.run, from)
               else InBatch(n, calls, k + 1) && Quiet(n.run.events, from) && from <= |n.run.events|
  {
    hide WellAnswered, Logged, Read, Numbered, Opened;
    var call := calls[k];
    var row := Requested(id, tool, call, now);
    var denial := Authorise(w, l.iteration, tool, granted, l.run.userPermissions);
    if denial.Some? {
      var reply := Denied(call.name, denial.value);
      var m := Insert(l, RejectedRow(row, now));
      EmitMidCall(m, ToolRejected(call.name, reply), calls, k, from);
      Reply(Emit(m, ToolRejected(call.name, reply)), calls, k, ToolReply(call, reply));
    } else if tool.riskLevel in w.approvalRequired(l.iteration) {
      var m := Insert(l, PendingRow(row));
      EmitSuspended(m, call, |l.executions|, calls, k);
      var n := Emit(Suspend(m, call), ToolApprovalRequired(call.name, |l.executions|));
      assert n.run.events[..|n.run.events| - 1] == l.run.events;
    } else {
      var result := w.execute(l.iteration, k, tool, call.arguments);
      var m := Insert(Perform(l, |l.executions|, tool, call.name, call.arguments), FinishedRow(row, result));
      EmitMidCall(m, ToolExecuted(call.name, result.success), calls, k, from);
      Reply(Emit(m, ToolExecuted(call.name, result.success)), calls, k, ToolReply(call, Result(result.content)));
    }
  }

  lemma HandleKeeps(w: World, id: nat, granted: set<string>, calls: seq<ToolCall>, k: nat, l: Live, now: int, from: nat)
    requires InBatch(l, calls, k) && k < |calls|
    requires from <= |l.run.events| && Quiet(l.run.events, from)
    ensures var n := Handle(w, id, granted, calls[k], k, l, now);
            && n.run.version == l.run.version
            && if n.run.state == WAITING_FOR_APPROVAL
               then Drained(n.run, from)
               else InBatch(n, calls, k + 1) && Quiet(n.run.events, from) && from <= |n.run.events|
  {
    var a := Emit(l, ToolRequested(calls[k].name));
    TakeUp(l, calls, k, from);
    match w.catalogue(a.iteration, k, calls[k].name)
    case None => Reply(a, calls, k, ToolReply(calls[k], NoSuchTool(calls[k].name)));
    case Some(tool) => DispatchKeeps(w, id, granted, calls, k, tool, a, now, from);
  }

  lemma {:induction false} BatchKeeps(w: World, id: nat, granted: set<string>, calls: seq<ToolCall>, k: nat, l: Live,
                                      now: int, from: nat)
    requires k <= |calls| && InBatch(l, calls, k)
    requires from <= |l.run.events| && Quiet(l.run.events, from)
    ensures var n := Batch(w, id, granted, calls, k, l, now);
            && n.run.version == l.run.version
            && if n.run.state == WAITING_FOR_APPROVAL
               then Drained(n.run, from)
               else AtHead(n) && Quiet(n.run.events, from) && from <= |n.run.events|
    decreases |calls| - k
  {
    if k < |calls| {
      HandleKeeps(w, id, granted, calls, k, l, now, from);
      var n := Handle(w, id, granted, calls[k], k, l, now);
      if n.run.state != WAITING_FOR_APPROVAL {
        BatchKeeps(w, id, granted, calls, k + 1, n, now, from);
      }
    }
  }

  // ---- preservation: one iteration, the loop ----------------------------------------------

  lemma {:induction false} OffersPersisted(tools: seq<ToolDefinition>)
    ensures Offers(AllEnabled(tools)) == Offers(tools)
  {
    if tools != [] {
      assert AllEnabled(tools)[1..] == AllEnabled(tools[1..]);
      OffersPersisted(tools[1..]);
    }
  }

  // After LLM_REQUEST: the loop head, but for one request that has no response yet.
  ghost predicate Asking(l: Live) {
    var t := Read(l.run.events);
    && l.run.state == RUNNING
    && Ledger(l.run)
    && Carries(l.run)
    && l.sequence == |l.run.events| + 1
    && l.iteration == l.run.iterations == |t.batches| + 1
    && WellAnswered(l.conversation, t.batches)
  }

  // The request about to be sent is as good as those already logged.
  lemma LogOneMore(spec: AgentSpec, served: string, l: Live)
    requires AtHead(l) && Under(spec, l.run)
    ensures Logged(l.run.requests + [Request(spec, served, l.conversation)], l.run.version, Read(l.run.events).batches)
  {
    hide WellAnswered, Read;
    OffersPersisted(l.run.version.tools);
    OffersDescribeTools(l.run.version.tools);
    var t := Read(l.run.events);
    var r := Request(spec, served, l.conversation);
    assert r.messages[1..] == l.conversation;
    assert t.batches[..|t.batches|] == t.batches;
    assert Sent(r, l.run.version, t.batches);
  }

  lemma AskKeeps(spec: AgentSpec, served: string, l: Live, from: nat)
    requires AtHead(l) && Under(spec, l.run) && l.iteration < spec.maxIterations && Quiet(l.run.events, from)
    ensures Asking(Ask(spec, served, l)) && Quiet(Ask(spec, served, l).run.events, from)
  {
    hide WellAnswered, Logged, Request;
    LogOneMore(spec, served, l);
    ReadOneMore(l.run.events, RunEvent(l.sequence, LlmRequest(l.iteration + 1, |l.conversation|)));
  }

  lemma ReceiveFinal(l: Live, c: ChatOutcome, from: nat)
    requires Asking(l) && c.Completion? && c.toolCalls == [] && Quiet(l.run.events, from)
    ensures var n := Receive(l, c);
            Ledger(n.run) && n.sequence == |n.run.events| + 1 && n.run.state == RUNNING && Quiet(n.run.events, from)
  {
    hide WellAnswered, Sent;
    var response := LlmResponse(l.iteration, c.content, Names(c.toolCalls), c.promptTokens, c.completionTokens);
    ReadOneMore(l.run.events, RunEvent(l.sequence, response));
  }

  lemma ReceiveTurn(l: Live, c: ChatOutcome, from: nat)
    requires Asking(l) && c.Completion? && c.toolCalls != [] && Quiet(l.run.events, from)
    ensures var n := Say(Receive(l, c), Assistant(c.content, c.toolCalls));
            InBatch(n, c.toolCalls, 0) && Quiet(n.run.events, from)
  {
    hide WellAnswered, Sent;
    var response := LlmResponse(l.iteration, c.content, Names(c.toolCalls), c.promptTokens, c.completionTokens);
    ReadOneMore(l.run.events, RunEvent(l.sequence, response));
    var n := Say(Receive(l, c), Assistant(c.content, c.toolCalls));
    var t, u := Read(l.run.events), Read(n.run.events);
    assert n.conversation[..|l.conversation|] == l.conversation;
    assert u.batches[..|u.batches| - 1] == t.batches;
    forall i | 0 <= i < |n.run.requests|
      ensures i <= |u.batches| && Sent(n.run.requests[i], n.run.version, u.batches[..i])
    {
      assert u.batches[..i] == t.batches[..i];
    }
  }

  // A terminal event with the matching row: how a stream ends without suspending.
  lemma FailKeeps(l: Live, error: RunError, now: int, from: nat)
    requires !l.run.checkpoint.Cleared? && l.run.checkpoint.spec == SpecToJson(l.run.version)
    requires Ledger(l.run) && l.sequence == |l.run.events| + 1
    requires from <= |l.run.events| && Quiet(l.run.events, from)
    ensures var n := Fail(Emit(l, RunFailed(error)), error, now); Ended(n.run) && Drained(n.run, from)
  {
  }

  lemma CompleteKeeps(l: Live, output: string, iterations: nat, now: int, from: nat)
    requires Ledger(l.run) && l.sequence == |l.run.events| + 1
    requires from <= |l.run.events| && Quiet(l.run.events, from)
    ensures var n := Complete(Emit(l, RunCompleted(output, iterations)), output, now);
            Ended(n.run) && Drained(n.run, from)
  {
  }

  lemma {:induction false} IterateKeeps(w: World, id: nat, spec: AgentSpec, served: string, l: Live, now: int,
                                        from: nat)
    requires AtHead(l) && Under(spec, l.run)
    requires from <= |l.run.events| && Quiet(l.run.events, from)
    ensures var n := Iterate(w, id, spec, served, l, now); Drained(n.run, from) && n.run.version == l.run.version
    decreases spec.maxIterations - l.iteration
  {
    hide WellAnswered, Logged, Read, Numbered, Opened, Batch, Granted;
    if l.iteration >= spec.maxIterations {
      FailKeeps(l, OutOfIterations(spec.maxIterations), now, from);
    } else {
      var a := Ask(spec, served, l);
      AskKeeps(spec, served, l, from);
      var c := w.chat(a.iteration, Request(spec, served, l.conversation));
      if c.ProviderError? {
        FailKeeps(a, ModelUnreachable(c.cause), now, from);
      } else {
        var b := Receive(a, c);
        if c.toolCalls == [] {
          ReceiveFinal(a, c, from);
          CompleteKeeps(b, c.content, b.iteration, now, from);
        } else {
          ReceiveTurn(a, c, from);
          BatchKeeps(w, id, Granted(spec), c.toolCalls, 0, Say(b, Assistant(c.content, c.toolCalls)), now, from);
          var d := Turn(w, id, spec, c, b, now);
          if d.run.state != WAITING_FOR_APPROVAL {
            IterateKeeps(w, id, spec, served, d, now, from);
          }
        }
      }
    }
  }

  // ---- preservation: start ----------------------------------------------------------------

  // At the head of the loop, before anything was asked.
  ghost predicate Unasked(l: Live) {
    AtHead(l) && Read(l.run.events).batches == [] && Quiet(l.run.events, 0)
  }

  lemma EmitUnasked(l: Live, b: Body)
    requires Unasked(l) && (b.RagSearch? || b.MemoryRead?)
    ensures Unasked(Emit(l, b))
  {
  }

  lemma PrependUnasked(l: Live, context: string)
    requires Unasked(l)
    ensures Unasked(l.(conversation := [System(context)] + l.conversation))
  {
  }

  lemma InjectKeeps(question: string, found: Found, l: Live)
    requires Unasked(l)
    ensures var n := Inject(question, found, l); Unasked(n) && n.run.version == l.run.version
  {
    hide Unasked, Clip;
    var a := if found.bases == [] then l else Emit(l, RagSearch(Clip(question, 200), found.bases));
    if found.bases != [] {
      EmitUnasked(l, RagSearch(Clip(question, 200), found.bases));
    }
    var b := if found.memories == 0 then a else Emit(a, MemoryRead(found.memories));
    if found.memories != 0 {
      EmitUnasked(a, MemoryRead(found.memories));
    }
    PrependUnasked(b, found.context);
  }

  lemma ReadFirst(e: RunEvent)
    requires e.body.RunStarted?
    ensures Read([e]) == Totals(0, 0, 0, 0, [])
  {
    assert [e][..0] == [];
  }

  lemma NothingAsked(message: string)
    ensures WellAnswered([User(message)], [])
  {
  }

  // The first event of a run.
  lemma AnnounceKeeps(spec: AgentSpec, message: string, actor: Actor, executions: seq<ToolExecution>, started: Body)
    requires started.RunStarted?
    ensures Unasked(Emit(Live(NewRun(spec, actor), executions, [User(message)], 1, 0), started))
  {
    var e := RunEvent(1, started);
    ReadFirst(e);
    NothingAsked(message);
    hide SpecToJson, Sent, Answered, WellAnswered, Read, Offered;
    assert [] + [e] == [e];
  }

  lemma RetrieveKeeps(w: World, spec: AgentSpec, l: Live)
    requires Unasked(l)
    ensures w.retrieval.Some? ==>
      var n := Retrieve(w.retrieval.value, spec, l); Unasked(n) && n.run.version == l.run.version
  {
    hide Unasked, Question, Inject;
    if w.retrieval.Some? {
      var found := w.retrieval.value(spec, Question(l.conversation));
      if found.Some? {
        InjectKeeps(Question(l.conversation), found.value, l);
      }
    }
  }

  lemma OpenKeeps(w: World, spec: AgentSpec, message: string, actor: Actor, executions: seq<ToolExecution>)
    ensures var n := Open(w, spec, Live(NewRun(spec, actor), executions, [User(message)], 1, 0));
            AtHead(n) && Quiet(n.run.events, 0) && n.run.version == spec
  {
    var l := Live(NewRun(spec, actor), executions, [User(message)], 1, 0);
    var started := RunStarted(spec.name, spec.version, spec.model);
    var a := Emit(l, started);
    AnnounceKeeps(spec, message, actor, executions, started);
    RetrieveKeeps(w, spec, a);
  }

  lemma ServeKeeps(w: World, id: nat, spec: AgentSpec, l: Live, now: int, from: nat)
    requires AtHead(l) && Under(spec, l.run)
    requires from <= |l.run.events| && Quiet(l.run.events, from)
    ensures var n := Serve(w, id, spec, l, now); Drained(n.run, from) && n.run.version == l.run.version
  {
    match w.resolve(l.iteration, spec.model)
    case Err(cause) => FailKeeps(l, ModelUnavailable(spec.model, cause), now, from);
    case Ok(served) => IterateKeeps(w, id, spec, served, l, now, from);
  }

  lemma StartKeeps(w: World, id: nat, spec: AgentSpec, message: string, actor: Actor, executions: seq<ToolExecution>,
                   now: int)
    ensures var n := Execute(w, id, spec, message, NewRun(spec, actor), executions, now);
            Drained(n.run, 0) && n.run.version == spec
  {
    OpenKeeps(w, spec, message, actor, executions);
    ServeKeeps(w, id, spec, Open(w, spec, Live(NewRun(spec, actor), executions, [User(message)], 1, 0)), now, 0);
  }

  // ---- preservation: resume ---------------------------------------------------------------

  // The suspended call, still unanswered, while the decision on it is being written down.
  ghost predicate Deciding(l: Live, calls: seq<ToolCall>, k: nat) {
    var t := Read(l.run.events);
    && Ledger(l.run)
    && Carries(l.run)
    && l.sequence == |l.run.events| + 1
    && l.iteration == l.run.iterations == |t.batches|
    && k < |calls|
    && MidTurn(l.conversation, t.batches, calls, k)
    && t.batches[|t.batches| - 1] == Asked(k + 1, true)
  }

  lemma EmitDeciding(l: Live, b: Body, calls: seq<ToolCall>, k: nat, from: nat)
    requires Deciding(l, calls, k) && Quiet(l.run.events, from)
    requires b.ToolApproved? || b.ToolRejected? || b.ToolExecuted?
    ensures Deciding(Emit(l, b), calls, k) && Quiet(Emit(l, b).run.events, from)
  {
    EmitPlain(l, b);
  }

  // A human's answer closes the batch that was suspended, whatever the answer was.
  lemma CloseSuspended(l: Live, calls: seq<ToolCall>, k: nat, m: Message)
    requires Deciding(l, calls, k) && Answers(m, calls[k])
    ensures AtHead(Say(l, m).(run := l.run.(state := RUNNING)))
  {
    AnswerNext(l.conversation, Read(l.run.events).batches, calls, k, m);
  }

  ghost predicate Reopened(l: Live, from: nat) {
    AtHead(l.(run := l.run.(state := RUNNING))) && Quiet(l.run.events, from) && from <= |l.run.events|
  }

  lemma RefuseKeeps(row: ToolExecution, reason: Option<string>, l: Live, calls: seq<ToolCall>, k: nat, from: nat)
    requires Deciding(l, calls, k) && Quiet(l.run.events, from) && from <= |l.run.events|
    requires row.toolName == calls[k].name
    ensures Reopened(Refuse(row, reason, calls[k], l), from)
  {
    var reply := Refused(row.toolName, reason);
    EmitDeciding(l, ToolRejected(row.toolName, reply), calls, k, from);
    CloseSuspended(Emit(l, ToolRejected(row.toolName, reply)), calls, k, ToolReply(calls[k], reply));
  }

  lemma RunApprovedKeeps(w: World, p: nat, row: ToolExecution, tool: Tool, l: Live, calls: seq<ToolCall>, k: nat,
                         from: nat)
    requires Deciding(l, calls, k) && Quiet(l.run.events, from) && from <= |l.run.events|
    requires p < |l.executions| && row.toolName == calls[k].name
    ensures Reopened(RunApproved(w, p, row, tool, calls[k], l), from)
  {
    var result := w.executeApproved(l.iteration, tool, row.arguments);
    var a := Perform(l, p, tool, row.toolName, row.arguments);
    var b := a.(executions := a.executions[p := FinishedRow(row, result)]);
    EmitDeciding(b, ToolExecuted(row.toolName, result.success), calls, k, from);
    CloseSuspended(Emit(b, ToolExecuted(row.toolName, result.success)), calls, k,
                   ToolReply(calls[k], Result(result.content)));
  }

  lemma ApproveKeeps(w: World, p: nat, row: ToolExecution, approver: UserId, l: Live, calls: seq<ToolCall>, k: nat,
                     from: nat)
    requires Deciding(l, calls, k) && Quiet(l.run.events, from) && from <= |l.run.events|
    requires p < |l.executions| && row.toolName == calls[k].name
    ensures Reopened(Approve(w, p, row, approver, calls[k], l), from)
  {
    var a := Emit(l, ToolApproved(row.toolName, approver));
    EmitDeciding(l, ToolApproved(row.toolName, approver), calls, k, from);
    match w.catalogueAtDecision(l.iteration, row.toolName)
    case None => CloseSuspended(a, calls, k, ToolReply(calls[k], NoLongerExists(row.toolName)));
    case Some(tool) => RunApprovedKeeps(w, p, row, tool, a, calls, k, from);
  }

  lemma DecideKeeps(w: World, p: nat, d: Decision, run: Run, executions: seq<ToolExecution>, now: int)
    requires Paused(run) && p < |executions| && executions[p].toolName == run.checkpoint.pendingCall.name
    ensures var l := Decide(w, p, d, run, executions, now);
            Reopened(l, |run.events|) && l.run.version == run.version
  {
    var cp := run.checkpoint;
    var row := Decided(executions[p], d, now);
    var l := Live(run, executions[p := row], cp.conversation, cp.sequence, cp.iteration);
    var t := Read(run.events);
    var k := t.batches[|t.batches| - 1].requested - 1;
    var calls := cp.conversation[|cp.conversation| - 1 - k].toolCalls;
    if d.approved {
      ApproveKeeps(w, p, row, d.approver, l, calls, k, |run.events|);
    } else {
      RefuseKeeps(row, d.reason, l, calls, k, |run.events|);
    }
  }

  lemma ResumeKeeps(w: World, id: nat, p: nat, d: Decision, run: Run, executions: seq<ToolExecution>, now: int)
    requires Paused(run) && p < |executions| && executions[p].toolName == run.checkpoint.pendingCall.name
    ensures var n := Resume(w, id, p, d, run, executions, now);
            Drained(n.run, |run.events|) && n.run.version == run.version
  {
    DecideKeeps(w, p, d, run, executions, now);
    SpecRoundTrip(run.version);
    var l := Decide(w, p, d, run, executions, now);
    ServeKeeps(w, id, Persisted(run.version), l.(run := l.run.(state := RUNNING)), now, |run.events|);
  }
}
