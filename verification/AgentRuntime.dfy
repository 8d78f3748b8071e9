// The runtime and the run service in the form the source gives them: row objects whose fields the
// loop updates in place, a table it appends to, and local counters. Every method is proved to do
// what RunLoop and RunHistory say, so that their theorems hold of it.
module AgentRuntime {
  import opened Outcome
  import opened AgentSpecs
  import opened RunModel
  import opened Text
  import RL = RunLoop
  import RH = RunHistory
  import RE = RunEffects

  // One agent_runs row, with the agent_run_events written for it and the calls made for it.
  class AgentRun {
    const userId: Option<UserId>
    const userPermissions: set<string>
    const version: AgentSpec
    var state: RunState
    var iterations: nat
    var promptTokens: nat
    var completionTokens: nat
    var output: Option<string>
    var error: Option<RunError>
    var checkpoint: Checkpoint
    var finishedAt: Option<int>
    var events: seq<RunEvent>
    var requests: seq<ChatRequest>
    var invocations: seq<Invocation>

    ghost function Row(): Run
      reads this
    {
      Run(userId, userPermissions, version, state, iterations, promptTokens, completionTokens, output, error,
          checkpoint, finishedAt, events, requests, invocations)
    }

    constructor (spec: AgentSpec, actor: Actor)
      ensures Row() == RL.NewRun(spec, actor) && state == RUNNING
    {
      userId, userPermissions, version := Some(actor.id), actor.permissions, spec;
      state, iterations, promptTokens, completionTokens := RUNNING, 0, 0, 0;
      output, error, finishedAt := None, None, None;
      checkpoint := Checkpoint.Started(SpecToJson(spec));
      events, requests, invocations := [], [], [];
    }

    // `_persisting`: one event written as it passes.
    method Persist(sequence: nat, body: Body)
      modifies this`events
      ensures Row() == old(Row()).(events := old(events) + [RunEvent(sequence, body)])
    {
      events := events + [RunEvent(sequence, body)];
    }

    method Suspend(conversation: seq<Message>, pendingCall: ToolCall, iteration: nat, sequence: nat)
      modifies this`state, this`checkpoint
      ensures Row() == old(Row()).(
                         state := WAITING_FOR_APPROVAL,
                         checkpoint := Suspended(conversation, pendingCall, iteration, sequence,
                                                 RL.SpecOf(old(checkpoint))))
    {
      state := WAITING_FOR_APPROVAL;
      checkpoint := Suspended(conversation, pendingCall, iteration, sequence, RL.SpecOf(checkpoint));
    }

    method Complete(output: string, now: int)
      modifies this`state, this`output, this`finishedAt, this`checkpoint
      ensures Row() == old(Row()).(state := COMPLETED, output := Some(output), finishedAt := Some(now),
                                   checkpoint := Cleared)
    {
      state := COMPLETED;
      this.output := Some(output);
      finishedAt := Some(now);
      checkpoint := Cleared;
    }

    method Fail(error: RunError, now: int)
      modifies this`state, this`error, this`finishedAt
      ensures Row() == old(Row()).(state := FAILED, error := Some(error), finishedAt := Some(now))
    {
      state := FAILED;
      this.error := Some(error);
      finishedAt := Some(now);
    }
  }

  datatype PipelineOutcome =
    | OutcomeDenied(denial: Denial)
    | OutcomePending(execution: nat)
    | OutcomeResult(result: ToolResult)

  // tool_executions, as the pipeline and the resume path write it.
  class Executions {
    var rows: seq<ToolExecution>

    constructor ()
      ensures rows == []
    {
      rows := [];
    }

    // `ToolPipeline.invoke`: the row is written before anything is decided, then updated.
    method Invoke(w: World, id: nat, run: AgentRun, tool: Tool, call: ToolCall, granted: set<string>,
                  iteration: nat, k: nat, now: int) returns (outcome: PipelineOutcome)
      modifies this, run`invocations
      ensures var row := RL.Requested(id, tool, call, now);
              var denial := RL.Authorise(w, iteration, tool, granted, run.userPermissions);
              var e := |old(rows)|;
              if denial.Some? then
                && outcome == OutcomeDenied(denial.value)
                && rows == old(rows) + [RL.RejectedRow(row, now)] && run.Row() == old(run.Row())
              else if tool.riskLevel in w.approvalRequired(iteration) then
                && outcome == OutcomePending(e)
                && rows == old(rows) + [RL.PendingRow(row)] && run.Row() == old(run.Row())
              else
                var result := w.execute(iteration, k, tool, call.arguments);
                && outcome == OutcomeResult(result)
                && rows == old(rows) + [RL.FinishedRow(row, result)]
                && run.Row() == old(run.Row()).(
                                  invocations := old(run.invocations)
                                                 + [Invocation(e, tool, call.name, call.arguments)])
      ensures var may := RE.MayCall(w, iteration, tool, granted, run.userPermissions);
              var risky := tool.riskLevel in w.approvalRequired(iteration);
              && (outcome.OutcomeDenied? <==> !may)
              && (outcome.OutcomePending? <==> may && risky)
              && (outcome.OutcomeResult? <==> may && !risky)
              && (outcome.OutcomeDenied? ==>
                    RE.FirstReason(w, iteration, tool, granted, run.userPermissions, outcome.denial))
    {
      var e := |rows|;
      rows := rows + [RL.Requested(id, tool, call, now)];
      var denial := RL.Authorise(w, iteration, tool, granted, run.userPermissions);
      if denial.Some? {
        rows := rows[e := RL.RejectedRow(rows[e], now)];
        return OutcomeDenied(denial.value);
      }
      if tool.riskLevel in w.approvalRequired(iteration) {
        rows := rows[e := RL.PendingRow(rows[e])];
        return OutcomePending(e);
      }
      var result := w.execute(iteration, k, tool, call.arguments);
      run.invocations := run.invocations + [Invocation(e, tool, call.name, call.arguments)];
      rows := rows[e := RL.FinishedRow(rows[e], result)];
      return OutcomeResult(result);
    }

    // `expire_older_than`: select the stale rows, then settle them one by one.
    method ExpireOlderThan(cutoff: int, now: int) returns (expired: nat)
      modifies this
      ensures rows == RH.Swept(old(rows), cutoff, now)
      ensures expired == |set i | 0 <= i < |old(rows)| && RH.Stale(old(rows)[i], cutoff)|
    {
      var stale := set i | 0 <= i < |rows| && RH.Stale(rows[i], cutoff);
      expired := |stale|;
      ghost var all := stale;
      while stale != {}
        invariant stale <= all
        invariant |rows| == |old(rows)|
        invariant forall i :: 0 <= i < |rows| ==>
          rows[i] == if i in all && i !in stale then RH.ExpiredRow(old(rows)[i], now) else old(rows)[i]
        decreases |stale|
      {
        var i :| i in stale;
        rows := rows[i := RH.ExpiredRow(rows[i], now)];
        stale := stale - {i};
      }
    }
  }

  // The loop's live state, read off the objects and the local variables.
  ghost function Here(run: AgentRun, table: Executions, conversation: seq<Message>, sequence: nat,
                      iteration: nat): RL.Live
    reads run, table
  {
    RL.Live(run.Row(), table.rows, conversation, sequence, iteration)
  }

  // `_retrieve`: its own sequence counter, advanced alongside the caller's.
  method Retrieve(gather: (AgentSpec, string) -> Option<Found>, spec: AgentSpec, run: AgentRun, ghost table: Executions,
                  conversation: seq<Message>, sequence: nat, ghost iteration: nat)
    returns (conversation': seq<Message>, sequence': nat)
    modifies run`events
    ensures Here(run, table, conversation', sequence', iteration)
         == RL.Retrieve(gather, spec, old(Here(run, table, conversation, sequence, iteration)))
  {
    conversation', sequence' := conversation, sequence;
    var question := RL.Question(conversation);
    if Blank(question) {
      return;
    }
    var answer := gather(spec, question);
    if answer.None? {
      return;
    }
    var found := answer.value;
    if found.bases != [] {
      run.Persist(sequence', RagSearch(RL.Clip(question, 200), found.bases));
      sequence' := sequence' + 1;
    }
    if found.memories != 0 {
      run.Persist(sequence', MemoryRead(found.memories));
      sequence' := sequence' + 1;
    }
    if found.context != "" {
      conversation' := [System(found.context)] + conversation';
    }
  }

  method Dispatch(w: World, id: nat, run: AgentRun, table: Executions, granted: set<string>, call: ToolCall, k: nat,
                  tool: Tool,
                  conversation: seq<Message>, sequence: nat, iteration: nat, now: int)
    returns (conversation': seq<Message>, sequence': nat, stopped: bool)
    requires run.state == RUNNING
    modifies run, table
    ensures RL.Dispatch(w, id, granted, call, k, tool, old(Here(run, table, conversation, sequence, iteration)), now)
         == Here(run, table, conversation', sequence', iteration)
    ensures stopped <==> run.state == WAITING_FOR_APPROVAL
    ensures !stopped ==> run.state == RUNNING
  {
    conversation', sequence', stopped := conversation, sequence + 1, false;
    var outcome := table.Invoke(w, id, run, tool, call, granted, iteration, k, now);
    match outcome
    case OutcomeDenied(denial) =>
      var reply := Denied(call.name, denial);
      run.Persist(sequence, ToolRejected(call.name, reply));
      conversation' := conversation + [RL.ToolReply(call, reply)];
    case OutcomePending(execution) =>
      run.Suspend(conversation, call, iteration, sequence + 1);
      run.Persist(sequence, ToolApprovalRequired(call.name, execution));
      stopped := true;
    case OutcomeResult(result) =>
      run.Persist(sequence, ToolExecuted(call.name, result.success));
      conversation' := conversation + [RL.ToolReply(call, Result(result.content))];
  }

  // One call of a batch. `stopped` is the `return` after TOOL_APPROVAL_REQUIRED.
  method HandleCall(w: World, id: nat, run: AgentRun, table: Executions, granted: set<string>, call: ToolCall, k: nat,
                    conversation: seq<Message>, sequence: nat, iteration: nat, now: int)
    returns (conversation': seq<Message>, sequence': nat, stopped: bool)
    requires run.state == RUNNING
    modifies run, table
    ensures RL.Handle(w, id, granted, call, k, old(Here(run, table, conversation, sequence, iteration)), now)
         == Here(run, table, conversation', sequence', iteration)
    ensures stopped <==> run.state == WAITING_FOR_APPROVAL
    ensures !stopped ==> run.state == RUNNING
  {
    conversation', sequence', stopped := conversation, sequence, false;
    run.Persist(sequence, ToolRequested(call.name));
    sequence' := sequence + 1;
    ghost var l := Here(run, table, conversation, sequence', iteration);
    assert l == RL.Emit(old(Here(run, table, conversation, sequence, iteration)), ToolRequested(call.name));
    var found := w.catalogue(iteration, k, call.name);
    if found.None? {
      conversation' := conversation + [RL.ToolReply(call, NoSuchTool(call.name))];
    } else {
      conversation', sequence', stopped :=
        Dispatch(w, id, run, table, granted, call, k, found.value, conversation, sequence', iteration, now);
    }
  }

  // `for call in tool_calls`.
  method HandleBatch(w: World, id: nat, run: AgentRun, table: Executions, granted: set<string>, calls: seq<ToolCall>,
                     conversation: seq<Message>, sequence: nat, iteration: nat, now: int)
    returns (conversation': seq<Message>, sequence': nat, stopped: bool)
    requires run.state == RUNNING
    modifies run, table
    ensures RL.Batch(w, id, granted, calls, 0, old(Here(run, table, conversation, sequence, iteration)), now)
         == Here(run, table, conversation', sequence', iteration)
    ensures stopped <==> run.state == WAITING_FOR_APPROVAL
    ensures !stopped ==> run.state == RUNNING
  {
    conversation', sequence', stopped := conversation, sequence, false;
    ghost var whole := RL.Batch(w, id, granted, calls, 0, Here(run, table, conversation, sequence, iteration), now);
    for k := 0 to |calls|
      invariant run.state == RUNNING && !stopped
      invariant RL.Batch(w, id, granted, calls, k, Here(run, table, conversation', sequence', iteration), now) == whole
    {
      conversation', sequence', stopped :=
        HandleCall(w, id, run, table, granted, calls[k], k, conversation', sequence', iteration, now);
      if stopped {
        return;
      }
    }
  }

  // LLM_REQUEST, and what the provider is about to be sent.
  method Send(spec: AgentSpec, served: string, run: AgentRun, ghost table: Executions, messages: seq<Message>,
              sequence: nat, previous: nat)
    returns (request: ChatRequest)
    requires run.state == RUNNING
    modifies run
    ensures request == RL.Request(spec, served, messages)
    ensures run.state == RUNNING
    ensures Here(run, table, messages, sequence + 1, previous + 1)
         == RL.Ask(spec, served, old(Here(run, table, messages, sequence, previous)))
  {
    hide RL.Offers;
    run.iterations := previous + 1;
    run.Persist(sequence, LlmRequest(previous + 1, |messages|));
    request := RL.Request(spec, served, messages);
    run.requests := run.requests + [request];
  }

  // LLM_RESPONSE, with the tokens added to the run's counters.
  method Take(completion: ChatOutcome, run: AgentRun, ghost table: Executions, ghost messages: seq<Message>,
              sequence: nat, iteration: nat)
    requires run.state == RUNNING && completion.Completion?
    modifies run
    ensures run.state == RUNNING
    ensures Here(run, table, messages, sequence + 1, iteration)
         == RL.Receive(old(Here(run, table, messages, sequence, iteration)), completion)
  {
    hide RL.Names;
    run.promptTokens := run.promptTokens + completion.promptTokens;
    run.completionTokens := run.completionTokens + completion.completionTokens;
    run.Persist(sequence, LlmResponse(iteration, completion.content, RL.Names(completion.toolCalls),
                                      completion.promptTokens, completion.completionTokens));
  }

  // One request and its answer. `ended` is the `return` after a provider error or a final answer.
  method Exchange(w: World, spec: AgentSpec, served: string, run: AgentRun, ghost table: Executions,
                  messages: seq<Message>,
                  sequence: nat, previous: nat, now: int)
    returns (completion: ChatOutcome, sequence': nat, ended: bool)
    requires run.state == RUNNING
    modifies run
    ensures completion == w.chat(previous + 1, RL.Request(spec, served, messages))
    ensures ended <==> completion.ProviderError? || completion.toolCalls == []
    ensures var a := RL.Ask(spec, served, old(Here(run, table, messages, sequence, previous)));
            if completion.ProviderError? then
              run.Row() == RL.Fail(RL.Emit(a, RunFailed(ModelUnreachable(completion.cause))),
                                   ModelUnreachable(completion.cause), now).run
            else if completion.toolCalls == [] then
              var done := RL.Emit(RL.Receive(a, completion), RunCompleted(completion.content, previous + 1));
              run.Row() == RL.Complete(done, completion.content, now).run
            else
              run.state == RUNNING && Here(run, table, messages, sequence', previous + 1) == RL.Receive(a, completion)
  {
    hide RL.Ask, RL.Receive;
    ended, sequence' := true, sequence + 1;
    var iteration := previous + 1;
    var request := Send(spec, served, run, table, messages, sequence, previous);
    completion := w.chat(iteration, request);
    if completion.ProviderError? {
      run.Persist(sequence', RunFailed(ModelUnreachable(completion.cause)));
      run.Fail(ModelUnreachable(completion.cause), now);
      return;
    }
    Take(completion, run, table, messages, sequence', iteration);
    sequence' := sequence' + 1;
    if completion.toolCalls == [] {
      run.Persist(sequence', RunCompleted(completion.content, iteration));
      run.Complete(completion.content, now);
      return;
    }
    ended := false;
  }

  // One turn of the loop that neither ended the stream nor the run.
  ghost predicate GoesOn(w: World, id: nat, spec: AgentSpec, served: string, l: RL.Live, n: RL.Live, now: int) {
    var c := w.chat(l.iteration + 1, RL.Request(spec, served, l.conversation));
    && l.iteration < spec.maxIterations
    && c.Completion? && c.toolCalls != []
    && n == RL.Turn(w, id, spec, c, RL.Receive(RL.Ask(spec, served, l), c), now)
    && n.run.state != WAITING_FOR_APPROVAL
  }

  // One that did.
  ghost predicate Ends(w: World, id: nat, spec: AgentSpec, served: string, l: RL.Live, n: RL.Live, now: int) {
    var c := w.chat(l.iteration + 1, RL.Request(spec, served, l.conversation));
    var a := RL.Ask(spec, served, l);
    && l.iteration < spec.maxIterations
    && if c.ProviderError? then
         n == RL.Fail(RL.Emit(a, RunFailed(ModelUnreachable(c.cause))), ModelUnreachable(c.cause), now)
       else if c.toolCalls == [] then
         n == RL.Complete(RL.Emit(RL.Receive(a, c), RunCompleted(c.content, a.iteration)), c.content, now)
       else
         n == RL.Turn(w, id, spec, c, RL.Receive(a, c), now) && n.run.state == WAITING_FOR_APPROVAL
  }

  // The body of the loop. `over` is any of its `return`s.
  method OneIteration(w: World, id: nat, spec: AgentSpec, served: string, granted: set<string>, run: AgentRun,
                      table: Executions,
                      conversation: seq<Message>, sequence: nat, previous: nat, now: int)
    returns (conversation': seq<Message>, sequence': nat, over: bool)
    requires run.state == RUNNING && granted == Granted(spec) && previous < spec.maxIterations
    modifies run, table
    ensures var l := old(Here(run, table, conversation, sequence, previous));
            if !over then
              run.state == RUNNING && GoesOn(w, id, spec, served, l,
                                             Here(run, table, conversation', sequence', previous + 1), now)
            else
              exists n :: Ends(w, id, spec, served, l, n, now) && run.Row() == n.run && table.rows == n.executions
  {
    ghost var l := Here(run, table, conversation, sequence, previous);
    var completion;
    conversation' := conversation;
    completion, sequence', over := Exchange(w, spec, served, run, table, conversation, sequence, previous, now);
    if over {
      ghost var a := RL.Ask(spec, served, l);
      ghost var n :=
        if completion.ProviderError?
        then RL.Fail(RL.Emit(a, RunFailed(ModelUnreachable(completion.cause))), ModelUnreachable(completion.cause), now)
        else RL.Complete(RL.Emit(RL.Receive(a, completion), RunCompleted(completion.content, previous + 1)),
                         completion.content, now);
      assert Ends(w, id, spec, served, l, n, now) && run.Row() == n.run && table.rows == n.executions;
    } else {
      conversation' := conversation + [Assistant(completion.content, completion.toolCalls)];
      conversation', sequence', over :=
        HandleBatch(w, id, run, table, granted, completion.toolCalls, conversation', sequence', previous + 1, now);
      ghost var n := Here(run, table, conversation', sequence', previous + 1);
      assert over ==> Ends(w, id, spec, served, l, n, now);
    }
  }

  ghost predicate Turns(w: World, id: nat, spec: AgentSpec, served: string, heads: seq<RL.Live>, now: int) {
    forall i :: 0 <= i < |heads| - 1 ==> GoesOn(w, id, spec, served, heads[i], heads[i + 1], now)
  }

  lemma OneTurnIterates(w: World, id: nat, spec: AgentSpec, served: string, l: RL.Live, n: RL.Live, now: int)
    requires GoesOn(w, id, spec, served, l, n, now)
    ensures RL.Iterate(w, id, spec, served, l, now) == RL.Iterate(w, id, spec, served, n, now)
  {
  }

  lemma {:induction false} TurnsIterate(w: World, id: nat, spec: AgentSpec, served: string, heads: seq<RL.Live>,
                                        now: int)
    requires heads != [] && Turns(w, id, spec, served, heads, now)
    ensures RL.Iterate(w, id, spec, served, heads[0], now) == RL.Iterate(w, id, spec, served, heads[|heads| - 1], now)
  {
    if |heads| > 1 {
      assert GoesOn(w, id, spec, served, heads[0], heads[1], now);
      OneTurnIterates(w, id, spec, served, heads[0], heads[1], now);
      TurnsIterate(w, id, spec, served, heads[1..], now);
    }
  }

  lemma EndIterates(w: World, id: nat, spec: AgentSpec, served: string, l: RL.Live, n: RL.Live, now: int)
    requires Ends(w, id, spec, served, l, n, now)
    ensures RL.Iterate(w, id, spec, served, l, now) == n
  {
  }

  lemma ExhaustedIterates(w: World, id: nat, spec: AgentSpec, served: string, l: RL.Live, now: int)
    requires l.iteration >= spec.maxIterations
    ensures RL.Iterate(w, id, spec, served, l, now)
         == RL.Fail(RL.Emit(l, RunFailed(OutOfIterations(spec.maxIterations))), OutOfIterations(spec.maxIterations),
                    now)
  {
  }

  // `while iteration < spec.max_iterations`, and what follows it.
  method ServeLoop(w: World, id: nat, spec: AgentSpec, served: string, granted: set<string>, run: AgentRun,
                   table: Executions,
                   conversation: seq<Message>, startingSequence: nat, startingIteration: nat, now: int)
    requires run.state == RUNNING && granted == Granted(spec)
    modifies run, table
    ensures var n := RL.Iterate(w, id, spec, served,
                                old(Here(run, table, conversation, startingSequence, startingIteration)), now);
            run.Row() == n.run && table.rows == n.executions
  {
    hide RL.Iterate, GoesOn, Ends, Granted;
    var messages, sequence, iteration := conversation, startingSequence, startingIteration;
    ghost var heads := [Here(run, table, messages, sequence, iteration)];
    while iteration < spec.maxIterations
      invariant run.state == RUNNING
      invariant heads != [] && Turns(w, id, spec, served, heads, now)
      invariant heads[0] == old(Here(run, table, conversation, startingSequence, startingIteration))
      invariant heads[|heads| - 1] == Here(run, table, messages, sequence, iteration)
    {
      var over;
      messages, sequence, over :=
        OneIteration(w, id, spec, served, granted, run, table, messages, sequence, iteration, now);
      iteration := iteration + 1;
      if over {
        ghost var n :|
          Ends(w, id, spec, served, heads[|heads| - 1], n, now) && run.Row() == n.run && table.rows == n.executions;
        TurnsIterate(w, id, spec, served, heads, now);
        EndIterates(w, id, spec, served, heads[|heads| - 1], n, now);
        return;
      }
      heads := heads + [Here(run, table, messages, sequence, iteration)];
    }
    TurnsIterate(w, id, spec, served, heads, now);
    ExhaustedIterates(w, id, spec, served, heads[|heads| - 1], now);
    run.Persist(sequence, RunFailed(OutOfIterations(spec.maxIterations)));
    run.Fail(OutOfIterations(spec.maxIterations), now);
  }

  // `_run`.
  method RunStream(w: World, id: nat, spec: AgentSpec, run: AgentRun, table: Executions, conversation: seq<Message>,
                   startingSequence: nat, startingIteration: nat, now: int)
    requires run.state == RUNNING
    modifies run, table
    ensures var n := RL.Drain(w, id, spec, old(Here(run, table, conversation, startingSequence, startingIteration)),
                              now);
            run.Row() == n.run && table.rows == n.executions
  {
    var sequence, iteration, messages := startingSequence, startingIteration, conversation;
    var granted := Granted(spec);
    ghost var l := Here(run, table, conversation, startingSequence, startingIteration);
    if startingSequence == 1 {
      run.Persist(sequence, RunStarted(spec.name, spec.version, spec.model));
      sequence := sequence + 1;
    }
    if startingSequence == 1 && w.retrieval.Some? {
      messages, sequence := Retrieve(w.retrieval.value, spec, run, table, messages, sequence, iteration);
    }
    assert Here(run, table, messages, sequence, iteration) == RL.Open(w, spec, l);

    var resolved := w.resolve(iteration, spec.model);
    if resolved.Err? {
      var error := ModelUnavailable(spec.model, resolved.error);
      run.Persist(sequence, RunFailed(error));
      run.Fail(error, now);
      return;
    }
    ServeLoop(w, id, spec, resolved.value, granted, run, table, messages, sequence, iteration, now);
  }
}
