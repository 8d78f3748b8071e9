// The promises of the run service, for every history from empty tables.
module RunTheorems {
  import opened Outcome
  import opened AgentSpecs
  import opened RunModel
  import opened RunLoop
  import opened RunInvariants
  import opened ExecutionTable
  import opened RunHistory

  // ---- one state: what holds after any history --------------------------------------------

  lemma Reachable(history: seq<Step>)
    ensures Inv(After(EMPTY, history))
  {
    HistoryInv(EMPTY, history);
  }

  // A run is suspended on at most one call, and a call is only pending while its run waits.
  lemma OnePendingCall(history: seq<Step>, i: nat)
    requires i < |After(EMPTY, history).executions| && After(EMPTY, history).executions[i].approvalState == PENDING
    ensures var p := After(EMPTY, history);
            var r := p.executions[i].runId;
            && r < |p.runs| && p.runs[r].state == WAITING_FOR_APPROVAL
            && forall j :: 0 <= j < |p.executions| && OpenFor(p.executions[j], r) ==> j == i
  {
    Reachable(history);
    assert RowSafe(After(EMPTY, history), i);
  }

  // Executors are called at most once per row, only for rows that needed no approval or were
  // approved, only on rows of tools granted to the version the run started on, and with the name
  // and the arguments of the row: what a human was shown is what runs.
  lemma ExecutedOnlyWithAuthority(history: seq<Step>, r: nat, j: nat)
    requires r < |After(EMPTY, history).runs| && j < |After(EMPTY, history).runs[r].invocations|
    ensures var p := After(EMPTY, history);
            var run := p.runs[r];
            var e := run.invocations[j].execution;
            && e < |p.executions| && p.executions[e].runId == r
            && (p.executions[e].approvalState == NOT_REQUIRED || p.executions[e].approvalState == APPROVED)
            && p.executions[e].toolId in Granted(run.version)
            && AsRecorded(run.invocations[j], p.executions[e], run.userPermissions)
            && forall k :: 0 <= k < |run.invocations| && k != j ==> run.invocations[k].execution != e
  {
    Reachable(history);
    var p := After(EMPTY, history);
    assert Authorised(p.runs[r], r, p.executions);
    assert RowSafe(p, p.runs[r].invocations[j].execution);
  }

  // A row holds an executor's outcome exactly when an executor was called for it: a row nobody
  // has settled, a refusal and an expiry hold none, and a denial by the pipeline says so.
  lemma OutcomeExactlyWhenExecuted(history: seq<Step>, i: nat)
    requires i < |After(EMPTY, history).executions|
    ensures var p := After(EMPTY, history);
            var row := p.executions[i];
            && row.runId < |p.runs|
            && (Invoked(p.runs[row.runId].invocations, i) <==>
                  row.success.Some? && (row.approvalState == NOT_REQUIRED || row.approvalState == APPROVED))
            && (row.approvalState == NOT_REQUIRED ==> row.success.Some?)
            && (row.approvalState == REJECTED ==> row.success == if row.approver.Some? then None else Some(false))
            && (row.approvalState == PENDING || row.approvalState == EXPIRED ==> row.success.None?)
  {
    Reachable(history);
    var p := After(EMPTY, history);
    assert RowSafe(p, i);
    assert Authorised(p.runs[p.executions[i].runId], p.executions[i].runId, p.executions);
  }

  lemma LedgerHolds(history: seq<Step>, r: nat)
    requires r < |After(EMPTY, history).runs|
    ensures Ledger(After(EMPTY, history).runs[r]) && AtRest(After(EMPTY, history).runs[r])
  {
    Reachable(history);
    assert AtRest(After(EMPTY, history).runs[r]);
  }

  // Event sequence numbers are 1..n over the whole life of a run, however often it was suspended,
  // and RUN_STARTED is the first event and no other.
  lemma TraceIsNumbered(history: seq<Step>, r: nat)
    requires r < |After(EMPTY, history).runs|
    ensures var events := After(EMPTY, history).runs[r].events;
            && (forall i :: 0 <= i < |events| ==> events[i].sequence == i + 1)
            && events != []
            && (forall i :: 0 <= i < |events| ==> (events[i].body.RunStarted? <==> i == 0))
  {
    LedgerHolds(history, r);
  }

  // The row's counters are its trace's: one LLM_REQUEST per iteration, never more than
  // max_iterations, no more suspensions than iterations, and the tokens of its LLM_RESPONSEs.
  lemma TraceAccountsForRow(history: seq<Step>, r: nat)
    requires r < |After(EMPTY, history).runs|
    ensures var run := After(EMPTY, history).runs[r];
            var t := Read(run.events);
            && t.requests == run.iterations == |run.requests|
            && (run.iterations <= run.version.maxIterations || run.iterations == 0)
            && t.suspensions <= run.iterations
            && t.prompt == run.promptTokens && t.completion == run.completionTokens
  {
    LedgerHolds(history, r);
  }

  // Every request ever sent to a provider carried the prompt, temperature and tools of the
  // version the run started on, and a conversation in which each earlier batch of calls is
  // answered in order: all of it, or up to and including the call that was suspended.
  lemma RequestsAreWellFormed(history: seq<Step>, r: nat, n: nat)
    requires r < |After(EMPTY, history).runs|
    requires n < |After(EMPTY, history).runs[r].requests|
    ensures var run := After(EMPTY, history).runs[r];
            var batches := Read(run.events).batches;
            n <= |batches| && Sent(run.requests[n], run.version, batches[..n])
  {
    LedgerHolds(history, r);
    var run := After(EMPTY, history).runs[r];
    var sent := run.requests[n];
    assert Logged(run.requests, run.version, Read(run.events).batches);
  }

  // Between requests a run waits on a checkpoint that agrees with its trace, or is over and says
  // since when; the error branch of resuming is never taken through the service.
  lemma RestingRowsAgreeWithTrace(history: seq<Step>, r: nat)
    requires r < |After(EMPTY, history).runs|
    ensures var run := After(EMPTY, history).runs[r];
            && run.state != RUNNING && run.state != CREATED
            && (IsTerminal(run.state) <==> run.finishedAt.Some?)
            && (run.state == COMPLETED ==> run.output.Some? && run.checkpoint.Cleared?)
            && (run.state == FAILED ==>
                  run.error.Some? && !run.checkpoint.Cleared? && run.checkpoint.spec == SpecToJson(run.version))
            && (run.state == WAITING_FOR_APPROVAL ==>
                  && run.checkpoint.Suspended?
                  && run.checkpoint.sequence == |run.events| + 1
                  && run.checkpoint.iteration == run.iterations
                  && SpecFromJson(run.checkpoint.spec) == Ok(Persisted(run.version)))
  {
    LedgerHolds(history, r);
    if After(EMPTY, history).runs[r].state == WAITING_FOR_APPROVAL {
      PausedSpec(After(EMPTY, history).runs[r]);
    }
  }

  // ---- one stream -------------------------------------------------------------------------

  ghost predicate EndsAs(run: Run, from: nat) {
    && from < |run.events|
    && (forall i :: from <= i < |run.events| - 1 ==> !Stops(run.events[i].body))
    && match run.state
       case COMPLETED => run.events[|run.events| - 1].body.RunCompleted?
       case FAILED => run.events[|run.events| - 1].body.RunFailed?
       case WAITING_FOR_APPROVAL => run.events[|run.events| - 1].body.ToolApprovalRequired?
       case _ => false
  }

  lemma DrainedEnds(run: Run, from: nat)
    requires Drained(run, from)
    ensures EndsAs(run, from)
  {
    hide Ledger, Carries, Answered, WellAnswered, Read;
    forall i | from <= i < |run.events| - 1
      ensures !Stops(run.events[i].body)
    {
      assert run.events[..|run.events| - 1][i] == run.events[i];
    }
  }

  // A stream that was started or resumed ends with exactly one of RUN_COMPLETED, RUN_FAILED and
  // TOOL_APPROVAL_REQUIRED, and the row is in the state that event announces.
  lemma StreamEndsOnce(p: Platform, s: Step)
    requires Inv(p)
    ensures s.Start? && s.agentEnabled && s.spec.Some? ==> EndsAs(Apply(p, s).runs[|p.runs|], 0)
    ensures s.Approve? && ApproveRun(p, s.world, s.run, s.approved, s.actor, s.reason, s.now).Ok? ==>
      EndsAs(Apply(p, s).runs[s.run], |p.runs[s.run].events|)
  {
    if s.Start? && s.agentEnabled && s.spec.Some? {
      StartKeeps(s.world, |p.runs|, s.spec.value, s.message, s.actor, p.executions, s.now);
      DrainedEnds(Apply(p, s).runs[|p.runs|], 0);
    }
    if s.Approve? && ApproveRun(p, s.world, s.run, s.approved, s.actor, s.reason, s.now).Ok? {
      var i, run := PendingFor(p.executions, s.run).value, p.runs[s.run];
      assert RowSafe(p, i) && IsPending(p, i) && AtRest(run);
      ResumeKeeps(s.world, s.run, i, Decision(s.approved, s.actor.id, s.reason), run, p.executions, s.now);
      DrainedEnds(Apply(p, s).runs[s.run], |run.events|);
    }
  }

  // ---- two states: what never changes again -----------------------------------------------

  // Histories only add to a trace, and to what was sent and executed; a terminal run is frozen.
  ghost predicate RunEvolves(a: Run, b: Run) {
    && b.userId == a.userId && b.version == a.version && b.userPermissions == a.userPermissions
    && a.events <= b.events && a.requests <= b.requests && a.invocations <= b.invocations
    && (IsTerminal(a.state) ==> b == a)
  }

  // A row leaves PENDING at most once, to a decision or to EXPIRED, and never changes after that.
  ghost predicate RowEvolves(a: ToolExecution, b: ToolExecution) {
    && b.runId == a.runId && b.toolId == a.toolId && b.toolName == a.toolName && b.arguments == a.arguments
    && b.riskLevel == a.riskLevel && b.requestedAt == a.requestedAt
    && (a.approvalState != PENDING ==> b == a)
    && (b.approvalState == PENDING ==> b == a)
    && (a.approvalState == PENDING && b.approvalState != PENDING ==>
          && (b.approvalState == APPROVED || b.approvalState == REJECTED || b.approvalState == EXPIRED)
          && b.decidedAt.Some?
          && (b.approvalState == EXPIRED <==> b.approver.None?))
  }

  ghost predicate Evolves(p: Platform, q: Platform) {
    && |p.runs| <= |q.runs|
    && |p.executions| <= |q.executions|
    && (forall r :: 0 <= r < |p.runs| ==> RunEvolves(p.runs[r], q.runs[r]))
    && (forall i :: 0 <= i < |p.executions| ==> RowEvolves(p.executions[i], q.executions[i]))
  }

  ghost predicate Longer(l: Live, n: Live) {
    l.run.events <= n.run.events && l.run.requests <= n.run.requests
  }

  lemma {:induction false} BatchLonger(w: World, id: nat, granted: set<string>, calls: seq<ToolCall>, k: nat, l: Live,
                                       now: int)
    requires k <= |calls|
    ensures Longer(l, Batch(w, id, granted, calls, k, l, now))
    decreases |calls| - k
  {
    if k < |calls| {
      var n := Handle(w, id, granted, calls[k], k, l, now);
      assert Longer(l, n);
      if n.run.state != WAITING_FOR_APPROVAL {
        BatchLonger(w, id, granted, calls, k + 1, n, now);
      }
    }
  }

  lemma {:induction false} IterateLonger(w: World, id: nat, spec: AgentSpec, served: string, l: Live, now: int)
    ensures Longer(l, Iterate(w, id, spec, served, l, now))
    decreases spec.maxIterations - l.iteration
  {
    hide Batch, Granted, Names, Offers;
    if l.iteration < spec.maxIterations {
      var c := w.chat(l.iteration + 1, Request(spec, served, l.conversation));
      if c.Completion? && c.toolCalls != [] {
        var b := Receive(Ask(spec, served, l), c);
        assert Longer(l, b);
        BatchLonger(w, id, Granted(spec), c.toolCalls, 0, Say(b, Assistant(c.content, c.toolCalls)), now);
        var d := Turn(w, id, spec, c, b, now);
        if d.run.state != WAITING_FOR_APPROVAL {
          IterateLonger(w, id, spec, served, d, now);
        }
      }
    }
  }

  lemma DrainLonger(w: World, id: nat, spec: AgentSpec, l: Live, now: int)
    ensures Longer(l, Drain(w, id, spec, l, now))
  {
    var o := Open(w, spec, l);
    assert Longer(l, o);
    match w.resolve(o.iteration, spec.model)
    case Err(_) =>
    case Ok(served) => IterateLonger(w, id, spec, served, o, now);
  }

  lemma DecideLonger(w: World, i: nat, d: Decision, run: Run, executions: seq<ToolExecution>, now: int)
    requires i < |executions| && run.checkpoint.Suspended?
    ensures var l := Decide(w, i, d, run, executions, now);
            && run.events <= l.run.events && run.requests <= l.run.requests
            && l.executions == executions[i := l.executions[i]]
            && (executions[i].approvalState == PENDING ==> RowEvolves(executions[i], l.executions[i]))
  {
  }

  ghost predicate PendingLast(executions: seq<ToolExecution>, id: nat) {
    executions != []
    && var last := executions[|executions| - 1]; last.runId == id && last.approvalState == PENDING
  }

  lemma ResumeEvolves(w: World, id: nat, i: nat, d: Decision, run: Run, executions: seq<ToolExecution>, now: int)
    requires i < |executions| && executions[i].approvalState == PENDING
    requires run.state == WAITING_FOR_APPROVAL && AtRest(run)
    requires forall j :: 0 <= j < |run.invocations| ==> run.invocations[j].execution < |executions|
    ensures var n := Resume(w, id, i, d, run, executions, now);
            && RunEvolves(run, n.run) && |executions| <= |n.executions|
            && n.executions[..|executions|] == executions[i := n.executions[i]]
            && RowEvolves(executions[i], n.executions[i])
            && n.run.userId == run.userId
            && (n.run.state == WAITING_FOR_APPROVAL ==> PendingLast(n.executions, id))
  {
    hide Decide, Drain, Granted, SpecToJson, Ledger;
    PausedSpec(run);
    DecisionCloses(w, i, d, run, executions, now);
    DecideLonger(w, i, d, run, executions, now);
    var l := Decide(w, i, d, run, executions, now);
    var head := l.(run := l.run.(state := RUNNING));
    var spec := Persisted(run.version);
    forall j | 0 <= j < |head.run.invocations|
      ensures head.run.invocations[j].execution < |head.executions|
    {
      if j < |run.invocations| { assert head.run.invocations[j] == run.invocations[j]; }
    }
    DrainAppends(w, id, spec, head, now);
    DrainLonger(w, id, spec, head, now);
    var n := Drain(w, id, spec, head, now);
    assert n.executions[..|executions|] == head.executions;
    if n.run.state == WAITING_FOR_APPROVAL {
      assert NewRow(n.executions[|n.executions| - 1], |n.executions| - 1, id, Rules(Granted(spec), AlwaysOff(w), now),
                    n.run, |n.executions|);
    }
  }

  lemma StartEvolves(w: World, id: nat, spec: AgentSpec, message: string, actor: Actor,
                     executions: seq<ToolExecution>, now: int)
    ensures var n := Execute(w, id, spec, message, NewRun(spec, actor), executions, now);
            && executions <= n.executions
            && n.run.userId == Some(actor.id) && n.run.version == spec
            && (n.run.state == WAITING_FOR_APPROVAL ==> PendingLast(n.executions, id))
  {
    var l := Live(NewRun(spec, actor), executions, [User(message)], 1, 0);
    DrainAppends(w, id, spec, l, now);
    var n := Drain(w, id, spec, l, now);
    if n.run.state == WAITING_FOR_APPROVAL {
      assert NewRow(n.executions[|n.executions| - 1], |n.executions| - 1, id, Rules(Granted(spec), AlwaysOff(w), now),
                    n.run, |n.executions|);
    }
  }

  lemma ApproveEvolves(p: Platform, s: Step)
    requires Inv(p) && s.Approve?
    ensures Evolves(p, Apply(p, s))
  {
    hide Resume, Granted, Ledger, RowSafe;
    if ApproveRun(p, s.world, s.run, s.approved, s.actor, s.reason, s.now).Ok? {
      var i, run := PendingFor(p.executions, s.run).value, p.runs[s.run];
      assert AtRest(run) && Authorised(run, s.run, p.executions);
      PausedSpec(run);
      var d := Decision(s.approved, s.actor.id, s.reason);
      ResumeEvolves(s.world, s.run, i, d, run, p.executions, s.now);
      var n := Resume(s.world, s.run, i, d, run, p.executions, s.now);
      forall j | 0 <= j < |p.executions|
        ensures RowEvolves(p.executions[j], n.executions[j])
      {
        assert n.executions[j] == n.executions[..|p.executions|][j];
      }
    }
  }

  lemma StartedEvolves(p: Platform, s: Step)
    requires s.Start?
    ensures Evolves(p, Apply(p, s))
  {
    if s.agentEnabled && s.spec.Some? {
      StartEvolves(s.world, |p.runs|, s.spec.value, s.message, s.actor, p.executions, s.now);
    }
  }

  // Cancelling and sweeping only ever close rows nobody had decided.
  lemma ExpiryEvolves(p: Platform, s: Step)
    requires TablesSafe(p) && (s.Cancel? || s.ExpireOlderThan?)
    ensures Evolves(p, Apply(p, s))
  {
    hide Granted, Invoked;
    var q := Apply(p, s);
    forall i | 0 <= i < |p.executions|
      ensures RowEvolves(p.executions[i], q.executions[i])
    {
      assert RowSafe(p, i);
    }
  }

  lemma StepEvolves(p: Platform, s: Step)
    requires Inv(p)
    ensures Evolves(p, Apply(p, s))
  {
    match s
    case Start(_, _, _, _, _, _) => StartedEvolves(p, s);
    case Approve(_, _, _, _, _, _) => ApproveEvolves(p, s);
    case Cancel(_, _) => ExpiryEvolves(p, s);
    case ExpireOlderThan(_, _) => ExpiryEvolves(p, s);
  }

  lemma EvolvesTwice(p: Platform, q: Platform, r: Platform)
    requires Evolves(p, q) && Evolves(q, r)
    ensures Evolves(p, r)
  {
  }

  // Over any further history: settled rows and terminal runs stay as they are.
  lemma {:induction false} HistoryEvolves(p: Platform, history: seq<Step>)
    requires Inv(p)
    ensures Evolves(p, After(p, history))
    decreases |history|
  {
    if history != [] {
      StepInv(p, history[0]);
      StepEvolves(p, history[0]);
      HistoryEvolves(Apply(p, history[0]), history[1..]);
      EvolvesTwice(p, Apply(p, history[0]), After(p, history));
    }
  }
}
