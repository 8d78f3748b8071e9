// What each operation on a run writes and when it is refused, in terms of what a caller can see
// beforehand: the judgement of a call, a decision, a start, an answer, a cancellation and a sweep.
module RunEffects {
  import opened Outcome
  import opened AgentSpecs
  import opened RunModel
  import opened RunLoop
  import opened RunInvariants
  import opened RunHistory
  import opened RunTheorems
  import opened RunDecisions

  // ---- the judgement of a call ------------------------------------------------------------

  // In use, of a type that is on, granted to the version and permitted to the user.
  predicate MayCall(w: World, iteration: nat, tool: Tool, granted: set<string>, permissions: set<string>) {
    && tool.enabled
    && tool.kind !in w.disabledTypes(iteration)
    && tool.id in granted
    && tool.requiredPermission in permissions
  }

  // The reason given is the first that applies, in the order enabled, type, grant, permission.
  predicate FirstReason(w: World, iteration: nat, tool: Tool, granted: set<string>, permissions: set<string>,
                        d: Denial) {
    var off := tool.kind in w.disabledTypes(iteration);
    && (d.ToolDisabled? <==> !tool.enabled)
    && (d.TypeDisabled? <==> tool.enabled && off)
    && (d.NotGranted? <==> tool.enabled && !off && tool.id !in granted)
    && (d.LacksPermission? ==> d.permission == tool.requiredPermission && tool.requiredPermission !in permissions)
  }

  // A row as the pipeline first writes it, whatever becomes of it.
  predicate RowOfCall(row: ToolExecution, id: nat, tool: Tool, call: ToolCall, now: int) {
    && row.runId == id && row.toolId == tool.id && row.riskLevel == tool.riskLevel
    && row.toolName == call.name && row.arguments == call.arguments
    && row.requestedAt == now && row.approver.None?
  }

  // Told no: the model is given the reason, nothing is called and the run goes on.
  ghost predicate TurnedDown(w: World, granted: set<string>, call: ToolCall, tool: Tool, l: Live, n: Live,
                             row: ToolExecution, now: int) {
    exists d: Denial ::
      && FirstReason(w, l.iteration, tool, granted, l.run.userPermissions, d)
      && n.conversation == l.conversation + [ToolMessage(call.id, call.name, Denied(call.name, d))]
      && n.run.events == l.run.events + [RunEvent(l.sequence, ToolRejected(call.name, Denied(call.name, d)))]
      && n.run.invocations == l.run.invocations && n.run.state == l.run.state
      && row.success == Some(false) && row.result.None? && row.decidedAt == Some(now)
  }

  // Put to a human: nothing is called or answered, and the run waits on the row.
  ghost predicate PutToHuman(call: ToolCall, l: Live, n: Live, row: ToolExecution) {
    && n.conversation == l.conversation
    && n.run.events == l.run.events + [RunEvent(l.sequence, ToolApprovalRequired(call.name, |l.executions|))]
    && n.run.invocations == l.run.invocations && n.run.state == WAITING_FOR_APPROVAL
    && row.success.None? && row.result.None? && row.decidedAt.None?
  }

  function Kept(content: string): Option<string> {
    if content == "" then None else Some(content)
  }

  // Called: the model, the row and the trace get what the executor answered.
  ghost predicate Executed(w: World, call: ToolCall, k: nat, tool: Tool, l: Live, n: Live, row: ToolExecution) {
    var answer := w.execute(l.iteration, k, tool, call.arguments);
    && n.conversation == l.conversation + [ToolMessage(call.id, call.name, Result(answer.content))]
    && n.run.events == l.run.events + [RunEvent(l.sequence, ToolExecuted(call.name, answer.success))]
    && n.run.invocations == l.run.invocations + [Invocation(|l.executions|, tool, call.name, call.arguments)]
    && n.run.state == l.run.state
    && row.success == Some(answer.success) && row.decidedAt.None?
    && (answer.content != "" ==> row.result == Some(answer.content)) && (answer.content == "" ==> row.result.None?)
  }

  // One row is written for the call: REJECTED if and only if it may not be made, PENDING if and only
  // if it may and its risk needs a human, NOT_REQUIRED if and only if it may and its risk does not.
  lemma CallIsJudged(w: World, id: nat, granted: set<string>, call: ToolCall, k: nat, tool: Tool, l: Live, now: int)
    ensures var n := Dispatch(w, id, granted, call, k, tool, l, now);
            var may := MayCall(w, l.iteration, tool, granted, l.run.userPermissions);
            var risky := tool.riskLevel in w.approvalRequired(l.iteration);
            && |n.executions| == |l.executions| + 1 && n.executions[..|l.executions|] == l.executions
            && var row := n.executions[|l.executions|];
               && RowOfCall(row, id, tool, call, now)
               && (row.approvalState == REJECTED <==> !may)
               && (row.approvalState == PENDING <==> may && risky)
               && (row.approvalState == NOT_REQUIRED <==> may && !risky)
               && (row.approvalState == REJECTED ==> TurnedDown(w, granted, call, tool, l, n, row, now))
               && (row.approvalState == PENDING ==> PutToHuman(call, l, n, row))
               && (row.approvalState == NOT_REQUIRED ==> Executed(w, call, k, tool, l, n, row))
  {
    var denial := Authorise(w, l.iteration, tool, granted, l.run.userPermissions);
    if denial.Some? {
      assert FirstReason(w, l.iteration, tool, granted, l.run.userPermissions, denial.value);
    }
  }

  // The allow-list is exactly the ids in the granted tools' configurations.
  lemma GrantedIsListed(spec: AgentSpec, id: string)
    ensures id in Granted(spec) <==>
      exists t :: t in spec.tools && "_tool_id" in t.config && t.config["_tool_id"] == Text(id)
  {
  }

  // ---- a decision -------------------------------------------------------------------------

  // A decision answers the suspended call, writes an approval down before anything is called, and
  // puts the executor's answer into the row.
  lemma DecisionAnswers(w: World, i: nat, d: Decision, run: Run, executions: seq<ToolExecution>, now: int)
    requires i < |executions| && run.checkpoint.Suspended? && executions[i].result.None?
    ensures var l := Decide(w, i, d, run, executions, now);
            var cp, name := run.checkpoint, executions[i].toolName;
            var found := w.catalogueAtDecision(cp.iteration, name);
            var answer := if found.Some? then w.executeApproved(cp.iteration, found.value, executions[i].arguments)
                          else ToolResult(false, "");
            var reply := if !d.approved then Refused(name, d.reason)
                         else if found.None? then NoLongerExists(name) else Result(answer.content);
            var events := if !d.approved then [ToolRejected(name, reply)]
                          else if found.None? then [ToolApproved(name, d.approver)]
                          else [ToolApproved(name, d.approver), ToolExecuted(name, answer.success)];
            && l.conversation == cp.conversation + [ToolMessage(cp.pendingCall.id, cp.pendingCall.name, reply)]
            && |l.run.events| == |run.events| + |events| && l.run.events[..|run.events|] == run.events
            && (forall k :: 0 <= k < |events| ==>
                  l.run.events[|run.events| + k] == RunEvent(cp.sequence + k, events[k]))
            && (d.approved && found.Some? ==> l.executions[i].success == Some(answer.success))
            && l.executions[i].result == (if d.approved && found.Some? then Kept(answer.content) else None)
  {
  }

  // ---- start and approve: refusals --------------------------------------------------------

  lemma StartRefusedExactlyWhen(p: Platform, s: Step)
    requires s.Start?
    ensures var r := StartRun(p, s.world, s.agentEnabled, s.spec, s.message, s.actor, s.now);
            && (r == Err(AgentDisabled) <==> !s.agentEnabled)
            && (r == Err(NoCurrentVersion) <==> s.agentEnabled && s.spec.None?)
            && (r.Ok? <==> s.agentEnabled && s.spec.Some?)
            && (r.Err? ==> Apply(p, s) == p)
  {
    hide Execute;
  }

  // Each refusal holds exactly under its condition, asked in this order; else the answer is taken.
  lemma ApproveRefusedExactlyWhen(p: Platform, s: Step)
    requires s.Approve?
    ensures var r := ApproveRun(p, s.world, s.run, s.approved, s.actor, s.reason, s.now);
            var open := exists i :: 0 <= i < |p.executions|
                                    && p.executions[i].runId == s.run && p.executions[i].approvalState == PENDING;
            && (r == Err(NotFound) <==> s.run >= |p.runs|)
            && (s.run < |p.runs| ==>
                  var waiting := p.runs[s.run].state == WAITING_FOR_APPROVAL;
                  var own := p.runs[s.run].userId == Some(s.actor.id) && !s.actor.isSuperuser;
                  && (r == Err(NotWaitingForApproval) <==> !waiting)
                  && (r == Err(NothingPending) <==> waiting && !open)
                  && (r == Err(SelfApproval) <==> waiting && open && own)
                  && (r.Ok? <==> waiting && open && !own))
            && (r.Err? ==> Apply(p, s) == p)
  {
    hide Resumed;
  }

  // ---- cancel and expire ------------------------------------------------------------------

  // A terminal run and its rows stay as they are. Any other is CANCELLED now, its open row, if it
  // has one, EXPIRED now, and nothing else changes; nothing of it is open afterwards.
  lemma CancelWrites(p: Platform, id: nat, now: int)
    requires Inv(p) && id < |p.runs|
    ensures var q := Apply(p, Cancel(id, now));
            && (IsTerminal(p.runs[id].state) ==> q == p)
            && (!IsTerminal(p.runs[id].state) ==>
                  && q.runs == p.runs[id := p.runs[id].(state := CANCELLED, finishedAt := Some(now))]
                  && |q.executions| == |p.executions|
                  && forall j :: 0 <= j < |p.executions| ==>
                       if p.executions[j].runId == id && p.executions[j].approvalState == PENDING
                       then q.executions[j] == p.executions[j].(approvalState := EXPIRED, decidedAt := Some(now))
                       else q.executions[j] == p.executions[j])
            && NonePending(q, id)
  {
    hide Granted, Ledger, Authorised;
    var pending := PendingFor(p.executions, id);
    if pending.Some? {
      PendingMatches(p, pending.value);
    }
  }

  // Cancelling a run nobody has heard of does nothing.
  lemma CancelUnknown(p: Platform, id: nat, now: int)
    requires id >= |p.runs|
    ensures CancelRun(p, id, now) == Err(NotFound) && Apply(p, Cancel(id, now)) == p
  {
  }

  // And it is final: over any further history no answer to the run is taken, nothing more is called
  // for it, and it is over.
  lemma CancelIsFinal(p: Platform, id: nat, now: int, history: seq<Step>)
    requires Inv(p) && id < |p.runs|
    ensures var q := After(Apply(p, Cancel(id, now)), history);
            && id < |q.runs| && IsTerminal(q.runs[id].state)
            && q.runs[id].invocations == p.runs[id].invocations
            && q.runs[id].requests == p.runs[id].requests
            && forall s: Step :: s.Approve? && s.run == id ==> !Accepted(q, s)
  {
    CancelWrites(p, id, now);
    StepInv(p, Cancel(id, now));
    var c := Apply(p, Cancel(id, now));
    HistoryEvolves(c, history);
    assert RunEvolves(c.runs[id], After(c, history).runs[id]);
    hide Inv, After, Apply;
  }

  // A sweep touches no run, and expires exactly the open rows requested before the cutoff.
  lemma SweepWrites(p: Platform, cutoff: int, now: int)
    ensures var q := Apply(p, ExpireOlderThan(cutoff, now));
            && q.runs == p.runs && |q.executions| == |p.executions|
            && forall j :: 0 <= j < |p.executions| ==>
                 if p.executions[j].approvalState == PENDING && p.executions[j].requestedAt < cutoff
                 then q.executions[j] == p.executions[j].(approvalState := EXPIRED, decidedAt := Some(now))
                 else q.executions[j] == p.executions[j]
  {
  }

  // ---- over whole histories ---------------------------------------------------------------

  // A step by which row i, now in the table, was first written: by a stream at that time.
  ghost predicate WrittenAt(history: seq<Step>, k: nat, i: nat, row: ToolExecution)
    requires k < |history|
  {
    var p, s := After(EMPTY, history[..k]), history[k];
    && |p.executions| <= i < |Apply(p, s).executions|
    && (s.Start? || s.Approve?)
    && row.requestedAt == s.now
    && row.runId == (if s.Start? then |p.runs| else s.run)
  }

  lemma WrittenLater(history: seq<Step>, n: nat, k: nat, i: nat, before: ToolExecution, row: ToolExecution)
    requires k < n <= |history| && WrittenAt(history[..n], k, i, before) && RowEvolves(before, row)
    ensures WrittenAt(history, k, i, row)
  {
    assert history[..n][..k] == history[..k];
  }

  lemma StepWritesRow(p: Platform, s: Step, i: nat)
    requires Inv(p) && |p.executions| <= i < |Apply(p, s).executions|
    ensures s.Start? || s.Approve?
    ensures Apply(p, s).executions[i].requestedAt == s.now
    ensures Apply(p, s).executions[i].runId == if s.Start? then |p.runs| else s.run
  {
    hide Drain, Resume, Inv;
    if s.Start? && s.agentEnabled && s.spec.Some? {
      StartWrites(p, s);
    } else if Accepted(p, s) {
      ApproveWrites(p, s);
    }
  }

  lemma WrittenNow(history: seq<Step>, i: nat)
    requires history != []
    requires |After(EMPTY, history[..|history| - 1]).executions| <= i < |After(EMPTY, history).executions|
    ensures WrittenAt(history, |history| - 1, i, After(EMPTY, history).executions[i])
  {
    Reachable(history[..|history| - 1]);
    LastStep(history);
    hide Inv, Apply, After;
    StepWritesRow(After(EMPTY, history[..|history| - 1]), history[|history| - 1], i);
  }

  lemma LastEvolves(history: seq<Step>, i: nat)
    requires history != [] && i < |After(EMPTY, history[..|history| - 1]).executions|
    ensures i < |After(EMPTY, history).executions|
    ensures RowEvolves(After(EMPTY, history[..|history| - 1]).executions[i], After(EMPTY, history).executions[i])
  {
    var p := After(EMPTY, history[..|history| - 1]);
    Reachable(history[..|history| - 1]);
    LastStep(history);
    hide Inv, Apply, After, RowEvolves;
    StepEvolves(p, history[|history| - 1]);
  }

  // Every row was written by a step, for the run that step started or resumed, at that step's time:
  // the time a sweep goes by is the time of the call.
  lemma {:induction false} RowsAreOfTheirTime(history: seq<Step>, i: nat)
    requires i < |After(EMPTY, history).executions|
    ensures exists k :: 0 <= k < |history| && WrittenAt(history, k, i, After(EMPTY, history).executions[i])
    decreases |history|
  {
    var n := |history| - 1;
    if history != [] {
      hide After, Apply, WrittenAt, RowEvolves;
      var p := After(EMPTY, history[..n]);
      if i < |p.executions| {
        RowsAreOfTheirTime(history[..n], i);
        var k :| 0 <= k < n && WrittenAt(history[..n], k, i, p.executions[i]);
        LastEvolves(history, i);
        WrittenLater(history, n, k, i, p.executions[i], After(EMPTY, history).executions[i]);
      } else {
        WrittenNow(history, i);
      }
    }
  }
}
