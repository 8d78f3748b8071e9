// What a drained stream does to the tool_executions table: it appends, it leaves every earlier
// row alone, and an executor runs only for rows that were authorised.
module ExecutionTable {
  import opened Outcome
  import opened AgentSpecs
  import opened RunModel
  import opened RunLoop

  // Execution ids in the order in which executors were called for this run.
  ghost predicate Increasing(invocations: seq<Invocation>) {
    forall i, j :: 0 <= i < j < |invocations| ==> invocations[i].execution < invocations[j].execution
  }

  ghost predicate Invoked(invocations: seq<Invocation>, execution: nat) {
    exists j :: 0 <= j < |invocations| && invocations[j].execution == execution
  }

  ghost predicate Off(w: World, t: ToolType) {
    forall i: nat :: t in w.disabledTypes(i)
  }

  // The types the settings switch off for as long as the stream runs.
  ghost function AlwaysOff(w: World): set<ToolType> {
    set t: ToolType | Off(w, t)
  }

  // What a stream authorises against, the version's grants and the types that are switched off; and
  // the time it is drained at.
  datatype Rules = Rules(granted: set<string>, disabled: set<ToolType>, now: int)

  // The executor was given what the row says: the name and the arguments, and the very tool, in
  // use and permitted, unless the call waited for a human, after whom the name is looked up again.
  predicate AsRecorded(i: Invocation, row: ToolExecution, permissions: set<string>) {
    && i.name == row.toolName
    && i.arguments == row.arguments
    && (row.approvalState == NOT_REQUIRED ==>
          i.tool.id == row.toolId && i.tool.enabled && i.tool.requiredPermission in permissions)
  }

  // A row the loop writes for run `id`, seen once the stream is drained. Only the last row can be
  // waiting, it is the call in the checkpoint, and nobody is named as approver of any of them.
  ghost predicate NewRow(row: ToolExecution, i: nat, id: nat, rules: Rules, run: Run, size: nat) {
    && row.runId == id
    && row.requestedAt == rules.now
    && row.approver.None?
    && match row.approvalState
       case NOT_REQUIRED => row.toolId in rules.granted && row.success.Some? && Invoked(run.invocations, i)
       case REJECTED => row.decidedAt == Some(rules.now) && row.success == Some(false) && !Invoked(run.invocations, i)
       case PENDING =>
         && row.toolId in rules.granted
         && row.success.None?
         && run.state == WAITING_FOR_APPROVAL
         && i == size - 1
         && run.checkpoint.Suspended?
         && row.toolName == run.checkpoint.pendingCall.name
         && row.arguments == run.checkpoint.pendingCall.arguments
       case APPROVED => false
       case EXPIRED => false
  }

  // From `l` to `n`: rows are appended, executors are called for new rows only, each once, and the
  // run waits exactly when the last row does.
  ghost predicate Appends(l: Live, n: Live, id: nat, rules: Rules) {
    && l.executions <= n.executions
    && l.run.invocations <= n.run.invocations
    && n.run.userId == l.run.userId
    && n.run.version == l.run.version
    && n.run.userPermissions == l.run.userPermissions
    && (forall i :: |l.executions| <= i < |n.executions| ==>
          NewRow(n.executions[i], i, id, rules, n.run, |n.executions|))
    && (forall j :: |l.run.invocations| <= j < |n.run.invocations| ==>
          && |l.executions| <= n.run.invocations[j].execution < |n.executions|
          && n.executions[n.run.invocations[j].execution].approvalState == NOT_REQUIRED
          && n.run.invocations[j].tool.kind !in rules.disabled
          && AsRecorded(n.run.invocations[j], n.executions[n.run.invocations[j].execution], n.run.userPermissions))
    && (forall i, j :: |l.run.invocations| <= i < j < |n.run.invocations| ==>
          n.run.invocations[i].execution < n.run.invocations[j].execution)
    && (n.run.state == WAITING_FOR_APPROVAL ==>
          |l.executions| < |n.executions| && n.executions[|n.executions| - 1].approvalState == PENDING)
    && (IsTerminal(n.run.state) ==> n.run.finishedAt == Some(rules.now))
  }

  ghost predicate SameTables(l: Live, n: Live) {
    && n.executions == l.executions && n.run.invocations == l.run.invocations
    && n.run.userId == l.run.userId && n.run.version == l.run.version && n.run.userPermissions == l.run.userPermissions
  }

  lemma SameAppends(l: Live, n: Live, id: nat, rules: Rules)
    requires SameTables(l, n) && n.run.state != WAITING_FOR_APPROVAL
    requires IsTerminal(n.run.state) ==> n.run.finishedAt == Some(rules.now)
    ensures Appends(l, n, id, rules)
  {
  }

  lemma AppendsTwice(l: Live, m: Live, n: Live, id: nat, rules: Rules)
    requires Appends(l, m, id, rules) && m.run.state != WAITING_FOR_APPROVAL
    requires Appends(m, n, id, rules)
    ensures Appends(l, n, id, rules)
  {
  }

  // Everything already called came before the rows about to be written.
  ghost predicate Bounded(l: Live) {
    forall j :: 0 <= j < |l.run.invocations| ==> l.run.invocations[j].execution < |l.executions|
  }

  lemma AppendsBounded(l: Live, n: Live, id: nat, rules: Rules)
    requires Appends(l, n, id, rules) && Bounded(l)
    ensures Bounded(n)
  {
  }

  // Later calls are for later rows, so whether an earlier row was called for stays as it was.
  lemma InvokedStays(l: Live, n: Live, id: nat, rules: Rules, i: nat)
    requires Appends(l, n, id, rules) && i < |l.executions|
    ensures Invoked(n.run.invocations, i) <==> Invoked(l.run.invocations, i)
  {
    hide NewRow;
    if Invoked(l.run.invocations, i) {
      var j :| 0 <= j < |l.run.invocations| && l.run.invocations[j].execution == i;
      assert n.run.invocations[j] == l.run.invocations[j];
    }
    if Invoked(n.run.invocations, i) {
      var j :| 0 <= j < |n.run.invocations| && n.run.invocations[j].execution == i;
      assert j < |l.run.invocations| && n.run.invocations[j] == l.run.invocations[j];
    }
  }

  lemma AppendsIncreasing(l: Live, n: Live, id: nat, rules: Rules)
    requires Appends(l, n, id, rules) && Bounded(l) && Increasing(l.run.invocations)
    ensures Increasing(n.run.invocations)
  {
  }

  lemma DispatchAppends(w: World, id: nat, granted: set<string>, call: ToolCall, k: nat, tool: Tool, l: Live, now: int)
    requires l.run.state == RUNNING && Bounded(l)
    ensures var n := Dispatch(w, id, granted, call, k, tool, l, now);
            Appends(l, n, id, Rules(granted, AlwaysOff(w), now))
            && (n.run.state == RUNNING || n.run.state == WAITING_FOR_APPROVAL)
  {
    var n := Dispatch(w, id, granted, call, k, tool, l, now);
    var e := |l.executions|;
    if Authorise(w, l.iteration, tool, granted, l.run.userPermissions).Some? {
      assert !Invoked(n.run.invocations, e);
    } else if tool.riskLevel !in w.approvalRequired(l.iteration) {
      assert n.run.invocations[|l.run.invocations|].execution == e;
      assert Invoked(n.run.invocations, e);
    }
  }

  lemma HandleAppends(w: World, id: nat, granted: set<string>, call: ToolCall, k: nat, l: Live, now: int)
    requires l.run.state == RUNNING && Bounded(l)
    ensures var n := Handle(w, id, granted, call, k, l, now);
            Appends(l, n, id, Rules(granted, AlwaysOff(w), now))
            && (n.run.state == RUNNING || n.run.state == WAITING_FOR_APPROVAL)
  {
    var rules := Rules(granted, AlwaysOff(w), now);
    var a := Emit(l, ToolRequested(call.name));
    SameAppends(l, a, id, rules);
    match w.catalogue(a.iteration, k, call.name)
    case None => SameAppends(l, Say(a, ToolReply(call, NoSuchTool(call.name))), id, rules);
    case Some(tool) =>
      DispatchAppends(w, id, granted, call, k, tool, a, now);
      AppendsTwice(l, a, Dispatch(w, id, granted, call, k, tool, a, now), id, rules);
  }

  lemma {:induction false} BatchAppends(w: World, id: nat, granted: set<string>, calls: seq<ToolCall>, k: nat,
                                        l: Live, now: int)
    requires k <= |calls| && l.run.state == RUNNING && Bounded(l)
    ensures var n := Batch(w, id, granted, calls, k, l, now);
            Appends(l, n, id, Rules(granted, AlwaysOff(w), now))
            && (n.run.state == RUNNING || n.run.state == WAITING_FOR_APPROVAL)
    decreases |calls| - k
  {
    var rules := Rules(granted, AlwaysOff(w), now);
    if k == |calls| {
      SameAppends(l, l, id, rules);
    } else {
      HandleAppends(w, id, granted, calls[k], k, l, now);
      var n := Handle(w, id, granted, calls[k], k, l, now);
      if n.run.state != WAITING_FOR_APPROVAL {
        AppendsBounded(l, n, id, rules);
        BatchAppends(w, id, granted, calls, k + 1, n, now);
        AppendsTwice(l, n, Batch(w, id, granted, calls, k + 1, n, now), id, rules);
      }
    }
  }

  lemma {:induction false} IterateAppends(w: World, id: nat, spec: AgentSpec, served: string, l: Live, now: int)
    requires l.run.state == RUNNING && Bounded(l)
    ensures Appends(l, Iterate(w, id, spec, served, l, now), id, Rules(Granted(spec), AlwaysOff(w), now))
    decreases spec.maxIterations - l.iteration
  {
    var n := Iterate(w, id, spec, served, l, now);
    var rules := Rules(Granted(spec), AlwaysOff(w), now);
    if l.iteration >= spec.maxIterations {
      SameAppends(l, n, id, rules);
    } else {
      var c := w.chat(l.iteration + 1, Request(spec, served, l.conversation));
      if c.ProviderError? || c.toolCalls == [] {
        SameAppends(l, n, id, rules);
      } else {
        var b := Receive(Ask(spec, served, l), c);
        var s := Say(b, Assistant(c.content, c.toolCalls));
        SameAppends(l, s, id, rules);
        BatchAppends(w, id, Granted(spec), c.toolCalls, 0, s, now);
        var d := Turn(w, id, spec, c, b, now);
        AppendsTwice(l, s, d, id, rules);
        if d.run.state != WAITING_FOR_APPROVAL {
          AppendsBounded(l, d, id, rules);
          IterateAppends(w, id, spec, served, d, now);
          AppendsTwice(l, d, n, id, rules);
        }
      }
    }
  }

  lemma DrainAppends(w: World, id: nat, spec: AgentSpec, l: Live, now: int)
    requires l.run.state == RUNNING && Bounded(l)
    ensures Appends(l, Drain(w, id, spec, l, now), id, Rules(Granted(spec), AlwaysOff(w), now))
  {
    var rules := Rules(Granted(spec), AlwaysOff(w), now);
    var o := Open(w, spec, l);
    SameAppends(l, o, id, rules);
    match w.resolve(o.iteration, spec.model)
    case Err(cause) => SameAppends(l, Drain(w, id, spec, l, now), id, rules);
    case Ok(served) =>
      IterateAppends(w, id, spec, served, o, now);
      AppendsTwice(l, o, Drain(w, id, spec, l, now), id, rules);
  }
}
