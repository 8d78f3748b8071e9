// The run service over whole histories: start, approve, cancel and expire as atomic steps on the
// tables (services/agent_runs.py, repositories/agents.py), and what every history keeps.
module RunHistory {
  import opened Outcome
  import opened AgentSpecs
  import opened RunModel
  import opened RunLoop
  import opened RunInvariants
  import opened ExecutionTable

  // agent_runs and tool_executions; ids are positions.
  datatype Platform = Platform(runs: seq<Run>, executions: seq<ToolExecution>)

  datatype ServiceError =
    NotFound | AgentDisabled | NoCurrentVersion | NotWaitingForApproval | NothingPending | SelfApproval

  datatype Step =
    | Start(world: World, agentEnabled: bool, spec: Option<AgentSpec>, message: string, actor: Actor, now: int)
    | Approve(world: World, run: nat, approved: bool, actor: Actor, reason: Option<string>, now: int)
    | Cancel(run: nat, now: int)
    | ExpireOlderThan(cutoff: int, now: int)

  // The call a run is suspended on, from row i of the table on.
  function PendingFrom(executions: seq<ToolExecution>, run: nat, i: nat): (p: Option<nat>)
    requires i <= |executions|
    ensures p.Some? ==>
              i <= p.value < |executions| && executions[p.value].runId == run
              && executions[p.value].approvalState == PENDING
    ensures p.None? ==> forall j :: i <= j < |executions| ==>
              executions[j].runId != run || executions[j].approvalState != PENDING
    decreases |executions| - i
  {
    if i == |executions| then None
    else if executions[i].runId == run && executions[i].approvalState == PENDING then Some(i)
    else PendingFrom(executions, run, i + 1)
  }

  function PendingFor(executions: seq<ToolExecution>, run: nat): (p: Option<nat>)
    ensures p.Some? ==>
              p.value < |executions| && executions[p.value].runId == run
              && executions[p.value].approvalState == PENDING
    ensures p.None? ==> forall j :: 0 <= j < |executions| ==>
              executions[j].runId != run || executions[j].approvalState != PENDING
  {
    PendingFrom(executions, run, 0)
  }

  // ---- the four steps ---------------------------------------------------------------------

  function StartRun(p: Platform, w: World, agentEnabled: bool, spec: Option<AgentSpec>, message: string, actor: Actor,
                    now: int)
    : Result<Platform, ServiceError>
  {
    if !agentEnabled then Err(AgentDisabled)
    else if spec.None? then Err(NoCurrentVersion)
    else
      var n := Execute(w, |p.runs|, spec.value, message, NewRun(spec.value, actor), p.executions, now);
      Ok(Platform(p.runs + [n.run], n.executions))
  }

  predicate MayDecide(run: Run, actor: Actor) {
    !(run.userId == Some(actor.id) && !actor.isSuperuser)
  }

  // `_resume` with its guard. Without a checkpoint it only reports that nothing was waiting.
  function Resumed(w: World, id: nat, p: nat, d: Decision, run: Run, executions: seq<ToolExecution>, now: int): Live
    requires p < |executions|
  {
    if run.checkpoint.Cleared? then Emit(Live(run, executions, [], 1, 0), RunFailed(NotWaiting))
    else Resume(w, id, p, d, run, executions, now)
  }

  function ApproveRun(p: Platform, w: World, id: nat, approved: bool, actor: Actor, reason: Option<string>, now: int)
    : Result<Platform, ServiceError>
  {
    if id >= |p.runs| then Err(NotFound) else
    var run := p.runs[id];
    if run.state != WAITING_FOR_APPROVAL then Err(NotWaitingForApproval) else
    var pending := PendingFor(p.executions, id);
    if pending.None? then Err(NothingPending)
    else if !MayDecide(run, actor) then Err(SelfApproval)
    else
      var n := Resumed(w, id, pending.value, Decision(approved, actor.id, reason), run, p.executions, now);
      Ok(Platform(p.runs[id := n.run], n.executions))
  }

  function ExpiredRow(row: ToolExecution, now: int): ToolExecution {
    row.(approvalState := EXPIRED, decidedAt := Some(now))
  }

  function CancelRun(p: Platform, id: nat, now: int): Result<Platform, ServiceError> {
    if id >= |p.runs| then Err(NotFound)
    else if IsTerminal(p.runs[id].state) then Ok(p)
    else
      var pending := PendingFor(p.executions, id);
      Ok(Platform(
           p.runs[id := p.runs[id].(state := CANCELLED, finishedAt := Some(now))],
           if pending.None? then p.executions
           else p.executions[pending.value := ExpiredRow(p.executions[pending.value], now)]))
  }

  predicate Stale(row: ToolExecution, cutoff: int) {
    row.approvalState == PENDING && row.requestedAt < cutoff
  }

  function Swept(executions: seq<ToolExecution>, cutoff: int, now: int): (swept: seq<ToolExecution>)
    ensures |swept| == |executions|
    ensures forall i :: 0 <= i < |executions| ==>
      swept[i] == if Stale(executions[i], cutoff) then ExpiredRow(executions[i], now) else executions[i]
  {
    if executions == [] then [] else
    [if Stale(executions[0], cutoff) then ExpiredRow(executions[0], now) else executions[0]]
    + Swept(executions[1..], cutoff, now)
  }

  function OrElse(r: Result<Platform, ServiceError>, p: Platform): Platform {
    if r.Ok? then r.value else p
  }

  // A refused request leaves the tables as they were.
  function Apply(p: Platform, s: Step): Platform {
    match s
    case Start(w, enabled, spec, message, actor, now) => OrElse(StartRun(p, w, enabled, spec, message, actor, now), p)
    case Approve(w, id, approved, actor, reason, now) => OrElse(ApproveRun(p, w, id, approved, actor, reason, now), p)
    case Cancel(id, now) => OrElse(CancelRun(p, id, now), p)
    case ExpireOlderThan(cutoff, now) => p.(executions := Swept(p.executions, cutoff, now))
  }

  function After(p: Platform, history: seq<Step>): Platform
    decreases |history|
  {
    if history == [] then p else After(Apply(p, history[0]), history[1..])
  }

  const EMPTY := Platform([], [])

  // ---- the invariant ----------------------------------------------------------------------

  // Between requests a run is never RUNNING: it waits, or it is over.
  ghost predicate AtRest(run: Run) {
    match run.state
    case WAITING_FOR_APPROVAL => Paused(run)
    case COMPLETED => Ended(run)
    case FAILED => Ended(run)
    case CANCELLED => Ledger(run) && run.finishedAt.Some?
    case CREATED => false
    case RUNNING => false
  }

  // Executors ran for this run's authorised rows only, each at most once, in table order.
  ghost predicate Authorised(run: Run, id: nat, executions: seq<ToolExecution>) {
    && Increasing(run.invocations)
    && forall j :: 0 <= j < |run.invocations| ==>
         var e := run.invocations[j].execution;
         && e < |executions|
         && executions[e].runId == id
         && (executions[e].approvalState == NOT_REQUIRED || executions[e].approvalState == APPROVED)
         && AsRecorded(run.invocations[j], executions[e], run.userPermissions)
  }

  predicate OpenFor(row: ToolExecution, run: nat) {
    row.runId == run && row.approvalState == PENDING
  }

  // Row i is the one call run `run` is suspended on.
  ghost predicate IsPending(p: Platform, i: nat)
    requires i < |p.executions| && p.executions[i].runId < |p.runs|
  {
    var row := p.executions[i];
    var run := p.runs[row.runId];
    && run.state == WAITING_FOR_APPROVAL
    && run.checkpoint.Suspended?
    && row.toolName == run.checkpoint.pendingCall.name
    && row.arguments == run.checkpoint.pendingCall.arguments
    && (forall j :: 0 <= j < |run.invocations| ==> run.invocations[j].execution < i)
    && (forall j :: i < j < |p.executions| ==> p.executions[j].runId != row.runId)
    && (forall j :: 0 <= j < |p.executions| && OpenFor(p.executions[j], row.runId) ==> j == i)
  }

  ghost predicate RowSafe(p: Platform, i: nat)
    requires i < |p.executions|
  {
    var row := p.executions[i];
    && row.runId < |p.runs|
    && var run := p.runs[row.runId];
       && (row.approvalState != REJECTED ==> row.toolId in Granted(run.version))
       && match row.approvalState
          case NOT_REQUIRED => row.approver.None? && row.success.Some? && Invoked(run.invocations, i)
          case PENDING => row.approver.None? && row.success.None? && IsPending(p, i)
          case APPROVED => row.approver.Some? && (row.success.Some? <==> Invoked(run.invocations, i))
          case REJECTED => row.success == (if row.approver.Some? then None else Some(false))
          case EXPIRED => row.approver.None? && row.success.None?
  }

  ghost predicate TablesSafe(p: Platform) {
    && (forall r :: 0 <= r < |p.runs| ==> Authorised(p.runs[r], r, p.executions))
    && (forall i :: 0 <= i < |p.executions| ==> RowSafe(p, i))
  }

  ghost predicate RunsAtRest(p: Platform) {
    forall r :: 0 <= r < |p.runs| ==> AtRest(p.runs[r])
  }

  ghost predicate Inv(p: Platform) {
    RunsAtRest(p) && TablesSafe(p)
  }

  // ---- every step keeps it ----------------------------------------------------------------

  ghost predicate NonePending(p: Platform, id: nat) {
    forall i :: 0 <= i < |p.executions| && p.executions[i].runId == id ==> p.executions[i].approvalState != PENDING
  }

  lemma OldRowSafe(p: Platform, l: Live, n: Live, id: nat, rules: Rules, i: nat)
    requires TablesSafe(p) && NonePending(p, id)
    requires id < |p.runs| && p.executions == l.executions && p.runs[id] == l.run
    requires Appends(l, n, id, rules) && rules.granted == Granted(l.run.version)
    requires i < |p.executions|
    ensures RowSafe(Platform(p.runs[id := n.run], n.executions), i)
  {
    var q := Platform(p.runs[id := n.run], n.executions);
    var row := n.executions[i];
    assert row == p.executions[i] && RowSafe(p, i);
    InvokedStays(l, n, id, rules, i);
    if row.approvalState == PENDING {
      assert IsPending(p, i);
      forall j | 0 <= j < |q.executions| && q.executions[j].runId == row.runId
                 && q.executions[j].approvalState == PENDING
        ensures j == i
      {
        if j < |p.executions| {
          assert q.executions[j] == p.executions[j];
        }
      }
    }
  }

  lemma NewRowSafe(p: Platform, l: Live, n: Live, id: nat, rules: Rules, i: nat)
    requires TablesSafe(p) && NonePending(p, id)
    requires id < |p.runs| && p.executions == l.executions && p.runs[id] == l.run
    requires Appends(l, n, id, rules) && rules.granted == Granted(l.run.version)
    requires |p.executions| <= i < |n.executions|
    ensures RowSafe(Platform(p.runs[id := n.run], n.executions), i)
  {
  }

  // A stream drained for run `id` on top of tables in which nothing of its own is pending.
  lemma DrainedTables(p: Platform, l: Live, n: Live, id: nat, rules: Rules)
    requires TablesSafe(p) && NonePending(p, id)
    requires id < |p.runs| && p.executions == l.executions && p.runs[id] == l.run
    requires Appends(l, n, id, rules) && rules.granted == Granted(l.run.version)
    ensures TablesSafe(Platform(p.runs[id := n.run], n.executions))
  {
    var q := Platform(p.runs[id := n.run], n.executions);
    AppendsIncreasing(l, n, id, rules);
    forall r | 0 <= r < |q.runs|
      ensures Authorised(q.runs[r], r, q.executions)
    {
      assert Authorised(p.runs[r], r, p.executions);
      if r == id {
        forall j | 0 <= j < |n.run.invocations|
          ensures var e := n.run.invocations[j].execution;
            e < |q.executions| && q.executions[e].runId == id
            && (q.executions[e].approvalState == NOT_REQUIRED || q.executions[e].approvalState == APPROVED)
            && AsRecorded(n.run.invocations[j], q.executions[e], n.run.userPermissions)
        {
          if j < |l.run.invocations| {
            assert n.run.invocations[j] == l.run.invocations[j];
          }
        }
      }
    }
    forall i | 0 <= i < |q.executions|
      ensures RowSafe(q, i)
    {
      if i < |p.executions| {
        OldRowSafe(p, l, n, id, rules, i);
      } else {
        NewRowSafe(p, l, n, id, rules, i);
      }
    }
  }

  // Row i becomes `row` and its run `run`: a decision or an expiry, with at most the one call to an
  // executor that an approval allows.
  ghost predicate Settles(p: Platform, id: nat, i: nat, run: Run, row: ToolExecution) {
    && TablesSafe(p) && id < |p.runs| && i < |p.executions|
    && p.executions[i].runId == id && p.executions[i].approvalState == PENDING
    && run.userId == p.runs[id].userId && run.version == p.runs[id].version
    && run.userPermissions == p.runs[id].userPermissions
    && row.runId == id && row.toolId == p.executions[i].toolId
    && row.toolName == p.executions[i].toolName && row.arguments == p.executions[i].arguments
    && (match row.approvalState
        case APPROVED => row.approver.Some? && (row.success.Some? <==> run.invocations != p.runs[id].invocations)
        case REJECTED => row.approver.Some? && row.success.None?
        case EXPIRED => row.approver.None? && row.success.None?
        case _ => false)
    && (|| run.invocations == p.runs[id].invocations
        || (&& row.approvalState == APPROVED
            && run.invocations != []
            && run.invocations[|run.invocations| - 1].execution == i
            && AsRecorded(run.invocations[|run.invocations| - 1], row, run.userPermissions)
            && run.invocations[..|run.invocations| - 1] == p.runs[id].invocations))
  }

  lemma PendingMatches(p: Platform, i: nat)
    requires TablesSafe(p) && i < |p.executions| && p.executions[i].approvalState == PENDING
    ensures p.executions[i].runId < |p.runs|
    ensures IsPending(p, i)
  {
    assert RowSafe(p, i);
  }

  lemma SettledAuthority(p: Platform, id: nat, i: nat, run: Run, row: ToolExecution)
    requires Settles(p, id, i, run, row)
    ensures var q := Platform(p.runs[id := run], p.executions[i := row]);
            forall r :: 0 <= r < |q.runs| ==> Authorised(q.runs[r], r, q.executions)
  {
    hide Granted;
    var was, q := p.runs[id], Platform(p.runs[id := run], p.executions[i := row]);
    PendingMatches(p, i);
    forall r | 0 <= r < |q.runs|
      ensures Authorised(q.runs[r], r, q.executions)
    {
      assert Authorised(p.runs[r], r, p.executions);
      if r == id {
        forall j | 0 <= j < |was.invocations|
          ensures run.invocations[j] == was.invocations[j]
        {
        }
      }
    }
  }

  lemma SameInvoked(before: seq<Invocation>, after: seq<Invocation>, i: nat, j: nat)
    requires before == after
          || (after != [] && after[|after| - 1].execution == i && after[..|after| - 1] == before)
    requires j != i
    ensures Invoked(after, j) <==> Invoked(before, j)
  {
    if Invoked(before, j) {
      var k :| 0 <= k < |before| && before[k].execution == j;
      assert after[k] == before[k];
    }
    if Invoked(after, j) {
      var k :| 0 <= k < |after| && after[k].execution == j;
      assert k < |before| && before[k] == after[k];
    }
  }

  lemma OtherRowSafe(p: Platform, id: nat, i: nat, run: Run, row: ToolExecution, j: nat)
    requires Settles(p, id, i, run, row) && j < |p.executions| && j != i
    ensures RowSafe(Platform(p.runs[id := run], p.executions[i := row]), j)
  {
    hide Granted;
    var q := Platform(p.runs[id := run], p.executions[i := row]);
    var was := p.runs[id];
    PendingMatches(p, i);
    assert RowSafe(p, j);
    if p.executions[j].runId == id {
      SameInvoked(was.invocations, run.invocations, i, j);
    }
    if p.executions[j].approvalState == PENDING {
      assert IsPending(p, j);
      forall k | 0 <= k < |q.executions| && q.executions[k].runId == q.executions[j].runId
                 && q.executions[k].approvalState == PENDING
        ensures k == j
      {
        assert p.executions[k] == q.executions[k];
      }
    }
  }

  lemma SettledRows(p: Platform, id: nat, i: nat, run: Run, row: ToolExecution)
    requires Settles(p, id, i, run, row)
    ensures var q := Platform(p.runs[id := run], p.executions[i := row]);
            NonePending(q, id) && forall j :: 0 <= j < |q.executions| ==> RowSafe(q, j)
  {
    var q := Platform(p.runs[id := run], p.executions[i := row]);
    PendingMatches(p, i);
    forall j | 0 <= j < |q.executions|
      ensures RowSafe(q, j)
    {
      if j == i {
        assert RowSafe(p, i);
        if run.invocations != p.runs[id].invocations {
          assert run.invocations[|run.invocations| - 1].execution == i;
        }
      } else {
        OtherRowSafe(p, id, i, run, row, j);
      }
    }
  }

  // Closing the pending row of a run, whoever or whatever closed it.
  lemma SettledTables(p: Platform, id: nat, i: nat, run: Run, row: ToolExecution)
    requires Settles(p, id, i, run, row)
    ensures var q := Platform(p.runs[id := run], p.executions[i := row]);
            TablesSafe(q) && NonePending(q, id)
  {
    SettledAuthority(p, id, i, run, row);
    SettledRows(p, id, i, run, row);
  }

  // A decision closes exactly the pending row, in the name of whoever took it.
  lemma DecisionCloses(w: World, i: nat, d: Decision, run: Run, executions: seq<ToolExecution>, now: int)
    requires i < |executions| && run.checkpoint.Suspended?
    ensures var l := Decide(w, i, d, run, executions, now);
            && |l.executions| == |executions|
            && l.executions == executions[i := l.executions[i]]
            && l.executions[i].runId == executions[i].runId && l.executions[i].toolId == executions[i].toolId
            && l.executions[i].toolName == executions[i].toolName
            && l.executions[i].arguments == executions[i].arguments
            && l.executions[i].approvalState == (if d.approved then APPROVED else REJECTED)
            && l.executions[i].approver == Some(d.approver) && l.executions[i].decidedAt == Some(now)
            && (executions[i].success.None? ==>
                  && (l.executions[i].success.Some? <==> l.run.invocations != run.invocations)
                  && (!d.approved ==> l.executions[i].success.None?))
            && l.run.userId == run.userId && l.run.version == run.version
            && l.run.userPermissions == run.userPermissions
            && (|| l.run.invocations == run.invocations
                || (&& d.approved
                    && l.run.invocations != []
                    && l.run.invocations[|l.run.invocations| - 1].execution == i
                    && AsRecorded(l.run.invocations[|l.run.invocations| - 1], l.executions[i], run.userPermissions)
                    && l.run.invocations[..|l.run.invocations| - 1] == run.invocations))
  {
  }

  lemma StartTables(p: Platform, s: Step)
    requires TablesSafe(p) && s.Start?
    ensures TablesSafe(Apply(p, s))
  {
    if s.agentEnabled && s.spec.Some? {
      var id, spec := |p.runs|, s.spec.value;
      var l := Live(NewRun(spec, s.actor), p.executions, [User(s.message)], 1, 0);
      var n := Drain(s.world, id, spec, l, s.now);
      var before := Platform(p.runs + [l.run], p.executions);
      DrainAppends(s.world, id, spec, l, s.now);
      forall i | 0 <= i < |p.executions|
        ensures RowSafe(before, i) && p.executions[i].runId < id
      {
        assert RowSafe(p, i);
        assert before.runs[p.executions[i].runId] == p.runs[p.executions[i].runId];
      }
      forall r | 0 <= r < |before.runs|
        ensures Authorised(before.runs[r], r, p.executions)
      {
        if r < id { assert before.runs[r] == p.runs[r]; }
      }
      DrainedTables(before, l, n, id, Rules(Granted(spec), AlwaysOff(s.world), s.now));
      assert before.runs[id := n.run] == p.runs + [n.run];
    }
  }

  lemma PausedSpec(run: Run)
    requires AtRest(run) && run.state == WAITING_FOR_APPROVAL
    ensures run.checkpoint.Suspended? && SpecFromJson(run.checkpoint.spec) == Ok(Persisted(run.version))
  {
    SpecRoundTrip(run.version);
  }

  // The state in between: the decision is written, the loop has not been re-entered.
  lemma DecisionTables(p: Platform, w: World, id: nat, i: nat, d: Decision, now: int)
    requires TablesSafe(p) && id < |p.runs| && i < |p.executions|
    requires p.executions[i].runId == id && p.executions[i].approvalState == PENDING
    requires p.runs[id].checkpoint.Suspended?
    ensures var l := Decide(w, i, d, p.runs[id], p.executions, now);
            var q := Platform(p.runs[id := l.run.(state := RUNNING)], l.executions);
            TablesSafe(q) && NonePending(q, id) && Bounded(l) && l.run.version == p.runs[id].version
  {
    assert p.executions[i].success.None? by {
      assert RowSafe(p, i);
    }
    DecisionCloses(w, i, d, p.runs[id], p.executions, now);
    var l := Decide(w, i, d, p.runs[id], p.executions, now);
    SettledTables(p, id, i, l.run.(state := RUNNING), l.executions[i]);
    var q := Platform(p.runs[id := l.run.(state := RUNNING)], l.executions);
    assert q.executions == p.executions[i := l.executions[i]];
    assert Authorised(q.runs[id], id, q.executions);
  }

  lemma ResumeTables(p: Platform, w: World, id: nat, i: nat, d: Decision, now: int)
    requires TablesSafe(p) && id < |p.runs| && i < |p.executions|
    requires p.executions[i].runId == id && p.executions[i].approvalState == PENDING
    requires p.runs[id].checkpoint.Suspended?
             && SpecFromJson(p.runs[id].checkpoint.spec) == Ok(Persisted(p.runs[id].version))
    ensures var n := Resume(w, id, i, d, p.runs[id], p.executions, now);
            TablesSafe(Platform(p.runs[id := n.run], n.executions))
  {
    var run := p.runs[id];
    DecisionTables(p, w, id, i, d, now);
    var l := Decide(w, i, d, run, p.executions, now);
    var head := l.(run := l.run.(state := RUNNING));
    PersistedKeepsGrants(run.version);
    DrainAppends(w, id, Persisted(run.version), head, now);
    var n := Drain(w, id, Persisted(run.version), head, now);
    var q := Platform(p.runs[id := head.run], head.executions);
    DrainedTables(q, head, n, id, Rules(Granted(Persisted(run.version)), AlwaysOff(w), now));
    assert q.runs[id := n.run] == p.runs[id := n.run];
  }

  lemma ApproveTables(p: Platform, s: Step)
    requires Inv(p) && s.Approve?
    ensures TablesSafe(Apply(p, s))
  {
    if ApproveRun(p, s.world, s.run, s.approved, s.actor, s.reason, s.now).Ok? {
      PausedSpec(p.runs[s.run]);
      ResumeTables(p, s.world, s.run, PendingFor(p.executions, s.run).value,
                   Decision(s.approved, s.actor.id, s.reason), s.now);
    }
  }

  lemma CancelTables(p: Platform, s: Step)
    requires TablesSafe(p) && s.Cancel?
    ensures TablesSafe(Apply(p, s))
  {
    var id := s.run;
    if id < |p.runs| && !IsTerminal(p.runs[id].state) {
      var run := p.runs[id].(state := CANCELLED, finishedAt := Some(s.now));
      var pending := PendingFor(p.executions, id);
      if pending.Some? {
        assert RowSafe(p, pending.value);
        SettledTables(p, id, pending.value, run, ExpiredRow(p.executions[pending.value], s.now));
      } else {
        var q := Platform(p.runs[id := run], p.executions);
        forall i | 0 <= i < |q.executions|
          ensures RowSafe(q, i)
        {
          assert RowSafe(p, i);
        }
        forall r | 0 <= r < |q.runs|
          ensures Authorised(q.runs[r], r, q.executions)
        {
          assert Authorised(p.runs[r], r, p.executions);
        }
      }
    }
  }

  lemma ExpireTables(p: Platform, s: Step)
    requires TablesSafe(p) && s.ExpireOlderThan?
    ensures TablesSafe(Apply(p, s))
  {
    var q := Apply(p, s);
    forall r | 0 <= r < |q.runs|
      ensures Authorised(q.runs[r], r, q.executions)
    {
      assert Authorised(p.runs[r], r, p.executions);
    }
    forall i | 0 <= i < |q.executions|
      ensures RowSafe(q, i)
    {
      assert RowSafe(p, i);
    }
  }

  lemma DrainedRests(run: Run, from: nat)
    requires Drained(run, from)
    ensures AtRest(run)
  {
  }

  lemma StartRests(p: Platform, s: Step)
    requires RunsAtRest(p) && s.Start?
    ensures RunsAtRest(Apply(p, s))
  {
    hide AtRest, Drained, Execute;
    if s.agentEnabled && s.spec.Some? {
      StartKeeps(s.world, |p.runs|, s.spec.value, s.message, s.actor, p.executions, s.now);
      DrainedRests(Execute(s.world, |p.runs|, s.spec.value, s.message, NewRun(s.spec.value, s.actor), p.executions,
                           s.now).run, 0);
    }
  }

  lemma ApproveRests(p: Platform, s: Step)
    requires Inv(p) && s.Approve?
    ensures RunsAtRest(Apply(p, s))
  {
    hide Drained, Ledger, Resume, Granted, Authorised;
    if ApproveRun(p, s.world, s.run, s.approved, s.actor, s.reason, s.now).Ok? {
      var i, run := PendingFor(p.executions, s.run).value, p.runs[s.run];
      var d := Decision(s.approved, s.actor.id, s.reason);
      assert AtRest(run);
      PendingMatches(p, i);
      ResumeKeeps(s.world, s.run, i, d, run, p.executions, s.now);
      DrainedRests(Resume(s.world, s.run, i, d, run, p.executions, s.now).run, |run.events|);
    }
  }

  lemma CancelRests(run: Run, now: int)
    requires AtRest(run)
    ensures AtRest(run.(state := CANCELLED, finishedAt := Some(now)))
  {
  }

  // Every run is left waiting on a consistent checkpoint or finished with a consistent trace.
  lemma StepRests(p: Platform, s: Step)
    requires Inv(p)
    ensures RunsAtRest(Apply(p, s))
  {
    match s
    case Start(_, _, _, _, _, _) => StartRests(p, s);
    case Approve(_, _, _, _, _, _) => ApproveRests(p, s);
    case Cancel(id, now) =>
      if id < |p.runs| {
        CancelRests(p.runs[id], now);
      }
    case ExpireOlderThan(_, _) =>
  }

  lemma StepInv(p: Platform, s: Step)
    requires Inv(p)
    ensures Inv(Apply(p, s))
  {
    StepRests(p, s);
    match s
    case Start(_, _, _, _, _, _) => StartTables(p, s);
    case Approve(_, _, _, _, _, _) => ApproveTables(p, s);
    case Cancel(_, _) => CancelTables(p, s);
    case ExpireOlderThan(_, _) => ExpireTables(p, s);
  }

  lemma {:induction false} HistoryInv(p: Platform, history: seq<Step>)
    requires Inv(p)
    ensures Inv(After(p, history))
    decreases |history|
  {
    if history != [] {
      StepInv(p, history[0]);
      HistoryInv(Apply(p, history[0]), history[1..]);
    }
  }
}
