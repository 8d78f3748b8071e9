// Who decided a row, and what ran for it: every decision in the tables is traced to the step of the
// history that took it.
module RunDecisions {
  import opened Outcome
  import opened AgentSpecs
  import opened RunModel
  import opened RunLoop
  import opened RunInvariants
  import opened ExecutionTable
  import opened RunHistory
  import opened RunTheorems

  // ---- what one step writes ---------------------------------------------------------------

  predicate Accepted(p: Platform, s: Step) {
    s.Approve? && ApproveRun(p, s.world, s.run, s.approved, s.actor, s.reason, s.now).Ok?
  }

  // Rows from position n on are the stream's own: of run `id`, requested now, decided by nobody.
  ghost predicate Undecided(executions: seq<ToolExecution>, n: nat, id: nat, now: int) {
    forall j :: n <= j < |executions| ==>
      && executions[j].runId == id
      && executions[j].requestedAt == now
      && executions[j].approver.None?
      && executions[j].approvalState != APPROVED
  }

  // Calls from position n on were made for rows from `first` on, without a human only for tools of
  // a type the settings leave on.
  ghost predicate WithinSettings(run: Run, n: nat, executions: seq<ToolExecution>, first: nat,
                                 disabled: set<ToolType>) {
    forall j :: n <= j < |run.invocations| ==>
      && first <= run.invocations[j].execution < |executions|
      && (executions[run.invocations[j].execution].approvalState == NOT_REQUIRED ==>
            run.invocations[j].tool.kind !in disabled)
  }

  lemma StreamWrites(l: Live, n: Live, id: nat, rules: Rules)
    requires Appends(l, n, id, rules)
    ensures Undecided(n.executions, |l.executions|, id, rules.now)
    ensures WithinSettings(n.run, |l.run.invocations|, n.executions, |l.executions|, rules.disabled)
  {
    forall j | |l.executions| <= j < |n.executions|
      ensures n.executions[j].runId == id && n.executions[j].requestedAt == rules.now && n.executions[j].approver.None?
              && n.executions[j].approvalState != APPROVED
    {
      assert NewRow(n.executions[j], j, id, rules, n.run, |n.executions|);
    }
  }

  lemma StartWrites(p: Platform, s: Step)
    requires s.Start? && s.agentEnabled && s.spec.Some?
    ensures var q := Apply(p, s);
            && |q.runs| == |p.runs| + 1 && q.runs[..|p.runs|] == p.runs
            && p.executions <= q.executions
            && Undecided(q.executions, |p.executions|, |p.runs|, s.now)
            && WithinSettings(q.runs[|p.runs|], 0, q.executions, |p.executions|, AlwaysOff(s.world))
  {
    hide Drain, Granted;
    var spec := s.spec.value;
    var l := Live(NewRun(spec, s.actor), p.executions, [User(s.message)], 1, 0);
    DrainAppends(s.world, |p.runs|, spec, l, s.now);
    StreamWrites(l, Drain(s.world, |p.runs|, spec, l, s.now), |p.runs|,
                 Rules(Granted(spec), AlwaysOff(s.world), s.now));
  }

  // The calls a decision makes: one, of the tool the catalogue now has under the name the human was
  // shown, if it was approved and there is still such a tool; else none.
  function CallsOfDecision(w: World, i: nat, approved: bool, run: Run, row: ToolExecution): seq<Invocation> {
    var found := w.catalogueAtDecision(Restored(run.checkpoint).iteration, row.toolName);
    if approved && found.Some? then [Invocation(i, found.value, row.toolName, row.arguments)] else []
  }

  lemma DecisionCalls(w: World, i: nat, d: Decision, run: Run, executions: seq<ToolExecution>, now: int)
    requires i < |executions|
    ensures Decide(w, i, d, run, executions, now).run.invocations
         == run.invocations + CallsOfDecision(w, i, d.approved, run, executions[i])
  {
  }

  // Resuming writes the decision on the one row, calls what it allows, and then only appends.
  lemma ResumeWrites(w: World, id: nat, i: nat, d: Decision, run: Run, executions: seq<ToolExecution>, now: int)
    requires i < |executions| && run.state == WAITING_FOR_APPROVAL && AtRest(run)
    requires forall j :: 0 <= j < |run.invocations| ==> run.invocations[j].execution < |executions|
    ensures var n := Resume(w, id, i, d, run, executions, now);
            var calls := CallsOfDecision(w, i, d.approved, run, executions[i]);
            && |executions| <= |n.executions|
            && (forall j :: 0 <= j < |executions| && j != i ==> n.executions[j] == executions[j])
            && n.executions[i].approver == Some(d.approver) && n.executions[i].decidedAt == Some(now)
            && n.executions[i].approvalState == (if d.approved then APPROVED else REJECTED)
            && Undecided(n.executions, |executions|, id, now)
            && run.invocations + calls <= n.run.invocations
            && WithinSettings(n.run, |run.invocations + calls|, n.executions, |executions|, AlwaysOff(w))
  {
    hide Drain, Granted, SpecToJson, Ledger, Decide;
    PausedSpec(run);
    DecisionCloses(w, i, d, run, executions, now);
    DecisionCalls(w, i, d, run, executions, now);
    var l := Decide(w, i, d, run, executions, now);
    var head := l.(run := l.run.(state := RUNNING));
    var spec := Persisted(run.version);
    forall j | 0 <= j < |head.run.invocations|
      ensures head.run.invocations[j].execution < |head.executions|
    {
      if j < |run.invocations| {
        assert head.run.invocations[j] == run.invocations[j];
      }
    }
    DrainAppends(w, id, spec, head, now);
    StreamWrites(head, Drain(w, id, spec, head, now), id, Rules(Granted(spec), AlwaysOff(w), now));
  }

  lemma ApproveWrites(p: Platform, s: Step)
    requires Inv(p) && Accepted(p, s)
    ensures var i, q, run := PendingFor(p.executions, s.run).value, Apply(p, s), p.runs[s.run];
            var calls := CallsOfDecision(s.world, i, s.approved, run, p.executions[i]);
            && |q.runs| == |p.runs| && (forall r :: 0 <= r < |p.runs| && r != s.run ==> q.runs[r] == p.runs[r])
            && |p.executions| <= |q.executions|
            && (forall j :: 0 <= j < |p.executions| && j != i ==> q.executions[j] == p.executions[j])
            && q.executions[i].approver == Some(s.actor.id) && q.executions[i].decidedAt == Some(s.now)
            && q.executions[i].approvalState == (if s.approved then APPROVED else REJECTED)
            && Undecided(q.executions, |p.executions|, s.run, s.now)
            && run.invocations + calls <= q.runs[s.run].invocations
            && WithinSettings(q.runs[s.run], |run.invocations + calls|, q.executions, |p.executions|,
                              AlwaysOff(s.world))
  {
    hide Resume, Granted, Ledger, CallsOfDecision, Undecided, WithinSettings;
    var i, run := PendingFor(p.executions, s.run).value, p.runs[s.run];
    assert AtRest(run) && Authorised(run, s.run, p.executions);
    PausedSpec(run);
    ResumeWrites(s.world, s.run, i, Decision(s.approved, s.actor.id, s.reason), run, p.executions, s.now);
  }

  // A tool of a type the settings switch off runs only for a call a human approved.
  lemma SwitchedOffTypesStayOff(p: Platform, s: Step, r: nat, j: nat)
    requires Inv(p) && (s.Start? || s.Approve?)
    requires var q := Apply(p, s);
             && r < |q.runs| && j < |q.runs[r].invocations|
             && (r < |p.runs| ==> |p.runs[r].invocations| <= j)
    ensures var q := Apply(p, s);
            var inv := q.runs[r].invocations[j];
            && inv.execution < |q.executions|
            && (q.executions[inv.execution].approvalState == NOT_REQUIRED ==> inv.tool.kind !in AlwaysOff(s.world))
  {
    StepInv(p, s);
    var q := Apply(p, s);
    assert Authorised(q.runs[r], r, q.executions);
    if s.Start? && s.agentEnabled && s.spec.Some? {
      StartWrites(p, s);
    } else if Accepted(p, s) {
      ApproveWrites(p, s);
      var i := PendingFor(p.executions, s.run).value;
      var calls := CallsOfDecision(s.world, i, s.approved, p.runs[s.run], p.executions[i]);
      if j < |p.runs[s.run].invocations + calls| {
        assert q.runs[r].invocations[j] == (p.runs[s.run].invocations + calls)[j];
      }
    }
  }

  // ---- tracing a decision back through the history ----------------------------------------

  // Step s takes the decision on row i.
  predicate Decides(p: Platform, s: Step, i: nat) {
    Accepted(p, s) && PendingFor(p.executions, s.run) == Some(i)
  }

  // Step k of the history decided row i, for the run of `starter`, as the row now says; and if the
  // starter took the decision themselves, they were a superuser as they took it.
  ghost predicate DecidedAt(history: seq<Step>, k: nat, i: nat, row: ToolExecution, starter: Option<UserId>)
    requires k < |history|
  {
    var p, s := After(EMPTY, history[..k]), history[k];
    && Decides(p, s, i)
    && row.runId == s.run && p.runs[s.run].userId == starter
    && row.approver == Some(s.actor.id)
    && row.decidedAt == Some(s.now)
    && row.approvalState == (if s.approved then APPROVED else REJECTED)
    && (starter == Some(s.actor.id) ==> s.actor.isSuperuser)
  }

  lemma {:induction false} AfterOneMore(p: Platform, history: seq<Step>, s: Step)
    ensures After(p, history + [s]) == Apply(After(p, history), s)
    decreases |history|
  {
    hide Apply;
    if history == [] {
      assert [s][1..] == [];
      assert After(Apply(p, s), []) == Apply(p, s);
    } else {
      assert (history + [s])[1..] == history[1..] + [s];
      AfterOneMore(Apply(p, history[0]), history[1..], s);
    }
  }

  lemma LastStep(history: seq<Step>)
    requires history != []
    ensures var n := |history| - 1; After(EMPTY, history) == Apply(After(EMPTY, history[..n]), history[n])
  {
    hide Apply, After;
    var n := |history| - 1;
    assert history == history[..n] + [history[n]];
    AfterOneMore(EMPTY, history[..n], history[n]);
  }

  lemma ExpiredNameNobody(p: Platform, s: Step, i: nat)
    requires Inv(p) && (s.Cancel? || s.ExpireOlderThan?)
    requires i < |Apply(p, s).executions| && Apply(p, s).executions[i].approver.Some?
    ensures i < |p.executions| && Apply(p, s).executions[i] == p.executions[i]
  {
    hide Granted, Ledger, Authorised;
    assert RowSafe(p, i);
  }

  // A row that names an approver either did before the step or was decided by it.
  lemma StepDecides(p: Platform, s: Step, i: nat)
    requires Inv(p) && i < |Apply(p, s).executions| && Apply(p, s).executions[i].approver.Some?
    ensures Decides(p, s, i) || (i < |p.executions| && Apply(p, s).executions[i] == p.executions[i])
  {
    hide Drain, Inv;
    var q := Apply(p, s);
    match s
    case Start(_, enabled, spec, _, _, _) =>
      if enabled && spec.Some? {
        StartWrites(p, s);
      }
    case Approve(_, _, _, _, _, _) =>
      if Accepted(p, s) {
        ApproveWrites(p, s);
      }
    case Cancel(_, _) => ExpiredNameNobody(p, s, i);
    case ExpireOlderThan(_, _) => ExpiredNameNobody(p, s, i);
  }

  lemma DecidedLater(history: seq<Step>, n: nat, k: nat, i: nat, row: ToolExecution, starter: Option<UserId>)
    requires k < n <= |history| && DecidedAt(history[..n], k, i, row, starter)
    ensures DecidedAt(history, k, i, row, starter)
  {
    assert history[..n][..k] == history[..k];
  }

  lemma NowDecided(p: Platform, s: Step, i: nat)
    requires Inv(p) && Decides(p, s, i)
    ensures var q := Apply(p, s);
            && |p.runs| == |q.runs| && i < |q.executions| && q.executions[i].runId == s.run < |q.runs|
            && q.executions[i].approver == Some(s.actor.id) && q.executions[i].decidedAt == Some(s.now)
            && q.executions[i].approvalState == (if s.approved then APPROVED else REJECTED)
            && q.runs[s.run].userId == p.runs[s.run].userId
  {
    hide Resume;
    ApproveWrites(p, s);
    StepEvolves(p, s);
    assert RunEvolves(p.runs[s.run], Apply(p, s).runs[s.run]);
    assert RowEvolves(p.executions[i], Apply(p, s).executions[i]);
  }

  lemma DecidedNow(history: seq<Step>, i: nat)
    requires history != []
    requires var n := |history| - 1; Decides(After(EMPTY, history[..n]), history[n], i)
    ensures var n, q := |history| - 1, After(EMPTY, history);
            && i < |q.executions| && q.executions[i].runId < |q.runs|
            && DecidedAt(history, n, i, q.executions[i], q.runs[q.executions[i].runId].userId)
  {
    var n := |history| - 1;
    Reachable(history[..n]);
    LastStep(history);
    hide Inv, Apply, After;
    NowDecided(After(EMPTY, history[..n]), history[n], i);
  }

  lemma {:induction false} DecisionHasStep(history: seq<Step>, i: nat)
    requires i < |After(EMPTY, history).executions| && After(EMPTY, history).executions[i].approver.Some?
    ensures var p := After(EMPTY, history);
            var row := p.executions[i];
            && row.runId < |p.runs|
            && exists k :: 0 <= k < |history| && DecidedAt(history, k, i, row, p.runs[row.runId].userId)
    decreases |history|
  {
    var n := |history| - 1;
    var before, s := history[..n], history[n];
    var p, q := After(EMPTY, before), After(EMPTY, history);
    var row := q.executions[i];
    LastStep(history);
    Reachable(before);
    hide Inv, DecidedAt, Apply, After;
    StepDecides(p, s, i);
    if Decides(p, s, i) {
      NowDecided(p, s, i);
      DecidedNow(history, i);
    } else {
      DecisionHasStep(before, i);
      var k :| 0 <= k < n && DecidedAt(before, k, i, row, p.runs[row.runId].userId);
      DecidedLater(history, n, k, i, row, p.runs[row.runId].userId);
      StepEvolves(p, s);
      assert RunEvolves(p.runs[row.runId], q.runs[row.runId]);
    }
  }

  // Whoever is named on a row decided it: nobody on an expired, unneeded or open one, a person on
  // an approved one. There is a step that took that very decision, and if it was taken by the
  // starter of the run, the starter was a superuser at that step.
  lemma ApproverIsAnotherPerson(history: seq<Step>, i: nat)
    requires i < |After(EMPTY, history).executions|
    ensures var p := After(EMPTY, history);
            var row := p.executions[i];
            && row.runId < |p.runs|
            && (row.approvalState in {EXPIRED, NOT_REQUIRED, PENDING} ==> row.approver.None?)
            && (row.approvalState == APPROVED ==> row.approver.Some?)
            && (row.approver.Some? ==>
                  exists k :: 0 <= k < |history| && DecidedAt(history, k, i, row, p.runs[row.runId].userId))
  {
    Reachable(history);
    assert RowSafe(After(EMPTY, history), i);
    if After(EMPTY, history).executions[i].approver.Some? {
      DecisionHasStep(history, i);
    }
  }

  // ---- what an approval runs --------------------------------------------------------------

  // The tool the catalogue has now under the name of the row.
  function ListedNow(p: Platform, s: Step, i: nat): Option<Tool>
    requires s.Approve? && s.run < |p.runs| && i < |p.executions|
  {
    s.world.catalogueAtDecision(Restored(p.runs[s.run].checkpoint).iteration, p.executions[i].toolName)
  }

  // The call made for row i, if any, was of a tool with this id.
  ghost predicate Ran(run: Run, i: nat, id: string) {
    exists j :: 0 <= j < |run.invocations| && run.invocations[j].execution == i && run.invocations[j].tool.id == id
  }

  // An approved call runs if and only if there still is a tool of that name, and what runs is the
  // tool the approver was shown if and only if the name still stands for it: the source looks the
  // name up again, and asks the grants no second time.
  lemma ApprovalRunsTheToolShownExactlyWhenStillListed(p: Platform, s: Step)
    requires Inv(p) && Accepted(p, s) && s.approved
    ensures var i, run := PendingFor(p.executions, s.run).value, Apply(p, s).runs[s.run];
            var found := ListedNow(p, s, i);
            && (Invoked(run.invocations, i) <==> found.Some?)
            && (forall id :: Ran(run, i, id) <==> found.Some? && found.value.id == id)
  {
    hide Resume, Granted, Ledger, RowSafe;
    var i, q := PendingFor(p.executions, s.run).value, Apply(p, s);
    var was, run := p.runs[s.run], q.runs[s.run];
    ApproveWrites(p, s);
    PendingMatches(p, i);
    StepInv(p, s);
    assert Authorised(run, s.run, q.executions);
    var calls := CallsOfDecision(s.world, i, s.approved, was, p.executions[i]);
    var n := |was.invocations|;
    assert forall j :: 0 <= j < n ==> run.invocations[j] == was.invocations[j];
    if calls != [] {
      assert run.invocations[n] == (was.invocations + calls)[n] == calls[0];
    }
    forall j | 0 <= j < |run.invocations| && run.invocations[j].execution == i
      ensures calls != [] && j == n
    {
      assert j >= n;
    }
  }
}
