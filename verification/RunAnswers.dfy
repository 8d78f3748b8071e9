// Which waiting runs can still be answered: a run waits on its last call, it can be answered exactly
// while that call has not been expired, and once it has, only cancelling changes the run.
module RunAnswers {
  import opened Outcome
  import opened AgentSpecs
  import opened RunModel
  import opened RunLoop
  import opened RunInvariants
  import opened RunHistory
  import opened RunTheorems
  import opened RunDecisions

  // Row i is the last of run r: the call it stopped at, still open or expired since.
  ghost predicate StoppedAt(executions: seq<ToolExecution>, r: nat, i: nat) {
    && i < |executions|
    && executions[i].runId == r
    && (executions[i].approvalState == PENDING || executions[i].approvalState == EXPIRED)
    && forall j :: i < j < |executions| ==> executions[j].runId != r
  }

  ghost predicate Stopped(p: Platform, r: nat)
    requires r < |p.runs|
  {
    p.runs[r].state == WAITING_FOR_APPROVAL ==> exists i :: StoppedAt(p.executions, r, i)
  }

  ghost predicate WaitingStopped(p: Platform) {
    forall r :: 0 <= r < |p.runs| ==> Stopped(p, r)
  }

  // The step is neither a decision on run r nor its cancellation.
  predicate LeavesAlone(s: Step, r: nat) {
    match s
    case Approve(_, id, _, _, _, _) => id != r
    case Cancel(id, _) => id != r
    case Start(_, _, _, _, _, _) => true
    case ExpireOlderThan(_, _) => true
  }

  // Such a step does not touch the run, writes no row for it, and can only expire one it has.
  ghost predicate Untouched(p: Platform, q: Platform, r: nat)
    requires r < |p.runs|
  {
    && r < |q.runs| && q.runs[r] == p.runs[r]
    && |p.executions| <= |q.executions|
    && (forall j :: |p.executions| <= j < |q.executions| ==> q.executions[j].runId != r)
    && (forall j :: 0 <= j < |p.executions| ==> q.executions[j].runId == p.executions[j].runId)
    && (forall j :: 0 <= j < |p.executions| && p.executions[j].runId == r ==>
          q.executions[j] == p.executions[j]
          || (p.executions[j].approvalState == PENDING && q.executions[j].approvalState == EXPIRED))
  }

  lemma LeftAlone(p: Platform, s: Step, r: nat)
    requires Inv(p) && r < |p.runs| && LeavesAlone(s, r)
    ensures Untouched(p, Apply(p, s), r)
  {
    hide Drain, Resume, Granted, Inv;
    match s
    case Start(_, enabled, spec, _, _, _) =>
      if enabled && spec.Some? {
        StartWrites(p, s);
        assert Apply(p, s).runs[r] == Apply(p, s).runs[..|p.runs|][r];
      }
    case Approve(_, id, _, _, _, _) =>
      if Accepted(p, s) {
        ApproveWrites(p, s);
        NowDecided(p, s, PendingFor(p.executions, id).value);
      }
    case Cancel(_, _) =>
    case ExpireOlderThan(_, _) =>
  }

  lemma StaysStopped(p: Platform, q: Platform, r: nat)
    requires r < |p.runs| && Stopped(p, r) && Untouched(p, q, r)
    ensures Stopped(q, r)
  {
    if q.runs[r].state == WAITING_FOR_APPROVAL {
      var i :| StoppedAt(p.executions, r, i);
      assert StoppedAt(q.executions, r, i);
    }
  }

  lemma LastIsStop(executions: seq<ToolExecution>, r: nat)
    requires PendingLast(executions, r)
    ensures StoppedAt(executions, r, |executions| - 1)
  {
  }

  // The step that starts, answers or cancels run r.
  lemma OwnStepStops(p: Platform, s: Step, r: nat)
    requires Inv(p) && WaitingStopped(p) && r < |Apply(p, s).runs|
    requires r < |p.runs| ==> !LeavesAlone(s, r)
    ensures Stopped(Apply(p, s), r)
  {
    hide Resume, Drain, Granted, Ledger;
    var q := Apply(p, s);
    if r >= |p.runs| {
      if s.Start? && s.agentEnabled && s.spec.Some? {
        StartEvolves(s.world, |p.runs|, s.spec.value, s.message, s.actor, p.executions, s.now);
        if q.runs[r].state == WAITING_FOR_APPROVAL {
          LastIsStop(q.executions, r);
        }
      }
    } else if Accepted(p, s) {
      var i, run := PendingFor(p.executions, r).value, p.runs[r];
      assert AtRest(run) && Authorised(run, r, p.executions);
      ResumeEvolves(s.world, r, i, Decision(s.approved, s.actor.id, s.reason), run, p.executions, s.now);
      if q.runs[r].state == WAITING_FOR_APPROVAL {
        LastIsStop(q.executions, r);
      }
    } else {
      assert Stopped(p, r);
    }
  }

  lemma StepStops(p: Platform, s: Step)
    requires Inv(p) && WaitingStopped(p)
    ensures WaitingStopped(Apply(p, s))
  {
    hide Inv, Stopped, Untouched, Apply;
    var q := Apply(p, s);
    forall r | 0 <= r < |q.runs|
      ensures Stopped(q, r)
    {
      if r < |p.runs| && LeavesAlone(s, r) {
        LeftAlone(p, s, r);
        StaysStopped(p, q, r);
      } else {
        OwnStepStops(p, s, r);
      }
    }
  }

  lemma {:induction false} HistoryStops(p: Platform, history: seq<Step>)
    requires Inv(p) && WaitingStopped(p)
    ensures WaitingStopped(After(p, history))
    decreases |history|
  {
    if history != [] {
      StepInv(p, history[0]);
      StepStops(p, history[0]);
      HistoryStops(Apply(p, history[0]), history[1..]);
    }
  }

  // ---- the theorems -----------------------------------------------------------------------

  lemma OnlyTheLastIsOpen(p: Platform, r: nat, i: nat)
    requires Inv(p) && r < |p.runs| && p.runs[r].state == WAITING_FOR_APPROVAL && StoppedAt(p.executions, r, i)
    ensures PendingFor(p.executions, r) == if p.executions[i].approvalState == PENDING then Some(i) else None
  {
    hide Granted, Ledger;
    var pending := PendingFor(p.executions, r);
    if pending.Some? {
      PendingMatches(p, pending.value);
      assert pending.value == i;
    }
  }

  // After any history, a waiting run stands at its last row, which is open or expired; and whoever
  // may decide it is let through exactly while that row is still open.
  lemma AnswerableExactlyUntilExpired(history: seq<Step>, r: nat) returns (i: nat)
    requires r < |After(EMPTY, history).runs| && After(EMPTY, history).runs[r].state == WAITING_FOR_APPROVAL
    ensures var p := After(EMPTY, history);
            && StoppedAt(p.executions, r, i)
            && forall s: Step :: s.Approve? && s.run == r && MayDecide(p.runs[r], s.actor) ==>
                 (Accepted(p, s) <==> p.executions[i].approvalState == PENDING)
  {
    var p := After(EMPTY, history);
    Reachable(history);
    HistoryStops(EMPTY, history);
    assert Stopped(p, r);
    i :| StoppedAt(p.executions, r, i);
    OnlyTheLastIsOpen(p, r, i);
  }

  // Waiting, with nothing that could be approved or refused.
  ghost predicate Stranded(p: Platform, r: nat) {
    r < |p.runs| && p.runs[r].state == WAITING_FOR_APPROVAL && PendingFor(p.executions, r).None?
  }

  lemma StepStrands(p: Platform, s: Step, r: nat)
    requires Inv(p) && Stranded(p, r) && !(s.Cancel? && s.run == r)
    ensures Stranded(Apply(p, s), r) && Apply(p, s).runs[r] == p.runs[r]
  {
    hide Drain, Resume, Inv;
    if LeavesAlone(s, r) {
      LeftAlone(p, s, r);
    }
  }

  // Once its call has expired, a run stays exactly as it is, waiting, whatever anyone does short of
  // cancelling it.
  lemma {:induction false} ExpiredRunsWaitForever(p: Platform, history: seq<Step>, r: nat)
    requires Inv(p) && Stranded(p, r)
    requires forall s :: s in history ==> !(s.Cancel? && s.run == r)
    ensures Stranded(After(p, history), r) && After(p, history).runs[r] == p.runs[r]
    decreases |history|
  {
    if history != [] {
      assert history[0] in history;
      StepInv(p, history[0]);
      StepStrands(p, history[0], r);
      ExpiredRunsWaitForever(Apply(p, history[0]), history[1..], r);
    }
  }

  // A sweep strands a waiting run that could be answered exactly when its call is overdue.
  lemma SweepStrandsExactlyTheOverdue(p: Platform, r: nat, cutoff: int, now: int)
    requires Inv(p) && r < |p.runs| && p.runs[r].state == WAITING_FOR_APPROVAL && PendingFor(p.executions, r).Some?
    ensures var i := PendingFor(p.executions, r).value;
            Stranded(Apply(p, ExpireOlderThan(cutoff, now)), r) <==> p.executions[i].requestedAt < cutoff
  {
    var i := PendingFor(p.executions, r).value;
    var q := Apply(p, ExpireOlderThan(cutoff, now));
    PendingMatches(p, i);
    var left := PendingFor(q.executions, r);
    if left.Some? {
      assert p.executions[left.value].approvalState == PENDING && left.value == i;
    }
  }
}
