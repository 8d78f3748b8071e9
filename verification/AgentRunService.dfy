// The run service (services/agent_runs.py) and the resume path (services/agent_runtime.py) over
// the row objects. Each method is one step of RunHistory on the tables it owns.
module AgentRunService {
  import opened Outcome
  import opened AgentSpecs
  import opened RunModel
  import opened AgentRuntime
  import RL = RunLoop
  import RH = RunHistory

  ghost function Rows(runs: seq<AgentRun>): (rows: seq<Run>)
    reads runs
    ensures |rows| == |runs|
    ensures forall i :: 0 <= i < |runs| ==> rows[i] == runs[i].Row()
  {
    if runs == [] then [] else [runs[0].Row()] + Rows(runs[1..])
  }

  // The decision, up to where `_resume` re-enters `_run`.
  method Decide(w: World, run: AgentRun, table: Executions, p: nat, d: Decision, now: int)
    returns (conversation: seq<Message>, sequence: nat)
    requires p < |table.rows|
    modifies run, table
    ensures Here(run, table, conversation, sequence, RL.Restored(old(run.checkpoint)).iteration)
         == RL.Decide(w, p, d, old(run.Row()), old(table.rows), now)
  {
    var checkpoint := RL.Restored(run.checkpoint);
    sequence, conversation := checkpoint.sequence, checkpoint.conversation;
    var call := checkpoint.pendingCall;
    var pending := RL.Decided(table.rows[p], d, now);
    table.rows := table.rows[p := pending];
    if !d.approved {
      var reply := Refused(pending.toolName, d.reason);
      run.Persist(sequence, ToolRejected(pending.toolName, reply));
      sequence := sequence + 1;
      conversation := conversation + [RL.ToolReply(call, reply)];
      return;
    }
    run.Persist(sequence, ToolApproved(pending.toolName, d.approver));
    sequence := sequence + 1;
    var found := w.catalogueAtDecision(checkpoint.iteration, pending.toolName);
    if found.None? {
      conversation := conversation + [RL.ToolReply(call, NoLongerExists(pending.toolName))];
      return;
    }
    var result := w.executeApproved(checkpoint.iteration, found.value, pending.arguments);
    run.invocations := run.invocations + [Invocation(p, found.value, pending.toolName, pending.arguments)];
    table.rows := table.rows[p := RL.FinishedRow(pending, result)];
    run.Persist(sequence, ToolExecuted(pending.toolName, result.success));
    sequence := sequence + 1;
    conversation := conversation + [RL.ToolReply(call, Result(result.content))];
  }

  // `_resume`, for the pending row p the service found.
  method Resume(w: World, id: nat, run: AgentRun, table: Executions, p: nat, d: Decision, now: int)
    requires p < |table.rows|
    modifies run, table
    ensures var n := RH.Resumed(w, id, p, d, old(run.Row()), old(table.rows), now);
            run.Row() == n.run && table.rows == n.executions
  {
    if run.checkpoint.Cleared? {
      run.Persist(1, RunFailed(NotWaiting));
      return;
    }
    var checkpoint := RL.Restored(run.checkpoint);
    var conversation, sequence := Decide(w, run, table, p, d, now);
    var spec := SpecFromJson(checkpoint.spec);
    if spec.Err? {
      return;
    }
    run.state := RUNNING;
    RunStream(w, id, spec.value, run, table, conversation, sequence, checkpoint.iteration, now);
  }

  class RunService {
    var runs: seq<AgentRun>
    const table: Executions

    // Distinct ids are distinct rows.
    ghost predicate Valid()
      reads this
    {
      forall i, j :: 0 <= i < j < |runs| ==> runs[i] != runs[j]
    }

    ghost function Tables(): RH.Platform
      reads this, table, runs
    {
      RH.Platform(Rows(runs), table.rows)
    }

    constructor ()
      ensures Valid() && Tables() == RH.EMPTY && fresh(table)
    {
      runs := [];
      table := new Executions();
    }

    method Start(w: World, agentEnabled: bool, spec: Option<AgentSpec>, message: string, actor: Actor, now: int)
      returns (r: Result<nat, RH.ServiceError>)
      requires Valid()
      modifies this, table
      ensures Valid()
      ensures match RH.StartRun(old(Tables()), w, agentEnabled, spec, message, actor, now)
              case Err(e) => r == Err(e) && Tables() == old(Tables())
              case Ok(q) => r == Ok(|old(runs)|) && Tables() == q
    {
      hide RL.Drain, RL.NewRun, Rows;
      if !agentEnabled {
        return Err(RH.AgentDisabled);
      }
      if spec.None? {
        return Err(RH.NoCurrentVersion);
      }
      var id := |runs|;
      var run := new AgentRun(spec.value, actor);
      RunStream(w, id, spec.value, run, table, [User(message)], 1, 0, now);
      runs := runs + [run];
      assert Rows(runs) == old(Rows(runs)) + [run.Row()];
      r := Ok(id);
    }

    method Approve(w: World, id: nat, approved: bool, actor: Actor, reason: Option<string>, now: int)
      returns (r: Result<nat, RH.ServiceError>)
      requires Valid()
      modifies table, runs
      ensures Valid()
      ensures match RH.ApproveRun(old(Tables()), w, id, approved, actor, reason, now)
              case Err(e) => r == Err(e) && Tables() == old(Tables())
              case Ok(q) => r == Ok(id) && Tables() == q
    {
      hide RH.Resumed, Rows;
      if id >= |runs| {
        return Err(RH.NotFound);
      }
      var run := runs[id];
      if run.state != WAITING_FOR_APPROVAL {
        return Err(RH.NotWaitingForApproval);
      }
      var pending := RH.PendingFor(table.rows, id);
      if pending.None? {
        return Err(RH.NothingPending);
      }
      if run.userId == Some(actor.id) && !actor.isSuperuser {
        return Err(RH.SelfApproval);
      }
      Resume(w, id, run, table, pending.value, Decision(approved, actor.id, reason), now);
      assert Rows(runs) == old(Rows(runs))[id := run.Row()];
      r := Ok(id);
    }

    method Cancel(id: nat, now: int) returns (r: Result<RunState, RH.ServiceError>)
      requires Valid()
      modifies table, runs
      ensures Valid()
      ensures match RH.CancelRun(old(Tables()), id, now)
              case Err(e) => r == Err(e) && Tables() == old(Tables())
              case Ok(q) => r == Ok(runs[id].state) && Tables() == q
    {
      hide Rows;
      if id >= |runs| {
        return Err(RH.NotFound);
      }
      var run := runs[id];
      if !IsTerminal(run.state) {
        run.state := CANCELLED;
        run.finishedAt := Some(now);
        var pending := RH.PendingFor(table.rows, id);
        if pending.Some? {
          table.rows := table.rows[pending.value := RH.ExpiredRow(table.rows[pending.value], now)];
        }
        assert Rows(runs) == old(Rows(runs))[id := run.Row()];
      }
      r := Ok(run.state);
    }

    method ExpireOlderThan(cutoff: int, now: int) returns (expired: nat)
      requires Valid()
      modifies table
      ensures Valid() && Tables() == old(Tables()).(executions := RH.Swept(old(table.rows), cutoff, now))
      ensures expired == |set i | 0 <= i < |old(table.rows)| && RH.Stale(old(table.rows)[i], cutoff)|
    {
      expired := table.ExpireOlderThan(cutoff, now);
    }
  }
}
