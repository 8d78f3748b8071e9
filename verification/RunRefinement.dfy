// Starting a run through the service and answering it every time it stops gives exactly what the
// uninterrupted loop computes, after at most max_iterations answers.
module RunRefinement {
  import opened Outcome
  import opened AgentSpecs
  import opened RunModel
  import opened RunLoop
  import opened RunInvariants
  import opened RunHistory
  import opened RunTheorems
  import opened Uninterrupted

  // A human's answer to the call run `id` is waiting on.
  function Answering(w: World, id: nat, d: Decision, super: bool, now: int): Step {
    Step.Approve(w, id, d.approved, Actor(d.approver, super, {}), d.reason, now)
  }

  // Whoever answers may: they did not start the run, or they are a superuser at the time.
  ghost predicate MayAnswer(decide: nat -> Decision, super: nat -> bool, starter: Option<UserId>) {
    forall i :: starter == Some(decide(i).approver) ==> super(i)
  }

  // The next answer to run `id`, taken from `decide` by the iteration the run stopped in, by someone
  // who is then a superuser or not, as `super` says.
  function Next(p: Platform, w: World, decide: nat -> Decision, super: nat -> bool, id: nat, now: int): Platform {
    if id < |p.runs| && p.runs[id].state == WAITING_FOR_APPROVAL && p.runs[id].checkpoint.Suspended?
    then
      var i := p.runs[id].checkpoint.iteration;
      Apply(p, Answering(w, id, decide(i), super(i), now))
    else p
  }

  function Answerer(w: World, decide: nat -> Decision, super: nat -> bool, id: nat, now: int): Platform -> Platform {
    p => Next(p, w, decide, super, id, now)
  }

  function Repeat<T>(f: T -> T, x: T, n: nat): T {
    if n == 0 then x else Repeat(f, f(x), n - 1)
  }

  lemma {:induction false} RepeatKeeps<T(!new)>(f: T -> T, keeps: (T, nat) -> bool, x: T, k: nat, n: nat)
    requires keeps(x, k)
    requires forall y: T, j: nat :: keeps(y, j) ==> keeps(f(y), j + 1)
    ensures keeps(Repeat(f, x, n), k + n)
    decreases n
  {
    if n > 0 {
      RepeatKeeps(f, keeps, f(x), k + 1, n - 1);
    }
  }

  // Up to n answers.
  function Rounds(p: Platform, w: World, decide: nat -> Decision, super: nat -> bool, id: nat, n: nat,
                  now: int): Platform {
    Repeat(Answerer(w, decide, super, id, now), p, n)
  }

  lemma {:induction false} NoStopNoSuspension(events: seq<RunEvent>, from: nat)
    requires from <= |events| && Quiet(events, from)
    ensures Read(events).suspensions == Read(events[..from]).suspensions
  {
    if from == |events| {
      assert events[..from] == events;
    } else {
      var shorter := events[..|events| - 1];
      assert shorter[..from] == events[..from];
      NoStopNoSuspension(shorter, from);
      assert !Stops(events[|events| - 1].body);
    }
  }

  // A stream that ends in a suspension counts exactly one.
  lemma SuspendedOnceMore(run: Run, from: nat)
    requires Drained(run, from) && run.state == WAITING_FOR_APPROVAL
    ensures Read(run.events).suspensions == Read(run.events[..from]).suspensions + 1
  {
    hide Ledger, Carries, Answered, WellAnswered;
    var before := run.events[..|run.events| - 1];
    NoStopNoSuspension(before, from);
    assert before[..from] == run.events[..from];
  }

  // The state of the service while run `id` is being answered.
  ghost predicate OnItsWay(p: Platform, w: World, decide: nat -> Decision, super: nat -> bool, id: nat, v: Verdict,
                           answered: nat) {
    && Inv(p)
    && id < |p.runs|
    && Towards(w, decide, p.runs[id], v)
    && (p.runs[id].state == WAITING_FOR_APPROVAL ==>
          PendingFor(p.executions, id).Some? && Read(p.runs[id].events).suspensions > answered)
    && (p.runs[id].state == WAITING_FOR_APPROVAL || p.runs[id].state == COMPLETED || p.runs[id].state == FAILED)
    && MayAnswer(decide, super, p.runs[id].userId)
  }

  lemma LastIsPending(executions: seq<ToolExecution>, id: nat)
    requires PendingLast(executions, id)
    ensures PendingFor(executions, id).Some?
  {
  }

  lemma OneAnswer(p: Platform, w: World, decide: nat -> Decision, super: nat -> bool, id: nat, v: Verdict,
                  answered: nat, now: int)
    requires OnItsWay(p, w, decide, super, id, v, answered) && p.runs[id].state == WAITING_FOR_APPROVAL
    ensures p.runs[id].checkpoint.Suspended?
    ensures var i := p.runs[id].checkpoint.iteration;
            var s := Answering(w, id, decide(i), super(i), now);
            OnItsWay(Apply(p, s), w, decide, super, id, v, answered + 1)
  {
    hide Resume, Granted, Remainder, Ledger;
    var run := p.runs[id];
    assert AtRest(run) && Authorised(run, id, p.executions);
    var d := decide(run.checkpoint.iteration);
    var s := Answering(w, id, d, super(run.checkpoint.iteration), now);
    var i := PendingFor(p.executions, id).value;
    assert RowSafe(p, i) && IsPending(p, i);
    StepInv(p, s);
    var n := Resume(w, id, i, d, run, p.executions, now);
    assert Apply(p, s) == Platform(p.runs[id := n.run], n.executions) by {
      assert MayDecide(run, Actor(d.approver, super(run.checkpoint.iteration), {}));
    }
    ResumeRefines(w, id, i, decide, run, p.executions, now);
    ResumeKeeps(w, id, i, d, run, p.executions, now);
    ResumeEvolves(w, id, i, d, run, p.executions, now);
    if n.run.state == WAITING_FOR_APPROVAL {
      LastIsPending(n.executions, id);
      SuspendedOnceMore(n.run, |run.events|);
      assert n.run.events[..|run.events|] == run.events;
    }
  }

  lemma NextOnItsWay(p: Platform, w: World, decide: nat -> Decision, super: nat -> bool, id: nat, v: Verdict,
                     answered: nat, now: int)
    requires OnItsWay(p, w, decide, super, id, v, answered)
    ensures OnItsWay(Next(p, w, decide, super, id, now), w, decide, super, id, v, answered + 1)
  {
    if p.runs[id].state == WAITING_FOR_APPROVAL {
      OneAnswer(p, w, decide, super, id, v, answered, now);
    }
  }

  lemma RoundsOnItsWay(p: Platform, w: World, decide: nat -> Decision, super: nat -> bool, id: nat, v: Verdict,
                       n: nat, now: int)
    requires OnItsWay(p, w, decide, super, id, v, 0)
    ensures OnItsWay(Rounds(p, w, decide, super, id, n, now), w, decide, super, id, v, n)
  {
    hide OnItsWay, Next;
    var f := Answerer(w, decide, super, id, now);
    var keeps := (q: Platform, k: nat) => OnItsWay(q, w, decide, super, id, v, k);
    forall q: Platform, k: nat | keeps(q, k)
      ensures keeps(f(q), k + 1)
    {
      NextOnItsWay(q, w, decide, super, id, v, k, now);
    }
    RepeatKeeps(f, keeps, p, 0, n);
  }

  lemma StartOnItsWay(p: Platform, w: World, decide: nat -> Decision, super: nat -> bool, spec: AgentSpec,
                      message: string, actor: Actor,
                      now: int)
    requires Inv(p) && MayAnswer(decide, super, Some(actor.id))
    ensures OnItsWay(Apply(p, Step.Start(w, true, Some(spec), message, actor, now)), w, decide, super, |p.runs|,
                     Reserve(w, decide, TermsOf(spec), actor.permissions, Fresh(w, spec, message)), 0)
  {
    var id := |p.runs|;
    var s := Step.Start(w, true, Some(spec), message, actor, now);
    StepInv(p, s);
    StartRefines(w, id, decide, spec, message, actor, p.executions, now);
    StartKeeps(w, id, spec, message, actor, p.executions, now);
    StartEvolves(w, id, spec, message, actor, p.executions, now);
    var n := Execute(w, id, spec, message, NewRun(spec, actor), p.executions, now);
    if n.run.state == WAITING_FOR_APPROVAL {
      LastIsPending(n.executions, id);
      SuspendedOnceMore(n.run, 0);
      assert n.run.events[..0] == [];
    }
  }

  // Every answer used up one suspension, and there are never more of those than iterations.
  lemma OverAfter(q: Platform, w: World, decide: nat -> Decision, super: nat -> bool, id: nat, v: Verdict, n: nat,
                  spec: AgentSpec)
    requires OnItsWay(q, w, decide, super, id, v, n) && q.runs[id].version == spec && n >= spec.maxIterations
    ensures q.runs[id].state != WAITING_FOR_APPROVAL
  {
  }

  lemma NextKeepsVersion(p: Platform, w: World, decide: nat -> Decision, super: nat -> bool, id: nat, now: int)
    requires Inv(p) && id < |p.runs|
    ensures var q := Next(p, w, decide, super, id, now);
            Inv(q) && id < |q.runs| && q.runs[id].version == p.runs[id].version
  {
    if p.runs[id].state == WAITING_FOR_APPROVAL && p.runs[id].checkpoint.Suspended? {
      var s := Answering(w, id, decide(p.runs[id].checkpoint.iteration), super(p.runs[id].checkpoint.iteration), now);
      StepInv(p, s);
      StepEvolves(p, s);
      assert RunEvolves(p.runs[id], Apply(p, s).runs[id]);
    }
  }

  lemma RoundsKeepVersion(p: Platform, w: World, decide: nat -> Decision, super: nat -> bool, id: nat,
                          spec: AgentSpec, n: nat, now: int)
    requires Inv(p) && id < |p.runs| && p.runs[id].version == spec
    ensures var q := Rounds(p, w, decide, super, id, n, now);
            id < |q.runs| && q.runs[id].version == spec
  {
    hide Inv, Next;
    var f := Answerer(w, decide, super, id, now);
    var keeps := (q: Platform, k: nat) => Inv(q) && id < |q.runs| && q.runs[id].version == spec;
    forall q: Platform, k: nat | keeps(q, k)
      ensures keeps(f(q), k + 1)
    {
      NextKeepsVersion(q, w, decide, super, id, now);
    }
    RepeatKeeps(f, keeps, p, 0, n);
  }

  // On any tables a history can leave: start a run and answer it whenever it stops. After n
  // answers the run is still exactly where the uninterrupted loop would be, and once
  // max_iterations answers have been given it is over, with the same requests to the model, the
  // same calls to the executors, the same iterations and tokens and the same ending.
  lemma InterruptedRunRefinesUninterrupted(p: Platform, w: World, decide: nat -> Decision, super: nat -> bool,
                                           spec: AgentSpec,
                                           message: string,
                                           actor: Actor, n: nat, now: int)
    requires Inv(p) && MayAnswer(decide, super, Some(actor.id))
    ensures var id := |p.runs|;
            var started := Apply(p, Step.Start(w, true, Some(spec), message, actor, now));
            var reference := Reserve(w, decide, TermsOf(spec), actor.permissions, Fresh(w, spec, message));
            var q := Rounds(started, w, decide, super, id, n, now);
            && id < |q.runs|
            && Towards(w, decide, q.runs[id], reference)
            && (n >= spec.maxIterations ==>
                  q.runs[id].state != WAITING_FOR_APPROVAL && VerdictOf(q.runs[id]) == reference)
  {
    var id := |p.runs|;
    var reference := Reserve(w, decide, TermsOf(spec), actor.permissions, Fresh(w, spec, message));
    var started := Apply(p, Step.Start(w, true, Some(spec), message, actor, now));
    StartOnItsWay(p, w, decide, super, spec, message, actor, now);
    RoundsOnItsWay(started, w, decide, super, id, reference, n, now);
    var q := Rounds(started, w, decide, super, id, n, now);
    StartEvolves(w, id, spec, message, actor, p.executions, now);
    RoundsKeepVersion(started, w, decide, super, id, spec, n, now);
    if n >= spec.maxIterations {
      OverAfter(q, w, decide, super, id, reference, n, spec);
    }
  }

  // And so the answered run comes to what a loop that resolves the model's name only once comes
  // to, exactly when the name is still served wherever that loop stops for a human.
  lemma AnsweredRunIsPlainLoopExactlyWhenStillServed(p: Platform, w: World, decide: nat -> Decision,
                                                     super: nat -> bool, spec: AgentSpec,
                                                     message: string,
                                                     actor: Actor, served: string, n: nat, now: int)
    requires Inv(p) && MayAnswer(decide, super, Some(actor.id))
    requires w.resolve(0, spec.model) == Ok(served) && n >= spec.maxIterations
    ensures var id := |p.runs|;
            var started := Apply(p, Step.Start(w, true, Some(spec), message, actor, now));
            var q := Rounds(started, w, decide, super, id, n, now);
            var first := Fresh(w, spec, message);
            && id < |q.runs| && q.runs[id].state != WAITING_FOR_APPROVAL
            && (Towards(w, decide, q.runs[id], Loop(w, decide, TermsOf(spec), actor.permissions, served, false, first))
                <==> StillServed(w, decide, TermsOf(spec), actor.permissions, served, first))
  {
    InterruptedRunRefinesUninterrupted(p, w, decide, super, spec, message, actor, n, now);
    ResolvingAgainShows(w, decide, TermsOf(spec), actor.permissions, served, Fresh(w, spec, message));
  }

  // A step that leaves run `id` alone or answers it as `decide` would, in the world `w`. What
  // other runs do, and which rows expire meanwhile, is unconstrained.
  ghost predicate Faithful(p: Platform, s: Step, w: World, decide: nat -> Decision, id: nat)
    requires id < |p.runs|
  {
    match s
    case Start(_, _, _, _, _, _) => true
    case ExpireOlderThan(_, _) => true
    case Cancel(r, _) => r != id
    case Approve(v, r, approved, actor, reason, _) =>
      r == id && p.runs[id].checkpoint.Suspended? ==>
        v == w && Decision(approved, actor.id, reason) == decide(p.runs[id].checkpoint.iteration)
  }

  ghost predicate FaithfulHistory(p: Platform, history: seq<Step>, w: World, decide: nat -> Decision, id: nat)
    decreases |history|
  {
    && id < |p.runs|
    && (history != [] ==>
          && Faithful(p, history[0], w, decide, id)
          && FaithfulHistory(Apply(p, history[0]), history[1..], w, decide, id))
  }

  lemma AnswerOnItsWay(p: Platform, s: Step, w: World, decide: nat -> Decision, id: nat, v: Verdict)
    requires Inv(p) && id < |p.runs| && Towards(w, decide, p.runs[id], v)
    requires s.Approve? && s.run == id && Faithful(p, s, w, decide, id)
    ensures id < |Apply(p, s).runs| && Towards(w, decide, Apply(p, s).runs[id], v)
  {
    if ApproveRun(p, s.world, id, s.approved, s.actor, s.reason, s.now).Ok? {
      var i, run := PendingFor(p.executions, id).value, p.runs[id];
      assert AtRest(run) && RowSafe(p, i) && IsPending(p, i);
      ResumeRefines(w, id, i, decide, run, p.executions, s.now);
    }
  }

  lemma OthersLeaveRun(p: Platform, s: Step, id: nat)
    requires id < |p.runs| && (s.Approve? || s.Cancel? ==> s.run != id)
    ensures id < |Apply(p, s).runs| && Apply(p, s).runs[id] == p.runs[id]
  {
    hide Execute, Resumed;
  }

  // Whatever else happens on the platform, a run that is answered as the uninterrupted loop would
  // decide is always exactly where that loop would be.
  lemma {:induction false} InterleavingsDoNotMatter(p: Platform, history: seq<Step>, w: World,
                                                    decide: nat -> Decision, id: nat, v: Verdict)
    requires Inv(p)
    requires FaithfulHistory(p, history, w, decide, id) && Towards(w, decide, p.runs[id], v)
    ensures var q := After(p, history); id < |q.runs| && Towards(w, decide, q.runs[id], v)
    decreases |history|
  {
    if history != [] {
      var s := history[0];
      StepInv(p, s);
      if s.Approve? && s.run == id {
        AnswerOnItsWay(p, s, w, decide, id, v);
      } else {
        OthersLeaveRun(p, s, id);
      }
      hide Inv, Apply, Remainder, VerdictOf;
      InterleavingsDoNotMatter(Apply(p, s), history[1..], w, decide, id, v);
    }
  }
}
