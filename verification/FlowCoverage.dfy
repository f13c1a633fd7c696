/**
 Which runs that return success have run the whole flow, and a re-run that returns and stores
 success while steps of the flow have never run.
 */
module FlowCoverage {
  import opened FlowGraph
  import opened FlowEngine
  import opened FlowFreshness
  import opened FlowRuns
  import opened FlowResumption
  import opened FlowStatuses
  import opened FlowClosure
  import opened Wrappers

  /** Only a re-run can leave a step behind: one that is not re-run and has no success on record. */
  ghost predicate LeavesNothing(s: FlowState, op: Op)
    requires Accepted(s, op)
  {
    op.OpRerun? ==> forall x | x in s.steps && x.name !in Downstream(s.steps, op.stepName) ::
      Succeeded(GetRun(s, op.runId).record.steps, x.name)
  }

  /** The step is to be done, or a success of it is kept. */
  ghost predicate IsPlanned(plan: Plan, name: string) {
    name in Names(plan.todo) || name in ResultNames(plan.completed)
  }

  lemma NamedStep(steps: seq<Step>, x: Step)
    requires x in steps
    ensures x.name in Names(steps)
  {
    var i :| 0 <= i < |steps| && steps[i] == x;
    assert Names(steps)[i] == x.name;
  }

  lemma {:induction false} RunPlansEach(s: FlowState, runId: string, query: string, x: Step)
    requires Accepted(s, OpRun(runId, query)) && Registrable(s.steps) && x in s.steps
    ensures IsPlanned(PlanOf(s, OpRun(runId, query)).plan, x.name)
  {
    OrderedIsDependencyOrder(s.steps);
    NamedStep(Ordered(s.steps), x);
  }

  lemma {:induction false} ResumePlansEach(s: FlowState, runId: string, x: Step)
    requires Accepted(s, OpResume(runId)) && Registrable(s.steps) && x in s.steps
    ensures IsPlanned(PlanOf(s, OpResume(runId)).plan, x.name)
  {
    var plan := PlanOf(s, OpResume(runId)).plan;
    OrderedIsDependencyOrder(s.steps);
    if x.name !in ResultNames(plan.completed) {
      assert x in plan.todo;
      NamedStep(plan.todo, x);
    }
  }

  /** A re-run plans a step exactly when it is downstream or has a success on record. */
  lemma {:induction false} RerunPlans(s: FlowState, runId: string, stepName: string, x: Step)
    requires Accepted(s, OpRerun(runId, stepName)) && Registrable(s.steps) && x in s.steps
    ensures IsPlanned(PlanOf(s, OpRerun(runId, stepName)).plan, x.name) <==>
            x.name in Downstream(s.steps, stepName) || Succeeded(GetRun(s, runId).record.steps, x.name)
  {
    var record, downstream := GetRun(s, runId).record, Downstream(s.steps, stepName);
    RerunIsReady(s, runId, stepName);
    OrderedIsDependencyOrder(s.steps);
    OnlyNames(Ordered(s.steps), downstream, x);
    KeptNames(record.steps, downstream, x.name);
  }

  lemma OnlyNames(all: seq<Step>, names: set<string>, x: Step)
    requires x in all
    ensures x.name in Names(Only(all, names)) <==> x.name in names
  {
    var todo := Only(all, names);
    if x.name in names {
      NamedStep(todo, x);
    }
    if x.name in Names(todo) {
      var y := StepOfName(todo, x.name);
    }
  }

  lemma KeptNames(results: seq<StepResult>, names: set<string>, name: string)
    ensures name in ResultNames(Kept(results, names)) <==> name !in names && Succeeded(results, name)
  {
    var kept := Kept(results, names);
    if name in ResultNames(kept) {
      var i :| 0 <= i < |kept| && ResultNames(kept)[i] == name;
      assert kept[i] in kept;
    }
    if name !in names && Succeeded(results, name) {
      var r :| r in results && r.status.Success? && r.name == name;
      NameOfMember(kept, r);
    }
  }

  lemma {:induction false} EachIsPlanned(s: FlowState, op: Op)
    requires Accepted(s, op) && Registrable(s.steps)
    ensures (forall x | x in s.steps :: IsPlanned(PlanOf(s, op).plan, x.name)) <==> LeavesNothing(s, op)
  {
    forall x | x in s.steps
      ensures IsPlanned(PlanOf(s, op).plan, x.name) <==>
              op.OpRerun? ==> x.name in Downstream(s.steps, op.stepName) || Succeeded(GetRun(s, op.runId).record.steps, x.name)
    {
      match op {
        case OpRun(runId, query) => RunPlansEach(s, runId, query, x);
        case OpResume(runId) => ResumePlansEach(s, runId, x);
        case OpRerun(runId, stepName) => RerunPlans(s, runId, stepName, x);
      }
    }
  }

  lemma {:induction false} CompletedSucceeded(s: FlowState, op: Op)
    requires Accepted(s, op)
    ensures forall r | r in PlanOf(s, op).plan.completed :: r.status.Success?
  {
  }

  /** The results of a successful run have a success of exactly the planned steps. */
  lemma {:induction false} DoneAreThePlanned(plan: Plan, steps: seq<StepResult>, name: string)
    requires AllDone(plan.todo, plan.completed, steps) && forall r | r in plan.completed :: r.status.Success?
    ensures Succeeded(steps, name) <==> IsPlanned(plan, name)
  {
    forall r | r in steps
      ensures r.status.Success?
    {
      var i :| 0 <= i < |steps| && steps[i] == r;
      if i < |plan.completed| {
        assert steps[i] == plan.completed[i];
      }
    }
    SucceededByName(steps, name);
  }

  lemma SucceededByName(steps: seq<StepResult>, name: string)
    requires forall r | r in steps :: r.status.Success?
    ensures Succeeded(steps, name) <==> name in ResultNames(steps)
  {
    if Succeeded(steps, name) {
      var r :| r in steps && r.name == name;
      NameOfMember(steps, r);
    }
    if name in ResultNames(steps) {
      var i :| 0 <= i < |steps| && ResultNames(steps)[i] == name;
      assert steps[i] in steps;
    }
  }

  lemma {:induction false} PendingAddsNoSuccess(all: seq<Step>, results: seq<StepResult>, name: string)
    ensures Succeeded(results + PendingOf(all, results), name) <==> Succeeded(results, name)
  {
    PendingAreOthers(all, results);
    if Succeeded(results, name) {
      var r :| r in results && r.status.Success? && r.name == name;
      assert r in results + PendingOf(all, results);
    }
  }

  /**
   When nothing is skipped, a returned success, and the record it leaves, have a success of
   every registered step if and only if the operation leaves nothing behind: always for running
   and resuming, and for a re-run when each step it does not run again succeeded before.
   */
  lemma {:induction false} SuccessCoversTheFlow(env: Env, s: FlowState, op: Op)
    requires SkipFree(env) && !s.cancelled && Accepted(s, op) && Registrable(s.steps)
    ensures var (s1, outcome) := Perform(env, s, op);
            outcome.Returned? && outcome.result.status.Success? ==>
              && op.runId in s1.records
              && (AllSucceeded(s.steps, outcome.result.steps) <==> LeavesNothing(s, op))
              && (AllSucceeded(s.steps, s1.records[op.runId].steps) <==> LeavesNothing(s, op))
  {
    var plan, s1, outcome := PlanOf(s, op).plan, Perform(env, s, op).0, Perform(env, s, op).1;
    RunSkipsNothing(env, s, op);
    PlanIsRetriable(s, op);
    ReturnsAreAccounted(env, s, op);
    if outcome.Returned? && outcome.result.status.Success? {
      CompletedSucceeded(s, op);
      EachIsPlanned(s, op);
      PlannedAreInBoth(plan, s.steps, outcome.result.steps);
    }
  }

  lemma {:induction false} PlannedAreInBoth(plan: Plan, steps: seq<Step>, results: seq<StepResult>)
    requires AllDone(plan.todo, plan.completed, results) && forall r | r in plan.completed :: r.status.Success?
    ensures AllSucceeded(steps, results) <==> forall x | x in steps :: IsPlanned(plan, x.name)
    ensures AllSucceeded(steps, results + PendingOf(plan.job.all, results)) <==> AllSucceeded(steps, results)
  {
    forall x | x in steps
      ensures Succeeded(results, x.name) <==> IsPlanned(plan, x.name)
      ensures Succeeded(results + PendingOf(plan.job.all, results), x.name) <==> Succeeded(results, x.name)
    {
      DoneAreThePlanned(plan, results, x.name);
      PendingAddsNoSuccess(plan.job.all, results, x.name);
    }
  }

  // ----- A re-run that leaves steps behind -----

  /** A step that needs no other and that no other needs. */
  ghost predicate Isolated(steps: seq<Step>, x: Step) {
    x in steps && x.dependsOn == [] && forall y | y in steps :: x.name !in y.dependsOn
  }

  lemma {:induction false} IsolatedDownstream(steps: seq<Step>, x: Step)
    requires Isolated(steps, x)
    ensures Downstream(steps, x.name) == {x.name}
  {
    DownstreamIsLeast(steps, x.name, {x.name});
  }

  function RerunOf(steps: seq<Step>, x: Step): Plan {
    Plan(Job("r", "q", Ordered(steps)), [x], [])
  }

  lemma {:induction false} IsolatedIsAlone(steps: seq<Step>, x: Step)
    requires Registrable(steps) && Errors(steps) == [] && Isolated(steps, x)
    ensures RerunPlan(Interrupted(steps), "r", InterruptedRecord(steps), x.name) == RerunOf(steps, x)
    ensures x.name in Names(Ordered(steps))
  {
    RerunPlansAlone(steps, x);
    IsolatedDownstream(steps, x);
    OrderIsDistinct(steps);
    OnlyItself(Ordered(steps), x);
  }

  lemma OrderIsDistinct(steps: seq<Step>)
    requires Registrable(steps) && Errors(steps) == []
    ensures Distinct(Names(Ordered(steps)))
  {
    OrderedIsDependencyOrder(steps);
  }

  lemma {:induction false} OnlyItself(all: seq<Step>, x: Step)
    requires Distinct(Names(all)) && Only(all, {x.name}) != [] && Only(all, {x.name})[0] == x
    ensures Only(all, {x.name}) == [x]
  {
    var todo := Only(all, {x.name});
    OnlyKeepsDistinct(all, {x.name});
    forall i | 0 <= i < |todo|
      ensures todo[i].name == x.name
    {
      assert todo[i] in todo;
    }
    OneName(todo, x);
  }

  lemma OneName(todo: seq<Step>, x: Step)
    requires Distinct(Names(todo)) && todo != [] && todo[0] == x && forall i | 0 <= i < |todo| :: todo[i].name == x.name
    ensures todo == [x]
  {
    if |todo| > 1 {
      DifferentNames(todo);
    }
  }

  lemma DifferentNames(steps: seq<Step>)
    requires Distinct(Names(steps)) && |steps| > 1
    ensures steps[0].name != steps[1].name
  {
    assert Names(steps)[0] != Names(steps)[1];
  }

  /** With agents that answer at once, executing `x` alone returns success and stores it. */
  lemma {:induction false} ExecutesToTheEnd(steps: seq<Step>, job: Job, x: Step)
    requires job == Job("r", "q", Ordered(steps)) && x.maxRetry >= 1 && CanBeApproved(x) && x.dependsOn == []
    ensures var (s1, outcome) := Execute(Willing(false), Interrupted(steps), job, [x], []);
            outcome.Returned? && outcome.result.status.Success? && "r" in s1.records && s1.records["r"].status.Success?
  {
    var env := Willing(false);
    var s := Save(env, Interrupted(steps), job, Running, None, []).0;
    assert s.clock == 2 && s.files.None? && !s.cancelled;
    LoopsToTheEnd(env, s, job, x);
  }

  lemma {:induction false} LoopsToTheEnd(env: Env, s: FlowState, job: Job, x: Step)
    requires env == Willing(false) && s.clock == 2 && s.files.None? && !s.cancelled && job.runId == "r" && job.query == "q"
    requires x.maxRetry >= 1 && CanBeApproved(x) && x.dependsOn == []
    ensures var (s1, outcome) := Loop(env, s, job, [x], []);
            outcome.Returned? && outcome.result.status.Success? && "r" in s1.records && s1.records["r"].status.Success?
  {
    var query := GoesAlone(false, x);
    var s1 := Polled(env, s);
    AnswersAtOnce(false, s1, x, query);
    assert Successes([]) == [];
    assert Loop(env, s, job, [x], []) == Proceed(env, Called(s1, x, false, query), job, [x], [], OkResult(x, query), false);
    EndsThere(env, Called(s1, x, false, query), job, x, query);
  }

  lemma EndsThere(env: Env, s: FlowState, job: Job, x: Step, query: string)
    requires s.clock == 4 && s.files.None? && !env.interrupts(4)
    ensures var (s1, outcome) := Proceed(env, s, job, [x], [], OkResult(x, query), false);
            outcome.Returned? && outcome.result.status.Success? && job.runId in s1.records && s1.records[job.runId].status.Success?
  {
    assert [x][1..] == [];
  }

  lemma {:induction false} RerunSucceeds(steps: seq<Step>, x: Step)
    requires Registrable(steps) && Errors(steps) == [] && Isolated(steps, x) && CanBeApproved(x)
    ensures var (s1, outcome) := Perform(Willing(false), Interrupted(steps), OpRerun("r", x.name));
            outcome.Returned? && outcome.result.status.Success? && "r" in s1.records && s1.records["r"].status.Success?
  {
    InterruptedIsFound(steps);
    IsolatedIsAlone(steps, x);
    RerunIsExecuted(Willing(false), Interrupted(steps), "r", x.name, InterruptedRecord(steps));
    ExecutesToTheEnd(steps, Job("r", "q", Ordered(steps)), x);
  }

  lemma {:induction false} OthersAreLeft(steps: seq<Step>, x: Step)
    requires Registrable(steps) && Errors(steps) == [] && Isolated(steps, x) && |steps| > 1
    ensures Accepted(Interrupted(steps), OpRerun("r", x.name)) && !LeavesNothing(Interrupted(steps), OpRerun("r", x.name))
  {
    InterruptedIsFound(steps);
    IsolatedDownstream(steps, x);
    var i := StepPosition(steps, x);
    var y := if steps[0] == x then steps[1] else steps[0];
    DifferentNames(steps);
    NothingSucceeded(steps, y.name);
    assert y in steps && y.name !in Downstream(steps, x.name);
  }

  lemma NothingSucceeded(steps: seq<Step>, name: string)
    ensures !Succeeded(InterruptedRecord(steps).steps, name)
  {
    PendingAreOthers(Ordered(steps), []);
    PendingAddsNoSuccess(Ordered(steps), [], name);
  }

  /** Interrupt a run after its first checkpoint, then re-run an isolated step: success is returned and stored, and another step has not run. */
  lemma {:induction false} RerunLeavesStepsBehind(steps: seq<Step>, x: Step)
    requires Registrable(steps) && Errors(steps) == [] && Isolated(steps, x) && CanBeApproved(x) && |steps| > 1
    ensures var s := After(Willing(false), FreshFlow(steps, false), OpRun("r", "q"));
            var (s1, outcome) := Perform(Willing(false), s, OpRerun("r", x.name));
            && outcome.Returned? && outcome.result.status.Success?
            && "r" in s1.records && s1.records["r"].status.Success? && !AllSucceeded(steps, s1.records["r"].steps)
  {
    RunIsInterrupted(false, steps);
    RerunSucceeds(steps, x);
    OthersAreLeft(steps, x);
    SuccessCoversTheFlow(Willing(false), Interrupted(steps), OpRerun("r", x.name));
  }
}
