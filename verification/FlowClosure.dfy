/**
 "Run all registered steps once their dependencies are satisfied": exactly which workflows
 keep that promise in every history.
 */
module FlowClosure {
  import opened FlowGraph
  import opened FlowEngine
  import opened FlowFreshness
  import opened FlowRuns
  import opened FlowResumption
  import opened Wrappers

  /** Every success has a success of each of its dependencies beside it. */
  ghost predicate Closed(steps: seq<Step>, record: Record) {
    forall r, x, d | r in record.steps && r.status.Success? && x in steps && x.name == r.name && d in x.dependsOn ::
      exists e :: e in record.steps && e.name == d && e.status.Success?
  }

  /** The step reads its dependencies' outputs to build its query, or has none, or never runs. */
  predicate Bound(x: Step) {
    x.dependsOn == [] || x.query.DefaultQuery? || !CanBeApproved(x)
  }

  ghost predicate Unregistering(ops: seq<Op>) {
    forall op | op in ops :: !op.OpRegister?
  }

  lemma {:induction false} PerformKeepsSteps(env: Env, s: FlowState, op: Op)
    requires Executes(op) && Retriable(s.steps)
    ensures Perform(env, s, op).0.steps == s.steps
  {
    if Accepted(s, op) {
      PerformEffect(env, s, op);
    }
  }

  lemma {:induction false} StepsStay(env: Env, s: FlowState, ops: seq<Op>)
    requires Unregistering(ops) && Retriable(s.steps)
    ensures AfterAll(env, s, ops).steps == s.steps
    decreases |ops|
  {
    if ops != [] {
      assert !ops[0].OpRegister?;
      if Executes(ops[0]) {
        PerformKeepsSteps(env, s, ops[0]);
        AfterPerforms(env, s, ops[0]);
      }
      StepsStay(env, After(env, s, ops[0]), ops[1..]);
    }
  }

  lemma BoundStepsStayClosed(env: Env, steps: seq<Step>, stored: bool, ops: seq<Op>, record: Record)
    requires Registrable(steps) && Unregistering(ops) && forall x | x in steps :: Bound(x)
    requires Checkpointed(AfterAll(env, FreshFlow(steps, stored), ops), record)
    ensures Closed(steps, record)
  {
    var s0 := FreshFlow(steps, stored);
    var s := AfterAll(env, s0, ops);
    HistoriesAreOk(env, s0, ops);
    StepsStay(env, s0, ops);
    CheckpointedIsOk(env, s, record);
    OkIsClosed(env, steps, s.clock, record);
  }

  lemma OkIsClosed(env: Env, steps: seq<Step>, clock: nat, record: Record)
    requires RecordOk(env, steps, clock, record) && forall x | x in steps :: Bound(x)
    ensures Closed(steps, record)
  {
    forall r, x, d | r in record.steps && r.status.Success? && x in steps && x.name == r.name && d in x.dependsOn
      ensures exists e :: e in record.steps && e.name == d && e.status.Success?
    {
      assert SuccessOk(env, steps, clock, record.query, record.steps, r);
      assert EndedBy(record.steps, d, r.span.value.startedAt);
    }
  }

  // ----- A step that is not bound runs without its dependencies -----

  /** Agents that answer at once; the engine stops after the first checkpoint and perhaps again after one step has run. */
  function Willing(again: bool): Env {
    Env((t, n, f, q) => AgentReturns(Text("ok"), false),
        (t, n, q, c) => Some("go"),
        (t, n, c) => Continues,
        (t, n, q) => HookContinues,
        (t, n, c) => Plain(None),
        t => false,
        t => t == 0 || (again && t == 4))
  }

  lemma {:induction false} OnlyNone(steps: seq<Step>, names: set<string>)
    requires forall x | x in steps :: x.name !in names
    ensures Only(steps, names) == []
  {
    if steps != [] {
      assert forall x | x in steps[..|steps| - 1] :: x in steps;
      OnlyNone(steps[..|steps| - 1], names);
    }
  }

  lemma {:induction false} EarlierIsNotDownstream(steps: seq<Step>, i: nat, j: nat)
    requires Registrable(steps) && Errors(steps) == [] && j < i < |Ordered(steps)|
    ensures Ordered(steps)[j].name !in Downstream(steps, Ordered(steps)[i].name)
  {
    var all, order := Ordered(steps), WalkOf(steps).order;
    RefusalIsExact(steps);
    WalkIsTopological(steps);
    assert all[i].name == Names(all)[i] == order[i];
    assert all[j].name == Names(all)[j] == order[j];
    NotReachedBefore(ByName(steps), order, i, j);
  }

  lemma NotReachedBefore(g: Graph, order: seq<string>, i: nat, j: nat)
    requires Topological(g, order) && j < i < |order|
    ensures order[j] != order[i] && !Reaches(g, order[j], order[i])
  {
    if Reaches(g, order[j], order[i]) {
      PathDescends(g, order, j, order[i]);
    }
  }

  /** A step is the first of those downstream of it in the execution order. */
  lemma {:induction false} DownstreamStartsWithIt(steps: seq<Step>, i: nat)
    requires Registrable(steps) && Errors(steps) == [] && i < |Ordered(steps)|
    ensures var todo := Only(Ordered(steps), Downstream(steps, Ordered(steps)[i].name));
            todo != [] && todo[0] == Ordered(steps)[i]
  {
    var all := Ordered(steps);
    var downstream := Downstream(steps, all[i].name);
    forall j: nat | j < i
      ensures all[j].name !in downstream
    {
      EarlierIsNotDownstream(steps, i, j);
    }
    OnlyStartsWith(all, i, downstream);
  }

  lemma {:induction false} OnlyStartsWith(all: seq<Step>, i: nat, names: set<string>)
    requires i < |all| && all[i].name in names && forall j: nat | j < i :: all[j].name !in names
    ensures Only(all, names) != [] && Only(all, names)[0] == all[i]
  {
    var init := all[..|all| - 1];
    if i == |all| - 1 {
      OnlyNone(init, names);
    } else {
      OnlyStartsWith(init, i, names);
    }
  }

  lemma {:induction false} KeptNone(results: seq<StepResult>, names: set<string>)
    requires forall r | r in results :: !r.status.Success?
    ensures Kept(results, names) == []
  {
    if results != [] {
      assert forall r | r in results[..|results| - 1] :: r in results;
      assert results[|results| - 1] in results;
      KeptNone(results[..|results| - 1], names);
    }
  }

  function Interrupted(steps: seq<Step>): FlowState {
    FlowState(steps, map["r" := InterruptedRecord(steps)], None, false, 1, [])
  }

  function InterruptedRecord(steps: seq<Step>): Record {
    Checkpoint(Job("r", "q", Ordered(steps)), Running, None, [])
  }

  lemma {:induction false} RunIsInterrupted(again: bool, steps: seq<Step>)
    requires Errors(steps) == []
    ensures After(Willing(again), FreshFlow(steps, false), OpRun("r", "q")) == Interrupted(steps)
  {
    var env, s := Willing(again), FreshFlow(steps, false);
    var plan := RunPlan(s, "r", "q");
    AfterPerforms(env, s, OpRun("r", "q"));
    ReadyIsPerformed(env, s, OpRun("r", "q"), plan);
    assert Save(env, s, plan.job, Running, None, []) == (Interrupted(steps), false);
  }

  /** What re-running a step of an interrupted run leaves when that step has run. */
  function Alone(steps: seq<Step>, x: Step, query: string): Record {
    Checkpoint(Job("r", "q", Ordered(steps)), Success, None, [OkResult(x, query)])
  }

  lemma GoesAlone(again: bool, x: Step) returns (query: string)
    requires CanBeApproved(x) && (!x.query.DefaultQuery? || x.dependsOn == [])
    ensures Decide(Willing(again), 2, false, x, "q", []) == Goes(query)
  {
    query := BuildQuery(Willing(again), 2, x, "q", []).value;
  }

  function OkResult(x: Step, query: string): StepResult {
    StepResult(x.name, "ok", None, 1, Success, Some(Span(3, 4, query)), 0, false)
  }

  lemma AnswersAtOnce(again: bool, s: FlowState, x: Step, query: string)
    requires x.maxRetry >= 1 && s.clock == 3
    ensures RunStep(Willing(again), s, x, query) == (Called(s, x, false, query), Some(OkResult(x, query)))
  {
  }

  lemma {:induction false} RunsAlone(steps: seq<Step>, job: Job, todo: seq<Step>, s: FlowState) returns (query: string)
    requires todo != [] && Retriable(todo) && CanBeApproved(todo[0]) && !todo[0].query.DefaultQuery?
    requires job == Job("r", "q", Ordered(steps))
    requires s.clock == 2 && s.files.None? && !s.cancelled
    ensures var s1 := Loop(Willing(true), s, job, todo, []).0;
            "r" in s1.records && s1.records["r"] == Alone(steps, todo[0], query)
  {
    var env, x := Willing(true), todo[0];
    var s1 := Polled(env, s);
    query := GoesAlone(true, x);
    AnswersAtOnce(true, s1, x, query);
    assert Successes([]) == [];
    var s2, r := Called(s1, x, false, query), OkResult(x, query);
    StopsAfter(steps, job, todo, s2, query);
    assert Loop(env, s, job, todo, []) == Proceed(env, s2, job, todo, [], r, false);
  }

  lemma StopsAfter(steps: seq<Step>, job: Job, todo: seq<Step>, s: FlowState, query: string)
    requires todo != [] && job == Job("r", "q", Ordered(steps)) && s.clock == 4 && s.files.None?
    ensures var s1 := Proceed(Willing(true), s, job, todo, [], OkResult(todo[0], query), false).0;
            "r" in s1.records && s1.records["r"] == Alone(steps, todo[0], query)
  {
    assert [] + [OkResult(todo[0], query)] == [OkResult(todo[0], query)];
  }

  lemma {:induction false} NoSelfDependency(steps: seq<Step>, x: Step)
    requires Registrable(steps) && Errors(steps) == [] && x in steps
    ensures x.name !in x.dependsOn
  {
    RefusalIsExact(steps);
    var i :| 0 <= i < |steps| && steps[i] == x;
    ByNameFindsEach(steps, i);
    if x.name in x.dependsOn {
      EdgeReaches(ByName(steps), x.name, x.name);
    }
  }

  lemma {:induction false} AloneIsNotClosed(steps: seq<Step>, x: Step, query: string)
    requires Registrable(steps) && Errors(steps) == [] && x in steps && x.dependsOn != []
    ensures !Closed(steps, Alone(steps, x, query))
  {
    var record := Alone(steps, x, query);
    var r, d := record.steps[0], x.dependsOn[0];
    NoSelfDependency(steps, x);
    PendingAreOthers(Ordered(steps), [r]);
    assert r in record.steps && d in x.dependsOn && r.name == x.name;
    assert forall e | e in record.steps && e.status.Success? :: e == r;
  }

  lemma AfterTwo(env: Env, s: FlowState, a: Op, b: Op)
    ensures AfterAll(env, s, [a, b]) == After(env, After(env, s, a), b)
  {
    var s1 := After(env, s, a);
    assert [a, b][1..] == [b] && [b][1..] == [];
    assert AfterAll(env, s1, [b]) == AfterAll(env, After(env, s1, b), []);
  }

  /** Interrupt a run after its first checkpoint, then re-run the step. */
  lemma {:induction false} UnboundStepBreaksClosure(steps: seq<Step>, x: Step)
    requires Registrable(steps) && Errors(steps) == [] && x in steps && !Bound(x)
    ensures var s := AfterAll(Willing(true), FreshFlow(steps, false), [OpRun("r", "q"), OpRerun("r", x.name)]);
            "r" in s.records && !Closed(steps, s.records["r"])
  {
    var env, s0 := Willing(true), FreshFlow(steps, false);
    var ops := [OpRun("r", "q"), OpRerun("r", x.name)];
    RunIsInterrupted(true, steps);
    var s1 := Interrupted(steps);
    var query := RerunsAlone(steps, x);
    AloneIsNotClosed(steps, x, query);
    AfterTwo(env, s0, ops[0], ops[1]);
  }

  lemma InterruptedIsFound(steps: seq<Step>)
    ensures Interrupted(steps).steps == steps
    ensures GetRun(Interrupted(steps), "r") == Found(InterruptedRecord(steps))
  {
  }

  /** The plan begins with `x` and starts from nothing. */
  ghost predicate BeginsAlone(steps: seq<Step>, x: Step, plan: Plan) {
    && plan.job == Job("r", "q", Ordered(steps)) && plan.completed == []
    && plan.todo != [] && plan.todo[0] == x && Retriable(plan.todo)
  }

  lemma {:induction false} RerunPlansAlone(steps: seq<Step>, x: Step)
    requires Registrable(steps) && Errors(steps) == [] && x in steps
    ensures BeginsAlone(steps, x, RerunPlan(Interrupted(steps), "r", InterruptedRecord(steps), x.name))
    ensures x.name in Names(Ordered(steps))
  {
    var i := StepPosition(steps, x);
    DownstreamStartsWithIt(steps, i);
    NothingKept(steps, Downstream(steps, x.name));
    OnlyRetriable(steps, Downstream(steps, x.name));
  }

  lemma {:induction false} StepPosition(steps: seq<Step>, x: Step) returns (i: nat)
    requires Registrable(steps) && Errors(steps) == [] && x in steps
    ensures i < |Ordered(steps)| && Ordered(steps)[i] == x && x.name in Names(Ordered(steps))
  {
    var all := Ordered(steps);
    OrderedIsDependencyOrder(steps);
    i :| 0 <= i < |all| && all[i] == x;
    assert Names(all)[i] == x.name;
  }

  lemma OnlyRetriable(steps: seq<Step>, names: set<string>)
    requires Registrable(steps)
    ensures Retriable(Only(Ordered(steps), names))
  {
  }

  lemma NothingKept(steps: seq<Step>, names: set<string>)
    ensures Kept(InterruptedRecord(steps).steps, names) == []
  {
    PendingAreOthers(Ordered(steps), []);
    KeptNone([] + PendingOf(Ordered(steps), []), names);
  }

  lemma {:induction false} RerunsAlone(steps: seq<Step>, x: Step) returns (query: string)
    requires Registrable(steps) && Errors(steps) == [] && x in steps && !Bound(x)
    ensures var s := After(Willing(true), Interrupted(steps), OpRerun("r", x.name));
            "r" in s.records && s.records["r"] == Alone(steps, x, query)
  {
    var s := Interrupted(steps);
    InterruptedIsFound(steps);
    RerunPlansAlone(steps, x);
    RerunIsReady(s, "r", x.name);
    var plan := RerunPlan(s, "r", InterruptedRecord(steps), x.name);
    ReadyIsPerformed(Willing(true), s, OpRerun("r", x.name), plan);
    AfterPerforms(Willing(true), s, OpRerun("r", x.name));
    query := ExecutesAlone(steps, plan, s);
  }

  lemma {:induction false} ExecutesAlone(steps: seq<Step>, plan: Plan, s: FlowState) returns (query: string)
    requires s == Interrupted(steps) && plan.job == Job("r", "q", Ordered(steps)) && plan.completed == []
    requires plan.todo != [] && Retriable(plan.todo) && CanBeApproved(plan.todo[0]) && !plan.todo[0].query.DefaultQuery?
    ensures var s1 := Execute(Willing(true), s, plan.job, plan.todo, plan.completed).0;
            "r" in s1.records && s1.records["r"] == Alone(steps, plan.todo[0], query)
  {
    query := RunsAlone(steps, plan.job, plan.todo, Save(Willing(true), s, plan.job, Running, None, []).0);
  }

  /** No history, with or without a store, leaves a record whose successes lack those of their dependencies. */
  ghost predicate AlwaysClosed(steps: seq<Step>) {
    forall env, stored, ops, record | Unregistering(ops) && Checkpointed(AfterAll(env, FreshFlow(steps, stored), ops), record) ::
      Closed(steps, record)
  }

  /**
   Every history of a workflow keeps each success beside successes of its dependencies exactly
   when every step with dependencies builds its query from their outputs (or can never run).
   */
  lemma {:induction false} ClosureIsExact(steps: seq<Step>)
    requires Registrable(steps) && Errors(steps) == []
    ensures (forall x | x in steps :: Bound(x)) <==> AlwaysClosed(steps)
  {
    if forall x | x in steps :: Bound(x) {
      forall env, stored, ops, record | Unregistering(ops) && Checkpointed(AfterAll(env, FreshFlow(steps, stored), ops), record)
        ensures Closed(steps, record)
      {
        BoundStepsStayClosed(env, steps, stored, ops, record);
      }
    } else {
      var x :| x in steps && !Bound(x);
      UnboundIsNotAlwaysClosed(steps, x);
    }
  }

  lemma AlwaysClosedAt(env: Env, steps: seq<Step>, ops: seq<Op>, runId: string)
    requires AlwaysClosed(steps) && Unregistering(ops) && runId in AfterAll(env, FreshFlow(steps, false), ops).records
    ensures Closed(steps, AfterAll(env, FreshFlow(steps, false), ops).records[runId])
  {
    var s := AfterAll(env, FreshFlow(steps, false), ops);
    assert Checkpointed(s, s.records[runId]);
  }

  lemma {:induction false} UnboundIsNotAlwaysClosed(steps: seq<Step>, x: Step)
    requires Registrable(steps) && Errors(steps) == [] && x in steps && !Bound(x)
    ensures !AlwaysClosed(steps)
  {
    UnboundStepBreaksClosure(steps, x);
    if AlwaysClosed(steps) {
      AlwaysClosedAt(Willing(true), steps, [OpRun("r", "q"), OpRerun("r", x.name)], "r");
    }
  }
}
