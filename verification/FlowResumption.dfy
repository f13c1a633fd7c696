/**
 Without skips, a run that failed, stopped or was interrupted any number of times and then
 resumed holds the same outputs, in the same order, as one run that was never interrupted.
 */
module FlowResumption {
  import opened FlowGraph
  import opened FlowEngine
  import opened FlowFreshness
  import opened FlowRuns
  import opened FlowMeaning
  import opened Wrappers

  /** What the agents, the callable queries and the hooks answer whenever they answer. */
  datatype World = World(
    reply: (string, string) -> string,
    render: (string, string, seq<StepResult>) -> string,
    rewrite: (string, string) -> string)

  /** The name and the content of a result, which is all that a predictable query reads. */
  function Output(name: string, content: string): StepResult {
    StepResult(name, content, None, 0, Success, None, 0, false)
  }

  function Outputs(results: seq<StepResult>): (r: seq<StepResult>)
    ensures |r| == |results|
    ensures forall i | 0 <= i < |results| :: r[i] == Output(results[i].name, results[i].content)
  {
    seq(|results|, i requires 0 <= i < |results| => Output(results[i].name, results[i].content))
  }

  /** Nothing is skipped; anything may fail, raise, wait for approval or be interrupted. */
  ghost predicate Predictable(env: Env, w: World) {
    && Steady(env, w.reply)
    && (forall tick, name, query, context | env.render(tick, name, query, context).Some? ::
          env.render(tick, name, query, context).value == w.render(name, query, Outputs(context)))
    && (forall tick, name, query ::
          match env.hook(tick, name, query)
          case HookContinues => w.rewrite(name, query) == query
          case HookRewrites(sent) => w.rewrite(name, query) == sent
          case HookBlocks(_) => false)
    && (forall tick, name, context :: !env.cancelIf(tick, name, context).Cancels?)
    && (forall tick :: !env.cancels(tick))
  }

  function Asked(w: World, step: Step, query: string, context: seq<StepResult>): string {
    w.rewrite(step.name,
      match step.query
      case CallableQuery => w.render(step.name, query, context)
      case ConstantQuery(text) => text
      case DefaultQuery =>
        if step.dependsOn == [] then query
        else
          var lines := DependencyLines(context, step.dependsOn);
          query + OutputsHeading + (if lines.Some? then lines.value else ""))
  }

  /** The outputs of the first `k` steps of a run that nothing interrupts. */
  function Uninterrupted(w: World, all: seq<Step>, query: string, k: nat): (r: seq<StepResult>)
    requires k <= |all|
    ensures |r| == k
  {
    if k == 0 then []
    else
      var before := Uninterrupted(w, all, query, k - 1);
      var step := all[k - 1];
      before + [Output(step.name, w.reply(step.name, Asked(w, step, query, before)))]
  }

  lemma UninterruptedOn(w: World, all: seq<Step>, query: string, k: nat)
    requires 0 < k <= |all|
    ensures var r := Uninterrupted(w, all, query, k);
            r[..k - 1] == Uninterrupted(w, all, query, k - 1) && r[k - 1].name == all[k - 1].name
  {
  }

  lemma {:induction false} UninterruptedNameAt(w: World, all: seq<Step>, query: string, k: nat, i: nat)
    requires i < k <= |all|
    ensures Uninterrupted(w, all, query, k)[i].name == all[i].name
  {
    UninterruptedOn(w, all, query, k);
    if i < k - 1 {
      UninterruptedNameAt(w, all, query, k - 1, i);
      assert Uninterrupted(w, all, query, k)[..k - 1][i] == Uninterrupted(w, all, query, k)[i];
    }
  }

  lemma UninterruptedNames(w: World, all: seq<Step>, query: string, k: nat)
    requires k <= |all|
    ensures forall i | 0 <= i < k :: Uninterrupted(w, all, query, k)[i].name == all[i].name
  {
    forall i | 0 <= i < k
      ensures Uninterrupted(w, all, query, k)[i].name == all[i].name
    {
      UninterruptedNameAt(w, all, query, k, i);
    }
  }

  // ----- Results without successes add nothing -----

  lemma {:induction false} OthersAddNothing(results: seq<StepResult>, more: seq<StepResult>)
    requires forall r | r in more :: !r.status.Success?
    ensures Successes(results + more) == Successes(results)
    decreases |more|
  {
    if more == [] {
      assert results + more == results;
    } else {
      var init := more[..|more| - 1];
      OthersAddNothing(results, init);
      assert (results + more)[..|results + more| - 1] == results + init;
      assert more[|more| - 1] in more;
    }
  }

  lemma {:induction false} KeptWithoutNames(results: seq<StepResult>)
    ensures Kept(results, {}) == Successes(results)
  {
    if results != [] {
      KeptWithoutNames(results[..|results| - 1]);
    }
  }

  lemma {:induction false} PendingAreOthers(all: seq<Step>, results: seq<StepResult>)
    ensures forall r | r in PendingOf(all, results) :: !r.status.Success?
  {
    if all != [] {
      PendingAreOthers(all[..|all| - 1], results);
    }
  }

  lemma {:induction false} RemainingAddNothing(failed: Step, all: seq<Step>, seen: seq<string>)
    ensures forall r | r in RemainingSkipped(failed, all, seen) :: !r.status.Success?
  {
    if all != [] {
      RemainingAddNothing(failed, all[..|all| - 1], seen);
    }
  }

  lemma {:induction false} OutputsHaveTheSameOutput(context: seq<StepResult>, name: string)
    ensures OutputOf(context, name) == OutputOf(Outputs(context), name)
  {
    if context != [] {
      var init := context[..|context| - 1];
      assert Outputs(context)[..|context| - 1] == Outputs(init);
      OutputsHaveTheSameOutput(init, name);
    }
  }

  // ----- The loop -----

  /** The successes of a record are the first outputs of the uninterrupted run. */
  ghost predicate Aligned(w: World, all: seq<Step>, record: Record) {
    exists k: nat :: AlignedAt(w, all, record.query, record.steps, k)
  }

  ghost predicate AlignedAt(w: World, all: seq<Step>, query: string, results: seq<StepResult>, k: nat) {
    k <= |all| && Outputs(Successes(results)) == Uninterrupted(w, all, query, k)
  }

  ghost predicate StateAligned(w: World, all: seq<Step>, s: FlowState) {
    && !s.cancelled
    && AllAligned(w, all, s.records)
    && (s.files.Some? ==> AllAligned(w, all, s.files.value))
  }

  ghost predicate AllAligned(w: World, all: seq<Step>, m: map<string, Record>) {
    forall id | id in m :: Aligned(w, all, m[id])
  }

  lemma CheckpointAligns(w: World, job: Job, status: Status, error: Option<string>, results: seq<StepResult>, k: nat)
    requires AlignedAt(w, job.all, job.query, results, k)
    ensures Aligned(w, job.all, Checkpoint(job, status, error, results))
  {
    var p := PendingOf(job.all, results);
    PendingAreOthers(job.all, results);
    OthersAddNothing(results, p);
    assert AlignedAt(w, job.all, job.query, results + p, k);
  }

  lemma SaveAligns(env: Env, w: World, s: FlowState, job: Job, status: Status, error: Option<string>, results: seq<StepResult>, k: nat)
    requires StateAligned(w, job.all, s) && AlignedAt(w, job.all, job.query, results, k)
    ensures StateAligned(w, job.all, Save(env, s, job, status, error, results).0)
  {
    CheckpointAligns(w, job, status, error, results, k);
    PutAligns(w, job.all, s.records, job.runId, Checkpoint(job, status, error, results));
    if s.files.Some? {
      PutAligns(w, job.all, s.files.value, SafeId(job.runId), Checkpoint(job, status, error, results));
    }
  }

  lemma PutAligns(w: World, all: seq<Step>, m: map<string, Record>, id: string, record: Record)
    requires AllAligned(w, all, m) && Aligned(w, all, record)
    ensures AllAligned(w, all, m[id := record])
  {
  }

  /** So far every result is a success of the uninterrupted run, and the rest of that run is to do. */
  ghost predicate OnCourse(w: World, s: FlowState, job: Job, todo: seq<Step>, results: seq<StepResult>) {
    && StateAligned(w, job.all, s)
    && (forall r | r in results :: r.status.Success?)
    && |results| <= |job.all| && todo == job.all[|results|..]
    && Outputs(results) == Uninterrupted(w, job.all, job.query, |results|)
    && (forall x | x in job.all :: x.maxRetry >= 1)
  }

  lemma {:induction false} BuiltIsAsked(env: Env, w: World, tick: nat, step: Step, query: string, context: seq<StepResult>)
    requires Predictable(env, w) && BuildQuery(env, tick, step, query, context).Some?
    ensures w.rewrite(step.name, BuildQuery(env, tick, step, query, context).value) == Asked(w, step, query, Outputs(context))
  {
    forall n
      ensures OutputOf(context, n) == OutputOf(Outputs(context), n)
    {
      OutputsHaveTheSameOutput(context, n);
    }
    SameOutputsSameLines(context, Outputs(context), step.dependsOn);
  }

  lemma {:induction false} SentIsAsked(env: Env, w: World, tick: nat, cancelled: bool, step: Step, query: string, context: seq<StepResult>)
    requires Predictable(env, w)
    ensures var d := Decide(env, tick, cancelled, step, query, context);
            && (d.Goes? ==> d.query == Asked(w, step, query, Outputs(context)))
            && (d.Skips? ==> cancelled)
  {
    if BuildQuery(env, tick, step, query, context).Some? {
      BuiltIsAsked(env, w, tick, step, query, context);
    }
  }

  lemma {:induction false} NextOutput(env: Env, w: World, s: FlowState, s1: FlowState, job: Job, todo: seq<Step>, results: seq<StepResult>, r: StepResult)
    requires Predictable(env, w) && OnCourse(w, s, job, todo, results) && todo != []
    requires r.span.Some? && StepRan(env, s, todo[0], r.span.value.input, s.clock, s1, Some(r)) && r.status.Success?
    requires r.span.value.input == Asked(w, todo[0], job.query, Outputs(results))
    ensures OnCourse(w, s1, job, todo[1..], results + [r])
  {
    SaidIsReply(env, w, r);
    assert todo[0] == job.all[|results|];
    assert Outputs(results + [r]) == Outputs(results) + [Output(r.name, r.content)];
    var k := |results| + 1;
    assert Uninterrupted(w, job.all, job.query, k) == Outputs(results) + [Output(r.name, r.content)];
    assert todo[1..] == job.all[k..];
  }

  lemma SaidIsReply(env: Env, w: World, r: StepResult)
    requires Steady(env, w.reply) && r.span.Some? && Said(env, r)
    ensures r.content == w.reply(r.name, r.span.value.input)
  {
    var tick, fallback :| SaidAt(env, r, tick, fallback);
  }

  /** What an outcome says when the run is complete. */
  ghost predicate AsUninterrupted(w: World, job: Job, outcome: Outcome) {
    outcome.Returned? && outcome.result.status.Success? ==>
      && Outputs(outcome.result.steps) == Uninterrupted(w, job.all, job.query, |job.all|)
      && outcome.result.content == (if job.all == [] then "" else Uninterrupted(w, job.all, job.query, |job.all|)[|job.all| - 1].content)
  }

  lemma {:induction false} GoingStaysOnCourse(env: Env, w: World, s: FlowState, job: Job, todo: seq<Step>, results: seq<StepResult>, query: string)
    requires Predictable(env, w) && OnCourse(w, s, job, todo, results) && todo != []
    requires query == Asked(w, todo[0], job.query, Outputs(results))
    ensures var (s1, r) := RunStep(env, s, todo[0], query);
            && StateAligned(w, job.all, s1)
            && (r.Some? ==>
                  && r.value.status == (if Truthy(r.value.error) then Failed else Success)
                  && (r.value.status.Success? ==> OnCourse(w, s1, job, todo[1..], results + [r.value])))
  {
    assert todo[0] in job.all;
    TryFromRuns(env, s, todo[0], query, 1, s.clock);
    var (s1, r) := RunStep(env, s, todo[0], query);
    if r.Some? && r.value.status.Success? {
      NextOutput(env, w, s, s1, job, todo, results, r.value);
    }
  }

  lemma PollStaysOnCourse(env: Env, w: World, s: FlowState, job: Job, todo: seq<Step>, results: seq<StepResult>)
    requires Predictable(env, w) && OnCourse(w, s, job, todo, results)
    ensures OnCourse(w, Polled(env, s), job, todo, results)
  {
  }

  lemma SuspendStaysOnCourse(env: Env, w: World, s: FlowState, job: Job, todo: seq<Step>, results: seq<StepResult>, r: StepResult)
    requires OnCourse(w, s, job, todo, results) && !r.status.Success?
    ensures var (s1, outcome) := Suspend(env, s, job, results, r);
            StateAligned(w, job.all, s1) && AsUninterrupted(w, job, outcome)
  {
    SuccessesOfSuccesses(results);
    OthersAddNothing(results, [r]);
    SaveAligns(env, w, s, job, r.status, r.error, results + [r], |results|);
  }

  lemma DoneIsUninterrupted(env: Env, w: World, s: FlowState, job: Job, results: seq<StepResult>)
    requires OnCourse(w, s, job, [], results)
    ensures AsUninterrupted(w, job, Loop(env, s, job, [], results).1)
  {
    SuccessesOfSuccesses(results);
    assert |results| == |job.all|;
    if results != [] {
      assert Outputs(results)[|results| - 1].content == results[|results| - 1].content;
    }
  }

  lemma {:induction false} LoopStaysOnCourse(env: Env, w: World, s: FlowState, job: Job, todo: seq<Step>, results: seq<StepResult>)
    requires Predictable(env, w) && OnCourse(w, s, job, todo, results)
    ensures var (s1, outcome) := Loop(env, s, job, todo, results);
            StateAligned(w, job.all, s1) && AsUninterrupted(w, job, outcome)
    decreases |todo|, 2
  {
    if todo == [] {
      DoneIsUninterrupted(env, w, s, job, results);
    } else {
      var step, s1 := todo[0], Polled(env, s);
      PollStaysOnCourse(env, w, s, job, todo, results);
      SentIsAsked(env, w, s.clock, s1.cancelled, step, job.query, Successes(results));
      match Decide(env, s.clock, s1.cancelled, step, job.query, Successes(results)) {
        case Fails =>
        case Waits(reason) =>
          SuspendStaysOnCourse(env, w, s1, job, todo, results, SkippedResult(step, reason, WaitingApproval));
        case Goes(query) =>
          GoneStaysOnCourse(env, w, s1, job, todo, results, query);
          var (s2, r) := RunStep(env, s1, step, query);
      }
    }
  }

  lemma {:induction false} GoneStaysOnCourse(env: Env, w: World, s: FlowState, job: Job, todo: seq<Step>, results: seq<StepResult>, query: string)
    requires Predictable(env, w) && OnCourse(w, s, job, todo, results) && todo != []
    requires query == Asked(w, todo[0], job.query, Outputs(Successes(results)))
    ensures var (s1, r) := RunStep(env, s, todo[0], query);
            && StateAligned(w, job.all, s1)
            && (r.Some? ==>
                  var (s2, outcome) := Proceed(env, s1, job, todo, results, r.value, Truthy(r.value.error));
                  StateAligned(w, job.all, s2) && AsUninterrupted(w, job, outcome))
    decreases |todo|, 1
  {
    SuccessesOfSuccesses(results);
    GoingStaysOnCourse(env, w, s, job, todo, results, query);
    var (s1, r) := RunStep(env, s, todo[0], query);
    if r.Some? {
      ProceedStaysOnCourse(env, w, s1, job, todo, results, r.value);
    }
  }

  lemma {:induction false} ProceedStaysOnCourse(env: Env, w: World, s: FlowState, job: Job, todo: seq<Step>, results: seq<StepResult>, r: StepResult)
    requires Predictable(env, w) && todo != []
    requires r.status == (if Truthy(r.error) then Failed else Success)
    requires if r.status.Success? then OnCourse(w, s, job, todo[1..], results + [r])
             else StateAligned(w, job.all, s) && AlignedAt(w, job.all, job.query, results, |results|)
    ensures var (s1, outcome) := Proceed(env, s, job, todo, results, r, Truthy(r.error));
            StateAligned(w, job.all, s1) && AsUninterrupted(w, job, outcome)
    decreases |todo|, 0
  {
    var results1 := results + [r];
    var s1 := Save(env, s, job, r.status, r.error, results1).0;
    if r.status.Success? {
      SuccessesOfSuccesses(results1);
      SaveAligns(env, w, s, job, r.status, r.error, results1, |results1|);
      LoopStaysOnCourse(env, w, s1, job, todo[1..], results1);
    } else {
      OthersAddNothing(results, [r]);
      SaveAligns(env, w, s, job, r.status, r.error, results1, |results|);
      var p := RemainingSkipped(todo[0], job.all, ResultNames(results1));
      RemainingAddNothing(todo[0], job.all, ResultNames(results1));
      OthersAddNothing(results1, p);
      SaveAligns(env, w, s1, job, Failed, r.error, results1 + p, |results|);
    }
  }

  // ----- Resuming -----

  lemma {:induction false} WithoutNone(steps: seq<Step>, names: set<string>)
    requires forall x | x in steps :: x.name !in names
    ensures Without(steps, names) == steps
  {
    if steps != [] {
      var init, last := steps[..|steps| - 1], steps[|steps| - 1];
      assert last in steps && steps == init + [last];
      assert forall x | x in init :: x in steps;
      WithoutNone(init, names);
    }
  }

  lemma {:induction false} WithoutAll(steps: seq<Step>, names: set<string>)
    requires forall x | x in steps :: x.name in names
    ensures Without(steps, names) == []
  {
    if steps != [] {
      assert forall x | x in steps[..|steps| - 1] :: x in steps;
      WithoutAll(steps[..|steps| - 1], names);
    }
  }

  lemma {:induction false} WithoutAppends(a: seq<Step>, b: seq<Step>, names: set<string>)
    ensures Without(a + b, names) == Without(a, names) + Without(b, names)
    decreases |b|
  {
    if b == [] {
      assert a + b == a;
    } else {
      var init := b[..|b| - 1];
      assert (a + b)[..|a + b| - 1] == a + init;
      WithoutAppends(a, init, names);
    }
  }

  lemma WithoutPrefix(all: seq<Step>, names: set<string>, k: nat)
    requires k <= |all| && forall i | 0 <= i < |all| :: all[i].name in names <==> i < k
    ensures Without(all, names) == all[k..]
  {
    assert all == all[..k] + all[k..];
    WithoutAppends(all[..k], all[k..], names);
    WithoutNone(all[k..], names);
    WithoutAll(all[..k], names);
  }

  /** What a resumed run has to do is exactly what the uninterrupted run had left. */
  lemma {:induction false} ResumeIsOnCourse(env: Env, w: World, s: FlowState, runId: string, record: Record)
    requires StateAligned(w, Ordered(s.steps), s) && Aligned(w, Ordered(s.steps), record)
    requires Registrable(s.steps) && Errors(s.steps) == []
    ensures var plan := ResumePlan(s, runId, record); OnCourse(w, s, plan.job, plan.todo, plan.completed)
  {
    var all, completed := Ordered(s.steps), Kept(record.steps, {});
    var k: nat :| AlignedAt(w, all, record.query, record.steps, k);
    KeptWithoutNames(record.steps);
    OrderedIsDependencyOrder(s.steps);
    PrefixNames(w, all, record.query, completed, k);
    WithoutPrefix(all, SetOf(ResultNames(completed)), k);
  }

  lemma PrefixNames(w: World, all: seq<Step>, query: string, results: seq<StepResult>, k: nat)
    requires Distinct(Names(all)) && k <= |all| && Outputs(results) == Uninterrupted(w, all, query, k)
    ensures forall i | 0 <= i < |all| :: all[i].name in SetOf(ResultNames(results)) <==> i < k
  {
    UninterruptedNames(w, all, query, k);
    forall j | 0 <= j < k
      ensures ResultNames(results)[j] == Names(all)[j]
    {
      assert Outputs(results)[j].name == all[j].name;
    }
    forall i | 0 <= i < |all|
      ensures all[i].name in ResultNames(results) <==> i < k
    {
      assert all[i].name == Names(all)[i];
      if i < k {
        assert ResultNames(results)[i] == all[i].name;
      }
    }
  }

  ghost predicate RunsOrResumes(op: Op) {
    op.OpRun? || op.OpResume? || op.OpRestart?
  }

  lemma {:induction false} PlanIsOnCourse(env: Env, w: World, s: FlowState, op: Op)
    requires RunsOrResumes(op) && Accepted(s, op)
    requires StateAligned(w, Ordered(s.steps), s) && Registrable(s.steps)
    ensures var plan := PlanOf(s, op).plan;
            plan.job.all == Ordered(s.steps) && OnCourse(w, s, plan.job, plan.todo, plan.completed)
  {
    if op.OpResume? {
      ResumeIsOnCourse(env, w, s, op.runId, GetRun(s, op.runId).record);
    } else {
      RunIsOnCourse(env, w, s, op.runId, op.query);
    }
  }

  lemma RunIsOnCourse(env: Env, w: World, s: FlowState, runId: string, query: string)
    requires StateAligned(w, Ordered(s.steps), s) && Registrable(s.steps)
    ensures var plan := RunPlan(s, runId, query); OnCourse(w, s, plan.job, plan.todo, plan.completed)
  {
  }

  lemma {:induction false} PerformStaysAligned(env: Env, w: World, s: FlowState, op: Op)
    requires Predictable(env, w) && RunsOrResumes(op) && Accepted(s, op)
    requires StateAligned(w, Ordered(s.steps), s) && Registrable(s.steps)
    ensures var (s1, outcome) := Perform(env, s, op);
            StateAligned(w, Ordered(s.steps), s1) && AsUninterrupted(w, PlanOf(s, op).plan.job, outcome)
  {
    PlanIsOnCourse(env, w, s, op);
    var Plan(job, todo, completed) := PlanOf(s, op).plan;
    ExecuteStaysAligned(env, w, s, job, todo, completed);
  }

  lemma ExecuteStaysAligned(env: Env, w: World, s: FlowState, job: Job, todo: seq<Step>, completed: seq<StepResult>)
    requires Predictable(env, w) && OnCourse(w, s, job, todo, completed)
    ensures var (s1, outcome) := Execute(env, s, job, todo, completed);
            StateAligned(w, job.all, s1) && AsUninterrupted(w, job, outcome)
  {
    SuccessesOfSuccesses(completed);
    SaveAligns(env, w, s, job, Running, None, completed, |completed|);
    LoopStaysOnCourse(env, w, Save(env, s, job, Running, None, completed).0, job, todo, completed);
  }

  lemma {:induction false} OperationStaysAligned(env: Env, w: World, s: FlowState, op: Op)
    requires Predictable(env, w) && RunsOrResumes(op) && StateAligned(w, Ordered(s.steps), s) && Registrable(s.steps)
    ensures StateAligned(w, Ordered(s.steps), After(env, s, op)) && After(env, s, op).steps == s.steps
  {
    if Executes(op) {
      AfterPerforms(env, s, op);
      if PlanOf(s, op).Ready? {
        PerformStaysAligned(env, w, s, op);
        PerformEffect(env, s, op);
      }
    }
  }

  lemma {:induction false} HistoriesStayAligned(env: Env, w: World, s: FlowState, ops: seq<Op>)
    requires Predictable(env, w) && forall op | op in ops :: RunsOrResumes(op)
    requires StateAligned(w, Ordered(s.steps), s) && Registrable(s.steps)
    ensures StateAligned(w, Ordered(s.steps), AfterAll(env, s, ops)) && AfterAll(env, s, ops).steps == s.steps
    decreases |ops|
  {
    if ops != [] {
      OperationStaysAligned(env, w, s, ops[0]);
      HistoriesStayAligned(env, w, After(env, s, ops[0]), ops[1..]);
    }
  }

  // ----- Main results -----

  /** A flow whose steps are registered and that has not run anything yet. */
  function FreshFlow(steps: seq<Step>, stored: bool): FlowState {
    Initial(stored).(steps := steps)
  }

  ghost predicate Registrable(steps: seq<Step>) {
    Distinct(Names(steps)) && forall x | x in steps :: x.maxRetry >= 1
  }

  /** In any history of running, resuming and restarting, the successes of every record, in memory or in the store, are a prefix of the uninterrupted run. */
  lemma {:induction false} EveryRecordIsAPrefix(env: Env, w: World, steps: seq<Step>, stored: bool, ops: seq<Op>, record: Record)
    requires Predictable(env, w) && Registrable(steps) && forall op | op in ops :: RunsOrResumes(op)
    requires Checkpointed(AfterAll(env, FreshFlow(steps, stored), ops), record)
    ensures exists k: nat :: k <= |Ordered(steps)|
                        && Outputs(Successes(record.steps)) == Uninterrupted(w, Ordered(steps), record.query, k)
  {
    HistoriesStayAligned(env, w, FreshFlow(steps, stored), ops);
    assert Aligned(w, Ordered(steps), record);
    var k: nat :| AlignedAt(w, Ordered(steps), record.query, record.steps, k);
  }

  /** Whenever a run or a resumption then succeeds, its steps, outputs and content are those of the uninterrupted run. */
  lemma {:induction false} SuccessIsAsUninterrupted(env: Env, w: World, steps: seq<Step>, stored: bool, ops: seq<Op>, op: Op)
    requires Predictable(env, w) && Registrable(steps) && forall op | op in ops :: RunsOrResumes(op)
    requires op.OpRun? || op.OpResume?
    requires Accepted(AfterAll(env, FreshFlow(steps, stored), ops), op)
    ensures var s := AfterAll(env, FreshFlow(steps, stored), ops);
            var outcome := Perform(env, s, op).1;
            outcome.Returned? && outcome.result.status.Success? ==>
              var whole := Uninterrupted(w, Ordered(steps), PlanOf(s, op).plan.job.query, |Ordered(steps)|);
              && Outputs(outcome.result.steps) == whole
              && outcome.result.content == (if whole == [] then "" else whole[|whole| - 1].content)
  {
    HistoriesStayAligned(env, w, FreshFlow(steps, stored), ops);
    var s := AfterAll(env, FreshFlow(steps, stored), ops);
    PlanIsOnCourse(env, w, s, op);
    PerformStaysAligned(env, w, s, op);
  }
}
