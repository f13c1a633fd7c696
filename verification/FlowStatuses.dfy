/**
 What a status means: when a step counts as successful, what cancelling does for good, and
 which status a run that skips nothing returns and leaves stored.
 */
module FlowStatuses {
  import opened FlowGraph
  import opened FlowEngine
  import opened FlowFreshness
  import opened FlowRuns
  import opened Wrappers

  // ----- A step -----

  /** Attempt `n` is the last one made, since all before it reported an error. */
  ghost predicate LastAttempt(env: Env, step: Step, query: string, start: nat, n: nat) {
    && 1 <= n <= step.maxRetry
    && forall j | 1 <= j < n :: Primary(env, step, query, start, j).Answered? && Primary(env, step, query, start, j).error.Some?
  }

  /**
   A step that its fallback did not rescue is successful exactly when the error of its last
   attempt is absent or empty; and it is successful with an error on record, an empty one,
   exactly when it used every attempt and the last of them reported the empty error.
   */
  lemma {:induction false} SuccessIsExact(env: Env, s: FlowState, step: Step, query: string)
    requires step.maxRetry >= 1
    ensures var r := RunStep(env, s, step, query).1;
            r.Some? && !r.value.usedFallback ==>
              && 1 <= r.value.attempts <= step.maxRetry
              && var last := Primary(env, step, query, s.clock, r.value.attempts);
                 && last.Answered? && (r.value.status.Success? <==> last.error.None? || last.error == Some(""))
                 && (r.value.status.Success? && r.value.error.Some? <==> r.value.attempts == step.maxRetry && last.error == Some(""))
  {
    RetriesAreExact(env, s, step, query);
    TryFromIsJudged(env, s, step, query, 1, s.clock);
  }

  lemma {:induction false} TryFromIsJudged(env: Env, s: FlowState, step: Step, query: string, attempt: nat, startedAt: nat)
    requires 1 <= attempt <= step.maxRetry
    ensures var r := TryFrom(env, s, step, query, attempt, startedAt).1;
            r.Some? ==> r.value.status == if Truthy(r.value.error) then Failed else Success
    decreases step.maxRetry - attempt
  {
    var s1 := Called(s, step, false, query);
    var answer := Heard(step, false, env.agent(s.clock, step.name, false, query));
    if answer.Answered? && answer.error.Some? && attempt < step.maxRetry {
      TryFromIsJudged(env, s1, step, query, attempt + 1, startedAt);
    }
  }

  /** If every attempt that may be made ends in an error and the last in an empty one, the step succeeds and no fallback is asked. */
  lemma {:induction false} EmptyErrorIsSuccess(env: Env, s: FlowState, step: Step, query: string)
    requires step.maxRetry >= 1 && LastAttempt(env, step, query, s.clock, step.maxRetry)
    requires var last := Primary(env, step, query, s.clock, step.maxRetry); last.Answered? && last.error == Some("")
    ensures var r := RunStep(env, s, step, query).1;
            r.Some? && r.value.status.Success? && r.value.attempts == step.maxRetry && !r.value.usedFallback
            && r.value.content == Primary(env, step, query, s.clock, step.maxRetry).content
  {
    EmptyErrorFrom(env, s, step, query, 1, s.clock);
  }

  lemma {:induction false} EmptyErrorFrom(env: Env, s: FlowState, step: Step, query: string, attempt: nat, start: nat)
    requires 1 <= attempt <= step.maxRetry && LastAttempt(env, step, query, start, step.maxRetry) && s.clock == start + attempt - 1
    requires var last := Primary(env, step, query, start, step.maxRetry); last.Answered? && last.error == Some("")
    ensures var r := TryFrom(env, s, step, query, attempt, start).1;
            r.Some? && r.value.status.Success? && r.value.attempts == step.maxRetry && !r.value.usedFallback
            && r.value.content == Primary(env, step, query, start, step.maxRetry).content
    decreases step.maxRetry - attempt
  {
    var answer := Primary(env, step, query, start, attempt);
    assert answer == Heard(step, false, env.agent(s.clock, step.name, false, query));
    if attempt < step.maxRetry {
      EmptyErrorFrom(env, Called(s, step, false, query), step, query, attempt + 1, start);
    }
  }

  // ----- Cancelling -----

  lemma NamesMove(todo: seq<Step>, results: seq<StepResult>, r: StepResult)
    requires todo != [] && r.name == todo[0].name
    ensures ResultNames(results + [r]) + Names(todo[1..]) == ResultNames(results) + Names(todo)
  {
    assert ResultNames(results + [r]) == ResultNames(results) + [r.name];
    assert Names(todo) == [r.name] + Names(todo[1..]);
    RegroupNames(ResultNames(results), r.name, Names(todo[1..]));
  }

  lemma RegroupNames(a: seq<string>, n: string, b: seq<string>)
    ensures (a + [n]) + b == a + ([n] + b)
  {
  }

  /** A skip of every step of `todo` was added to `results`, and the run counts as successful. */
  ghost predicate OnlySkips(todo: seq<Step>, results: seq<StepResult>, outcome: Outcome) {
    outcome.Returned? ==>
      && outcome.result.status.Success? && results <= outcome.result.steps
      && ResultNames(outcome.result.steps) == ResultNames(results) + Names(todo)
      && forall i | |results| <= i < |outcome.result.steps| :: outcome.result.steps[i].status.Skipped?
  }

  lemma {:induction false} CancelledLoopSkips(env: Env, s: FlowState, job: Job, todo: seq<Step>, results: seq<StepResult>)
    requires s.cancelled
    ensures var (s1, outcome) := Loop(env, s, job, todo, results);
            s1.cancelled && s1.calls == s.calls && OnlySkips(todo, results, outcome)
    decreases |todo|
  {
    if todo != [] {
      var r := SkippedResult(todo[0], "cancelled before execution", Skipped);
      var (s1, ok) := Save(env, Polled(env, s), job, r.status, r.error, results + [r]);
      if ok {
        CancelledLoopSkips(env, s1, job, todo[1..], results + [r]);
        NamesMove(todo, results, r);
        var outcome := Loop(env, s1, job, todo[1..], results + [r]).1;
        if outcome.Returned? {
          assert outcome.result.steps[|results|] == r;
        }
      }
    }
  }

  lemma {:induction false} CancelledExecuteSkips(env: Env, s: FlowState, job: Job, todo: seq<Step>, completed: seq<StepResult>)
    requires s.cancelled
    ensures var (s1, outcome) := Execute(env, s, job, todo, completed);
            s1.cancelled && s1.calls == s.calls && OnlySkips(todo, completed, outcome)
  {
    var (s1, ok) := Save(env, s, job, Running, None, completed);
    if ok {
      CancelledLoopSkips(env, s1, job, todo, completed);
    }
  }

  /** A run started after a cancellation calls no agent, and if it returns it reports success with every step it had to do skipped. */
  lemma {:induction false} CancelledRunSkips(env: Env, s: FlowState, op: Op)
    requires s.cancelled && Accepted(s, op)
    ensures var (s1, outcome) := Perform(env, s, op);
            s1.cancelled && s1.calls == s.calls && OnlySkips(PlanOf(s, op).plan.todo, PlanOf(s, op).plan.completed, outcome)
  {
    var plan := PlanOf(s, op).plan;
    ReadyIsPerformed(env, s, op, plan);
    CancelledExecuteSkips(env, s, plan.job, plan.todo, plan.completed);
  }

  lemma {:induction false} CancelledStays(env: Env, s: FlowState, op: Op)
    requires s.cancelled && !op.OpRestart?
    ensures After(env, s, op).cancelled && After(env, s, op).calls == s.calls
  {
    if Executes(op) {
      AfterPerforms(env, s, op);
      if Accepted(s, op) {
        CancelledRunSkips(env, s, op);
      }
    }
  }

  /** Cancelling is for good: until the process restarts, no operation lifts it and no agent is called again. */
  lemma {:induction false} CancellationIsForGood(env: Env, s: FlowState, ops: seq<Op>)
    requires s.cancelled && forall op | op in ops :: !op.OpRestart?
    ensures AfterAll(env, s, ops).cancelled && AfterAll(env, s, ops).calls == s.calls
    decreases |ops|
  {
    if ops != [] {
      assert !ops[0].OpRestart?;
      CancelledStays(env, s, ops[0]);
      CancellationIsForGood(env, After(env, s, ops[0]), ops[1..]);
    }
  }

  // ----- Runs that skip nothing -----

  /** Nobody cancels and no hook blocks. */
  ghost predicate SkipFree(env: Env) {
    && (forall tick :: !env.cancels(tick))
    && (forall tick, name, context :: !env.cancelIf(tick, name, context).Cancels?)
    && (forall tick, name, query :: !env.hook(tick, name, query).HookBlocks?)
  }

  lemma NothingIsSkipped(env: Env, tick: nat, step: Step, query: string, context: seq<StepResult>)
    requires SkipFree(env)
    ensures !Decide(env, tick, false, step, query, context).Skips?
  {
  }

  /** All of `todo` is done, with success. */
  ghost predicate AllDone(todo: seq<Step>, results: seq<StepResult>, steps: seq<StepResult>) {
    && results <= steps && ResultNames(steps) == ResultNames(results) + Names(todo)
    && forall i | |results| <= i < |steps| :: steps[i].status.Success?
  }

  /** The step at position `i` of `todo` failed, those before it succeeded, and the marks follow. */
  ghost predicate FailedAt(job: Job, todo: seq<Step>, results: seq<StepResult>, steps: seq<StepResult>, i: nat) {
    && i < |todo| && results <= steps && |results| + i < |steps|
    && var seen := ResultNames(results) + Names(todo[..i + 1]);
       && ResultNames(steps[..|results| + i + 1]) == seen
       && (forall k | |results| <= k < |results| + i :: steps[k].status.Success?)
       && steps[|results| + i].status.Failed?
       && steps[|results| + i + 1..] == RemainingSkipped(todo[i], job.all, seen)
  }

  /** How a run that skips nothing returns. */
  ghost predicate WithoutSkips(job: Job, todo: seq<Step>, results: seq<StepResult>, outcome: Outcome) {
    outcome.Returned? ==>
      match outcome.result.status
      case Success => AllDone(todo, results, outcome.result.steps)
      case Failed => exists i :: FailedAt(job, todo, results, outcome.result.steps, i)
      case WaitingApproval => true
      case _ => false
  }

  lemma StepSucceeded(job: Job, todo: seq<Step>, results: seq<StepResult>, r: StepResult, outcome: Outcome)
    requires todo != [] && r.name == todo[0].name && r.status.Success?
    requires WithoutSkips(job, todo[1..], results + [r], outcome)
    ensures WithoutSkips(job, todo, results, outcome)
  {
    if outcome.Returned? {
      var steps := outcome.result.steps;
      if outcome.result.status.Success? {
        NamesMove(todo, results, r);
        assert steps[|results|] == r;
      } else if outcome.result.status.Failed? {
        var i :| FailedAt(job, todo[1..], results + [r], steps, i);
        FailedLater(job, todo, results, r, steps, i);
      }
    }
  }

  lemma SeenLater(todo: seq<Step>, results: seq<StepResult>, r: StepResult, i: nat)
    requires i + 1 < |todo| && r.name == todo[0].name
    ensures ResultNames(results + [r]) + Names(todo[1..][..i + 1]) == ResultNames(results) + Names(todo[..i + 2])
  {
    assert ResultNames(results + [r]) == ResultNames(results) + [r.name];
    assert Names(todo[..i + 2]) == [r.name] + Names(todo[1..][..i + 1]);
  }

  lemma FailedLater(job: Job, todo: seq<Step>, results: seq<StepResult>, r: StepResult, steps: seq<StepResult>, i: nat)
    requires todo != [] && r.name == todo[0].name && r.status.Success? && FailedAt(job, todo[1..], results + [r], steps, i)
    ensures FailedAt(job, todo, results, steps, i + 1)
  {
    SeenLater(todo, results, r, i);
    assert steps[|results|] == r;
  }

  lemma StopFailsHere(env: Env, s: FlowState, job: Job, todo: seq<Step>, results: seq<StepResult>, r: StepResult)
    requires todo != [] && r.name == todo[0].name && r.status.Failed?
    ensures WithoutSkips(job, todo, results, Stop(env, s, job, todo[0], r, results + [r]).1)
  {
    var outcome := Stop(env, s, job, todo[0], r, results + [r]).1;
    assert ResultNames(results + [r]) == ResultNames(results) + [r.name];
    assert Names(todo[..1]) == [r.name];
    if outcome.Returned? {
      assert outcome.result.steps[..|results| + 1] == results + [r];
      assert FailedAt(job, todo, results, outcome.result.steps, 0);
    }
  }

  lemma {:induction false} LoopSkipsNothing(env: Env, s: FlowState, job: Job, todo: seq<Step>, results: seq<StepResult>)
    requires SkipFree(env) && !s.cancelled && Retriable(todo)
    ensures WithoutSkips(job, todo, results, Loop(env, s, job, todo, results).1)
    decreases |todo|
  {
    if todo != [] {
      var step, s1 := todo[0], Polled(env, s);
      NothingIsSkipped(env, s.clock, step, job.query, Successes(results));
      match Decide(env, s.clock, s1.cancelled, step, job.query, Successes(results)) {
        case Fails =>
        case Waits(reason) =>
        case Skips(reason) =>
        case Goes(query) =>
          TryFromIsJudged(env, s1, step, query, 1, s1.clock);
          TryFromRuns(env, s1, step, query, 1, s1.clock);
          var (s2, r) := RunStep(env, s1, step, query);
          if r.Some? {
            ProceedSkipsNothing(env, s2, job, todo, results, r.value);
          }
      }
    }
  }

  lemma {:induction false} ProceedSkipsNothing(env: Env, s: FlowState, job: Job, todo: seq<Step>, results: seq<StepResult>, r: StepResult)
    requires SkipFree(env) && !s.cancelled && Retriable(todo)
    requires todo != [] && r.name == todo[0].name && r.status == (if Truthy(r.error) then Failed else Success)
    ensures WithoutSkips(job, todo, results, Proceed(env, s, job, todo, results, r, Truthy(r.error)).1)
    decreases |todo|, 0
  {
    var (s1, ok) := Save(env, s, job, r.status, r.error, results + [r]);
    if ok {
      if Truthy(r.error) {
        StopFailsHere(env, s1, job, todo, results, r);
      } else {
        LoopSkipsNothing(env, s1, job, todo[1..], results + [r]);
        StepSucceeded(job, todo, results, r, Loop(env, s1, job, todo[1..], results + [r]).1);
      }
    }
  }

  lemma {:induction false} RunSkipsNothing(env: Env, s: FlowState, op: Op)
    requires SkipFree(env) && !s.cancelled && Accepted(s, op) && Retriable(s.steps)
    ensures var plan := PlanOf(s, op).plan;
            WithoutSkips(plan.job, plan.todo, plan.completed, Perform(env, s, op).1)
  {
    PlanIsRetriable(s, op);
    var plan := PlanOf(s, op).plan;
    ReadyIsPerformed(env, s, op, plan);
    ExecuteSkipsNothing(env, s, plan.job, plan.todo, plan.completed);
  }

  lemma {:induction false} ExecuteSkipsNothing(env: Env, s: FlowState, job: Job, todo: seq<Step>, completed: seq<StepResult>)
    requires SkipFree(env) && !s.cancelled && Retriable(todo)
    ensures WithoutSkips(job, todo, completed, Execute(env, s, job, todo, completed).1)
  {
    var (s1, ok) := Save(env, s, job, Running, None, completed);
    if ok {
      LoopSkipsNothing(env, s1, job, todo, completed);
    }
  }

  // ----- The stored status -----

  /** When nothing is skipped, a run that returns success leaves it stored if and only if there was a step to do. */
  lemma {:induction false} SuccessIsStored(env: Env, s: FlowState, op: Op)
    requires SkipFree(env) && !s.cancelled && Accepted(s, op) && Retriable(s.steps)
    ensures var (s1, outcome) := Perform(env, s, op);
            outcome.Returned? && outcome.result.status.Success? ==>
              && op.runId in s1.records
              && (s1.records[op.runId].status.Success? <==> PlanOf(s, op).plan.todo != [])
  {
    RunSkipsNothing(env, s, op);
    PlanIsRetriable(s, op);
    StoredStatusIsExact(env, s, op);
  }

  ghost predicate Succeeded(results: seq<StepResult>, name: string) {
    exists r :: r in results && r.status.Success? && r.name == name
  }

  /** The results have a success of every step. */
  ghost predicate AllSucceeded(steps: seq<Step>, results: seq<StepResult>) {
    forall x | x in steps :: Succeeded(results, x.name)
  }

  lemma {:induction false} NothingLeftToDo(s: FlowState, runId: string)
    requires Accepted(s, OpResume(runId)) && AllSucceeded(s.steps, GetRun(s, runId).record.steps)
    ensures PlanOf(s, OpResume(runId)).plan.todo == []
  {
    var plan := PlanOf(s, OpResume(runId)).plan;
    if plan.todo != [] {
      var x := plan.todo[0];
      assert x in plan.todo && x in s.steps;
      assert Succeeded(GetRun(s, runId).record.steps, x.name);
      var r :| r in GetRun(s, runId).record.steps && r.status.Success? && r.name == x.name;
      assert r in plan.completed;
      NameOfMember(plan.completed, r);
    }
  }

  /**
   Resuming a run whose every step has succeeded: it is recorded as "running", and if the
   engine is not stopped at that checkpoint it returns success at once and the record stays so.
   */
  lemma {:induction false} ResumingACompleteRun(env: Env, s: FlowState, runId: string)
    requires Accepted(s, OpResume(runId)) && AllSucceeded(s.steps, GetRun(s, runId).record.steps)
    ensures var (s1, outcome) := Perform(env, s, OpResume(runId));
            && runId in s1.records && s1.records[runId].status.Running? && s1.calls == s.calls
            && (outcome.Returned? <==> !env.interrupts(s.clock) && (s.files.None? || SafeId(runId) != ""))
            && (outcome.Returned? ==> outcome.result.status.Success?)
  {
    NothingLeftToDo(s, runId);
  }
}
