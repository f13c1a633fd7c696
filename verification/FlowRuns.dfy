/**
 What one execution does: which agents it calls and how often, which results it keeps, which
 records it touches, and what it leaves stored when it returns.
 */
module FlowRuns {
  import opened FlowGraph
  import opened FlowEngine
  import opened FlowFreshness
  import opened Wrappers

  // ----- Retries -----

  /** What attempt `j` of a step started at tick `start` hears. */
  function Primary(env: Env, step: Step, query: string, start: nat, j: nat): Answer
    requires j >= 1
  {
    Heard(step, false, env.agent(start + j - 1, step.name, false, query))
  }

  /** The attempts of a result: the first answer without an error, or the last one, then the fallback. */
  ghost predicate Attempts(env: Env, step: Step, query: string, start: nat, r: StepResult) {
    var n := if r.usedFallback then step.maxRetry else r.attempts;
    && 1 <= n <= step.maxRetry
    && (forall j | 1 <= j < n :: Primary(env, step, query, start, j).Answered? && Primary(env, step, query, start, j).error.Some?)
    && var last := Primary(env, step, query, start, n);
       && last.Answered?
       && (r.usedFallback <==> n == step.maxRetry && Truthy(last.error) && step.hasFallback)
       && r.attempts == n + (if r.usedFallback then 1 else 0)
       && r.retryCount == n - 1
       && (!r.usedFallback ==> r.content == last.content && r.error == last.error && (last.error.None? || n == step.maxRetry))
  }

  lemma {:induction false} TryFromCounts(env: Env, s: FlowState, step: Step, query: string, attempt: nat, start: nat)
    requires 1 <= attempt <= step.maxRetry && s.clock == start + attempt - 1
    requires forall j | 1 <= j < attempt :: Primary(env, step, query, start, j).Answered? && Primary(env, step, query, start, j).error.Some?
    ensures var (s1, r) := TryFrom(env, s, step, query, attempt, start);
            && s.calls <= s1.calls && s1.clock == s.clock + (|s1.calls| - |s.calls|)
            && (forall i | |s.calls| <= i < |s1.calls| :: s1.calls[i].step == step.name)
            && (r.Some? ==> Attempts(env, step, query, start, r.value)
                            && |s1.calls| == |s.calls| + r.value.attempts - (attempt - 1))
    decreases step.maxRetry - attempt
  {
    var s1 := Called(s, step, false, query);
    var answer := Heard(step, false, env.agent(s.clock, step.name, false, query));
    assert answer == Primary(env, step, query, start, attempt);
    if answer.Answered? && answer.error.Some? && attempt < step.maxRetry {
      TryFromCounts(env, s1, step, query, attempt + 1, start);
    }
  }

  /**
   A step makes as many agent calls as its result counts attempts; it stops at the first
   answer without an error, and the fallback is asked exactly when `maxRetry` attempts ended
   in a non-empty error.
   */
  lemma RetriesAreExact(env: Env, s: FlowState, step: Step, query: string)
    requires step.maxRetry >= 1
    ensures var (s1, r) := RunStep(env, s, step, query);
            && s.calls <= s1.calls
            && (forall i | |s.calls| <= i < |s1.calls| :: s1.calls[i].step == step.name)
            && (r.Some? ==> Attempts(env, step, query, s.clock, r.value) && |s1.calls| == |s.calls| + r.value.attempts)
  {
    TryFromCounts(env, s, step, query, 1, s.clock);
  }

  function SumAttempts(results: seq<StepResult>): nat {
    if results == [] then 0
    else SumAttempts(results[..|results| - 1]) + results[|results| - 1].attempts
  }

  lemma SumAttemptsOfOne(results: seq<StepResult>, r: StepResult)
    ensures SumAttempts(results + [r]) == SumAttempts(results) + r.attempts
  {
    assert (results + [r])[..|results|] == results;
  }

  lemma {:induction false} SumAttemptsOfIdle(results: seq<StepResult>, more: seq<StepResult>)
    requires forall r | r in more :: r.attempts == 0
    ensures SumAttempts(results + more) == SumAttempts(results)
    decreases |more|
  {
    if more == [] {
      assert results + more == results;
    } else {
      var init := more[..|more| - 1];
      assert results + more == (results + init) + [more[|more| - 1]];
      SumAttemptsOfOne(results + init, more[|more| - 1]);
      SumAttemptsOfIdle(results, init);
    }
  }

  lemma {:induction false} RemainingIsIdle(failed: Step, all: seq<Step>, seen: seq<string>)
    ensures forall r | r in RemainingSkipped(failed, all, seen) :: r.attempts == 0
  {
    if all != [] {
      RemainingIsIdle(failed, all[..|all| - 1], seen);
    }
  }

  // ----- One execution -----

  /** `s1` differs from `s` only in the record of `runId`, the same in memory and under its stored name. */
  ghost predicate OnlyRun(s: FlowState, s1: FlowState, runId: string) {
    && s1.steps == s.steps
    && runId in s1.records
    && s1.records == s.records[runId := s1.records[runId]]
    && s1.files == (if s.files.None? || SafeId(runId) == "" then s.files
                    else Some(s.files.value[SafeId(runId) := s1.records[runId]]))
  }

  lemma OnlyRunComposes(s: FlowState, s1: FlowState, s2: FlowState, runId: string)
    requires OnlyRun(s, s1, runId) && OnlyRun(s1, s2, runId)
    ensures OnlyRun(s, s2, runId)
  {
    assert s1.records[runId := s2.records[runId]] == s.records[runId := s2.records[runId]];
    if s.files.Some? && SafeId(runId) != "" {
      assert s1.files.value[SafeId(runId) := s2.records[runId]] == s.files.value[SafeId(runId) := s2.records[runId]];
    }
  }

  /** The record of the run is for `query` and begins with `results`. */
  ghost predicate Holds(s: FlowState, job: Job, results: seq<StepResult>) {
    job.runId in s.records && s.records[job.runId].query == job.query && results <= s.records[job.runId].steps
  }

  /** Between `s` and `s1`, only agents of steps named in `names` were called. */
  ghost predicate Calls(s: FlowState, s1: FlowState, names: seq<string>) {
    s.calls <= s1.calls && forall i | |s.calls| <= i < |s1.calls| :: s1.calls[i].step in names
  }

  lemma CallsCompose(s: FlowState, s1: FlowState, s2: FlowState, names: seq<string>)
    requires Calls(s, s1, names) && Calls(s1, s2, names)
    ensures Calls(s, s2, names)
  {
    forall i | |s.calls| <= i < |s2.calls|
      ensures s2.calls[i].step in names
    {
      if i < |s1.calls| {
        assert s2.calls[i] == s1.calls[i];
      }
    }
  }

  ghost predicate Effect(s: FlowState, s1: FlowState, job: Job, names: seq<string>, results: seq<StepResult>) {
    OnlyRun(s, s1, job.runId) && Holds(s1, job, results) && Calls(s, s1, names)
  }

  lemma EffectComposes(s: FlowState, s1: FlowState, s2: FlowState, job: Job, names: seq<string>, more: seq<string>,
                       results: seq<StepResult>, results1: seq<StepResult>)
    requires Effect(s, s1, job, names, results) && Effect(s1, s2, job, more, results1)
    requires results <= results1 && forall n | n in more :: n in names
    ensures Effect(s, s2, job, names, results)
  {
    OnlyRunComposes(s, s1, s2, job.runId);
    CallsCompose(s, s1, s2, names);
  }

  lemma SaveEffect(env: Env, s: FlowState, job: Job, names: seq<string>, status: Status, error: Option<string>, results: seq<StepResult>)
    ensures var s1 := Save(env, s, job, status, error, results).0;
            && Effect(s, s1, job, names, results) && Effect(s1, s1, job, names, results)
            && s1.calls == s.calls && s1.records[job.runId].status == status
  {
    var s1 := Save(env, s, job, status, error, results).0;
    if s.files.Some? && SafeId(job.runId) != "" {
      assert s1.files.value[SafeId(job.runId) := s1.records[job.runId]] == s1.files.value;
    }
    assert s1.records[job.runId := s1.records[job.runId]] == s1.records;
  }

  lemma NamesContainTail(todo: seq<Step>)
    requires todo != []
    ensures todo[0].name in Names(todo) && todo[0] in todo
    ensures forall n | n in Names(todo[1..]) :: n in Names(todo)
    ensures forall x | x in todo[1..] :: x in todo
  {
    assert Names(todo) == [todo[0].name] + Names(todo[1..]);
  }

  /** Anything but a checkpoint, seen from the run's records. */
  lemma Elsewhere(s: FlowState, s1: FlowState, job: Job, names: seq<string>, results: seq<StepResult>)
    requires Effect(s, s, job, names, results)
    requires s1 == s.(clock := s1.clock, cancelled := s1.cancelled, calls := s1.calls) && Calls(s, s1, names)
    ensures Effect(s, s1, job, names, results) && Effect(s1, s1, job, names, results)
  {
  }

  lemma {:induction false} LoopEffect(env: Env, s: FlowState, job: Job, todo: seq<Step>, results: seq<StepResult>)
    requires Effect(s, s, job, Names(todo), results)
    requires forall x | x in todo :: x.maxRetry >= 1
    ensures Effect(s, Loop(env, s, job, todo, results).0, job, Names(todo), results)
    decreases |todo|, 1
  {
    if todo != [] {
      NamesContainTail(todo);
      var step, s1 := todo[0], Polled(env, s);
      Elsewhere(s, s1, job, Names(todo), results);
      match Decide(env, s.clock, s1.cancelled, step, job.query, Successes(results)) {
        case Fails =>
        case Skips(reason) =>
          ProceedEffect(env, s, s1, job, todo, results, SkippedResult(step, reason, Skipped), false);
        case Waits(reason) =>
          var r := SkippedResult(step, reason, WaitingApproval);
          SaveEffect(env, s1, job, Names(todo), r.status, r.error, results + [r]);
          EffectComposes(s, s1, Save(env, s1, job, r.status, r.error, results + [r]).0, job, Names(todo), Names(todo), results, results + [r]);
        case Goes(query) =>
          RetriesAreExact(env, s1, step, query);
          TryFromRuns(env, s1, step, query, 1, s1.clock);
          var (s2, r) := RunStep(env, s1, step, query);
          CallsCompose(s, s1, s2, Names(todo));
          Elsewhere(s, s2, job, Names(todo), results);
          if r.Some? {
            ProceedEffect(env, s, s2, job, todo, results, r.value, Truthy(r.value.error));
          }
      }
    }
  }

  lemma {:induction false} ProceedEffect(env: Env, s: FlowState, s1: FlowState, job: Job, todo: seq<Step>,
                                         results: seq<StepResult>, r: StepResult, stops: bool)
    requires todo != [] && forall x | x in todo :: x.maxRetry >= 1
    requires Effect(s, s1, job, Names(todo), results)
    ensures Effect(s, Proceed(env, s1, job, todo, results, r, stops).0, job, Names(todo), results)
    decreases |todo|, 0
  {
    var results1 := results + [r];
    var s2 := Save(env, s1, job, r.status, r.error, results1).0;
    NamesContainTail(todo);
    SaveEffect(env, s1, job, Names(todo), r.status, r.error, results1);
    EffectComposes(s, s1, s2, job, Names(todo), Names(todo), results, results1);
    if stops {
      StopEffect(env, s2, job, Names(todo), todo[0], r, results1);
      EffectComposes(s, s2, Stop(env, s2, job, todo[0], r, results1).0, job, Names(todo), Names(todo), results, results1);
    } else {
      LoopEffect(env, s2, job, todo[1..], results1);
      EffectComposes(s, s2, Loop(env, s2, job, todo[1..], results1).0, job, Names(todo), Names(todo[1..]), results, results1);
    }
  }

  lemma StopEffect(env: Env, s: FlowState, job: Job, names: seq<string>, step: Step, r: StepResult, results: seq<StepResult>)
    requires Effect(s, s, job, names, results)
    ensures Effect(s, Stop(env, s, job, step, r, results).0, job, names, results)
  {
    var all := results + RemainingSkipped(step, job.all, ResultNames(results));
    SaveEffect(env, s, job, names, Failed, r.error, all);
  }

  // ----- What is stored when an execution returns -----

  ghost predicate Recorded(s: FlowState, job: Job, results: seq<StepResult>) {
    job.runId in s.records && s.records[job.runId].steps == results + PendingOf(job.all, results)
  }

  /** The checkpoint in memory is that of `results`, in status `status`, and the calls since `s` are those it counts. */
  ghost predicate Accounted(s: FlowState, s1: FlowState, job: Job, before: seq<StepResult>, results: seq<StepResult>, status: Status) {
    && Recorded(s1, job, results) && s1.records[job.runId].status == status
    && before <= results
    && |s1.calls| - |s.calls| == SumAttempts(results) - SumAttempts(before)
  }

  /** The status stored by the last checkpoint of `results`. */
  function LastStatus(initial: Status, before: seq<StepResult>, results: seq<StepResult>): Status {
    if |results| <= |before| then initial else results[|results| - 1].status
  }

  /** The status stored after a run that returned: a skipped last step or an empty run hides the success. */
  function StoredStatus(initial: Status, before: seq<StepResult>, result: FlowResult): Status {
    if result.status.Success? then LastStatus(initial, before, result.steps) else result.status
  }

  ghost predicate Finished(s: FlowState, s1: FlowState, job: Job, initial: Status, before: seq<StepResult>, outcome: Outcome) {
    outcome.Returned? ==>
      && Accounted(s, s1, job, before, outcome.result.steps, StoredStatus(initial, before, outcome.result))
      && outcome.result.runId == job.runId
  }

  lemma SaveAccounts(env: Env, s: FlowState, s1: FlowState, job: Job, status: Status, error: Option<string>,
                     before: seq<StepResult>, results: seq<StepResult>)
    requires before <= results
    requires |s1.calls| - |s.calls| == SumAttempts(results) - SumAttempts(before)
    ensures Accounted(s, Save(env, s1, job, status, error, results).0, job, before, results, status)
  {
  }

  lemma StepAccounts(env: Env, s: FlowState, step: Step, query: string, results: seq<StepResult>)
    requires step.maxRetry >= 1
    ensures var (s1, r) := RunStep(env, s, step, query);
            r.Some? ==> && |s1.calls| - |s.calls| == r.value.attempts
                        && SumAttempts(results + [r.value]) == SumAttempts(results) + r.value.attempts
                        && r.value.status == (if Truthy(r.value.error) then Failed else Success)
  {
    RetriesAreExact(env, s, step, query);
    TryFromRuns(env, s, step, query, 1, s.clock);
    var r := RunStep(env, s, step, query).1;
    if r.Some? {
      SumAttemptsOfOne(results, r.value);
    }
  }

  lemma {:induction false} LoopFinishes(env: Env, s: FlowState, s0: FlowState, job: Job, initial: Status,
                                        before: seq<StepResult>, todo: seq<Step>, results: seq<StepResult>)
    requires forall x | x in todo :: x.maxRetry >= 1
    requires Accounted(s0, s, job, before, results, LastStatus(initial, before, results))
    ensures var (s1, outcome) := Loop(env, s, job, todo, results);
            Finished(s0, s1, job, initial, before, outcome)
    decreases |todo|, 1
  {
    if todo != [] {
      NamesContainTail(todo);
      var step, s1 := todo[0], Polled(env, s);
      match Decide(env, s.clock, s1.cancelled, step, job.query, Successes(results)) {
        case Fails =>
        case Skips(reason) =>
          ProceedFinishes(env, s0, s1, job, initial, before, todo, results, SkippedResult(step, reason, Skipped), false);
        case Waits(reason) =>
          var r := SkippedResult(step, reason, WaitingApproval);
          SumAttemptsOfOne(results, r);
          SaveAccounts(env, s0, s1, job, r.status, r.error, before, results + [r]);
        case Goes(query) =>
          StepAccounts(env, s1, step, query, results);
          var (s2, r) := RunStep(env, s1, step, query);
          if r.Some? {
            ProceedFinishes(env, s0, s2, job, initial, before, todo, results, r.value, Truthy(r.value.error));
          }
      }
    }
  }

  lemma {:induction false} ProceedFinishes(env: Env, s0: FlowState, s: FlowState, job: Job, initial: Status, before: seq<StepResult>,
                                           todo: seq<Step>, results: seq<StepResult>, r: StepResult, stops: bool)
    requires todo != [] && forall x | x in todo :: x.maxRetry >= 1
    requires before <= results
    requires |s.calls| - |s0.calls| == SumAttempts(results) + r.attempts - SumAttempts(before)
    ensures var (s1, outcome) := Proceed(env, s, job, todo, results, r, stops);
            Finished(s0, s1, job, initial, before, outcome)
    decreases |todo|, 0
  {
    NamesContainTail(todo);
    SumAttemptsOfOne(results, r);
    SaveAccounts(env, s0, s, job, r.status, r.error, before, results + [r]);
    var s1 := Save(env, s, job, r.status, r.error, results + [r]).0;
    if stops {
      StopFinishes(env, s0, s1, job, before, todo[0], r, results + [r]);
    } else {
      LoopFinishes(env, s1, s0, job, initial, before, todo[1..], results + [r]);
    }
  }

  lemma {:induction false} StopFinishes(env: Env, s: FlowState, s1: FlowState, job: Job, before: seq<StepResult>, step: Step, r: StepResult, results: seq<StepResult>)
    requires before <= results
    requires |s1.calls| - |s.calls| == SumAttempts(results) - SumAttempts(before)
    ensures var (s2, outcome) := Stop(env, s1, job, step, r, results);
            outcome.Returned? ==> Accounted(s, s2, job, before, outcome.result.steps, Failed)
  {
    var p := RemainingSkipped(step, job.all, ResultNames(results));
    RemainingIsIdle(step, job.all, ResultNames(results));
    SumAttemptsOfIdle(results, p);
    SaveAccounts(env, s, s1, job, Failed, r.error, before, results + p);
  }

  // ----- Main results about one execution -----

  lemma NameOfMember(results: seq<StepResult>, r: StepResult)
    requires r in results
    ensures r.name in ResultNames(results)
  {
    var i :| 0 <= i < |results| && results[i] == r;
    assert ResultNames(results)[i] == r.name;
  }

  ghost predicate Retriable(steps: seq<Step>) {
    forall x | x in steps :: x.maxRetry >= 1
  }

  lemma {:induction false} PlanIsRetriable(s: FlowState, op: Op)
    requires Accepted(s, op) && Retriable(s.steps)
    ensures Retriable(PlanOf(s, op).plan.todo) && PlanOf(s, op).plan.job.runId == op.runId
  {
  }

  lemma {:induction false} PerformEffect(env: Env, s: FlowState, op: Op)
    requires Accepted(s, op) && Retriable(s.steps)
    ensures var plan := PlanOf(s, op).plan;
            && plan.job.runId == op.runId
            && Effect(s, Perform(env, s, op).0, plan.job, Names(plan.todo), plan.completed)
  {
    PlanIsRetriable(s, op);
    var Plan(job, todo, completed) := PlanOf(s, op).plan;
    SaveEffect(env, s, job, Names(todo), Running, None, completed);
    var s1 := Save(env, s, job, Running, None, completed).0;
    LoopEffect(env, s1, job, todo, completed);
    EffectComposes(s, s1, Loop(env, s1, job, todo, completed).0, job, Names(todo), Names(todo), completed, completed);
  }

  lemma StepOfName(steps: seq<Step>, n: string) returns (x: Step)
    requires n in Names(steps)
    ensures x in steps && x.name == n
  {
    var i :| 0 <= i < |steps| && Names(steps)[i] == n;
    x := steps[i];
  }

  /** Resuming calls no agent of a step recorded as successful, keeps every such result, and touches no other run. */
  lemma {:induction false} ResumeIsConfined(env: Env, s: FlowState, runId: string)
    requires Accepted(s, OpResume(runId)) && Retriable(s.steps)
    ensures var s1 := Perform(env, s, OpResume(runId)).0;
            && OnlyRun(s, s1, runId) && s.calls <= s1.calls
            && forall r | r in GetRun(s, runId).record.steps && r.status.Success? ::
                 && r in s1.records[runId].steps
                 && forall i | |s.calls| <= i < |s1.calls| :: s1.calls[i].step != r.name
  {
    PerformEffect(env, s, OpResume(runId));
    var plan := PlanOf(s, OpResume(runId)).plan;
    forall r | r in GetRun(s, runId).record.steps && r.status.Success?
      ensures r in plan.completed && r.name !in Names(plan.todo)
    {
      assert r in plan.completed;
      NameOfMember(plan.completed, r);
      if r.name in Names(plan.todo) {
        var x := StepOfName(plan.todo, r.name);
      }
    }
  }

  /** Re-running calls only agents of the step and those downstream of it, keeps every success outside, and touches no other run. */
  lemma {:induction false} RerunIsConfined(env: Env, s: FlowState, runId: string, stepName: string)
    requires Accepted(s, OpRerun(runId, stepName)) && Retriable(s.steps)
    ensures var s1 := Perform(env, s, OpRerun(runId, stepName)).0;
            && OnlyRun(s, s1, runId) && s.calls <= s1.calls
            && (forall i | |s.calls| <= i < |s1.calls| :: s1.calls[i].step in Downstream(s.steps, stepName))
            && forall r | r in GetRun(s, runId).record.steps && r.status.Success? && r.name !in Downstream(s.steps, stepName) ::
                 r in s1.records[runId].steps
  {
    PerformEffect(env, s, OpRerun(runId, stepName));
    var plan := PlanOf(s, OpRerun(runId, stepName)).plan;
    forall n | n in Names(plan.todo)
      ensures n in Downstream(s.steps, stepName)
    {
      var x := StepOfName(plan.todo, n);
    }
    forall r | r in GetRun(s, runId).record.steps && r.status.Success? && r.name !in Downstream(s.steps, stepName)
      ensures r in plan.completed
    {
    }
  }

  /**
   When an execution returns, its agent calls are the attempts of the results it added, the
   record holds the returned results and the steps not reached as pending, and its status is
   the returned one except that a run with nothing left to do stays "running" and a run whose
   last step was skipped says so.
   */
  lemma {:induction false} ReturnsAreAccounted(env: Env, s: FlowState, op: Op)
    requires Accepted(s, op) && Retriable(s.steps)
    ensures var (s1, outcome) := Perform(env, s, op);
            Finished(s, s1, PlanOf(s, op).plan.job, Running, PlanOf(s, op).plan.completed, outcome)
  {
    PlanIsRetriable(s, op);
    var Plan(job, todo, completed) := PlanOf(s, op).plan;
    SaveAccounts(env, s, s, job, Running, None, completed, completed);
    LoopFinishes(env, Save(env, s, job, Running, None, completed).0, s, job, Running, completed, todo, completed);
  }

  /** A returned status is the stored one exactly when the run failed or stopped, or its last new step succeeded. */
  ghost predicate StatusTells(s1: FlowState, plan: Plan, outcome: Outcome) {
    outcome.Returned? ==>
      var steps := outcome.result.steps;
      && plan.job.runId in s1.records
      && (s1.records[plan.job.runId].status == outcome.result.status <==>
            !outcome.result.status.Success? || (|steps| > |plan.completed| && steps[|steps| - 1].status.Success?))
  }

  lemma FinishedStatus(s: FlowState, s1: FlowState, plan: Plan, outcome: Outcome)
    requires Finished(s, s1, plan.job, Running, plan.completed, outcome)
    ensures StatusTells(s1, plan, outcome)
  {
  }

  /** The status a run leaves stored. */
  lemma {:induction false} StoredStatusIsExact(env: Env, s: FlowState, op: Op)
    requires Accepted(s, op) && Retriable(s.steps)
    ensures StatusTells(Perform(env, s, op).0, PlanOf(s, op).plan, Perform(env, s, op).1)
  {
    ReturnsAreAccounted(env, s, op);
    FinishedStatus(s, Perform(env, s, op).0, PlanOf(s, op).plan, Perform(env, s, op).1);
  }
}
