/**
 What every checkpoint of every history holds: each registered step once, each success a
 genuine reply of its agent, computed from the current outputs of its dependencies after
 they ended, and memory and store in agreement.
 */
module FlowFreshness {
  import opened FlowGraph
  import opened FlowEngine
  import opened Wrappers

  // ----- What a result, a record and a state promise -----

  /** The content is what the step's agent or fallback replied to the recorded query, without an error. */
  ghost predicate Said(env: Env, r: StepResult)
    requires r.span.Some?
  {
    exists tick, fallback :: SaidAt(env, r, tick, fallback)
  }

  ghost predicate SaidAt(env: Env, r: StepResult, tick: nat, fallback: bool)
    requires r.span.Some?
  {
    var reply := env.agent(tick, r.name, fallback, r.span.value.input);
    reply.AgentReturns? && Normalize(reply.raw).content == r.content && !Truthy(Normalize(reply.raw).error)
  }

  /** A success of step `name` that ended by `tick`. */
  ghost predicate EndedBy(results: seq<StepResult>, name: string, tick: nat) {
    exists e :: e in results && e.name == name && e.status.Success? && e.span.Some? && e.span.value.endedAt <= tick
  }

  ghost predicate QuietHooks(env: Env) {
    forall tick, name, query :: !env.hook(tick, name, query).HookRewrites?
  }

  /** The query was built from the outputs that `results` holds now. */
  ghost predicate Faithful(env: Env, step: Step, query: string, results: seq<StepResult>, input: string) {
    QuietHooks(env) && !step.query.CallableQuery? ==> BuildQuery(env, 0, step, query, Successes(results)) == Some(input)
  }

  /** A step without its own query started after the current results of all its dependencies ended. */
  ghost predicate Fresh(step: Step, results: seq<StepResult>, startedAt: nat) {
    step.query.DefaultQuery? ==> forall d | d in step.dependsOn :: EndedBy(results, d, startedAt)
  }

  /** A step that asks for approval and has nobody to give it never runs. */
  predicate CanBeApproved(step: Step) {
    step.requiresApproval ==> step.hasApprovalHandler
  }

  ghost predicate SuccessOk(env: Env, steps: seq<Step>, clock: nat, query: string, results: seq<StepResult>, r: StepResult) {
    && r.span.Some? && r.span.value.startedAt <= r.span.value.endedAt <= clock
    && Said(env, r)
    && forall s | s in steps && s.name == r.name ::
         && CanBeApproved(s)
         && Fresh(s, results, r.span.value.startedAt) && Faithful(env, s, query, results, r.span.value.input)
  }

  ghost predicate ResultsOk(env: Env, steps: seq<Step>, clock: nat, query: string, results: seq<StepResult>) {
    && Distinct(ResultNames(results))
    && (forall r | r in results :: r.name in Names(steps))
    && (forall r | r in results && r.status.Success? :: SuccessOk(env, steps, clock, query, results, r))
  }

  /** Lists exactly the steps that were registered when it was written. */
  ghost predicate Lists(steps: seq<Step>, results: seq<StepResult>, k: nat) {
    k <= |steps| && forall n :: n in ResultNames(results) <==> n in Names(steps[..k])
  }

  ghost predicate RecordOk(env: Env, steps: seq<Step>, clock: nat, record: Record) {
    && ResultsOk(env, steps, clock, record.query, record.steps)
    && exists k :: Lists(steps, record.steps, k)
  }

  /** The stored record is the one in memory exactly when it carries the same run id. */
  ghost predicate StoreAgrees(records: map<string, Record>, files: map<string, Record>) {
    forall id | id in records && SafeId(id) != "" ::
      SafeId(id) in files && (files[SafeId(id)] == records[id] <==> files[SafeId(id)].runId == id)
  }

  /** The last checkpoint of a run lists every registered step exactly once. */
  ghost predicate Complete(s: FlowState, runId: string) {
    && runId in s.records && Distinct(ResultNames(s.records[runId].steps))
    && Lists(s.steps, s.records[runId].steps, |s.steps|)
  }

  ghost predicate StateOk(env: Env, s: FlowState) {
    && Distinct(Names(s.steps))
    && (forall x | x in s.steps :: x.maxRetry >= 1)
    && (forall id | id in s.records :: s.records[id].runId == id && RecordOk(env, s.steps, s.clock, s.records[id]))
    && (s.files.Some? ==>
          && StoreAgrees(s.records, s.files.value)
          && forall id | id in s.files.value :: RecordOk(env, s.steps, s.clock, s.files.value[id]))
  }

  /** A record in memory or in the store. */
  ghost predicate Checkpointed(s: FlowState, record: Record) {
    || (exists id :: id in s.records && s.records[id] == record)
    || (s.files.Some? && exists k :: k in s.files.value && s.files.value[k] == record)
  }

  lemma CheckpointedIsOk(env: Env, s: FlowState, record: Record)
    requires StateOk(env, s) && Checkpointed(s, record)
    ensures RecordOk(env, s.steps, s.clock, record)
  {
  }

  // ----- Outputs and queries -----

  lemma DistinctNames(results: seq<StepResult>, a: StepResult, b: StepResult)
    requires Distinct(ResultNames(results)) && a in results && b in results && a.name == b.name
    ensures a == b
  {
    var i :| 0 <= i < |results| && results[i] == a;
    var j :| 0 <= j < |results| && results[j] == b;
    assert ResultNames(results)[i] == ResultNames(results)[j];
  }

  lemma {:induction false} SuccessesKeepDistinct(results: seq<StepResult>)
    requires Distinct(ResultNames(results))
    ensures Distinct(ResultNames(Successes(results)))
  {
    if results != [] {
      var init, last := results[..|results| - 1], results[|results| - 1];
      assert ResultNames(results) == ResultNames(init) + [last.name];
      SuccessesKeepDistinct(init);
      forall r | r in Successes(init)
        ensures r.name != last.name
      {
        var i :| 0 <= i < |init| && init[i] == r;
        assert ResultNames(results)[i] == r.name;
      }
    }
  }

  lemma OutputIsItsContent(results: seq<StepResult>, e: StepResult)
    requires Distinct(ResultNames(results)) && e in results && e.status.Success?
    ensures OutputOf(Successes(results), e.name) == Some(e.content)
  {
    var done := Successes(results);
    SuccessesKeepDistinct(results);
    assert e in done;
    var i :| 0 <= i < |done| && done[i] == e;
    assert ResultNames(done)[i] == e.name;
    var output := OutputOf(done, e.name);
    var j :| 0 <= j < |done| && done[j].name == e.name && done[j].content == output.value;
    DistinctNames(done, done[i], done[j]);
  }

  lemma {:induction false} SameOutputsSameLines(a: seq<StepResult>, b: seq<StepResult>, names: seq<string>)
    requires forall n | n in names :: OutputOf(a, n) == OutputOf(b, n)
    ensures DependencyLines(a, names) == DependencyLines(b, names)
    decreases |names|
  {
    if names != [] {
      SameOutputsSameLines(a, b, names[1..]);
    }
  }

  /** What holds of a success among `a` holds among any `b` that keeps the results of its dependencies. */
  lemma SuccessTransfers(env: Env, steps: seq<Step>, clock: nat, query: string,
                         a: seq<StepResult>, b: seq<StepResult>, r: StepResult)
    requires SuccessOk(env, steps, clock, query, a, r)
    requires Distinct(ResultNames(a)) && Distinct(ResultNames(b))
    requires forall s, e | s in steps && s.name == r.name && s.query.DefaultQuery? && e in a && e.status.Success? && e.name in s.dependsOn :: e in b
    ensures SuccessOk(env, steps, clock, query, b, r)
  {
    forall s | s in steps && s.name == r.name
      ensures Fresh(s, b, r.span.value.startedAt)
      ensures Faithful(env, s, query, b, r.span.value.input)
    {
      if s.query.DefaultQuery? {
        forall d | d in s.dependsOn
          ensures EndedBy(b, d, r.span.value.startedAt)
          ensures OutputOf(Successes(a), d) == OutputOf(Successes(b), d)
        {
          assert EndedBy(a, d, r.span.value.startedAt);
          var e :| e in a && e.name == d && e.status.Success? && e.span.Some? && e.span.value.endedAt <= r.span.value.startedAt;
          OutputIsItsContent(a, e);
          OutputIsItsContent(b, e);
        }
        SameOutputsSameLines(Successes(a), Successes(b), s.dependsOn);
      }
    }
  }

  // ----- Running one step -----

  ghost predicate StepRan(env: Env, s: FlowState, step: Step, query: string, startedAt: nat,
                          s1: FlowState, r: Option<StepResult>) {
    && s1 == s.(clock := s1.clock, calls := s1.calls)
    && s.clock < s1.clock
    && (r.Some? ==>
          && r.value.name == step.name && r.value.span == Some(Span(startedAt, s1.clock, query))
          && r.value.status == (if Truthy(r.value.error) then Failed else Success)
          && (r.value.status.Success? ==> Said(env, r.value)))
  }

  lemma {:induction false} TryFromRuns(env: Env, s: FlowState, step: Step, query: string, attempt: nat, startedAt: nat)
    requires 1 <= attempt <= step.maxRetry
    ensures var (s1, r) := TryFrom(env, s, step, query, attempt, startedAt);
            StepRan(env, s, step, query, startedAt, s1, r)
    decreases step.maxRetry - attempt
  {
    var s1 := Called(s, step, false, query);
    var answer := Heard(step, false, env.agent(s.clock, step.name, false, query));
    if answer.Answered? {
      var r := ResultOf(step, answer, attempt, attempt - 1, false, Span(startedAt, s1.clock, query));
      if r.status.Success? {
        assert SaidAt(env, r, s.clock, false);
      }
      if answer.error.Some? && attempt < step.maxRetry {
        TryFromRuns(env, s1, step, query, attempt + 1, startedAt);
      } else if Truthy(answer.error) && step.hasFallback {
        var heard := Heard(step, true, env.agent(s1.clock, step.name, true, query));
        if heard.Answered? {
          var f := FallBack(env, s1, step, query, attempt, startedAt).1.value;
          if f.status.Success? {
            assert SaidAt(env, f, s1.clock, true);
          }
        }
      }
    }
  }

  // ----- Checkpoints -----

  lemma LastIsUnnamed(all: seq<Step>)
    requires all != [] && Distinct(Names(all))
    ensures Distinct(Names(all[..|all| - 1])) && all[|all| - 1].name !in Names(all[..|all| - 1])
    ensures forall n :: n in Names(all) <==> n in Names(all[..|all| - 1]) || n == all[|all| - 1].name
  {
    assert Names(all) == Names(all[..|all| - 1]) + [all[|all| - 1].name];
  }

  lemma {:induction false} PendingCovers(all: seq<Step>, results: seq<StepResult>)
    requires Distinct(Names(all)) && Distinct(ResultNames(results))
    ensures var p := PendingOf(all, results);
            && Distinct(ResultNames(results + p))
            && (forall r | r in p :: r.status.Pending? && r.name in Names(all))
            && (forall n :: n in ResultNames(results + p) <==> n in ResultNames(results) || n in Names(all))
  {
    var p := PendingOf(all, results);
    if all != [] {
      var init, last := all[..|all| - 1], all[|all| - 1];
      PendingCovers(init, results);
      LastIsUnnamed(all);
      var p0 := PendingOf(init, results);
      if last.name !in ResultNames(results) {
        AppendedNames(results + p0, PendingResult(last));
        assert results + p == (results + p0) + [PendingResult(last)];
      } else {
        assert results + p == results + p0;
      }
    } else {
      assert results + p == results;
    }
  }

  lemma {:induction false} ResultsGrow(env: Env, steps: seq<Step>, clock: nat, query: string, results: seq<StepResult>, more: seq<StepResult>)
    requires ResultsOk(env, steps, clock, query, results)
    requires Distinct(ResultNames(results + more))
    requires forall r | r in more :: !r.status.Success? && r.name in Names(steps)
    ensures ResultsOk(env, steps, clock, query, results + more)
  {
    forall r | r in results + more && r.status.Success?
      ensures SuccessOk(env, steps, clock, query, results + more, r)
    {
      SuccessTransfers(env, steps, clock, query, results, results + more, r);
    }
  }

  lemma RecordGrows(env: Env, steps: seq<Step>, clock: nat, later: nat, record: Record)
    requires RecordOk(env, steps, clock, record) && clock <= later
    ensures RecordOk(env, steps, later, record)
  {
  }

  lemma ClockMoves(env: Env, s: FlowState, s1: FlowState)
    requires StateOk(env, s)
    requires s1.steps == s.steps && s1.records == s.records && s1.files == s.files && s.clock <= s1.clock
    ensures StateOk(env, s1)
  {
    forall id | id in s.records
      ensures RecordOk(env, s.steps, s1.clock, s.records[id])
    {
      RecordGrows(env, s.steps, s.clock, s1.clock, s.records[id]);
    }
    if s.files.Some? {
      forall id | id in s.files.value
        ensures RecordOk(env, s.steps, s1.clock, s.files.value[id])
      {
        RecordGrows(env, s.steps, s.clock, s1.clock, s.files.value[id]);
      }
    }
  }

  lemma {:induction false} SavedRecordIsOk(env: Env, steps: seq<Step>, clock: nat, job: Job, status: Status, error: Option<string>, results: seq<StepResult>)
    requires Distinct(Names(steps)) && DependencyOrder(steps, job.all)
    requires ResultsOk(env, steps, clock, job.query, results)
    ensures RecordOk(env, steps, clock, Checkpoint(job, status, error, results))
    ensures Lists(steps, results + PendingOf(job.all, results), |steps|)
  {
    var p := PendingOf(job.all, results);
    PendingCovers(job.all, results);
    SameNames(steps, job.all);
    ResultsGrow(env, steps, clock, job.query, results, p);
    assert steps[..|steps|] == steps;
    forall n | n in ResultNames(results)
      ensures n in Names(steps)
    {
      var i :| 0 <= i < |results| && ResultNames(results)[i] == n;
      assert results[i] in results;
    }
    assert Lists(steps, results + p, |steps|);
  }

  lemma PutAgrees(records: map<string, Record>, files: map<string, Record>, runId: string, record: Record)
    requires StoreAgrees(records, files) && SafeId(runId) != "" && record.runId == runId
    requires forall id | id in records :: records[id].runId == id
    ensures StoreAgrees(records[runId := record], files[SafeId(runId) := record])
  {
  }

  lemma SaveKeepsOk(env: Env, s: FlowState, job: Job, status: Status, error: Option<string>, results: seq<StepResult>)
    requires StateOk(env, s) && DependencyOrder(s.steps, job.all)
    requires ResultsOk(env, s.steps, s.clock, job.query, results)
    ensures StateOk(env, Save(env, s, job, status, error, results).0)
    ensures Complete(Save(env, s, job, status, error, results).0, job.runId)
  {
    var record := Checkpoint(job, status, error, results);
    SavedRecordIsOk(env, s.steps, s.clock, job, status, error, results);
    RecordGrows(env, s.steps, s.clock, s.clock + 1, record);
    ClockMoves(env, s, s.(clock := s.clock + 1));
    if s.files.Some? && SafeId(job.runId) != "" {
      PutAgrees(s.records, s.files.value, job.runId, record);
    }
    SaveIsComplete(env, s, job, status, error, results);
  }

  lemma SaveIsComplete(env: Env, s: FlowState, job: Job, status: Status, error: Option<string>, results: seq<StepResult>)
    requires RecordOk(env, s.steps, s.clock, Checkpoint(job, status, error, results))
    requires Lists(s.steps, results + PendingOf(job.all, results), |s.steps|)
    ensures Complete(Save(env, s, job, status, error, results).0, job.runId)
  {
  }

  // ----- The loop -----

  /** The loop's invariant: what is done is sound and disjoint from what is left to do. */
  ghost predicate Midway(env: Env, s: FlowState, job: Job, todo: seq<Step>, results: seq<StepResult>) {
    && StateOk(env, s)
    && DependencyOrder(s.steps, job.all)
    && ResultsOk(env, s.steps, s.clock, job.query, results)
    && Distinct(Names(todo))
    && (forall x | x in todo :: x in s.steps && x.name !in ResultNames(results))
  }

  lemma AppendedNames(results: seq<StepResult>, r: StepResult)
    requires Distinct(ResultNames(results)) && r.name !in ResultNames(results)
    ensures Distinct(ResultNames(results + [r]))
    ensures forall n :: n in ResultNames(results + [r]) <==> n in ResultNames(results) || n == r.name
  {
    assert ResultNames(results + [r]) == ResultNames(results) + [r.name];
  }

  lemma TodoHead(steps: seq<Step>, todo: seq<Step>)
    requires todo != [] && Distinct(Names(todo)) && forall x | x in todo :: x in steps
    ensures todo[0] in steps && todo[0].name in Names(steps) && Distinct(Names(todo[1..]))
    ensures forall x | x in todo[1..] :: x in todo && x.name != todo[0].name
  {
    assert todo[0] in todo;
    var i :| 0 <= i < |steps| && steps[i] == todo[0];
    assert Names(steps)[i] == todo[0].name;
    TodoTail(todo);
  }

  lemma TodoTail(todo: seq<Step>)
    requires todo != [] && Distinct(Names(todo))
    ensures Distinct(Names(todo[1..]))
    ensures forall x | x in todo[1..] :: x in todo && x.name != todo[0].name
  {
    assert Names(todo) == [todo[0].name] + Names(todo[1..]);
    forall x | x in todo[1..]
      ensures x.name != todo[0].name
    {
      var j :| 0 <= j < |todo[1..]| && todo[1..][j] == x;
      assert Names(todo)[j + 1] == x.name && Names(todo)[0] == todo[0].name;
    }
  }

  /** Appending a result that is no success. */
  lemma {:induction false} AppendOther(env: Env, s: FlowState, job: Job, todo: seq<Step>, results: seq<StepResult>, r: StepResult)
    requires Midway(env, s, job, todo, results) && todo != []
    requires r.name == todo[0].name && !r.status.Success?
    ensures Midway(env, s, job, todo[1..], results + [r])
  {
    TodoHead(s.steps, todo);
    assert todo[0] in todo;
    AppendedNames(results, r);
    ResultsGrow(env, s.steps, s.clock, job.query, results, [r]);
  }

  /** A step that goes ahead with the default query has every dependency among the successes. */
  lemma GoesFromItsInputs(env: Env, tick: nat, cancelled: bool, step: Step, query: string, results: seq<StepResult>)
    requires Decide(env, tick, cancelled, step, query, Successes(results)).Goes?
    ensures var sent := Decide(env, tick, cancelled, step, query, Successes(results)).query;
            && Faithful(env, step, query, results, sent) && CanBeApproved(step)
            && (step.query.DefaultQuery? ==> forall d | d in step.dependsOn :: d in ResultNames(Successes(results)))
  {
  }

  /** Appending a success just computed. */
  lemma {:induction false} AppendSuccess(env: Env, s: FlowState, job: Job, todo: seq<Step>, results: seq<StepResult>,
                      s1: FlowState, r: StepResult)
    requires Midway(env, s, job, todo, results) && todo != []
    requires r.span.Some? && r.status.Success?
    requires StepRan(env, s, todo[0], r.span.value.input, s.clock, s1, Some(r))
    requires Faithful(env, todo[0], job.query, results, r.span.value.input) && CanBeApproved(todo[0])
    requires todo[0].query.DefaultQuery? ==> forall d | d in todo[0].dependsOn :: d in ResultNames(Successes(results))
    ensures Midway(env, s1, job, todo[1..], results + [r])
  {
    TodoHead(s.steps, todo);
    ClockMoves(env, s, s1);
    AppendedNames(results, r);
    var all := results + [r];
    forall x | x in all && x.status.Success?
      ensures SuccessOk(env, s.steps, s1.clock, job.query, all, x)
    {
      if x in results {
        SuccessTransfers(env, s.steps, s.clock, job.query, results, all, x);
      } else {
        forall step | step in s.steps && step.name == x.name
          ensures step == todo[0]
        {
          SameNameSameStep(s.steps, step, todo[0]);
        }
        NewSuccess(env, s.steps, s.clock, job.query, todo[0], results, r);
      }
    }
  }

  lemma {:induction false} NewSuccess(env: Env, steps: seq<Step>, clock: nat, query: string, step: Step, results: seq<StepResult>, r: StepResult)
    requires ResultsOk(env, steps, clock, query, results) && Distinct(ResultNames(results + [r]))
    requires r.span.Some? && clock <= r.span.value.startedAt && r.name !in ResultNames(results)
    requires Faithful(env, step, query, results, r.span.value.input)
    requires step.query.DefaultQuery? ==> forall d | d in step.dependsOn :: d in ResultNames(Successes(results))
    ensures Fresh(step, results + [r], r.span.value.startedAt)
    ensures Faithful(env, step, query, results + [r], r.span.value.input)
  {
    var all := results + [r];
    if step.query.DefaultQuery? {
      forall d | d in step.dependsOn
        ensures EndedBy(all, d, r.span.value.startedAt)
        ensures OutputOf(Successes(results), d) == OutputOf(Successes(all), d)
      {
        var i :| 0 <= i < |Successes(results)| && ResultNames(Successes(results))[i] == d;
        var e := Successes(results)[i];
        assert e in Successes(results);
        assert e in results && e in all && e.name == d;
        OutputIsItsContent(results, e);
        OutputIsItsContent(all, e);
      }
      SameOutputsSameLines(Successes(results), Successes(all), step.dependsOn);
    }
  }

  lemma {:induction false} RemainingAreOthers(failed: Step, all: seq<Step>, seen: seq<string>)
    requires Distinct(Names(all))
    ensures var p := RemainingSkipped(failed, all, seen);
            && Distinct(ResultNames(p))
            && forall r | r in p :: r.status.Skipped? && r.name in Names(all) && r.name !in seen
  {
    if all != [] {
      var init, last := all[..|all| - 1], all[|all| - 1];
      assert Names(all) == Names(init) + [last.name];
      RemainingAreOthers(failed, init, seen);
      var p0, p := RemainingSkipped(failed, init, seen), RemainingSkipped(failed, all, seen);
      if p != p0 {
        assert ResultNames(p) == ResultNames(p0) + [last.name];
        forall i | 0 <= i < |p0|
          ensures ResultNames(p0)[i] != last.name
        {
          assert p0[i] in p0;
        }
      }
    }
  }

  lemma StopKeepsOk(env: Env, s: FlowState, job: Job, step: Step, r: StepResult, results: seq<StepResult>)
    requires StateOk(env, s) && DependencyOrder(s.steps, job.all)
    requires ResultsOk(env, s.steps, s.clock, job.query, results)
    ensures StateOk(env, Stop(env, s, job, step, r, results).0)
    ensures Complete(Stop(env, s, job, step, r, results).0, job.runId)
    ensures ResultsOk(env, s.steps, s.clock, job.query, results + RemainingSkipped(step, job.all, ResultNames(results)))
  {
    var p := RemainingSkipped(step, job.all, ResultNames(results));
    RemainingAreOthers(step, job.all, ResultNames(results));
    SameNames(s.steps, job.all);
    DisjointNames(results, p);
    ResultsGrow(env, s.steps, s.clock, job.query, results, p);
    SaveKeepsOk(env, s, job, Failed, r.error, results + p);
  }

  lemma DisjointNames(a: seq<StepResult>, b: seq<StepResult>)
    requires Distinct(ResultNames(a)) && Distinct(ResultNames(b)) && forall r | r in b :: r.name !in ResultNames(a)
    ensures Distinct(ResultNames(a + b))
  {
    assert ResultNames(a + b) == ResultNames(a) + ResultNames(b);
    forall i | 0 <= i < |b|
      ensures ResultNames(b)[i] !in ResultNames(a)
    {
      assert b[i] in b;
    }
  }

  lemma {:induction false} SaveKeepsMidway(env: Env, s: FlowState, job: Job, todo: seq<Step>, status: Status, error: Option<string>, results: seq<StepResult>)
    requires Midway(env, s, job, todo, results)
    ensures Midway(env, Save(env, s, job, status, error, results).0, job, todo, results)
    ensures Complete(Save(env, s, job, status, error, results).0, job.runId)
  {
    SaveKeepsOk(env, s, job, status, error, results);
    LaterIsMidway(env, s, Save(env, s, job, status, error, results).0, job, todo, results);
  }

  lemma {:induction false} LaterIsMidway(env: Env, s: FlowState, s1: FlowState, job: Job, todo: seq<Step>, results: seq<StepResult>)
    requires Midway(env, s, job, todo, results) && StateOk(env, s1) && s1.steps == s.steps && s1.clock >= s.clock
    ensures Midway(env, s1, job, todo, results)
  {
  }

  lemma PollKeepsMidway(env: Env, s: FlowState, job: Job, todo: seq<Step>, results: seq<StepResult>)
    requires Midway(env, s, job, todo, results)
    ensures Midway(env, Polled(env, s), job, todo, results)
  {
    ClockMoves(env, s, Polled(env, s));
  }

  /** Running the next step, and recording what it returned. */
  lemma GoingKeepsMidway(env: Env, tick: nat, s: FlowState, job: Job, todo: seq<Step>, results: seq<StepResult>)
    requires Midway(env, s, job, todo, results) && todo != []
    requires Decide(env, tick, s.cancelled, todo[0], job.query, Successes(results)).Goes?
    ensures var query := Decide(env, tick, s.cancelled, todo[0], job.query, Successes(results)).query;
            var (s1, r) := RunStep(env, s, todo[0], query);
            && StateOk(env, s1) && s1 == s.(clock := s1.clock, calls := s1.calls)
            && (r.Some? ==>
                  && Midway(env, s1, job, todo[1..], results + [r.value])
                  && r.value.status == (if Truthy(r.value.error) then Failed else Success))
  {
    var step := todo[0];
    var query := Decide(env, tick, s.cancelled, step, job.query, Successes(results)).query;
    GoesFromItsInputs(env, tick, s.cancelled, step, job.query, results);
    assert step in todo;
    TryFromRuns(env, s, step, query, 1, s.clock);
    var (s1, r) := RunStep(env, s, step, query);
    ClockMoves(env, s, s1);
    if r.Some? {
      if r.value.status.Success? {
        AppendSuccess(env, s, job, todo, results, s1, r.value);
      } else {
        AppendOther(env, s1, job, todo, results, r.value);
      }
    }
  }

  lemma {:induction false} SuspendKeepsOk(env: Env, s: FlowState, job: Job, todo: seq<Step>, results: seq<StepResult>, r: StepResult)
    requires Midway(env, s, job, todo, results) && todo != [] && r.name == todo[0].name && !r.status.Success?
    ensures StateOk(env, Suspend(env, s, job, results, r).0)
    ensures Complete(Suspend(env, s, job, results, r).0, job.runId)
  {
    AppendOther(env, s, job, todo, results, r);
    SaveKeepsMidway(env, s, job, todo[1..], r.status, r.error, results + [r]);
  }

  lemma {:induction false} LoopKeepsOk(env: Env, s: FlowState, job: Job, todo: seq<Step>, results: seq<StepResult>)
    requires Midway(env, s, job, todo, results) && Complete(s, job.runId)
    ensures StateOk(env, Loop(env, s, job, todo, results).0)
    ensures Complete(Loop(env, s, job, todo, results).0, job.runId)
    decreases |todo|, 2
  {
    if todo != [] {
      var step, s1 := todo[0], Polled(env, s);
      PollKeepsMidway(env, s, job, todo, results);
      match Decide(env, s.clock, s1.cancelled, step, job.query, Successes(results)) {
        case Fails =>
        case Skips(reason) => SkipKeepsOk(env, s1, job, todo, results, reason);
        case Waits(reason) => SuspendKeepsOk(env, s1, job, todo, results, SkippedResult(step, reason, WaitingApproval));
        case Goes(query) => GoKeepsOk(env, s.clock, s1, job, todo, results, query);
      }
    }
  }

  lemma {:induction false} SkipKeepsOk(env: Env, s: FlowState, job: Job, todo: seq<Step>, results: seq<StepResult>, reason: string)
    requires Midway(env, s, job, todo, results) && todo != []
    ensures var r := SkippedResult(todo[0], reason, Skipped);
            && StateOk(env, Proceed(env, s, job, todo, results, r, false).0)
            && Complete(Proceed(env, s, job, todo, results, r, false).0, job.runId)
    decreases |todo|, 1
  {
    var r := SkippedResult(todo[0], reason, Skipped);
    AppendOther(env, s, job, todo, results, r);
    ProceedKeepsOk(env, s, job, todo, results, r, false);
  }

  lemma {:induction false} GoKeepsOk(env: Env, tick: nat, s: FlowState, job: Job, todo: seq<Step>, results: seq<StepResult>, query: string)
    requires Midway(env, s, job, todo, results) && Complete(s, job.runId) && todo != []
    requires Decide(env, tick, s.cancelled, todo[0], job.query, Successes(results)) == Goes(query)
    ensures var (s1, r) := RunStep(env, s, todo[0], query);
            var s2 := if r.None? then s1 else Proceed(env, s1, job, todo, results, r.value, Truthy(r.value.error)).0;
            StateOk(env, s2) && Complete(s2, job.runId)
    decreases |todo|, 1
  {
    GoingKeepsMidway(env, tick, s, job, todo, results);
    var (s1, r) := RunStep(env, s, todo[0], query);
    if r.Some? {
      ProceedKeepsOk(env, s1, job, todo, results, r.value, Truthy(r.value.error));
    }
  }

  lemma {:induction false} ProceedKeepsOk(env: Env, s: FlowState, job: Job, todo: seq<Step>, results: seq<StepResult>, r: StepResult, stops: bool)
    requires todo != [] && Midway(env, s, job, todo[1..], results + [r])
    ensures StateOk(env, Proceed(env, s, job, todo, results, r, stops).0)
    ensures Complete(Proceed(env, s, job, todo, results, r, stops).0, job.runId)
    decreases |todo|, 0
  {
    SaveKeepsMidway(env, s, job, todo[1..], r.status, r.error, results + [r]);
    var s1 := Save(env, s, job, r.status, r.error, results + [r]).0;
    StopKeepsOk(env, s1, job, todo[0], r, results + [r]);
    LoopKeepsOk(env, s1, job, todo[1..], results + [r]);
  }

  // ----- The operations -----

  lemma {:induction false} WithoutKeepsDistinct(steps: seq<Step>, names: set<string>)
    requires Distinct(Names(steps))
    ensures Distinct(Names(Without(steps, names)))
  {
    if steps != [] {
      var init, last := steps[..|steps| - 1], steps[|steps| - 1];
      assert Names(steps) == Names(init) + [last.name];
      WithoutKeepsDistinct(init, names);
      forall i | 0 <= i < |Without(init, names)|
        ensures Names(Without(init, names))[i] != last.name
      {
        var x := Without(init, names)[i];
        assert x in Without(init, names);
        assert x in init;
        var j :| 0 <= j < |init| && init[j] == x;
        assert Names(steps)[j] == x.name;
      }
    }
  }

  lemma {:induction false} OnlyKeepsDistinct(steps: seq<Step>, names: set<string>)
    requires Distinct(Names(steps))
    ensures Distinct(Names(Only(steps, names)))
  {
    if steps != [] {
      var init, last := steps[..|steps| - 1], steps[|steps| - 1];
      assert Names(steps) == Names(init) + [last.name];
      OnlyKeepsDistinct(init, names);
      forall i | 0 <= i < |Only(init, names)|
        ensures Names(Only(init, names))[i] != last.name
      {
        var x := Only(init, names)[i];
        assert x in Only(init, names);
        assert x in init;
        var j :| 0 <= j < |init| && init[j] == x;
        assert Names(steps)[j] == x.name;
      }
    }
  }

  lemma {:induction false} KeptIsDistinct(results: seq<StepResult>, names: set<string>)
    requires Distinct(ResultNames(results))
    ensures Distinct(ResultNames(Kept(results, names)))
  {
    if results != [] {
      var init, last := results[..|results| - 1], results[|results| - 1];
      assert ResultNames(results) == ResultNames(init) + [last.name];
      KeptIsDistinct(init, names);
      forall i | 0 <= i < |Kept(init, names)|
        ensures ResultNames(Kept(init, names))[i] != last.name
      {
        var x := Kept(init, names)[i];
        assert x in Kept(init, names);
        assert x in init;
        var j :| 0 <= j < |init| && init[j] == x;
        assert ResultNames(results)[j] == x.name;
      }
    }
  }

  /** Dropping an upward closed set of steps leaves a sound set of successes. */
  lemma {:induction false} KeptIsOk(env: Env, steps: seq<Step>, clock: nat, query: string, results: seq<StepResult>, names: set<string>)
    requires ResultsOk(env, steps, clock, query, results) && Upward(steps, names)
    ensures ResultsOk(env, steps, clock, query, Kept(results, names))
  {
    var kept := Kept(results, names);
    KeptIsDistinct(results, names);
    forall r | r in kept
      ensures SuccessOk(env, steps, clock, query, kept, r)
    {
      forall s, e | s in steps && s.name == r.name && e in results && e.status.Success? && e.name in s.dependsOn
        ensures e in kept
      {
        var i :| 0 <= i < |steps| && steps[i] == s;
      }
      SuccessTransfers(env, steps, clock, query, results, kept, r);
    }
  }

  lemma FoundIsOk(env: Env, s: FlowState, runId: string)
    requires StateOk(env, s) && GetRun(s, runId).Found?
    ensures RecordOk(env, s.steps, s.clock, GetRun(s, runId).record)
  {
  }

  lemma {:induction false} ResumeStartsSound(env: Env, s: FlowState, runId: string, record: Record)
    requires StateOk(env, s) && Errors(s.steps) == [] && RecordOk(env, s.steps, s.clock, record)
    ensures var plan := ResumePlan(s, runId, record); Midway(env, s, plan.job, plan.todo, plan.completed)
  {
    var completed := Kept(record.steps, {});
    OrderedIsDependencyOrder(s.steps);
    KeptIsOk(env, s.steps, s.clock, record.query, record.steps, {});
    WithoutKeepsDistinct(Ordered(s.steps), SetOf(ResultNames(completed)));
  }

  lemma {:induction false} RerunStartsSound(env: Env, s: FlowState, runId: string, record: Record, stepName: string)
    requires StateOk(env, s) && Errors(s.steps) == [] && RecordOk(env, s.steps, s.clock, record)
    requires stepName in Names(Ordered(s.steps))
    ensures var plan := RerunPlan(s, runId, record, stepName); Midway(env, s, plan.job, plan.todo, plan.completed)
  {
    var downstream := Downstream(s.steps, stepName);
    OrderedIsDependencyOrder(s.steps);
    SameNames(s.steps, Ordered(s.steps));
    DownstreamIsUpward(s.steps, stepName);
    KeptIsOk(env, s.steps, s.clock, record.query, record.steps, downstream);
    OnlyKeepsDistinct(Ordered(s.steps), downstream);
    var completed := Kept(record.steps, downstream);
    forall n | n in ResultNames(completed)
      ensures n !in downstream
    {
      var i :| 0 <= i < |completed| && ResultNames(completed)[i] == n;
      assert completed[i] in completed;
    }
  }

  lemma {:induction false} PlanStartsSound(env: Env, s: FlowState, op: Op)
    requires StateOk(env, s) && Accepted(s, op)
    ensures var plan := PlanOf(s, op).plan; Midway(env, s, plan.job, plan.todo, plan.completed)
  {
    if op.OpRun? {
      OrderedIsDependencyOrder(s.steps);
    } else {
      FoundIsOk(env, s, op.runId);
      if op.OpResume? {
        ResumeStartsSound(env, s, op.runId, GetRun(s, op.runId).record);
      } else {
        RerunStartsSound(env, s, op.runId, GetRun(s, op.runId).record, op.stepName);
      }
    }
  }

  lemma {:induction false} PerformKeepsOk(env: Env, s: FlowState, op: Op)
    requires StateOk(env, s) && Executes(op)
    ensures StateOk(env, Perform(env, s, op).0)
    ensures PlanOf(s, op).Ready? ==> Complete(Perform(env, s, op).0, op.runId)
  {
    if PlanOf(s, op).Ready? {
      var Plan(job, todo, completed) := PlanOf(s, op).plan;
      PlanStartsSound(env, s, op);
      ExecuteKeepsOk(env, s, job, todo, completed);
    }
  }

  lemma ExecuteKeepsOk(env: Env, s: FlowState, job: Job, todo: seq<Step>, completed: seq<StepResult>)
    requires Midway(env, s, job, todo, completed)
    ensures StateOk(env, Execute(env, s, job, todo, completed).0)
    ensures Complete(Execute(env, s, job, todo, completed).0, job.runId)
  {
    SaveKeepsMidway(env, s, job, todo, Running, None, completed);
    LoopKeepsOk(env, Save(env, s, job, Running, None, completed).0, job, todo, completed);
  }

  lemma RegisterKeepsOk(env: Env, s: FlowState, step: Step, agentsRun: bool)
    requires StateOk(env, s)
    ensures StateOk(env, Registered(s, step, agentsRun))
  {
    if Admissible(s.steps, step, agentsRun) {
      var s1 := Registered(s, step, agentsRun);
      assert Names(s1.steps) == Names(s.steps) + [step.name];
      forall record | RecordOk(env, s.steps, s.clock, record)
        ensures RecordOk(env, s1.steps, s.clock, record)
      {
        var k: nat :| Lists(s.steps, record.steps, k);
        assert s1.steps[..k] == s.steps[..k];
        assert Lists(s1.steps, record.steps, k);
        forall r | r in record.steps && r.status.Success?
          ensures SuccessOk(env, s1.steps, s.clock, record.query, record.steps, r)
        {
          assert r.name in Names(s.steps);
        }
      }
    }
  }

  // ----- Main results -----

  /** No operation, however it ends, leaves an unsound checkpoint behind. */
  lemma {:induction false} EveryOperationKeepsOk(env: Env, s: FlowState, op: Op)
    requires StateOk(env, s)
    ensures StateOk(env, After(env, s, op))
  {
    match op
    case OpRegister(step, agentsRun) => RegisterKeepsOk(env, s, step, agentsRun);
    case OpCancel => ClockMoves(env, s, s.(cancelled := true));
    case OpRestart =>
    case _ => PerformKeepsOk(env, s, op);
  }

  lemma {:induction false} HistoriesAreOk(env: Env, s: FlowState, ops: seq<Op>)
    requires StateOk(env, s)
    ensures StateOk(env, AfterAll(env, s, ops))
    decreases |ops|
  {
    if ops != [] {
      EveryOperationKeepsOk(env, s, ops[0]);
      HistoriesAreOk(env, After(env, s, ops[0]), ops[1..]);
    }
  }
}
