/**
 The workflow runner and its run store as objects, proved against the state machine of
 `FlowEngine` and the walks of `FlowGraph`.
 */
module LightFlows {
  import opened FlowGraph
  import opened FlowEngine
  import opened Wrappers

  /** One file per run, named by the safe characters of its id. */
  class JsonLightFlowStore {
    var files: map<string, Record>

    constructor ()
      ensures files == map[]
    {
      files := map[];
    }

    /** False when the id has no safe character; nothing is written then. */
    method SaveRun(runId: string, record: Record) returns (ok: bool)
      modifies this
      ensures ok == (SafeId(runId) != "")
      ensures files == if ok then old(files)[SafeId(runId) := record] else old(files)
    {
      var name := SafeId(runId);
      ok := name != "";
      if ok {
        files := files[name := record];
      }
    }

    method LoadRun(runId: string) returns (r: Lookup)
      ensures r == if SafeId(runId) == "" then Unsafe
                   else if SafeId(runId) in files then Found(files[SafeId(runId)])
                   else Missing
    {
      var name := SafeId(runId);
      if name == "" {
        return Unsafe;
      }
      r := if name in files then Found(files[name]) else Missing;
    }
  }

  class LightFlow {
    var steps: seq<Step>
    const store: JsonLightFlowStore?
    var records: map<string, Record>
    var cancelled: bool
    var clock: nat
    var calls: seq<AgentCall>

    ghost function State(): FlowState
      reads this, store
    {
      FlowState(steps, records, if store == null then None else Some(store.files), cancelled, clock, calls)
    }

    ghost predicate Valid()
      reads this
    {
      Distinct(Names(steps)) && forall x | x in steps :: x.maxRetry >= 1
    }

    constructor (store: JsonLightFlowStore?)
      ensures Valid() && this.store == store && steps == [] && records == map[] && !cancelled && clock == 0 && calls == []
    {
      this.store := store;
      steps, records, cancelled, clock, calls := [], map[], false, 0, [];
    }

    /** False when registration is refused. */
    method Step(step: Step, agentsRun: bool) returns (ok: bool)
      requires Valid()
      modifies this`steps
      ensures Valid() && ok == Admissible(old(steps), step, agentsRun)
      ensures State() == Registered(old(State()), step, agentsRun)
    {
      ok := Admissible(steps, step, agentsRun);
      if ok {
        assert Names(steps + [step]) == Names(steps) + [step.name];
        steps := steps + [step];
      }
    }

    method Cancel()
      modifies this`cancelled
      ensures State() == old(State()).(cancelled := true)
    {
      cancelled := true;
    }

    // ----- Validation and ordering -----

    /** The errors in the order they are found, with the warnings after them when `strict`. */
    method Validate(strict: bool) returns (errors: seq<Issue>, warnings: seq<Issue>)
      ensures warnings == IsolatedUpTo(steps, |steps|)
      ensures errors == Errors(steps) + if strict then warnings else []
    {
      errors, warnings := FindErrors();
      if strict && warnings != [] {
        errors := errors + warnings;
      }
    }

    method FindErrors() returns (errors: seq<Issue>, warnings: seq<Issue>)
      ensures errors == Errors(steps) && warnings == IsolatedUpTo(steps, |steps|)
    {
      var stepsByName := ByName(steps);
      var duplicates := if |stepsByName| != |steps| then [DuplicateNames] else [];
      var unknown, isolated := CheckDependencies(steps, stepsByName);
      errors := CheckCycles(steps, stepsByName, duplicates + unknown);
      warnings := isolated;
    }

    static method CheckDependencies(steps: seq<Step>, stepsByName: Graph) returns (errors: seq<Issue>, warnings: seq<Issue>)
      ensures errors == UnknownUpTo(stepsByName, steps, |steps|) && warnings == IsolatedUpTo(steps, |steps|)
    {
      errors, warnings := [], [];
      for i := 0 to |steps|
        invariant errors == UnknownUpTo(stepsByName, steps, i)
        invariant warnings == IsolatedUpTo(steps, i)
      {
        var step := steps[i];
        ghost var before := errors;
        for k := 0 to |step.dependsOn|
          invariant errors == before + UnknownIn(stepsByName, step, k)
        {
          if step.dependsOn[k] !in stepsByName {
            errors := errors + [UnknownDependency(step.name, step.dependsOn[k])];
          }
        }
        if step.dependsOn == [] && !Referenced(steps, step.name) && |steps| > 1 {
          warnings := warnings + [Isolated(step.name)];
        }
      }
    }

    static method CheckCycles(steps: seq<Step>, stepsByName: Graph, found: seq<Issue>) returns (errors: seq<Issue>)
      requires stepsByName == ByName(steps)
      ensures errors == found + CycleIssues(WalkOf(steps).cycles)
    {
      errors := found;
      var permanent: set<string> := {};
      ghost var names, walk := Names(steps), Walk([], []);
      for i := 0 to |steps|
        invariant VisitAll(stepsByName, names[i..], {}, walk) == VisitAll(stepsByName, names, {}, Walk([], []))
        invariant permanent == SetOf(walk.order)
        invariant errors == found + CycleIssues(walk.cycles)
      {
        assert names[i..][0] == steps[i].name && names[i..][1..] == names[i + 1..];
        assert names[i] in names;
        permanent, errors := VisitForCycles(stepsByName, steps[i].name, {}, permanent, errors, found, walk);
        walk := Visit(stepsByName, steps[i].name, {}, walk);
      }
    }

    /** Visits a step and then what it depends on; a step met again while still open is on a cycle. */
    static method VisitForCycles(g: Graph, name: string, temporary: set<string>, permanent: set<string>, errors: seq<Issue>,
                                 ghost base: seq<Issue>, ghost acc: Walk)
        returns (permanent': set<string>, errors': seq<Issue>)
      requires name in g && permanent == SetOf(acc.order) && errors == base + CycleIssues(acc.cycles)
      ensures permanent' == SetOf(Visit(g, name, temporary, acc).order)
      ensures errors' == base + CycleIssues(Visit(g, name, temporary, acc).cycles)
      decreases g.Keys - temporary
    {
      permanent', errors' := permanent, errors;
      ghost var w := acc;
      if name in permanent {
        return;
      }
      if name in temporary {
        errors' := errors' + [CycleAt(name)];
        w := w.(cycles := w.cycles + [name]);
        return;
      }
      var open := temporary + {name};
      var dependsOn := g[name].dependsOn;
      for i := 0 to |dependsOn|
        invariant VisitAll(g, dependsOn[i..], open, w) == VisitAll(g, dependsOn, open, acc)
        invariant permanent' == SetOf(w.order) && errors' == base + CycleIssues(w.cycles)
      {
        if dependsOn[i] in g {
          permanent', errors' := VisitForCycles(g, dependsOn[i], open, permanent', errors', base, w);
          w := Visit(g, dependsOn[i], open, w);
        }
      }
      permanent' := permanent' + {name};
      w := w.(order := w.order + [name]);
    }

    /** The first error, or every registered step after its dependencies. */
    method OrderedSteps() returns (issue: Option<Issue>, ordered: seq<Step>)
      requires Valid()
      ensures issue == if Errors(steps) == [] then None else Some(Errors(steps)[0])
      ensures issue.None? ==> ordered == Ordered(steps)
    {
      ordered := [];
      var errors, _ := Validate(false);
      if errors != [] {
        return Some(errors[0]), [];
      }
      issue := None;
      RefusalIsExact(steps);
      CycleReportIsExact(steps);
      ordered := PostOrder(steps, ByName(steps));
    }

    static method PostOrder(steps: seq<Step>, stepsByName: Graph) returns (ordered: seq<Step>)
      requires stepsByName == ByName(steps) && WalkOf(steps).cycles == [] && AllKnown(steps)
      ensures ordered == Ordered(steps)
    {
      ordered := [];
      var permanent: set<string> := {};
      ghost var names, walk := Names(steps), Walk([], []);
      for i := 0 to |steps|
        invariant VisitAll(stepsByName, names[i..], {}, walk) == WalkOf(steps) && walk.cycles == []
        invariant permanent == SetOf(walk.order) && InGraph(stepsByName, ordered, walk.order)
      {
        assert names[i..][0] == steps[i].name && names[i..][1..] == names[i + 1..];
        assert names[i] in names;
        permanent, ordered := VisitInOrder(stepsByName, steps[i].name, permanent, ordered, {}, walk);
        walk := Visit(stepsByName, steps[i].name, {}, walk);
      }
      SameInGraph(stepsByName, ordered, Ordered(steps), walk.order);
    }

    /** `ordered` holds the steps of `g` with these names. */
    static ghost predicate InGraph(g: Graph, ordered: seq<Step>, names: seq<string>) {
      |ordered| == |names| && forall i | 0 <= i < |names| :: names[i] in g && ordered[i] == g[names[i]]
    }

    static lemma SameInGraph(g: Graph, ordered: seq<Step>, r: seq<Step>, names: seq<string>)
      requires InGraph(g, ordered, names) && |r| == |names|
      requires forall i | 0 <= i < |names| :: r[i] == g[names[i]]
      ensures ordered == r
    {
    }

    /** The walk of a validated graph needs no marks for open steps: it never meets one. */
    static method VisitInOrder(g: Graph, name: string, permanent: set<string>, ordered: seq<Step>,
                               ghost temporary: set<string>, ghost acc: Walk)
        returns (permanent': set<string>, ordered': seq<Step>)
      requires name in g && permanent == SetOf(acc.order) && InGraph(g, ordered, acc.order)
      requires forall n, d | n in g && d in g[n].dependsOn :: d in g
      requires Visit(g, name, temporary, acc).cycles == acc.cycles
      ensures permanent' == SetOf(Visit(g, name, temporary, acc).order)
      ensures InGraph(g, ordered', Visit(g, name, temporary, acc).order)
      decreases g.Keys - temporary
    {
      permanent', ordered' := permanent, ordered;
      ghost var w := acc;
      if name in permanent {
        return;
      }
      ghost var open := temporary + {name};
      var dependsOn := g[name].dependsOn;
      for i := 0 to |dependsOn|
        invariant VisitAll(g, dependsOn[i..], open, w) == VisitAll(g, dependsOn, open, acc)
        invariant w.cycles == acc.cycles
        invariant permanent' == SetOf(w.order) && InGraph(g, ordered', w.order)
      {
        permanent', ordered' := VisitInOrder(g, dependsOn[i], permanent', ordered', open, w);
        w := Visit(g, dependsOn[i], open, w);
      }
      permanent' := permanent' + {name};
      ordered' := ordered' + [g[name]];
      w := w.(order := w.order + [name]);
    }

    /** Grows the set until no registered step outside it depends on a member. */
    method DownstreamSteps(name: string) returns (downstream: set<string>)
      requires Valid() && name in Names(steps)
      ensures downstream == Downstream(steps, name)
    {
      downstream := {name};
      var changed := true;
      DownstreamIsUpward(steps, name);
      while changed
        invariant name in downstream && downstream <= Downstream(steps, name)
        invariant !changed ==> Upward(steps, downstream)
        decreases Downstream(steps, name) - downstream, changed
      {
        downstream, changed := GrowDownstream(steps, downstream, Downstream(steps, name));
      }
      DownstreamIsLeast(steps, name, downstream);
    }

    /** One pass over the steps. */
    static method GrowDownstream(steps: seq<Step>, before: set<string>, ghost limit: set<string>)
        returns (downstream: set<string>, changed: bool)
      requires before <= limit && Upward(steps, limit)
      ensures before <= downstream <= limit && (changed <==> downstream != before)
      ensures !changed ==> Upward(steps, downstream)
    {
      downstream, changed := before, false;
      for i := 0 to |steps|
        invariant before <= downstream <= limit && (changed <==> downstream != before)
        invariant !changed ==> forall j, d | 0 <= j < i && d in steps[j].dependsOn && d in downstream :: steps[j].name in downstream
      {
        var step := steps[i];
        if step.name !in downstream && exists d | d in step.dependsOn :: d in downstream {
          downstream := downstream + {step.name};
          changed := true;
        }
      }
    }

    // ----- Running one step -----

    method CallAgent(env: Env, step: Step, fallback: bool, query: string) returns (answer: Answer)
      modifies this`clock, this`calls
      ensures State() == Called(old(State()), step, fallback, query)
      ensures answer == Heard(step, fallback, env.agent(old(clock), step.name, fallback, query))
    {
      answer := Heard(step, fallback, env.agent(clock, step.name, fallback, query));
      clock, calls := clock + 1, calls + [AgentCall(step.name, fallback, query)];
    }

    /** Up to `maxRetry` attempts, then the fallback; None when an exception escapes. */
    method RunStep(env: Env, step: Step, query: string) returns (r: Option<StepResult>)
      modifies this`clock, this`calls
      ensures (State(), r) == FlowEngine.RunStep(env, old(State()), step, query)
      ensures r.Some? ==> r.value.status == if Truthy(r.value.error) then Failed else Success
    {
      var started := clock;
      var attempt := 1;
      r := None;
      while attempt <= step.maxRetry
        invariant 1 <= attempt && (attempt == 1 || attempt <= step.maxRetry + 1)
        invariant attempt <= step.maxRetry ==>
          TryFrom(env, State(), step, query, attempt, started) == FlowEngine.RunStep(env, old(State()), step, query)
        invariant attempt == 1 ==> r.None? && State() == old(State())
        invariant attempt > 1 ==> r.Some? && r.value.error.Some? && r.value.attempts == attempt - 1
                                  && r.value.status == if Truthy(r.value.error) then Failed else Success
        invariant attempt > 1 && attempt == step.maxRetry + 1 ==>
          FlowEngine.RunStep(env, old(State()), step, query) ==
          if Truthy(r.value.error) && step.hasFallback then FallBack(env, State(), step, query, attempt - 1, started)
          else (State(), r)
      {
        var answer := CallAgent(env, step, false, query);
        if answer.NoAnswer? {
          return None;
        }
        r := Some(ResultOf(step, answer, attempt, attempt - 1, false, Span(started, clock, query)));
        if answer.error.None? {
          return;
        }
        attempt := attempt + 1;
      }
      if r.Some? && Truthy(r.value.error) && step.hasFallback {
        var answer := CallAgent(env, step, true, query);
        if answer.NoAnswer? {
          return None;
        }
        return Some(ResultOf(step, answer, r.value.attempts + 1, r.value.attempts - 1, true, Span(started, clock, query)));
      }
      if r.None? {
        r := Some(StepResult(step.name, "", Some("step did not run"), 1, Failed, None, 0, false));
      }
    }

    // ----- Checkpoints -----

    /** The results, then every other step as pending. */
    static method WithPending(all: seq<FlowGraph.Step>, results: seq<StepResult>) returns (recordSteps: seq<StepResult>)
      ensures recordSteps == results + PendingOf(all, results)
    {
      recordSteps := results;
      var seen := ResultNames(results);
      assert all[..|all|] == all;
      for i := 0 to |all|
        invariant recordSteps == results + PendingOf(all[..i], results)
      {
        assert all[..i + 1][..i] == all[..i];
        if all[i].name !in seen {
          recordSteps := recordSteps + [PendingResult(all[i])];
        }
      }
    }

    /** Records the run in memory and then in the store; false when the engine stops here. */
    method WriteCheckpoint(env: Env, job: Job, status: Status, error: Option<string>, results: seq<StepResult>) returns (ok: bool)
      modifies this`records, this`clock, store
      ensures (State(), ok) == Save(env, old(State()), job, status, error, results)
    {
      var recordSteps := WithPending(job.all, results);
      var record := Record(job.runId, job.query, status, error, recordSteps);
      assert record == Checkpoint(job, status, error, results);
      ok := PutRecord(env, job.runId, record);
    }

    method PutRecord(env: Env, runId: string, record: Record) returns (ok: bool)
      modifies this`records, this`clock, store
      ensures records == old(records)[runId := record] && clock == old(clock) + 1
      ensures store != null ==> store.files == if SafeId(runId) == "" then old(store.files) else old(store.files)[SafeId(runId) := record]
      ensures ok == ((store == null || SafeId(runId) != "") && !env.interrupts(old(clock)))
    {
      records, clock := records[runId := record], clock + 1;
      ok := true;
      if store != null {
        ok := store.SaveRun(runId, record);
      }
      ok := ok && !env.interrupts(clock - 1);
    }

    /** The steps not reached after a failure that list the failed step or any step seen before it. */
    method RemainingSkippedResults(failed: Step, all: seq<Step>, results: seq<StepResult>) returns (skipped: seq<StepResult>)
      ensures skipped == RemainingSkipped(failed, all, ResultNames(results))
    {
      var seen := ResultNames(results);
      skipped := [];
      assert all[..|all|] == all;
      for i := 0 to |all|
        invariant skipped == RemainingSkipped(failed, all[..i], seen)
      {
        assert all[..i + 1][..i] == all[..i];
        if all[i].name in seen {
          continue;
        }
        if failed.name in all[i].dependsOn || exists d | d in all[i].dependsOn :: d in seen {
          skipped := skipped + [SkippedResult(all[i], "skipped after `" + failed.name + "` failed", Skipped)];
        }
      }
    }

    // ----- Executing -----

    lemma Appended(results: seq<StepResult>, r: StepResult)
      ensures Successes(results + [r]) == Successes(results) + if r.status.Success? then [r] else []
    {
      assert (results + [r])[..|results|] == results;
    }

    /** The opening checkpoint, then the steps of `todo` in turn. */
    method Execute(env: Env, job: Job, todo: seq<Step>, completed: seq<StepResult>) returns (outcome: Outcome)
      requires forall r | r in completed :: r.status.Success?
      modifies this`records, this`clock, this`calls, this`cancelled, store
      ensures (State(), outcome) == FlowEngine.Execute(env, old(State()), job, todo, completed)
    {
      var context, results, final := completed, completed, "";
      SuccessesOfSuccesses(completed);
      var ok := WriteCheckpoint(env, job, Running, None, results);
      if !ok {
        return Raised(if store != null && SafeId(job.runId) == "" then UnsafeRunId else Escaped);
      }
      if results != [] {
        final := results[|results| - 1].content;
      }
      ghost var whole := Loop(env, State(), job, todo, completed);
      for i := 0 to |todo|
        invariant Loop(env, State(), job, todo[i..], results) == whole
        invariant context == Successes(results) && final == FinalContent(results)
      {
        var step := todo[i];
        assert todo[i..][0] == step && todo[i..][1..] == todo[i + 1..];
        var go, stop := ExecuteNext(env, job, step, todo[i..], context, results, final);
        if stop.Some? {
          return stop.value;
        }
        context, results, final := go.context, go.results, go.final;
      }
      outcome := Returned(FlowResult(final, results, None, job.runId, Success));
    }

    /** One turn of the loop: what it goes on with, or how the run ends. */
    method ExecuteNext(env: Env, job: Job, step: FlowGraph.Step, ghost todo: seq<FlowGraph.Step>,
                       context: seq<StepResult>, results: seq<StepResult>, final: string)
        returns (go: Progress, stop: Option<Outcome>)
      requires todo != [] && step == todo[0] && context == Successes(results) && final == FinalContent(results)
      modifies this`records, this`clock, this`calls, this`cancelled, store
      ensures Loop(env, old(State()), job, todo, results) ==
              if stop.Some? then (State(), stop.value) else Loop(env, State(), job, todo[1..], go.results)
      ensures stop.None? ==> go.context == Successes(go.results) && go.final == FinalContent(go.results)
    {
      go, stop := Progress(context, results, final), None;
      var tick := clock;
      clock, cancelled := clock + 1, cancelled || env.cancels(clock);
      var decision := DecideStep(env, tick, step, job.query, context);
      match decision {
        case Fails =>
          stop := Some(Raised(Escaped));
        case Skips(reason) =>
          go, stop := Skip(env, job, step, todo, reason, context, results, final);
        case Waits(reason) =>
          var outcome := Wait(env, job, step, reason, results, final);
          stop := Some(outcome);
        case Goes(query) =>
          go, stop := Go(env, job, step, todo, query, context, results, final);
      }
    }

    /** Runs the step with its query and records what it returned. */
    method Go(env: Env, job: Job, step: FlowGraph.Step, ghost todo: seq<FlowGraph.Step>, query: string,
              context: seq<StepResult>, results: seq<StepResult>, final: string)
        returns (go: Progress, stop: Option<Outcome>)
      requires todo != [] && step == todo[0] && context == Successes(results) && final == FinalContent(results)
      modifies this`records, this`clock, this`calls, store
      ensures var (s, r) := FlowEngine.RunStep(env, old(State()), step, query);
              (if r.None? then (s, Raised(Escaped)) else Proceed(env, s, job, todo, results, r.value, Truthy(r.value.error))) ==
              if stop.Some? then (State(), stop.value) else Loop(env, State(), job, todo[1..], go.results)
      ensures stop.None? ==> go.context == Successes(go.results) && go.final == FinalContent(go.results)
    {
      go, stop := Progress(context, results, final), None;
      var r := RunStep(env, step, query);
      if r.None? {
        return go, Some(Raised(Escaped));
      }
      go, stop := Finish(env, job, step, todo, r.value, context, results, final);
    }

    /** Cancellation, then the query, then the hooks, then approval. */
    method DecideStep(env: Env, tick: nat, step: FlowGraph.Step, query: string, context: seq<StepResult>) returns (decision: Decision)
      ensures decision == Decide(env, tick, cancelled, step, query, context)
    {
      if !cancelled && step.hasCancelIf && env.cancelIf(tick, step.name, context).CancelRaises? {
        return Fails;
      }
      if cancelled || (step.hasCancelIf && env.cancelIf(tick, step.name, context).Cancels?) {
        return Skips("cancelled before execution");
      }
      var built := BuildQuery(env, tick, step, query, context);
      if built.None? {
        return Fails;
      }
      var answer := env.hook(tick, step.name, built.value);
      if answer.HookBlocks? {
        return Skips(Or(answer.reason, "blocked by before_flow_step hook"));
      }
      var sent := if answer.HookRewrites? then answer.query else built.value;
      var approval := CheckApproval(env, tick, step, context);
      if approval.ApprovalFailed? {
        return Fails;
      }
      if approval.NotApproved? {
        return Waits(Or(approval.reason, "approval rejected"));
      }
      decision := Goes(sent);
    }

    method Skip(env: Env, job: Job, step: FlowGraph.Step, ghost todo: seq<FlowGraph.Step>, reason: string,
                context: seq<StepResult>, results: seq<StepResult>, final: string)
        returns (go: Progress, stop: Option<Outcome>)
      requires todo != [] && step == todo[0] && context == Successes(results) && final == FinalContent(results)
      modifies this`records, this`clock, store
      ensures Proceed(env, old(State()), job, todo, results, SkippedResult(step, reason, Skipped), false) ==
              if stop.Some? then (State(), stop.value) else Loop(env, State(), job, todo[1..], go.results)
      ensures stop.None? ==> go.context == Successes(go.results) && go.final == FinalContent(go.results)
    {
      var result := SkippedResult(step, reason, Skipped);
      go, stop := Progress(context, results + [result], final), None;
      Appended(results, result);
      var ok := WriteCheckpoint(env, job, Skipped, result.error, go.results);
      if !ok {
        stop := Some(Raised(Escaped));
      }
    }

    method Wait(env: Env, job: Job, step: FlowGraph.Step, reason: string, results: seq<StepResult>, final: string) returns (outcome: Outcome)
      requires final == FinalContent(results)
      modifies this`records, this`clock, store
      ensures (State(), outcome) == Suspend(env, old(State()), job, results, SkippedResult(step, reason, WaitingApproval))
    {
      var result := SkippedResult(step, reason, WaitingApproval);
      var ok := WriteCheckpoint(env, job, WaitingApproval, result.error, results + [result]);
      outcome := if ok then Returned(FlowResult(final, results + [result], result.error, job.runId, WaitingApproval))
                 else Raised(Escaped);
    }

    /** Records what a step returned; an error ends the run. */
    method Finish(env: Env, job: Job, step: FlowGraph.Step, ghost todo: seq<FlowGraph.Step>, r: StepResult,
                  context: seq<StepResult>, results: seq<StepResult>, final: string)
        returns (go: Progress, stop: Option<Outcome>)
      requires todo != [] && step == todo[0] && context == Successes(results) && final == FinalContent(results)
      requires r.status == if Truthy(r.error) then Failed else Success
      modifies this`records, this`clock, store
      ensures Proceed(env, old(State()), job, todo, results, r, Truthy(r.error)) ==
              if stop.Some? then (State(), stop.value) else Loop(env, State(), job, todo[1..], go.results)
      ensures stop.None? ==> go.context == Successes(go.results) && go.final == FinalContent(go.results)
    {
      go, stop := Progress(context + [r], results + [r], r.content), None;
      Appended(results, r);
      var ok := WriteCheckpoint(env, job, r.status, r.error, go.results);
      if !ok {
        return go, Some(Raised(Escaped));
      }
      if Truthy(r.error) {
        var skipped := RemainingSkippedResults(step, job.all, go.results);
        ok := WriteCheckpoint(env, job, Failed, r.error, go.results + skipped);
        stop := Some(if ok then Returned(FlowResult(r.content, go.results + skipped, r.error, job.runId, Failed))
                     else Raised(Escaped));
      }
    }

    // ----- The operations -----

    method GetRun(runId: string) returns (r: Lookup)
      ensures r == FlowEngine.GetRun(State(), runId)
    {
      if runId in records {
        return Found(records[runId]);
      }
      r := Missing;
      if store != null {
        r := store.LoadRun(runId);
      }
    }

    method Run(env: Env, runId: string, query: string) returns (outcome: Outcome)
      requires Valid()
      modifies this`records, this`clock, this`calls, this`cancelled, store
      ensures Valid() && (State(), outcome) == Perform(env, old(State()), OpRun(runId, query))
    {
      var issue, ordered := OrderedSteps();
      if issue.Some? {
        return Raised(InvalidFlow(issue.value));
      }
      outcome := Execute(env, Job(runId, query, ordered), ordered, []);
    }

    method Resume(env: Env, runId: string) returns (outcome: Outcome)
      requires Valid()
      modifies this`records, this`clock, this`calls, this`cancelled, store
      ensures Valid() && (State(), outcome) == Perform(env, old(State()), OpResume(runId))
    {
      var found := GetRun(runId);
      if !found.Found? {
        return Raised(if found.Missing? then RunNotFound else UnsafeRunId);
      }
      var completed := Kept(found.record.steps, {});
      var issue, ordered := OrderedSteps();
      if issue.Some? {
        return Raised(InvalidFlow(issue.value));
      }
      var todo := Without(ordered, SetOf(ResultNames(completed)));
      outcome := Execute(env, Job(runId, found.record.query, ordered), todo, completed);
    }

    method RerunStep(env: Env, runId: string, stepName: string) returns (outcome: Outcome)
      requires Valid()
      modifies this`records, this`clock, this`calls, this`cancelled, store
      ensures Valid() && (State(), outcome) == Perform(env, old(State()), OpRerun(runId, stepName))
    {
      var problem, record, ordered := FindRerun(runId, stepName);
      if problem.Some? {
        return Raised(problem.value);
      }
      RerunIsExecuted(env, State(), runId, stepName, record);
      outcome := RerunFrom(env, runId, record, stepName, ordered);
    }

    /** Why a re-run is refused, or the record and the order it starts from. */
    method FindRerun(runId: string, stepName: string)
        returns (problem: Option<Problem>, record: Record, ordered: seq<FlowGraph.Step>)
      requires Valid()
      ensures problem.Some? ==> PlanOf(State(), OpRerun(runId, stepName)) == Refused(problem.value)
      ensures problem.None? ==> FlowEngine.GetRun(State(), runId) == Found(record) && Errors(steps) == []
                                && ordered == Ordered(steps) && stepName in Names(ordered)
    {
      record, ordered := Record(runId, "", Pending, None, []), [];
      var found := GetRun(runId);
      if !found.Found? {
        return Some(if found.Missing? then RunNotFound else UnsafeRunId), record, ordered;
      }
      record := found.record;
      var issue;
      issue, ordered := OrderedSteps();
      problem := if issue.Some? then Some(InvalidFlow(issue.value))
                 else if stepName !in Names(ordered) then Some(StepNotFound)
                 else None;
    }

    method RerunFrom(env: Env, runId: string, record: Record, stepName: string, ordered: seq<FlowGraph.Step>) returns (outcome: Outcome)
      requires Valid() && Errors(steps) == [] && ordered == Ordered(steps) && stepName in Names(ordered)
      modifies this`records, this`clock, this`calls, this`cancelled, store
      ensures var plan := RerunPlan(old(State()), runId, record, stepName);
              (State(), outcome) == FlowEngine.Execute(env, old(State()), plan.job, plan.todo, plan.completed)
    {
      OrderedIsDependencyOrder(steps);
      SameNames(steps, ordered);
      var downstream := DownstreamSteps(stepName);
      var completed := Kept(record.steps, downstream);
      outcome := Execute(env, Job(runId, record.query, ordered), Only(ordered, downstream), completed);
    }
  }

  /** What a turn of the loop hands to the next. */
  datatype Progress = Progress(context: seq<StepResult>, results: seq<StepResult>, final: string)
}
