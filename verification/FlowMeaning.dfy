/**
 A workflow of deterministic agents has a meaning by recursion on its dependencies, and
 every success ever recorded has that meaning.
 */
module FlowMeaning {
  import opened FlowGraph
  import opened FlowEngine
  import opened FlowFreshness
  import opened FlowRuns
  import opened FlowHistories
  import opened Wrappers

  type Reply = (string, string) -> string

  /** Whenever the agent of `name` answers `query` without an error, the answer is `f(name, query)`. */
  ghost predicate Steady(env: Env, f: Reply) {
    forall tick, name, fallback, query ::
      var reply := env.agent(tick, name, fallback, query);
      reply.AgentReturns? && !Truthy(Normalize(reply.raw).error) ==> Normalize(reply.raw).content == f(name, query)
  }

  ghost predicate DependenciesFirst(all: seq<Step>) {
    forall i, d | 0 <= i < |all| && d in all[i].dependsOn :: d in Names(all)[..i]
  }

  /** Where a name stands among the first `bound` steps. */
  ghost function Position(all: seq<Step>, name: string, bound: nat): (j: nat)
    requires bound <= |all| && name in Names(all)[..bound]
    ensures j < bound && Names(all)[j] == name && all[j].name == name
  {
    var j: nat :| j < bound && Names(all)[j] == name;
    j
  }

  /** The output of step `i` of a workflow for `query`, by recursion on its dependencies. */
  ghost function Meaning(f: Reply, all: seq<Step>, query: string, i: nat): string
    requires DependenciesFirst(all) && i < |all|
    decreases i, |all[i].dependsOn| + 1
  {
    var step := all[i];
    f(step.name,
      match step.query
      case ConstantQuery(text) => text
      case CallableQuery => ""
      case DefaultQuery =>
        if step.dependsOn == [] then query
        else query + OutputsHeading + MeaningLines(f, all, query, i, step.dependsOn))
  }

  ghost function MeaningLines(f: Reply, all: seq<Step>, query: string, i: nat, names: seq<string>): string
    requires DependenciesFirst(all) && i <= |all| && forall n | n in names :: n in Names(all)[..i]
    decreases i, |names|
  {
    if names == [] then ""
    else
      assert names[0] in names;
      names[0] + ": " + Meaning(f, all, query, Position(all, names[0], i)) +
      (if |names| == 1 then "" else "\n" + MeaningLines(f, all, query, i, names[1..]))
  }

  /** A deterministic workflow, and a sound set of its results. */
  ghost predicate Determined(env: Env, f: Reply, steps: seq<Step>, all: seq<Step>, clock: nat, query: string, results: seq<StepResult>) {
    && Steady(env, f) && QuietHooks(env) && (forall s | s in steps :: !s.query.CallableQuery?)
    && DependencyOrder(steps, all) && ResultsOk(env, steps, clock, query, results)
  }

  lemma SuccessFacts(env: Env, f: Reply, steps: seq<Step>, all: seq<Step>, clock: nat, query: string,
                     results: seq<StepResult>, r: StepResult, step: Step)
    requires Determined(env, f, steps, all, clock, query, results)
    requires r in results && r.status.Success? && step in all && step.name == r.name
    ensures r.span.Some? && r.content == f(r.name, r.span.value.input)
    ensures BuildQuery(env, 0, step, query, Successes(results)) == Some(r.span.value.input)
    ensures step.query.DefaultQuery? ==> forall d | d in step.dependsOn :: d in ResultNames(Successes(results))
  {
    assert SuccessOk(env, steps, clock, query, results, r);
    var tick, fallback :| SaidAt(env, r, tick, fallback);
    assert Fresh(step, results, r.span.value.startedAt) && Faithful(env, step, query, results, r.span.value.input);
    if step.query.DefaultQuery? {
      forall d | d in step.dependsOn
        ensures d in ResultNames(Successes(results))
      {
        assert EndedBy(results, d, r.span.value.startedAt);
        var e :| e in results && e.name == d && e.status.Success?;
        NameOfMember(Successes(results), e);
      }
    }
  }

  lemma {:induction false} SuccessHasMeaning(env: Env, f: Reply, steps: seq<Step>, all: seq<Step>, clock: nat, query: string,
                                             results: seq<StepResult>, r: StepResult, i: nat)
    requires Determined(env, f, steps, all, clock, query, results)
    requires r in results && r.status.Success? && i < |all| && all[i].name == r.name
    ensures r.content == Meaning(f, all, query, i)
    decreases i, |all[i].dependsOn| + 1
  {
    var step := all[i];
    SuccessFacts(env, f, steps, all, clock, query, results, r, step);
    if step.query.DefaultQuery? && step.dependsOn != [] {
      LinesHaveMeaning(env, f, steps, all, clock, query, results, step.dependsOn, i);
    }
  }

  lemma {:induction false} LinesHaveMeaning(env: Env, f: Reply, steps: seq<Step>, all: seq<Step>, clock: nat, query: string,
                                            results: seq<StepResult>, names: seq<string>, i: nat)
    requires Determined(env, f, steps, all, clock, query, results)
    requires i <= |all| && forall n | n in names :: n in Names(all)[..i] && n in ResultNames(Successes(results))
    ensures DependencyLines(Successes(results), names) == Some(MeaningLines(f, all, query, i, names))
    decreases i, |names|
  {
    if names != [] {
      assert names[0] in names;
      assert forall n | n in names[1..] :: n in names;
      LinesHaveMeaning(env, f, steps, all, clock, query, results, names[1..], i);
      OutputHasMeaning(env, f, steps, all, clock, query, results, names[0], i);
    }
  }

  lemma {:induction false} OutputHasMeaning(env: Env, f: Reply, steps: seq<Step>, all: seq<Step>, clock: nat, query: string,
                                            results: seq<StepResult>, name: string, i: nat)
    requires Determined(env, f, steps, all, clock, query, results)
    requires i <= |all| && name in Names(all)[..i] && name in ResultNames(Successes(results))
    ensures OutputOf(Successes(results), name) == Some(Meaning(f, all, query, Position(all, name, i)))
    decreases i, 0
  {
    var done := Successes(results);
    var k :| 0 <= k < |done| && ResultNames(done)[k] == name;
    var e := done[k];
    assert e in done;
    OutputIsItsContent(results, e);
    SuccessHasMeaning(env, f, steps, all, clock, query, results, e, Position(all, name, i));
  }

  /**
   With deterministic agents, hooks that leave queries alone and no callable queries, every
   success in every checkpoint of every history, in memory or in the store, is the meaning of
   its step for the query of its record, whatever failed, stopped, was resumed, re-run or lost
   in a restart before.
   */
  lemma {:induction false} EverySuccessHasItsMeaning(env: Env, f: Reply, stored: bool, ops: seq<Op>, record: Record, r: StepResult, i: nat)
    requires Steady(env, f) && QuietHooks(env)
    requires Checkpointed(Reached(env, stored, ops), record) && r in record.steps && r.status.Success?
    requires var s := Reached(env, stored, ops);
             && Errors(s.steps) == [] && (forall x | x in s.steps :: !x.query.CallableQuery?)
             && i < |Ordered(s.steps)| && Ordered(s.steps)[i].name == r.name
    ensures var s := Reached(env, stored, ops);
            && DependenciesFirst(Ordered(s.steps))
            && r.content == Meaning(f, Ordered(s.steps), record.query, i)
  {
    EveryHistoryIsOk(env, stored, ops);
    var s := Reached(env, stored, ops);
    CheckpointedIsOk(env, s, record);
    OrderedIsDependencyOrder(s.steps);
    SuccessHasMeaning(env, f, s.steps, Ordered(s.steps), s.clock, record.query, record.steps, r, i);
  }
}
