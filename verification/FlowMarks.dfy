/**
 The steps marked as skipped after a failure, and when the marks are those of the steps that
 depend on the failed one.
 */
module FlowMarks {
  import opened FlowGraph
  import opened FlowEngine
  import opened FlowFreshness
  import opened FlowResumption
  import opened FlowStatuses
  import opened Wrappers

  /** After a failure a step not reached is marked "skipped" exactly when it lists the failed step or any step seen before it. */
  lemma {:induction false} MarkedExactly(failed: Step, all: seq<Step>, seen: seq<string>, n: string)
    requires Distinct(Names(all))
    ensures n in ResultNames(RemainingSkipped(failed, all, seen)) <==>
            n !in seen && exists x :: x in all && x.name == n && (failed.name in x.dependsOn || exists d :: d in x.dependsOn && d in seen)
  {
    if all != [] {
      var init, last := all[..|all| - 1], all[|all| - 1];
      assert all == init + [last];
      assert Names(all) == Names(init) + [last.name];
      MarkedExactly(failed, init, seen, n);
      var p, p0 := RemainingSkipped(failed, all, seen), RemainingSkipped(failed, init, seen);
      if p != p0 {
        assert ResultNames(p) == ResultNames(p0) + [last.name];
      }
    }
  }

  // ----- Positions in the execution order -----

  predicate Lists(order: seq<Step>, k: nat, j: nat)
    requires k < |order| && j < |order|
  {
    order[j].name in order[k].dependsOn
  }

  /** An execution order: each step once, after its dependencies, all of which are in it. */
  ghost predicate InOrder(steps: seq<Step>, order: seq<Step>) {
    && Distinct(Names(order))
    && (forall k | 0 <= k < |order| :: order[k].name in ByName(steps) && ByName(steps)[order[k].name] == order[k])
    && (forall k, d | 0 <= k < |order| && d in order[k].dependsOn :: d in Names(order))
    && (forall k, j | 0 <= k < |order| && 0 <= j < |order| && Lists(order, k, j) :: j < k)
  }

  lemma {:induction false} OrderedIsInOrder(steps: seq<Step>)
    requires Registrable(steps) && Errors(steps) == []
    ensures InOrder(steps, Ordered(steps))
  {
    var order := Ordered(steps);
    OrderedIsDependencyOrder(steps);
    forall k | 0 <= k < |order|
      ensures order[k].name in ByName(steps) && ByName(steps)[order[k].name] == order[k]
    {
      assert order[k] in order;
      var i :| 0 <= i < |steps| && steps[i] == order[k];
      ByNameFindsEach(steps, i);
    }
    forall k, j | 0 <= k < |order| && 0 <= j < |order| && Lists(order, k, j)
      ensures j < k
    {
      ListedIsBefore(order, k, j);
    }
    forall k, d | 0 <= k < |order| && d in order[k].dependsOn
      ensures d in Names(order)
    {
      assert d in Names(order)[..k];
    }
  }

  lemma ListedIsBefore(order: seq<Step>, k: nat, j: nat)
    requires Distinct(Names(order)) && k < |order| && j < |order| && order[j].name in Names(order)[..k]
    ensures j < k
  {
    var m :| 0 <= m < k && Names(order)[m] == order[j].name;
    SamePosition(order, m, j);
  }

  lemma SamePosition(order: seq<Step>, i: nat, j: nat)
    requires Distinct(Names(order)) && i < |order| && j < |order| && order[i].name == order[j].name
    ensures i == j
  {
    assert Names(order)[i] == Names(order)[j];
  }

  lemma PositionOf(order: seq<Step>, d: string) returns (j: nat)
    requires d in Names(order)
    ensures j < |order| && order[j].name == d
  {
    j :| 0 <= j < |order| && Names(order)[j] == d;
  }

  /** The step at `k` depends on the one at `i`, directly or not. */
  ghost predicate DependsOn(steps: seq<Step>, order: seq<Step>, k: nat, i: nat)
    requires k < |order| && i < |order|
  {
    Reaches(ByName(steps), order[k].name, order[i].name)
  }

  lemma ListedIsEdge(steps: seq<Step>, order: seq<Step>, k: nat, j: nat)
    requires InOrder(steps, order) && k < |order| && j < |order| && Lists(order, k, j)
    ensures j < k && DependsOn(steps, order, k, j)
  {
    EdgeReaches(ByName(steps), order[k].name, order[j].name);
  }

  /** The first dependency on the way from `k` to `i`. */
  lemma FirstStep(steps: seq<Step>, order: seq<Step>, k: nat, i: nat) returns (j: nat)
    requires InOrder(steps, order) && k < |order| && i < |order| && DependsOn(steps, order, k, i)
    ensures j < k && Lists(order, k, j) && (j == i || DependsOn(steps, order, j, i))
  {
    var g := ByName(steps);
    var d := ReachesFirst(g, order[k].name, order[i].name);
    assert d in order[k].dependsOn;
    j := PositionOf(order, d);
    assert Lists(order, k, j);
    if order[j].name == order[i].name {
      SamePosition(order, j, i);
    }
  }

  // ----- The condition on the registered steps -----

  /** The position of the first step, in execution order, that `k` lists; its own when it lists none. */
  function EarliestFrom(order: seq<Step>, k: nat, j: nat): (p: nat)
    requires j <= k < |order|
    ensures j <= p <= k && (p < k ==> Lists(order, k, p))
    ensures forall m | j <= m < p :: !Lists(order, k, m)
    decreases k - j
  {
    if j == k || Lists(order, k, j) then j else EarliestFrom(order, k, j + 1)
  }

  function Earliest(order: seq<Step>, k: nat): nat
    requires k < |order|
  {
    EarliestFrom(order, k, 0)
  }

  /**
   The dependencies of each step lie in one stretch: every step from its earliest dependency up
   to it is covered by the stretch of one of its dependencies, and none of these reaches
   further back.
   */
  ghost predicate InStretches(order: seq<Step>) {
    forall k | 0 <= k < |order| :: Stretched(order, k)
  }

  ghost predicate Stretched(order: seq<Step>, k: nat)
    requires k < |order|
  {
    && (forall i | Earliest(order, k) <= i < k :: Covered(order, k, i))
    && (forall j | 0 <= j < k && Lists(order, k, j) :: Earliest(order, k) <= Earliest(order, j))
  }

  ghost predicate Covered(order: seq<Step>, k: nat, i: nat)
    requires k < |order|
  {
    exists j :: 0 <= j < k && Lists(order, k, j) && Earliest(order, j) <= i <= j
  }

  lemma CoverOf(order: seq<Step>, k: nat, i: nat) returns (j: nat)
    requires InStretches(order) && k < |order| && Earliest(order, k) <= i < k
    ensures j < k && Lists(order, k, j) && Earliest(order, j) <= i <= j
  {
    assert Stretched(order, k) && Covered(order, k, i);
    j :| 0 <= j < k && Lists(order, k, j) && Earliest(order, j) <= i <= j;
  }

  lemma ThroughDependency(steps: seq<Step>, order: seq<Step>, k: nat, j: nat, i: nat)
    requires InOrder(steps, order) && k < |order| && j < |order| && i < |order| && Lists(order, k, j) && DependsOn(steps, order, j, i)
    ensures DependsOn(steps, order, k, i)
  {
    ListedIsEdge(steps, order, k, j);
    ReachesTransitive(ByName(steps), order[k].name, order[j].name, order[i].name);
  }

  lemma {:induction false} StretchDepends(steps: seq<Step>, order: seq<Step>, k: nat, i: nat)
    requires InOrder(steps, order) && InStretches(order) && k < |order| && Earliest(order, k) <= i < k
    ensures DependsOn(steps, order, k, i)
    decreases k
  {
    var j := CoverOf(order, k, i);
    if i < j {
      StretchDepends(steps, order, j, i);
      ThroughDependency(steps, order, k, j, i);
    } else {
      ListedIsEdge(steps, order, k, j);
    }
  }

  lemma {:induction false} DependsInStretch(steps: seq<Step>, order: seq<Step>, k: nat, i: nat)
    requires InOrder(steps, order) && InStretches(order) && k < |order| && i < |order| && DependsOn(steps, order, k, i)
    ensures Earliest(order, k) <= i < k
    decreases k
  {
    assert Stretched(order, k);
    var j := FirstStep(steps, order, k, i);
    if j != i {
      DependsInStretch(steps, order, j, i);
    }
  }

  // ----- Marks at a failing position -----

  /** The names marked when the step at `i` is the first to fail. */
  function MarksAt(order: seq<Step>, i: nat): seq<string>
    requires i < |order|
  {
    ResultNames(RemainingSkipped(order[i], order, Names(order[..i + 1])))
  }

  lemma {:induction false} SeenNames(order: seq<Step>, i: nat, k: nat)
    requires Distinct(Names(order)) && i < |order| && k < |order|
    ensures order[k].name in Names(order[..i + 1]) <==> k <= i
  {
    if k <= i {
      assert Names(order[..i + 1])[k] == order[k].name;
    }
    if order[k].name in Names(order[..i + 1]) {
      var m :| 0 <= m < i + 1 && Names(order[..i + 1])[m] == order[k].name;
      SamePosition(order, m, k);
    }
  }

  lemma {:induction false} MarkIsInStretch(steps: seq<Step>, order: seq<Step>, i: nat, k: nat)
    requires InOrder(steps, order) && i < |order| && k < |order| && order[k].name in MarksAt(order, i)
    ensures Earliest(order, k) <= i < k
  {
    var seen := Names(order[..i + 1]);
    MarkedExactly(order[i], order, seen, order[k].name);
    SeenNames(order, i, k);
    SeenNames(order, i, i);
    var x :| x in order && x.name == order[k].name && (order[i].name in x.dependsOn || exists d :: d in x.dependsOn && d in seen);
    var k' :| 0 <= k' < |order| && order[k'] == x;
    SamePosition(order, k, k');
    var d :| d in order[k].dependsOn && d in seen;
    var j := PositionOf(order, d);
    SeenNames(order, i, j);
    assert Lists(order, k, j);
  }

  lemma {:induction false} StretchIsMarked(steps: seq<Step>, order: seq<Step>, i: nat, k: nat)
    requires InOrder(steps, order) && i < |order| && k < |order| && Earliest(order, k) <= i < k
    ensures order[k].name in MarksAt(order, i)
  {
    var seen, j := Names(order[..i + 1]), Earliest(order, k);
    MarkedExactly(order[i], order, seen, order[k].name);
    SeenNames(order, i, k);
    SeenNames(order, i, j);
    assert order[k] in order && order[j].name in order[k].dependsOn && order[j].name in seen;
  }

  /** The step at `k` is marked exactly when the failing position is in its stretch. */
  lemma {:induction false} MarkedInStretch(steps: seq<Step>, order: seq<Step>, i: nat, k: nat)
    requires InOrder(steps, order) && i < |order| && k < |order|
    ensures order[k].name in MarksAt(order, i) <==> Earliest(order, k) <= i < k
  {
    if order[k].name in MarksAt(order, i) {
      MarkIsInStretch(steps, order, i, k);
    } else if Earliest(order, k) <= i < k {
      StretchIsMarked(steps, order, i, k);
    }
  }

  /** The marks at `i` are the steps that depend on the step at `i`. */
  ghost predicate MarksRight(steps: seq<Step>, order: seq<Step>, i: nat)
    requires i < |order|
  {
    forall k | 0 <= k < |order| :: order[k].name in MarksAt(order, i) <==> DependsOn(steps, order, k, i)
  }

  lemma {:induction false} RightMarksMakeStretches(steps: seq<Step>, order: seq<Step>, k: nat)
    requires InOrder(steps, order) && k < |order| && forall i | 0 <= i < |order| :: MarksRight(steps, order, i)
    ensures Stretched(order, k)
  {
    forall i | Earliest(order, k) <= i < k
      ensures Covered(order, k, i)
    {
      MarkedInStretch(steps, order, i, k);
      assert MarksRight(steps, order, i);
      var j := FirstStep(steps, order, k, i);
      if j != i {
        MarkedInStretch(steps, order, i, j);
      }
      assert Lists(order, k, j) && Earliest(order, j) <= i <= j;
    }
    forall j | 0 <= j < k && Lists(order, k, j)
      ensures Earliest(order, k) <= Earliest(order, j)
    {
      var p := Earliest(order, j);
      if p < j {
        ListedIsEdge(steps, order, k, j);
        ListedIsEdge(steps, order, j, p);
        ReachesTransitive(ByName(steps), order[k].name, order[j].name, order[p].name);
        assert MarksRight(steps, order, p);
        MarkedInStretch(steps, order, p, k);
      }
    }
  }

  /** Whatever position fails, the marks are the steps that depend on the failed one, if and only if the order is in stretches. */
  lemma {:induction false} PositionsAreExact(steps: seq<Step>, order: seq<Step>)
    requires InOrder(steps, order)
    ensures InStretches(order) <==> forall i | 0 <= i < |order| :: MarksRight(steps, order, i)
  {
    if InStretches(order) {
      forall i | 0 <= i < |order|
        ensures MarksRight(steps, order, i)
      {
        forall k | 0 <= k < |order|
          ensures order[k].name in MarksAt(order, i) <==> DependsOn(steps, order, k, i)
        {
          MarkedInStretch(steps, order, i, k);
          if Earliest(order, k) <= i < k {
            StretchDepends(steps, order, k, i);
          }
          if DependsOn(steps, order, k, i) {
            DependsInStretch(steps, order, k, i);
          }
        }
      }
    }
    if forall i | 0 <= i < |order| :: MarksRight(steps, order, i) {
      forall k | 0 <= k < |order|
        ensures Stretched(order, k)
      {
        RightMarksMakeStretches(steps, order, k);
      }
    }
  }

  // ----- The marks in the result of a run -----

  /** In a result: a registered step is marked as skipped exactly when it depends on the failed one. */
  ghost predicate TellsDownstream(steps: seq<Step>, results: seq<StepResult>) {
    forall f, x | f in results && f.status.Failed? && x in steps ::
      MarkedSkipped(results, x.name) <==> Reaches(ByName(steps), x.name, f.name)
  }

  ghost predicate MarkedSkipped(results: seq<StepResult>, name: string) {
    exists r :: r in results && r.name == name && r.status.Skipped?
  }

  lemma {:induction false} TailIsSkipped(order: seq<Step>, seen: seq<string>, results: seq<StepResult>, i: nat, k: nat)
    requires Distinct(Names(order)) && i < |order| && i < k < |results| && results[i + 1..] == RemainingSkipped(order[i], order, seen)
    ensures results[k].status.Skipped?
  {
    RemainingAreOthers(order[i], order, seen);
    assert results[i + 1..][k - (i + 1)] == results[k];
    assert results[k] in results[i + 1..];
  }

  lemma {:induction false} FailedStep(order: seq<Step>, seen: seq<string>, results: seq<StepResult>, i: nat)
    requires i < |order| && i < |results| && seen == Names(order[..i + 1]) && ResultNames(results[..i + 1]) == seen
    ensures results[i].name == order[i].name
  {
    assert ResultNames(results[..i + 1])[i] == results[..i + 1][i].name == results[i].name;
    assert Names(order[..i + 1])[i] == order[..i + 1][i].name == order[i].name;
  }

  /** What the result holds up to the failing position, and after it. */
  lemma {:induction false} ResultParts(order: seq<Step>, job: Job, results: seq<StepResult>, i: nat)
    requires Distinct(Names(order)) && job.all == order && FailedAt(job, order, [], results, i)
    ensures forall k | 0 <= k < i :: results[k].status.Success?
    ensures results[i].status.Failed? && results[i].name == order[i].name
    ensures forall k | i < k < |results| :: results[k].status.Skipped?
    ensures ResultNames(results[i + 1..]) == MarksAt(order, i)
  {
    var seen := Names(order[..i + 1]);
    assert ResultNames([]) + seen == seen;
    forall k | i < k < |results|
      ensures results[k].status.Skipped?
    {
      TailIsSkipped(order, seen, results, i, k);
    }
    FailedStep(order, seen, results, i);
  }

  lemma {:induction false} SkippedAreMarks(order: seq<Step>, job: Job, results: seq<StepResult>, i: nat, name: string)
    requires Distinct(Names(order)) && job.all == order && FailedAt(job, order, [], results, i)
    ensures MarkedSkipped(results, name) <==> name in MarksAt(order, i)
  {
    ResultParts(order, job, results, i);
    var tail := results[i + 1..];
    if MarkedSkipped(results, name) {
      var r :| r in results && r.name == name && r.status.Skipped?;
      var k :| 0 <= k < |results| && results[k] == r;
      assert ResultNames(tail)[k - (i + 1)] == name;
    }
    if name in MarksAt(order, i) {
      var k :| 0 <= k < |tail| && ResultNames(tail)[k] == name;
      assert results[i + 1 + k] == tail[k];
    }
  }

  lemma {:induction false} OneFails(order: seq<Step>, job: Job, results: seq<StepResult>, i: nat, f: StepResult)
    requires Distinct(Names(order)) && job.all == order && FailedAt(job, order, [], results, i)
    requires f in results && f.status.Failed?
    ensures f.name == order[i].name
  {
    ResultParts(order, job, results, i);
  }

  lemma {:induction false} TellingMarksAreRight(steps: seq<Step>, order: seq<Step>, job: Job, results: seq<StepResult>, i: nat)
    requires Distinct(Names(order)) && (forall x | x in order :: x in steps)
    requires job.all == order && FailedAt(job, order, [], results, i) && TellsDownstream(steps, results)
    ensures MarksRight(steps, order, i)
  {
    ResultParts(order, job, results, i);
    assert results[i] in results;
    forall k | 0 <= k < |order|
      ensures order[k].name in MarksAt(order, i) <==> DependsOn(steps, order, k, i)
    {
      SkippedAreMarks(order, job, results, i, order[k].name);
      assert order[k] in order;
    }
  }

  lemma {:induction false} RightMarksTell(steps: seq<Step>, order: seq<Step>, job: Job, results: seq<StepResult>, i: nat)
    requires Distinct(Names(order)) && (forall x | x in steps :: x in order)
    requires job.all == order && FailedAt(job, order, [], results, i) && MarksRight(steps, order, i)
    ensures TellsDownstream(steps, results)
  {
    forall f, x | f in results && f.status.Failed? && x in steps
      ensures MarkedSkipped(results, x.name) <==> Reaches(ByName(steps), x.name, f.name)
    {
      OneFails(order, job, results, i, f);
      SkippedAreMarks(order, job, results, i, x.name);
      var k :| 0 <= k < |order| && order[k] == x;
      assert DependsOn(steps, order, k, i) <==> Reaches(ByName(steps), x.name, f.name);
    }
  }

  /** The run's marks are right exactly when those of the failing position are. */
  lemma {:induction false} ResultTells(steps: seq<Step>, job: Job, results: seq<StepResult>, i: nat)
    requires Registrable(steps) && Errors(steps) == []
    requires job.all == Ordered(steps) && FailedAt(job, Ordered(steps), [], results, i)
    ensures TellsDownstream(steps, results) <==> MarksRight(steps, Ordered(steps), i)
  {
    OrderedIsDependencyOrder(steps);
    if TellsDownstream(steps, results) {
      TellingMarksAreRight(steps, Ordered(steps), job, results, i);
    } else if MarksRight(steps, Ordered(steps), i) {
      RightMarksTell(steps, Ordered(steps), job, results, i);
    }
  }

  // ----- Every position is reached by a run that fails there -----

  /** Agents that all succeed but those of one step. */
  function FailingAt(name: string): Env {
    Env((t, n, f, q) => AgentReturns(if n == name then Structured("", Some("error")) else Text("ok"), false),
        (t, n, q, c) => Some("go"),
        (t, n, c) => Continues,
        (t, n, q) => HookContinues,
        (t, n, c) => Plain(None),
        t => false,
        t => false)
  }

  lemma {:induction false} FailsEachTime(name: string, s: FlowState, step: Step, query: string, attempt: nat, startedAt: nat)
    requires 1 <= attempt <= step.maxRetry && step.name == name
    ensures var (s1, r) := TryFrom(FailingAt(name), s, step, query, attempt, startedAt);
            s1.files == s.files && s1.cancelled == s.cancelled && r.Some? && r.value.name == name && Truthy(r.value.error) && r.value.status.Failed?
    decreases step.maxRetry - attempt
  {
    var answer := Heard(step, false, FailingAt(name).agent(s.clock, step.name, false, query));
    assert answer == Answered("", Some("error"));
    if attempt < step.maxRetry {
      FailsEachTime(name, Called(s, step, false, query), step, query, attempt + 1, startedAt);
    }
  }

  lemma SucceedsAtOnce(name: string, s: FlowState, step: Step, query: string)
    requires step.maxRetry >= 1 && step.name != name
    ensures var (s1, r) := RunStep(FailingAt(name), s, step, query);
            s1.files == s.files && s1.cancelled == s.cancelled && r.Some? && r.value.name == step.name && r.value.error.None? && r.value.status.Success?
  {
    assert Heard(step, false, FailingAt(name).agent(s.clock, step.name, false, query)) == Answered("ok", None);
  }

  lemma GoesAhead(name: string, tick: nat, step: Step, query: string, results: seq<StepResult>)
    requires CanBeApproved(step) && forall d | d in step.dependsOn :: d in ResultNames(results)
    ensures Decide(FailingAt(name), tick, false, step, query, results).Goes?
  {
  }

  /** All steps up to `i` can run: approved, with their dependencies before them. */
  ghost predicate Runnable(results: seq<StepResult>, todo: seq<Step>, i: nat)
    requires i < |todo|
  {
    && (forall r | r in results :: r.status.Success?)
    && (forall j | 0 <= j <= i :: CanBeApproved(todo[j]) && todo[j].maxRetry >= 1)
    && (forall j, d | 0 <= j <= i && d in todo[j].dependsOn :: d in ResultNames(results) + Names(todo[..j]))
  }

  lemma {:induction false} RunnableOn(results: seq<StepResult>, todo: seq<Step>, i: nat, r: StepResult)
    requires 0 < i < |todo| && Runnable(results, todo, i) && r.name == todo[0].name && r.status.Success?
    ensures Runnable(results + [r], todo[1..], i - 1)
  {
    forall j, d | 0 <= j <= i - 1 && d in todo[1..][j].dependsOn
      ensures d in ResultNames(results + [r]) + Names(todo[1..][..j])
    {
      assert ResultNames(results + [r]) == ResultNames(results) + [r.name];
      assert Names(todo[..j + 1]) == [r.name] + Names(todo[1..][..j]);
      assert d in ResultNames(results) + Names(todo[..j + 1]);
    }
  }

  /** The loop ends in the failure of the step at `i` of `todo`. */
  ghost predicate FailsThere(env: Env, s: FlowState, job: Job, todo: seq<Step>, results: seq<StepResult>, i: nat) {
    var outcome := Loop(env, s, job, todo, results).1;
    outcome.Returned? && outcome.result.status.Failed? && FailedAt(job, todo, results, outcome.result.steps, i)
  }

  lemma {:induction false} LaterFailure(env: Env, s: FlowState, s1: FlowState, job: Job, todo: seq<Step>, results: seq<StepResult>, r: StepResult, i: nat)
    requires 0 < i && todo != [] && r.name == todo[0].name && r.status.Success?
    requires Loop(env, s, job, todo, results) == Loop(env, s1, job, todo[1..], results + [r])
    requires FailsThere(env, s1, job, todo[1..], results + [r], i - 1)
    ensures FailsThere(env, s, job, todo, results, i)
  {
    FailedLater(job, todo, results, r, Loop(env, s, job, todo, results).1.result.steps, i - 1);
  }

  ghost predicate FirstAt(name: string, todo: seq<Step>, i: nat) {
    i < |todo| && todo[i].name == name && forall j | 0 <= j < i :: todo[j].name != name
  }

  lemma FirstAtOn(name: string, todo: seq<Step>, i: nat)
    requires 0 < i && FirstAt(name, todo, i)
    ensures FirstAt(name, todo[1..], i - 1)
  {
  }

  lemma {:induction false} LoopFailsAt(name: string, s: FlowState, job: Job, todo: seq<Step>, results: seq<StepResult>, i: nat)
    requires i < |todo| && Runnable(results, todo, i) && s.files.None? && !s.cancelled
    requires FirstAt(name, todo, i)
    ensures FailsThere(FailingAt(name), s, job, todo, results, i)
    decreases i, 1
  {
    if i == 0 {
      LoopFailsHere(s, job, todo, results);
    } else {
      LoopFailsLater(name, s, job, todo, results, i);
    }
  }

  lemma {:induction false} LoopFailsLater(name: string, s: FlowState, job: Job, todo: seq<Step>, results: seq<StepResult>, i: nat)
    requires 0 < i < |todo| && Runnable(results, todo, i) && s.files.None? && !s.cancelled
    requires FirstAt(name, todo, i)
    ensures FailsThere(FailingAt(name), s, job, todo, results, i)
    decreases i, 0
  {
    var s1, r := LoopGoesOn(name, s, job, todo, results, i);
    RunnableOn(results, todo, i, r);
    FirstAtOn(name, todo, i);
    LoopFailsAt(name, s1, job, todo[1..], results + [r], i - 1);
    LaterFailure(FailingAt(name), s, s1, job, todo, results, r, i);
  }

  lemma {:induction false} LoopGoesOn(name: string, s: FlowState, job: Job, todo: seq<Step>, results: seq<StepResult>, i: nat)
      returns (s1: FlowState, r: StepResult)
    requires 0 < i < |todo| && Runnable(results, todo, i) && s.files.None? && !s.cancelled && todo[0].name != name
    ensures s1.files.None? && !s1.cancelled && r.name == todo[0].name && r.status.Success?
    ensures Loop(FailingAt(name), s, job, todo, results) == Loop(FailingAt(name), s1, job, todo[1..], results + [r])
  {
    var env, step := FailingAt(name), todo[0];
    var polled := Polled(env, s);
    SuccessesOfSuccesses(results);
    assert ResultNames(results) + Names(todo[..0]) == ResultNames(results);
    GoesAhead(name, s.clock, step, job.query, results);
    var query := Decide(env, s.clock, false, step, job.query, results).query;
    SucceedsAtOnce(name, polled, step, query);
    var (s2, result) := RunStep(env, polled, step, query);
    r := result.value;
    s1 := Save(env, s2, job, r.status, r.error, results + [r]).0;
    assert Loop(env, s, job, todo, results) == Proceed(env, s2, job, todo, results, r, false);
  }

  lemma {:induction false} LoopFailsHere(s: FlowState, job: Job, todo: seq<Step>, results: seq<StepResult>)
    requires todo != [] && Runnable(results, todo, 0) && s.files.None? && !s.cancelled
    ensures FailsThere(FailingAt(todo[0].name), s, job, todo, results, 0)
  {
    var env, step := FailingAt(todo[0].name), todo[0];
    var polled := Polled(env, s);
    SuccessesOfSuccesses(results);
    assert ResultNames(results) + Names(todo[..0]) == ResultNames(results);
    GoesAhead(step.name, s.clock, step, job.query, results);
    var query := Decide(env, s.clock, false, step, job.query, results).query;
    FailsEachTime(step.name, polled, step, query, 1, polled.clock);
    var (s2, r) := RunStep(env, polled, step, query);
    assert Loop(env, s, job, todo, results) == Proceed(env, s2, job, todo, results, r.value, true);
    StopsAtOnce(env, s2, job, todo, results, r.value);
  }

  lemma StopsAtOnce(env: Env, s: FlowState, job: Job, todo: seq<Step>, results: seq<StepResult>, r: StepResult)
    requires todo != [] && r.name == todo[0].name && r.status.Failed? && Truthy(r.error)
    requires s.files.None? && forall tick :: !env.interrupts(tick)
    ensures var outcome := Proceed(env, s, job, todo, results, r, true).1;
            outcome.Returned? && outcome.result.status.Failed? && FailedAt(job, todo, results, outcome.result.steps, 0)
  {
    assert ResultNames(results + [r]) == ResultNames(results) + [r.name];
    assert Names(todo[..1]) == [r.name];
    var steps := Proceed(env, s, job, todo, results, r, true).1.result.steps;
    assert steps[..|results| + 1] == results + [r];
  }

  /** The first run of a flow, with or without a store. */
  ghost function FirstRun(env: Env, steps: seq<Step>, stored: bool, runId: string, query: string): Outcome {
    Perform(env, FreshFlow(steps, stored), OpRun(runId, query)).1
  }

  lemma OrderIsRunnable(order: seq<Step>, i: nat)
    requires Distinct(Names(order)) && i < |order|
    requires forall x | x in order :: CanBeApproved(x) && x.maxRetry >= 1
    requires forall k, d | 0 <= k < |order| && d in order[k].dependsOn :: d in Names(order)[..k]
    ensures Runnable([], order, i) && forall j | 0 <= j < i :: order[j].name != order[i].name
  {
    forall j | 0 <= j < i
      ensures order[j].name != order[i].name
    {
      assert Names(order)[j] != Names(order)[i];
    }
    assert forall j | 0 <= j <= i :: order[j] in order;
    forall j, d | 0 <= j <= i && d in order[j].dependsOn
      ensures d in ResultNames([]) + Names(order[..j])
    {
      NamesOfPrefix(order, j);
      assert d in Names(order[..j]);
    }
  }

  lemma NamesOfPrefix(order: seq<Step>, j: nat)
    requires j <= |order|
    ensures Names(order[..j]) == Names(order)[..j]
  {
  }

  lemma {:induction false} EachPositionFails(steps: seq<Step>, i: nat)
    requires Registrable(steps) && Errors(steps) == [] && (forall x | x in steps :: CanBeApproved(x)) && i < |Ordered(steps)|
    ensures var outcome := FirstRun(FailingAt(Ordered(steps)[i].name), steps, false, "r", "q");
            && outcome.Returned? && outcome.result.status.Failed?
            && FailedAt(Job("r", "q", Ordered(steps)), Ordered(steps), [], outcome.result.steps, i)
  {
    var order, s := Ordered(steps), FreshFlow(steps, false);
    var env, job := FailingAt(order[i].name), Job("r", "q", order);
    OrderedIsDependencyOrder(steps);
    OrderIsRunnable(order, i);
    ReadyIsPerformed(env, s, OpRun("r", "q"), RunPlan(s, "r", "q"));
    LoopFailsAt(order[i].name, Save(env, s, job, Running, None, []).0, job, order, [], i);
  }

  /** Every first run that skips nothing and fails, fails at a position of the order with the marks of that position. */
  lemma {:induction false} FirstRunFailsSomewhere(env: Env, steps: seq<Step>, stored: bool, runId: string, query: string) returns (i: nat)
    requires Registrable(steps) && Errors(steps) == [] && SkipFree(env)
    requires var outcome := FirstRun(env, steps, stored, runId, query); outcome.Returned? && outcome.result.status.Failed?
    ensures FailedAt(Job(runId, query, Ordered(steps)), Ordered(steps), [], FirstRun(env, steps, stored, runId, query).result.steps, i)
  {
    var s, op := FreshFlow(steps, stored), OpRun(runId, query);
    RunSkipsNothing(env, s, op);
    assert PlanOf(s, op) == Ready(RunPlan(s, runId, query));
    i :| FailedAt(Job(runId, query, Ordered(steps)), Ordered(steps), [], FirstRun(env, steps, stored, runId, query).result.steps, i);
  }

  /** Whenever a first run that skips nothing fails, its marks are the steps that depend on the failed one. */
  ghost predicate MarksAlwaysTell(steps: seq<Step>) {
    forall env, stored, runId, query | SkipFree(env) && FailsFirst(env, steps, stored, runId, query) ::
      TellsDownstream(steps, FirstRun(env, steps, stored, runId, query).result.steps)
  }

  ghost predicate FailsFirst(env: Env, steps: seq<Step>, stored: bool, runId: string, query: string) {
    var outcome := FirstRun(env, steps, stored, runId, query);
    outcome.Returned? && outcome.result.status.Failed?
  }

  /**
   The steps marked as skipped after a failure are always those that depend on the failed step
   if and only if the execution order is in stretches.
   */
  lemma {:induction false} MarksAreExact(steps: seq<Step>)
    requires Registrable(steps) && Errors(steps) == [] && forall x | x in steps :: CanBeApproved(x)
    ensures InStretches(Ordered(steps)) <==> MarksAlwaysTell(steps)
  {
    var order := Ordered(steps);
    OrderedIsInOrder(steps);
    PositionsAreExact(steps, order);
    if InStretches(order) {
      forall env, stored, runId, query | SkipFree(env) && FailsFirst(env, steps, stored, runId, query)
        ensures TellsDownstream(steps, FirstRun(env, steps, stored, runId, query).result.steps)
      {
        var i := FirstRunFailsSomewhere(env, steps, stored, runId, query);
        ResultTells(steps, Job(runId, query, order), FirstRun(env, steps, stored, runId, query).result.steps, i);
      }
    }
    if MarksAlwaysTell(steps) {
      forall i | 0 <= i < |order|
        ensures MarksRight(steps, order, i)
      {
        RunAtTells(steps, i);
      }
    }
  }

  lemma {:induction false} RunAtTells(steps: seq<Step>, i: nat)
    requires Registrable(steps) && Errors(steps) == [] && (forall x | x in steps :: CanBeApproved(x)) && i < |Ordered(steps)|
    requires MarksAlwaysTell(steps)
    ensures MarksRight(steps, Ordered(steps), i)
  {
    var env := FailingAt(Ordered(steps)[i].name);
    EachPositionFails(steps, i);
    assert SkipFree(env) && FailsFirst(env, steps, false, "r", "q");
    ResultTells(steps, Job("r", "q", Ordered(steps)), FirstRun(env, steps, false, "r", "q").result.steps, i);
  }

  // ----- Two runs whose marks are wrong -----

  /** Steps that are registered after their dependencies run in that order. */
  lemma {:induction false} RegisteredInOrder(steps: seq<Step>)
    requires Distinct(Names(steps)) && forall i, d | 0 <= i < |steps| && d in steps[i].dependsOn :: d in Names(steps)[..i]
    ensures Errors(steps) == [] && Ordered(steps) == steps
  {
    var g, names := ByName(steps), Names(steps);
    forall i, d | 0 <= i < |names| && Edge(g, names[i], d)
      ensures d in names[..i]
    {
      ByNameFindsEach(steps, i);
    }
    forall i, d | 0 <= i < |steps| && d in steps[i].dependsOn
      ensures d in names
    {
      assert d in names[..i];
    }
    RegistrationOrderIsKept(steps);
    TopologicalIsAcyclic(g, names);
    RefusalIsExact(steps);
    SameStepsInOrder(steps);
  }

  lemma {:induction false} SameStepsInOrder(steps: seq<Step>)
    requires Distinct(Names(steps)) && Names(Ordered(steps)) == Names(steps)
    ensures Ordered(steps) == steps
  {
    var r := Ordered(steps);
    forall i | 0 <= i < |steps|
      ensures r[i] == steps[i]
    {
      assert r[i] in r && r[i].name == Names(r)[i] == Names(steps)[i];
      SameNameSameStep(steps, r[i], steps[i]);
    }
  }

  /** A run in which the step at `i` fails marks the step at `k` exactly when `i` is in the stretch of `k`. */
  lemma {:induction false} RunMarksStretches(steps: seq<Step>, i: nat, k: nat)
    requires Registrable(steps) && Errors(steps) == [] && (forall x | x in steps :: CanBeApproved(x))
    requires i < |Ordered(steps)| && k < |Ordered(steps)|
    ensures var order := Ordered(steps);
            var outcome := FirstRun(FailingAt(order[i].name), steps, false, "r", "q");
            && outcome.Returned? && outcome.result.status.Failed?
            && (MarkedSkipped(outcome.result.steps, order[k].name) <==> Earliest(order, k) <= i < k)
  {
    var order := Ordered(steps);
    EachPositionFails(steps, i);
    OrderedIsInOrder(steps);
    SkippedAreMarks(order, Job("r", "q", order), FirstRun(FailingAt(order[i].name), steps, false, "r", "q").result.steps, i, order[k].name);
    MarkedInStretch(steps, order, i, k);
  }

  /** A step after the failed one that lists any earlier step is marked, whether or not it depends on the failed one. */
  lemma {:induction false} MarkingCoversTheIndependent(steps: seq<Step>, j: nat, i: nat, k: nat)
    requires Registrable(steps) && Errors(steps) == [] && (forall x | x in steps :: CanBeApproved(x))
    requires j <= i < k < |Ordered(steps)| && Lists(Ordered(steps), k, j)
    ensures var order := Ordered(steps);
            var outcome := FirstRun(FailingAt(order[i].name), steps, false, "r", "q");
            outcome.Returned? && outcome.result.status.Failed? && MarkedSkipped(outcome.result.steps, order[k].name)
  {
    RunMarksStretches(steps, i, k);
  }

  /** A step that depends on the failed one only through steps after it is not marked. */
  lemma {:induction false} MarkingMissesTheIndirect(steps: seq<Step>, i: nat, k: nat)
    requires Registrable(steps) && Errors(steps) == [] && (forall x | x in steps :: CanBeApproved(x))
    requires i < k < |Ordered(steps)| && DependsOn(steps, Ordered(steps), k, i)
    requires forall j | 0 <= j <= i :: !Lists(Ordered(steps), k, j)
    ensures var order := Ordered(steps);
            var outcome := FirstRun(FailingAt(order[i].name), steps, false, "r", "q");
            outcome.Returned? && outcome.result.status.Failed? && !MarkedSkipped(outcome.result.steps, order[k].name)
  {
    RunMarksStretches(steps, i, k);
  }

  /** Three steps, registered in order: an independent one between a step and its dependent, or a plain chain. */
  predicate ForkOrChain(steps: seq<Step>)
    requires |steps| == 3
  {
    && steps[0].dependsOn == []
    && ( || (steps[1].dependsOn == [] && steps[2].dependsOn == [steps[0].name])
         || (steps[1].dependsOn == [steps[0].name] && steps[2].dependsOn == [steps[1].name]))
  }

  lemma {:induction false} ForksAndChainsAreNotInStretches(order: seq<Step>)
    requires |order| == 3 && Distinct(Names(order)) && ForkOrChain(order)
    ensures !InStretches(order)
  {
    assert Names(order)[0] != Names(order)[1] && Names(order)[0] != Names(order)[2] && Names(order)[1] != Names(order)[2];
    if order[1].dependsOn == [] {
      assert Lists(order, 2, 0) && !Lists(order, 2, 1);
      assert Earliest(order, 2) == 0 && !Covered(order, 2, 1);
      assert !Stretched(order, 2);
    } else {
      assert Lists(order, 1, 0) && !Lists(order, 2, 0) && Lists(order, 2, 1);
      assert Earliest(order, 1) == 0 && Earliest(order, 2) == 1;
      assert !Stretched(order, 2);
    }
  }

  /** Every such flow is valid and runs in the order it was registered, and some first run of it marks the wrong steps. */
  lemma {:induction false} ForksAndChainsAreMarkedWrongly(steps: seq<Step>)
    requires Registrable(steps) && (forall x | x in steps :: CanBeApproved(x)) && |steps| == 3 && ForkOrChain(steps)
    ensures Errors(steps) == [] && Ordered(steps) == steps && !MarksAlwaysTell(steps)
  {
    var names := Names(steps);
    assert names[0] in names[..1] && names[0] in names[..2] && names[1] in names[..2];
    RegisteredInOrder(steps);
    ForksAndChainsAreNotInStretches(steps);
    MarksAreExact(steps);
  }
}
