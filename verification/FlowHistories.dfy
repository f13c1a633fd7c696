/**
 Main results over every history of registering, running, cancelling, resuming, re-running
 and restarting, whatever the agents, hooks and approvals do.
 */
module FlowHistories {
  import opened FlowGraph
  import opened FlowEngine
  import opened FlowFreshness
  import opened FlowRuns
  import opened Wrappers

  ghost function Reached(env: Env, stored: bool, ops: seq<Op>): FlowState {
    AfterAll(env, Initial(stored), ops)
  }

  lemma EveryHistoryIsOk(env: Env, stored: bool, ops: seq<Op>)
    ensures StateOk(env, Reached(env, stored, ops))
  {
    HistoriesAreOk(env, Initial(stored), ops);
  }

  /**
   In every checkpoint of every history, in memory or in the store, a success of a step without
   its own query has a success of each of its dependencies beside it that ended before it
   started; if the hooks leave queries alone, the query it answered was built from those very
   outputs.
   */
  lemma EveryCheckpointIsFresh(env: Env, stored: bool, ops: seq<Op>, record: Record, r: StepResult, step: Step, d: string)
    requires Checkpointed(Reached(env, stored, ops), record)
    requires r in record.steps && r.status.Success?
    requires step in Reached(env, stored, ops).steps && step.name == r.name
    requires step.query.DefaultQuery? && d in step.dependsOn
    ensures r.span.Some?
    ensures exists e :: e in record.steps && e.name == d && e.status.Success? && e.span.Some?
                        && e.span.value.endedAt <= r.span.value.startedAt
    ensures QuietHooks(env) ==>
              var lines := DependencyLines(Successes(record.steps), step.dependsOn);
              lines.Some? && r.span.value.input == record.query + OutputsHeading + lines.value
  {
    EveryHistoryIsOk(env, stored, ops);
    var s := Reached(env, stored, ops);
    CheckpointedIsOk(env, s, record);
    assert SuccessOk(env, s.steps, s.clock, record.query, record.steps, r);
    assert EndedBy(record.steps, d, r.span.value.startedAt);
  }

  lemma CompleteListsEachStep(s: FlowState, runId: string)
    requires Complete(s, runId)
    ensures Distinct(ResultNames(s.records[runId].steps))
    ensures forall n :: n in ResultNames(s.records[runId].steps) <==> n in Names(s.steps)
  {
    assert s.steps[..|s.steps|] == s.steps;
  }

  /** However an operation ends, unless it was refused, its run's record lists every registered step exactly once. */
  lemma {:induction false} EveryCheckpointListsEachStep(env: Env, stored: bool, ops: seq<Op>, op: Op)
    requires Accepted(Reached(env, stored, ops), op)
    ensures var s := After(env, Reached(env, stored, ops), op);
            && op.runId in s.records && Distinct(ResultNames(s.records[op.runId].steps))
            && forall n :: n in ResultNames(s.records[op.runId].steps) <==> n in Names(s.steps)
  {
    EveryHistoryIsOk(env, stored, ops);
    PerformKeepsOk(env, Reached(env, stored, ops), op);
    AfterPerforms(env, Reached(env, stored, ops), op);
    CompleteListsEachStep(After(env, Reached(env, stored, ops), op), op.runId);
  }

  // ----- Restarting -----

  /** After a restart a run is found as it was exactly when the file of its name was last written by that run. */
  lemma RestartIsExact(env: Env, stored: bool, ops: seq<Op>, runId: string)
    requires var s := Reached(env, stored, ops); s.files.Some? && runId in s.records && SafeId(runId) != ""
    ensures var s := Reached(env, stored, ops);
            && SafeId(runId) in s.files.value
            && (GetRun(After(env, s, OpRestart), runId) == GetRun(s, runId) <==> s.files.value[SafeId(runId)].runId == runId)
  {
    EveryHistoryIsOk(env, stored, ops);
  }

  predicate Clean(runId: string) {
    runId != "" && SafeId(runId) == runId
  }

  lemma {:induction false} CleanIsSafeChars(runId: string)
    ensures |SafeId(runId)| <= |runId|
    ensures SafeId(runId) == runId <==> forall c | c in runId :: SafeChar(c)
  {
    if runId != "" {
      CleanIsSafeChars(runId[1..]);
      if SafeChar(runId[0]) {
        assert runId == [runId[0]] + runId[1..];
        assert SafeId(runId)[1..] == SafeId(runId[1..]);
      }
    }
  }

  ghost predicate OwnFiles(s: FlowState) {
    s.files.Some? ==> forall k | k in s.files.value :: s.files.value[k].runId == k
  }

  lemma {:induction false} PerformOwnsItsFile(env: Env, s: FlowState, op: Op)
    requires StateOk(env, s) && OwnFiles(s) && Executes(op) && Clean(op.runId)
    ensures OwnFiles(Perform(env, s, op).0)
  {
    PerformKeepsOk(env, s, op);
    if PlanOf(s, op).Ready? {
      PerformEffect(env, s, op);
      OwnFilesKept(s, Perform(env, s, op).0, op.runId);
    }
  }

  lemma OwnFilesKept(s: FlowState, s1: FlowState, runId: string)
    requires OwnFiles(s) && OnlyRun(s, s1, runId) && Clean(runId) && s1.records[runId].runId == runId
    ensures OwnFiles(s1)
  {
  }

  lemma {:induction false} CleanHistoriesOwnTheirFiles(env: Env, s: FlowState, ops: seq<Op>)
    requires StateOk(env, s) && OwnFiles(s)
    requires forall op | op in ops && Executes(op) :: Clean(op.runId)
    ensures OwnFiles(AfterAll(env, s, ops))
    decreases |ops|
  {
    if ops != [] {
      var s1 := After(env, s, ops[0]);
      EveryOperationKeepsOk(env, s, ops[0]);
      if Executes(ops[0]) {
        PerformOwnsItsFile(env, s, ops[0]);
      }
      CleanHistoriesOwnTheirFiles(env, s1, ops[1..]);
    }
  }

  /** With run ids made of safe characters, a restart loses no run and changes none. */
  lemma RestartIsTransparent(env: Env, ops: seq<Op>, runId: string)
    requires forall op | op in ops && Executes(op) :: Clean(op.runId)
    requires runId in Reached(env, true, ops).records && Clean(runId)
    requires Reached(env, true, ops).files.Some?
    ensures var s := Reached(env, true, ops);
            GetRun(After(env, s, OpRestart), runId) == GetRun(s, runId)
  {
    RestartIsExact(env, true, ops, runId);
    CleanHistoriesOwnTheirFiles(env, Initial(true), ops);
  }

  // ----- Which run ids may be used together -----

  /** The file a recorded run would be found in was last written by a recorded run whose id sanitises alike. */
  ghost predicate FilesAreRecorded(s: FlowState) {
    s.files.Some? ==>
      forall id | id in s.records && SafeId(id) != "" ::
        && SafeId(id) in s.files.value
        && s.files.value[SafeId(id)].runId in s.records
        && SafeId(s.files.value[SafeId(id)].runId) == SafeId(id)
  }

  lemma OnlyRunKeepsFiles(s: FlowState, s1: FlowState, runId: string)
    requires FilesAreRecorded(s) && OnlyRun(s, s1, runId) && s1.records[runId].runId == runId
    ensures FilesAreRecorded(s1)
  {
  }

  lemma {:induction false} PerformKeepsFiles(env: Env, s: FlowState, op: Op)
    requires StateOk(env, s) && FilesAreRecorded(s) && Executes(op)
    ensures FilesAreRecorded(Perform(env, s, op).0)
  {
    if Accepted(s, op) {
      PerformKeepsOk(env, s, op);
      PerformEffect(env, s, op);
      OnlyRunKeepsFiles(s, Perform(env, s, op).0, op.runId);
    }
  }

  lemma {:induction false} OperationKeepsFiles(env: Env, s: FlowState, op: Op)
    requires StateOk(env, s) && FilesAreRecorded(s)
    ensures FilesAreRecorded(After(env, s, op))
  {
    if Executes(op) {
      AfterPerforms(env, s, op);
      PerformKeepsFiles(env, s, op);
    }
  }

  lemma {:induction false} HistoriesKeepFiles(env: Env, s: FlowState, ops: seq<Op>)
    requires StateOk(env, s) && FilesAreRecorded(s)
    ensures FilesAreRecorded(AfterAll(env, s, ops))
    decreases |ops|
  {
    if ops != [] {
      EveryOperationKeepsOk(env, s, ops[0]);
      OperationKeepsFiles(env, s, ops[0]);
      HistoriesKeepFiles(env, After(env, s, ops[0]), ops[1..]);
    }
  }

  /** No recorded run with a usable file name is lost or changed by a restart. */
  ghost predicate SurvivesRestart(env: Env, s: FlowState) {
    forall id | id in s.records && SafeId(id) != "" :: GetRun(After(env, s, OpRestart), id) == GetRun(s, id)
  }

  /** No two recorded runs have the same file name. */
  ghost predicate FileNamesDiffer(s: FlowState) {
    forall a, b | a in s.records && b in s.records && SafeId(a) == SafeId(b) != "" :: a == b
  }

  /** After any history, a restart loses and changes none of the recorded runs that have a file name if and only if those names differ. */
  lemma {:induction false} RestartLosesNothing(env: Env, ops: seq<Op>)
    requires Reached(env, true, ops).files.Some?
    ensures SurvivesRestart(env, Reached(env, true, ops)) <==> FileNamesDiffer(Reached(env, true, ops))
  {
    var s := Reached(env, true, ops);
    HistoriesKeepFiles(env, Initial(true), ops);
    forall id | id in s.records && SafeId(id) != ""
      ensures GetRun(After(env, s, OpRestart), id) == GetRun(s, id) <==> s.files.value[SafeId(id)].runId == id
    {
      RestartIsExact(env, true, ops, id);
    }
    if SurvivesRestart(env, s) {
      forall a, b | a in s.records && b in s.records && SafeId(a) == SafeId(b) != ""
        ensures a == b
      {
        assert s.files.value[SafeId(a)].runId == a && s.files.value[SafeId(b)].runId == b;
      }
    }
  }

  /** Agents that are never asked and an engine that is never interrupted. */
  function Undisturbed(): Env {
    Env((t, n, f, q) => AgentReturns(Nothing, false),
        (t, n, q, c) => None,
        (t, n, c) => Continues,
        (t, n, q) => HookContinues,
        (t, n, c) => Plain(None),
        t => false,
        t => false)
  }

  /** The state of a stored flow without steps in which run `id` has just been written. */
  function Written(s: FlowState, id: string): FlowState {
    var record := Record(id, "q", Running, None, []);
    s.(records := s.records[id := record],
       files := if s.files.Some? then Some(s.files.value[SafeId(id) := record]) else None,
       clock := s.clock + 1)
  }

  lemma {:induction false} EmptyRunIsWritten(s: FlowState, id: string)
    requires s.steps == [] && s.files.Some? && SafeId(id) != ""
    ensures After(Undisturbed(), s, OpRun(id, "q")) == Written(s, id)
  {
    var op := OpRun(id, "q");
    assert Ordered([]) == [];
    assert Errors(s.steps) == [];
    AfterPerforms(Undisturbed(), s, op);
    ReadyIsPerformed(Undisturbed(), s, op, RunPlan(s, id, "q"));
    assert [] + PendingOf([], []) == [];
  }

  /** Any two ids that sanitise alike show it: run the one and then the other, and a restart has lost the first. */
  lemma {:induction false} CollidingRunIsLost(a: string, b: string)
    requires a != b && SafeId(a) == SafeId(b) != ""
    ensures var s := Reached(Undisturbed(), true, [OpRun(a, "q"), OpRun(b, "q")]);
            && a in s.records && b in s.records
            && GetRun(After(Undisturbed(), s, OpRestart), a) != GetRun(s, a)
  {
    var s0 := Initial(true);
    var ops := [OpRun(a, "q"), OpRun(b, "q")];
    EmptyRunIsWritten(s0, a);
    EmptyRunIsWritten(Written(s0, a), b);
    assert ops[1..] == [OpRun(b, "q")] && ops[1..][1..] == [];
    var s := Written(Written(s0, a), b);
    assert AfterAll(Undisturbed(), s0, ops) == AfterAll(Undisturbed(), Written(s0, a), ops[1..]) == AfterAll(Undisturbed(), s, []);
  }
}
