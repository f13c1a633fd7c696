/**
 The benchmark runner's accounting: one arm answers one task after another, and verification,
 grounding walk, escalation and cost are accumulated as it goes. The record it leaves is
 compared with counts and sums over the list of outcomes as a whole.
 */
module Benchmark {
  import opened Wrappers

  datatype Arm = NoMemory | RetrievalOnly | ExternalTeacher | LocalModel | MixedWorkload | UnknownArm

  predicate ExternalCallsPermitted(arm: Arm) {
    arm.ExternalTeacher? || arm.MixedWorkload?
  }

  datatype OutputKind = DeclarativeFact | FactDependentDerivation | ClosedFormComputation

  datatype Task = Task(id: string, kind: OutputKind)

  datatype Citation = Citation(sourceId: string, contentHash: string, start: int, end: int)

  /** An outcome without an answer is an abstention. */
  datatype ArmOutcome = ArmOutcome(
    answer: Option<string>,
    citations: seq<Citation>,
    answerFormValid: bool,
    externalCalls: int,
    localCalls: int,
    inputTokens: int,
    outputTokens: int,
    seconds: real)

  predicate Abstained(o: ArmOutcome) {
    o.answer.None?
  }

  type Bytes = seq<bv8>

  datatype Verdict = Passed | NotPassed | VerifierError | VerifierMissing

  /** The registered verifiers, the loaded sources and the hash function a run uses. */
  datatype Env = Env(
    verifiersReady: bool,
    verify: (Task, ArmOutcome) -> Verdict,
    sources: map<string, Bytes>,
    hash: Bytes -> string)

  // ----- The grounding walk and the escalation policy -----

  const MINIMUM_GROUNDED_SPANS := 1

  /** A citation resolves when its source is loaded and the bytes it names have the hash it gives. */
  predicate Resolves(env: Env, c: Citation) {
    && c.sourceId in env.sources
    && 0 <= c.start < c.end <= |env.sources[c.sourceId]|
    && env.hash(env.sources[c.sourceId][c.start..c.end]) == c.contentHash
  }

  datatype Hop = Hop(citation: Citation, loaded: bool, inRange: bool, spanBytes: nat, resolves: bool)

  /** A hop tells a missing source from a bad range, and measures the span it cut. */
  predicate WalkedRight(env: Env, h: Hop) {
    && (h.loaded <==> h.citation.sourceId in env.sources)
    && (h.inRange <==> h.loaded && 0 <= h.citation.start < h.citation.end <= |env.sources[h.citation.sourceId]|)
    && h.spanBytes == (if h.inRange then h.citation.end - h.citation.start else 0)
  }

  method WalkAnswerCitations(env: Env, o: ArmOutcome) returns (hops: seq<Hop>, allResolve: bool)
    ensures |hops| == |o.citations|
    ensures forall i | 0 <= i < |hops| :: hops[i].citation == o.citations[i] && hops[i].resolves == Resolves(env, o.citations[i])
    ensures forall i | 0 <= i < |hops| :: WalkedRight(env, hops[i])
    ensures allResolve <==> AllCitationsResolve(env, o)
  {
    hops := [];
    allResolve := true;
    var i := 0;
    while i < |o.citations|
      invariant 0 <= i == |hops| <= |o.citations|
      invariant forall k | 0 <= k < i :: hops[k].citation == o.citations[k] && hops[k].resolves == Resolves(env, o.citations[k])
      invariant forall k | 0 <= k < i :: WalkedRight(env, hops[k])
      invariant allResolve <==> forall k | 0 <= k < i :: hops[k].resolves
    {
      var c := o.citations[i];
      var loaded := c.sourceId in env.sources;
      var data := if loaded then env.sources[c.sourceId] else [];
      var inRange := loaded && 0 <= c.start < c.end <= |data|;
      var span := if inRange then data[c.start..c.end] else [];
      var resolves := inRange && env.hash(span) == c.contentHash;
      hops := hops + [Hop(c, loaded, inRange, |span|, resolves)];
      allResolve := allResolve && resolves;
      i := i + 1;
    }
    allResolve := hops != [] && allResolve;
  }

  predicate AllCitationsResolve(env: Env, o: ArmOutcome) {
    o.citations != [] && forall i | 0 <= i < |o.citations| :: Resolves(env, o.citations[i])
  }

  /** Whether the mixed workload hands the task on. */
  predicate Escalates(o: ArmOutcome) {
    Abstained(o) || |o.citations| < MINIMUM_GROUNDED_SPANS || !o.answerFormValid
  }

  datatype Disposition = Grounded | TypedAbstention | UngroundedAssertion | NotAFactualOutput

  function DispositionOf(task: Task, o: ArmOutcome, allResolve: bool): Disposition {
    if task.kind.ClosedFormComputation? then NotAFactualOutput
    else if Abstained(o) then TypedAbstention
    else if allResolve then Grounded else UngroundedAssertion
  }

  // ----- What the record counts -----

  datatype Entry = Entry(task: Task, outcome: ArmOutcome)

  datatype Feature =
    | IsVerified | IsUndecidable | IsAbstained | IsGrounded | IsUngrounded | IsFactualAbstention | IsNotFactual
    | IsEscalated | IsGroundedAndWellFormed | IsMalformed

  predicate Has(env: Env, e: Entry, feature: Feature) {
    var disposition := DispositionOf(e.task, e.outcome, AllCitationsResolve(env, e.outcome));
    match feature
    case IsVerified => !Abstained(e.outcome) && env.verify(e.task, e.outcome).Passed?
    case IsUndecidable => !Abstained(e.outcome) && env.verify(e.task, e.outcome).VerifierError?
    case IsAbstained => Abstained(e.outcome)
    case IsGrounded => disposition.Grounded?
    case IsUngrounded => disposition.UngroundedAssertion?
    case IsFactualAbstention => disposition.TypedAbstention?
    case IsNotFactual => disposition.NotAFactualOutput?
    case IsEscalated => Escalates(e.outcome)
    case IsGroundedAndWellFormed => disposition.Grounded? && e.outcome.answerFormValid
    case IsMalformed => !e.outcome.answerFormValid
  }

  function Count(env: Env, s: seq<Entry>, feature: Feature): (n: nat)
    ensures n <= |s|
  {
    if s == [] then 0 else Count(env, s[..|s| - 1], feature) + (if Has(env, s[|s| - 1], feature) then 1 else 0)
  }

  datatype Measure = ExternalCalls | LocalCalls | InputTokens | OutputTokens

  function MeasureOf(o: ArmOutcome, measure: Measure): int {
    match measure
    case ExternalCalls => o.externalCalls
    case LocalCalls => o.localCalls
    case InputTokens => o.inputTokens
    case OutputTokens => o.outputTokens
  }

  function Sum(s: seq<Entry>, measure: Measure): int {
    if s == [] then 0 else Sum(s[..|s| - 1], measure) + MeasureOf(s[|s| - 1].outcome, measure)
  }

  function SumSeconds(s: seq<Entry>): real {
    if s == [] then 0.0 else SumSeconds(s[..|s| - 1]) + s[|s| - 1].outcome.seconds
  }

  function Cost(calls: int, tokens: int, seconds: real): real {
    calls as real * 1.0 + tokens as real / 1000.0 * 0.5 + seconds * 0.01
  }

  /** The cost of a list of outcomes. */
  function AccountedCost(s: seq<Entry>): real {
    Cost(Sum(s, ExternalCalls), Sum(s, InputTokens) + Sum(s, OutputTokens), SumSeconds(s))
  }

  lemma CountOfAppend(env: Env, s: seq<Entry>, e: Entry, feature: Feature)
    ensures Count(env, s + [e], feature) == Count(env, s, feature) + (if Has(env, e, feature) then 1 else 0)
  {
    assert (s + [e])[..|s|] == s;
  }

  lemma SumOfAppend(s: seq<Entry>, e: Entry, measure: Measure)
    ensures Sum(s + [e], measure) == Sum(s, measure) + MeasureOf(e.outcome, measure)
    ensures SumSeconds(s + [e]) == SumSeconds(s) + e.outcome.seconds
  {
    assert (s + [e])[..|s|] == s;
  }

  /** The counts and sums of a list of outcomes. */
  datatype Totals = Totals(
    tasks: nat, verified: nat, undecidable: nat, abstained: nat, grounded: nat, ungrounded: nat, escalated: nat,
    externalCalls: int, localCalls: int, inputTokens: int, outputTokens: int, seconds: real)

  function TotalsOf(env: Env, s: seq<Entry>): Totals {
    Totals(|s|, Count(env, s, IsVerified), Count(env, s, IsUndecidable), Count(env, s, IsAbstained), Count(env, s, IsGrounded),
           Count(env, s, IsUngrounded), Count(env, s, IsEscalated), Sum(s, ExternalCalls), Sum(s, LocalCalls),
           Sum(s, InputTokens), Sum(s, OutputTokens), SumSeconds(s))
  }

  /** What the record keeps of one task. */
  datatype Row = Row(
    verified: bool, undecidable: bool, abstained: bool, disposition: Disposition, citationsResolve: bool, escalated: bool)

  function RowOf(env: Env, e: Entry): Row {
    var allResolve := AllCitationsResolve(env, e.outcome);
    Row(Has(env, e, IsVerified), Has(env, e, IsUndecidable), Abstained(e.outcome), DispositionOf(e.task, e.outcome, allResolve),
        allResolve, Escalates(e.outcome))
  }

  /** The rows by task id; a later outcome of the same id replaces an earlier one. */
  function PerTask(env: Env, s: seq<Entry>): map<string, Row> {
    if s == [] then map[] else PerTask(env, s[..|s| - 1])[s[|s| - 1].task.id := RowOf(env, s[|s| - 1])]
  }

  function One(b: bool): nat {
    if b then 1 else 0
  }

  function Plus(t: Totals, o: ArmOutcome, row: Row): Totals {
    Totals(t.tasks + 1, t.verified + One(row.verified), t.undecidable + One(row.undecidable), t.abstained + One(row.abstained),
           t.grounded + One(row.disposition.Grounded?), t.ungrounded + One(row.disposition.UngroundedAssertion?),
           t.escalated + One(row.escalated), t.externalCalls + o.externalCalls, t.localCalls + o.localCalls,
           t.inputTokens + o.inputTokens, t.outputTokens + o.outputTokens, t.seconds + o.seconds)
  }

  lemma TotalsOfAppend(env: Env, s: seq<Entry>, e: Entry)
    ensures TotalsOf(env, s + [e]) == Plus(TotalsOf(env, s), e.outcome, RowOf(env, e))
  {
    CountOfAppend(env, s, e, IsVerified);
    CountOfAppend(env, s, e, IsUndecidable);
    CountOfAppend(env, s, e, IsAbstained);
    CountOfAppend(env, s, e, IsGrounded);
    CountOfAppend(env, s, e, IsUngrounded);
    CountOfAppend(env, s, e, IsEscalated);
    SumOfAppend(s, e, ExternalCalls);
    SumOfAppend(s, e, LocalCalls);
    SumOfAppend(s, e, InputTokens);
    SumOfAppend(s, e, OutputTokens);
  }

  lemma PerTaskOfAppend(env: Env, s: seq<Entry>, e: Entry)
    ensures PerTask(env, s + [e]) == PerTask(env, s)[e.task.id := RowOf(env, e)]
  {
    assert (s + [e])[..|s|] == s;
  }

  // ----- One run -----

  datatype Failure = NoSuchArm | VerifiersUnavailable | AnswererRaised | ExternalProviderRefused | TaskVerifierMissing(task: string)

  datatype Run = Completed(entries: seq<Entry>) | Aborted(failure: Failure)

  /** The answerer keeps a ledger of its own; None is an exception. */
  type Answerer<!L> = (L, Task) -> (L, Option<ArmOutcome>)

  /** The answers an arm gives, one task after another, or where the run ends early. */
  function AnswerAll<L>(env: Env, arm: Arm, tasks: seq<Task>, answer: Answerer<L>, ledger: L): (L, Run)
    decreases |tasks|
  {
    if tasks == [] then (ledger, Completed([]))
    else
      var (after, outcome) := answer(ledger, tasks[0]);
      if outcome.None? then (after, Aborted(AnswererRaised))
      else if outcome.value.externalCalls != 0 && !ExternalCallsPermitted(arm) then (after, Aborted(ExternalProviderRefused))
      else if !Abstained(outcome.value) && env.verify(tasks[0], outcome.value).VerifierMissing? then
        (after, Aborted(TaskVerifierMissing(tasks[0].id)))
      else
        var (last, rest) := AnswerAll(env, arm, tasks[1..], answer, after);
        (last, if rest.Completed? then Completed([Entry(tasks[0], outcome.value)] + rest.entries) else rest)
  }

  function RunOf<L>(env: Env, arm: Arm, tasks: seq<Task>, answer: Answerer<L>, ledger: L): (L, Run) {
    if arm.UnknownArm? then (ledger, Aborted(NoSuchArm))
    else if !env.verifiersReady then (ledger, Aborted(VerifiersUnavailable))
    else AnswerAll(env, arm, tasks, answer, ledger)
  }

  class ArmAccounting {
    var tasks: nat
    var verified: nat
    var undecidable: nat
    var abstained: nat
    var grounded: nat
    var ungroundedAssertions: nat
    var escalated: nat
    var externalProviderCalls: int
    var localModelCalls: int
    var inputTokens: int
    var outputTokens: int
    var localComputeSeconds: real
    var accountedCostUnits: real
    var perTask: map<string, Row>

    constructor ()
      ensures tasks == verified == undecidable == abstained == grounded == ungroundedAssertions == escalated == 0
      ensures externalProviderCalls == localModelCalls == inputTokens == outputTokens == 0
      ensures localComputeSeconds == accountedCostUnits == 0.0 && perTask == map[]
    {
      tasks, verified, undecidable, abstained := 0, 0, 0, 0;
      grounded, ungroundedAssertions, escalated := 0, 0, 0;
      externalProviderCalls, localModelCalls, inputTokens, outputTokens := 0, 0, 0, 0;
      localComputeSeconds, accountedCostUnits, perTask := 0.0, 0.0, map[];
    }

    ghost function Value(): Totals
      reads this
    {
      Totals(tasks, verified, undecidable, abstained, grounded, ungroundedAssertions, escalated, externalProviderCalls,
             localModelCalls, inputTokens, outputTokens, localComputeSeconds)
    }

    /** One task's outcome, graded and added to the record. */
    method Add(taskId: string, o: ArmOutcome, row: Row)
      modifies this
      ensures Value() == Plus(old(Value()), o, row) && perTask == old(perTask)[taskId := row]
    {
      AddRow(row);
      AddUsage(o);
      perTask := perTask[taskId := row];
    }

    method AddRow(row: Row)
      modifies this`tasks, this`verified, this`undecidable, this`abstained, this`escalated, this`grounded, this`ungroundedAssertions
      ensures tasks == old(tasks) + 1
      ensures verified == old(verified) + One(row.verified) && undecidable == old(undecidable) + One(row.undecidable)
      ensures abstained == old(abstained) + One(row.abstained) && escalated == old(escalated) + One(row.escalated)
      ensures grounded == old(grounded) + One(row.disposition.Grounded?)
      ensures ungroundedAssertions == old(ungroundedAssertions) + One(row.disposition.UngroundedAssertion?)
    {
      tasks, verified, undecidable := tasks + 1, verified + One(row.verified), undecidable + One(row.undecidable);
      abstained, escalated := abstained + One(row.abstained), escalated + One(row.escalated);
      grounded := grounded + One(row.disposition.Grounded?);
      ungroundedAssertions := ungroundedAssertions + One(row.disposition.UngroundedAssertion?);
    }

    method AddUsage(o: ArmOutcome)
      modifies this`externalProviderCalls, this`localModelCalls, this`inputTokens, this`outputTokens, this`localComputeSeconds
      ensures externalProviderCalls == old(externalProviderCalls) + o.externalCalls
      ensures localModelCalls == old(localModelCalls) + o.localCalls
      ensures inputTokens == old(inputTokens) + o.inputTokens && outputTokens == old(outputTokens) + o.outputTokens
      ensures localComputeSeconds == old(localComputeSeconds) + o.seconds
    {
      externalProviderCalls := externalProviderCalls + o.externalCalls;
      localModelCalls := localModelCalls + o.localCalls;
      inputTokens, outputTokens := inputTokens + o.inputTokens, outputTokens + o.outputTokens;
      localComputeSeconds := localComputeSeconds + o.seconds;
    }

    /** The cost, computed from one outcome that carries the totals. */
    method Settle(env: Env, ghost s: seq<Entry>)
      requires Value() == TotalsOf(env, s)
      modifies this`accountedCostUnits
      ensures Value() == TotalsOf(env, s) && accountedCostUnits == AccountedCost(s)
    {
      var total := ArmOutcome(Some(""), [], true, externalProviderCalls, 0, inputTokens, outputTokens, localComputeSeconds);
      CostOfOne(Entry(Task("_total", DeclarativeFact), total));
      accountedCostUnits := AccountedCost([Entry(Task("_total", DeclarativeFact), total)]);
    }
  }

  /** Runs the task's verifier, unless the arm abstained, and walks the citations. */
  method Grade(env: Env, task: Task, o: ArmOutcome) returns (row: Row)
    ensures row == RowOf(env, Entry(task, o))
  {
    var verified, undecidable := false, false;
    if !Abstained(o) {
      var verdict := env.verify(task, o);
      verified, undecidable := verdict.Passed?, verdict.VerifierError?;
    }
    var hops, allResolve := WalkAnswerCitations(env, o);
    row := Row(verified, undecidable, Abstained(o), DispositionOf(task, o, allResolve), allResolve, Escalates(o));
  }

  /**
   One arm over one task set. When the run completes, the record holds the counts and sums over
   all outcomes, and its cost, computed from one summed outcome, is the cost of the whole list.
   */
  method RunArm<L>(env: Env, arm: Arm, tasks: seq<Task>, answer: Answerer<L>, before: L)
    returns (ledger: L, failure: Option<Failure>, accounting: ArmAccounting)
    ensures fresh(accounting)
    ensures var (after, run) := RunOf(env, arm, tasks, answer, before);
            && ledger == after
            && failure == (if run.Aborted? then Some(run.failure) else None)
            && (run.Completed? ==>
                  && accounting.Value() == TotalsOf(env, run.entries) && accounting.perTask == PerTask(env, run.entries)
                  && accounting.accountedCostUnits == AccountedCost(run.entries))
  {
    ledger := before;
    accounting := new ArmAccounting();
    if arm.UnknownArm? {
      failure := Some(NoSuchArm);
    } else if !env.verifiersReady {
      failure := Some(VerifiersUnavailable);
    } else {
      ghost var done;
      ledger, failure, done := AnswerEach(env, arm, tasks, answer, before, accounting);
      if failure.None? {
        accounting.Settle(env, done);
      }
    }
  }

  method AnswerEach<L>(env: Env, arm: Arm, tasks: seq<Task>, answer: Answerer<L>, before: L, accounting: ArmAccounting)
    returns (ledger: L, failure: Option<Failure>, ghost done: seq<Entry>)
    requires accounting.Value() == TotalsOf(env, []) && accounting.perTask == map[]
    modifies accounting
    ensures var (after, run) := AnswerAll(env, arm, tasks, answer, before);
            && ledger == after
            && failure == (if run.Aborted? then Some(run.failure) else None)
            && (run.Completed? ==> done == run.entries && accounting.Value() == TotalsOf(env, done) && accounting.perTask == PerTask(env, done))
  {
    ledger, done := before, [];
    var i := 0;
    assert tasks[0..] == tasks;
    ContinuedFromNothing(AnswerAll(env, arm, tasks, answer, before));
    while i < |tasks|
      invariant 0 <= i <= |tasks|
      invariant accounting.Value() == TotalsOf(env, done) && accounting.perTask == PerTask(env, done)
      invariant AnswerAll(env, arm, tasks, answer, before) == Continued(done, AnswerAll(env, arm, tasks[i..], answer, ledger))
    {
      assert tasks[i..][0] == tasks[i] && tasks[i..][1..] == tasks[i + 1..];
      var (after, outcome) := answer(ledger, tasks[i]);
      ledger := after;
      if outcome.None? {
        failure := Some(AnswererRaised);
        return;
      }
      var o := outcome.value;
      if o.externalCalls != 0 && !ExternalCallsPermitted(arm) {
        failure := Some(ExternalProviderRefused);
        return;
      }
      if !Abstained(o) && env.verify(tasks[i], o).VerifierMissing? {
        failure := Some(TaskVerifierMissing(tasks[i].id));
        return;
      }
      var row := Grade(env, tasks[i], o);
      accounting.Add(tasks[i].id, o, row);
      TotalsOfAppend(env, done, Entry(tasks[i], o));
      PerTaskOfAppend(env, done, Entry(tasks[i], o));
      ContinuedStep(done, Entry(tasks[i], o), AnswerAll(env, arm, tasks[i + 1..], answer, ledger));
      done := done + [Entry(tasks[i], o)];
      i := i + 1;
    }
    assert done + [] == done;
    failure := None;
  }

  ghost function Continued<L>(done: seq<Entry>, rest: (L, Run)): (L, Run) {
    (rest.0, if rest.1.Completed? then Completed(done + rest.1.entries) else rest.1)
  }

  lemma ContinuedFromNothing<L>(rest: (L, Run))
    ensures Continued([], rest) == rest
  {
    if rest.1.Completed? {
      assert [] + rest.1.entries == rest.1.entries;
    }
  }

  lemma ContinuedStep<L>(done: seq<Entry>, e: Entry, rest: (L, Run))
    ensures Continued(done, (rest.0, if rest.1.Completed? then Completed([e] + rest.1.entries) else rest.1))
         == Continued(done + [e], rest)
  {
    if rest.1.Completed? {
      assert done + ([e] + rest.1.entries) == (done + [e]) + rest.1.entries;
    }
  }

  lemma CostOfOne(e: Entry)
    ensures AccountedCost([e]) == Cost(e.outcome.externalCalls, e.outcome.inputTokens + e.outcome.outputTokens, e.outcome.seconds)
  {
    assert [] + [e] == [e];
    SumOfAppend([], e, ExternalCalls);
    SumOfAppend([], e, InputTokens);
    SumOfAppend([], e, OutputTokens);
  }

  // ----- Main results -----

  /** No entry has both features. */
  ghost predicate Exclude(env: Env, s: seq<Entry>, a: Feature, b: Feature) {
    forall e | e in s :: !(Has(env, e, a) && Has(env, e, b))
  }

  lemma {:induction false} ExclusiveCounts(env: Env, s: seq<Entry>, a: Feature, b: Feature)
    requires Exclude(env, s, a, b)
    ensures Count(env, s, a) + Count(env, s, b) <= |s|
  {
    if s != [] {
      ExclusiveCounts(env, s[..|s| - 1], a, b);
      assert s[|s| - 1] in s;
    }
  }

  lemma {:induction false} DispositionsPartition(env: Env, s: seq<Entry>)
    ensures Count(env, s, IsGrounded) + Count(env, s, IsUngrounded) + Count(env, s, IsFactualAbstention) + Count(env, s, IsNotFactual)
         == |s|
  {
    if s != [] {
      DispositionsPartition(env, s[..|s| - 1]);
    }
  }

  lemma {:induction false} VerdictsPartition(env: Env, s: seq<Entry>)
    ensures Count(env, s, IsVerified) + Count(env, s, IsUndecidable) + Count(env, s, IsAbstained) <= |s|
  {
    if s != [] {
      VerdictsPartition(env, s[..|s| - 1]);
    }
  }

  /**
   In a record of any run: the four dispositions split the tasks; verified, undecidable and
   abstained tasks are different ones; and a task that is grounded in a well-formed answer is
   never escalated.
   */
  lemma {:induction false} RecordIsConsistent(env: Env, s: seq<Entry>)
    ensures var a := TotalsOf(env, s);
            && a.grounded + a.ungrounded + Count(env, s, IsFactualAbstention) + Count(env, s, IsNotFactual) == a.tasks
            && a.verified + a.undecidable + a.abstained <= a.tasks
            && a.escalated + Count(env, s, IsGroundedAndWellFormed) <= a.tasks
            && a.grounded + a.abstained <= a.tasks && Count(env, s, IsFactualAbstention) <= a.abstained <= a.escalated
  {
    DispositionsPartition(env, s);
    VerdictsPartition(env, s);
    ExclusiveCounts(env, s, IsEscalated, IsGroundedAndWellFormed);
    ExclusiveCounts(env, s, IsGrounded, IsAbstained);
    CountsImply(env, s, IsFactualAbstention, IsAbstained);
    CountsImply(env, s, IsAbstained, IsEscalated);
  }

  lemma {:induction false} CountsImply(env: Env, s: seq<Entry>, a: Feature, b: Feature)
    requires forall e | e in s :: Has(env, e, a) ==> Has(env, e, b)
    ensures Count(env, s, a) <= Count(env, s, b)
  {
    if s != [] {
      CountsImply(env, s[..|s| - 1], a, b);
      assert s[|s| - 1] in s;
    }
  }

  ghost predicate DistinctTasks(s: seq<Entry>) {
    forall i, j | 0 <= i < j < |s| :: s[i].task.id != s[j].task.id
  }

  lemma {:induction false} RowsAreOfEntries(env: Env, s: seq<Entry>, id: string)
    ensures id in PerTask(env, s) <==> exists i :: 0 <= i < |s| && s[i].task.id == id
  {
    if s != [] {
      RowsAreOfEntries(env, s[..|s| - 1], id);
      assert s[|s| - 1].task.id == id ==> exists i :: 0 <= i < |s| && s[i].task.id == id;
    }
  }

  /** The row under an id is that of its last entry. */
  lemma {:induction false} RowIsTheLast(env: Env, s: seq<Entry>, i: nat)
    requires i < |s| && forall j | i < j < |s| :: s[j].task.id != s[i].task.id
    ensures s[i].task.id in PerTask(env, s) && PerTask(env, s)[s[i].task.id] == RowOf(env, s[i])
    decreases |s|
  {
    if i < |s| - 1 {
      RowIsTheLast(env, s[..|s| - 1], i);
    }
  }

  /**
   The record has a row for every task, as many rows as tasks if and only if no task id repeats,
   and then each task's own row.
   */
  lemma {:induction false} RowsAreExact(env: Env, s: seq<Entry>)
    ensures forall e | e in s :: e.task.id in PerTask(env, s)
    ensures |PerTask(env, s)| == |s| <==> DistinctTasks(s)
    ensures DistinctTasks(s) ==> forall e | e in s :: PerTask(env, s)[e.task.id] == RowOf(env, e)
  {
    forall e | e in s
      ensures e.task.id in PerTask(env, s)
      ensures DistinctTasks(s) ==> PerTask(env, s)[e.task.id] == RowOf(env, e)
    {
      var i :| 0 <= i < |s| && s[i] == e;
      RowsAreOfEntries(env, s, e.task.id);
      if DistinctTasks(s) {
        RowIsTheLast(env, s, i);
      }
    }
    RowsAreCounted(env, s);
  }

  lemma {:induction false} RowsAreCounted(env: Env, s: seq<Entry>)
    ensures |PerTask(env, s)| <= |s|
    ensures |PerTask(env, s)| == |s| <==> DistinctTasks(s)
  {
    if s != [] {
      var init, last := s[..|s| - 1], s[|s| - 1];
      RowsAreCounted(env, init);
      RowsAreOfEntries(env, init, last.task.id);
      LastIsDistinct(s);
      if last.task.id in PerTask(env, init) {
        assert PerTask(env, s).Keys == PerTask(env, init).Keys;
      } else {
        assert PerTask(env, s).Keys == PerTask(env, init).Keys + {last.task.id};
      }
    }
  }

  lemma LastIsDistinct(s: seq<Entry>)
    requires s != []
    ensures var init := s[..|s| - 1];
            DistinctTasks(s) <==> DistinctTasks(init) && !exists i :: 0 <= i < |init| && init[i].task.id == s[|s| - 1].task.id
  {
    var init := s[..|s| - 1];
    if DistinctTasks(s) {
      assert forall i | 0 <= i < |init| :: init[i] == s[i];
    }
    if exists i :: 0 <= i < |init| && init[i].task.id == s[|s| - 1].task.id {
      var i :| 0 <= i < |init| && init[i].task.id == s[|s| - 1].task.id;
      assert s[i].task.id == s[|s| - 1].task.id;
    }
  }

  lemma {:induction false} SumConcat(a: seq<Entry>, b: seq<Entry>, measure: Measure)
    ensures Sum(a + b, measure) == Sum(a, measure) + Sum(b, measure) && SumSeconds(a + b) == SumSeconds(a) + SumSeconds(b)
  {
    if b == [] {
      assert a + b == a;
    } else {
      assert (a + b)[..|a + b| - 1] == a + b[..|b| - 1];
      SumConcat(a, b[..|b| - 1], measure);
    }
  }

  /** However the outcomes are divided, the parts cost together what the whole costs. */
  lemma CostIsAdditive(a: seq<Entry>, b: seq<Entry>)
    ensures AccountedCost(a + b) == AccountedCost(a) + AccountedCost(b)
  {
    SumConcat(a, b, ExternalCalls);
    SumConcat(a, b, InputTokens);
    SumConcat(a, b, OutputTokens);
  }

  lemma {:induction false} EntriesAreTheTasks<L>(env: Env, arm: Arm, tasks: seq<Task>, answer: Answerer<L>, ledger: L)
    requires AnswerAll(env, arm, tasks, answer, ledger).1.Completed?
    ensures var s := AnswerAll(env, arm, tasks, answer, ledger).1.entries;
            && |s| == |tasks| && (forall i | 0 <= i < |s| :: s[i].task == tasks[i])
            && (!ExternalCallsPermitted(arm) ==> forall e | e in s :: e.outcome.externalCalls == 0)
    decreases |tasks|
  {
    if tasks != [] {
      EntriesAreTheTasks(env, arm, tasks[1..], answer, answer(ledger, tasks[0]).0);
    }
  }

  lemma {:induction false} NoCallsSumToZero(s: seq<Entry>)
    requires forall e | e in s :: e.outcome.externalCalls == 0
    ensures Sum(s, ExternalCalls) == 0
  {
    if s != [] {
      assert s[|s| - 1] in s;
      NoCallsSumToZero(s[..|s| - 1]);
    }
  }

  /** A completed run has one entry for each task, in order, and an arm that may not call out made no external call. */
  lemma CompletedRunAnswersEveryTask<L>(env: Env, arm: Arm, tasks: seq<Task>, answer: Answerer<L>, ledger: L)
    requires RunOf(env, arm, tasks, answer, ledger).1.Completed?
    ensures var s := RunOf(env, arm, tasks, answer, ledger).1.entries;
            && |s| == |tasks| && (forall i | 0 <= i < |s| :: s[i].task == tasks[i])
            && (!ExternalCallsPermitted(arm) ==> Sum(s, ExternalCalls) == 0)
  {
    EntriesAreTheTasks(env, arm, tasks, answer, ledger);
    var s := AnswerAll(env, arm, tasks, answer, ledger).1.entries;
    if !ExternalCallsPermitted(arm) {
      NoCallsSumToZero(s);
    }
  }

  lemma {:induction false} SameAnswersWhenPermitted<L>(env: Env, arm: Arm, other: Arm, tasks: seq<Task>, answer: Answerer<L>, ledger: L)
    requires ExternalCallsPermitted(other) && AnswerAll(env, other, tasks, answer, ledger).1.Completed?
    ensures var s := AnswerAll(env, other, tasks, answer, ledger).1.entries;
            var run := AnswerAll(env, arm, tasks, answer, ledger).1;
            if ExternalCallsPermitted(arm) || forall e | e in s :: e.outcome.externalCalls == 0
            then run == Completed(s) else run == Aborted(ExternalProviderRefused)
    decreases |tasks|
  {
    if tasks != [] {
      var (after, outcome) := answer(ledger, tasks[0]);
      var rest := AnswerAll(env, other, tasks[1..], answer, after).1.entries;
      var e := Entry(tasks[0], outcome.value);
      SameAnswersWhenPermitted(env, arm, other, tasks[1..], answer, after);
      assert AnswerAll(env, other, tasks, answer, ledger).1.entries == [e] + rest;
      assert forall x :: x in [e] + rest <==> x == e || x in rest;
    }
  }

  /**
   The boundary is exact. Where nothing else raises, that is, where the answers of the same
   answerer, whatever its ledger, are all accepted from an arm that may call out, a run of any
   known arm completes with those answers if and only if the arm may call out or none of them
   took an external call; otherwise the provider is refused.
   */
  lemma {:induction false} BoundaryIsExact<L>(env: Env, arm: Arm, tasks: seq<Task>, answer: Answerer<L>, ledger: L)
    requires !arm.UnknownArm? && RunOf(env, MixedWorkload, tasks, answer, ledger).1.Completed?
    ensures var s := RunOf(env, MixedWorkload, tasks, answer, ledger).1.entries;
            RunOf(env, arm, tasks, answer, ledger).1
            == if ExternalCallsPermitted(arm) || forall e | e in s :: e.outcome.externalCalls == 0
               then Completed(s) else Aborted(ExternalProviderRefused)
  {
    SameAnswersWhenPermitted(env, arm, MixedWorkload, tasks, answer, ledger);
  }
}
