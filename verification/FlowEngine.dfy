/**
 The workflow engine as a state machine: what `run`, `resume` and `rerun_step` do to the
 in-memory records, the run store and the agents, for every behaviour of the agents,
 hooks, approval handlers and cancellation requests around it.
 */
module FlowEngine {
  import opened FlowGraph
  import opened Wrappers

  datatype Status = Pending | Running | Success | Failed | Skipped | WaitingApproval

  /** When an executed step started and ended, in ticks of the engine, and the query its agent was given. */
  datatype Span = Span(startedAt: nat, endedAt: nat, input: string)

  datatype StepResult = StepResult(
    name: string,
    content: string,
    error: Option<string>,
    attempts: nat,
    status: Status,
    span: Option<Span>,
    retryCount: nat,
    usedFallback: bool)

  datatype Record = Record(
    runId: string,
    query: string,
    status: Status,
    error: Option<string>,
    steps: seq<StepResult>)

  datatype FlowResult = FlowResult(
    content: string,
    steps: seq<StepResult>,
    error: Option<string>,
    runId: string,
    status: Status)

  datatype Problem =
    | InvalidFlow(issue: Issue)
    | RunNotFound
    | StepNotFound
    | UnsafeRunId
    | Escaped

  datatype Outcome = Returned(result: FlowResult) | Raised(problem: Problem)

  // ----- The environment -----

  datatype RawResult =
    | Structured(content: string, error: Option<string>)
    | Text(text: string)
    | Nothing

  /** `late` replies come after the step's timeout, if it has one. */
  datatype AgentReply =
    | AgentRaises(late: bool)
    | AgentReturns(raw: RawResult, late: bool)

  datatype CancelAnswer = CancelRaises | Cancels | Continues

  /** The folded decision of the `before_flow_step` hooks. */
  datatype HookAnswer =
    | HookContinues
    | HookRewrites(query: string)
    | HookBlocks(reason: Option<string>)

  datatype ApprovalAnswer =
    | ApprovalRaises
    | Plain(verdict: Option<bool>)
    | Message(text: string)
    | Table(approved: bool, reason: Option<string>)
    | Other(truthy: bool)

  /**
   Everything outside the engine. Each consultation happens at its own tick, so a value of
   this type is an arbitrary sequence of outcomes, whatever the state behind them.
   `interrupts` stops the engine right after a checkpoint.
   */
  datatype Env = Env(
    agent: (nat, string, bool, string) -> AgentReply,
    render: (nat, string, string, seq<StepResult>) -> Option<string>,
    cancelIf: (nat, string, seq<StepResult>) -> CancelAnswer,
    hook: (nat, string, string) -> HookAnswer,
    approve: (nat, string, seq<StepResult>) -> ApprovalAnswer,
    cancels: nat -> bool,
    interrupts: nat -> bool)

  datatype AgentCall = AgentCall(step: string, fallback: bool, query: string)

  datatype FlowState = FlowState(
    steps: seq<Step>,
    records: map<string, Record>,
    files: Option<map<string, Record>>,
    cancelled: bool,
    clock: nat,
    calls: seq<AgentCall>)

  // ----- One step -----

  predicate Truthy(s: Option<string>) {
    s.Some? && s.value != ""
  }

  function Or(s: Option<string>, default: string): string {
    if Truthy(s) then s.value else default
  }

  datatype Answer = NoAnswer | Answered(content: string, error: Option<string>)

  function Normalize(raw: RawResult): Answer {
    match raw
    case Structured(content, error) => Answered(content, error)
    case Text(text) => Answered(text, if "[LA-" <= text then Some(text) else None)
    case Nothing => Answered("", None)
  }

  function TimeoutMessage(step: Step, fallback: bool): string {
    (if fallback then "fallback for step `" else "step `") + step.name + "` timed out"
  }

  function Heard(step: Step, fallback: bool, reply: AgentReply): Answer {
    if step.timeout.Some? && reply.late then
      var error := TimeoutMessage(step, fallback);
      Answered("[LA-FLOW-TIMEOUT] " + error, Some(error))
    else
      match reply
      case AgentRaises(_) => NoAnswer
      case AgentReturns(raw, _) => Normalize(raw)
  }

  function Called(s: FlowState, step: Step, fallback: bool, query: string): FlowState {
    s.(clock := s.clock + 1, calls := s.calls + [AgentCall(step.name, fallback, query)])
  }

  function ResultOf(step: Step, answer: Answer, attempts: nat, retryCount: nat, fallback: bool, span: Span): StepResult
    requires answer.Answered?
  {
    StepResult(step.name, answer.content, answer.error, attempts,
               if Truthy(answer.error) then Failed else Success, Some(span), retryCount, fallback)
  }

  /** Attempt number `attempt` and what follows it; no result when an exception escapes. */
  function TryFrom(env: Env, s: FlowState, step: Step, query: string, attempt: nat, startedAt: nat):
      (FlowState, Option<StepResult>)
    requires 1 <= attempt <= step.maxRetry
    decreases step.maxRetry - attempt
  {
    var s1 := Called(s, step, false, query);
    var answer := Heard(step, false, env.agent(s.clock, step.name, false, query));
    if answer.NoAnswer? then (s1, None)
    else
      var r := ResultOf(step, answer, attempt, attempt - 1, false, Span(startedAt, s1.clock, query));
      if answer.error.None? then (s1, Some(r))
      else if attempt < step.maxRetry then TryFrom(env, s1, step, query, attempt + 1, startedAt)
      else if Truthy(answer.error) && step.hasFallback then
        FallBack(env, s1, step, query, attempt, startedAt)
      else (s1, Some(r))
  }

  function FallBack(env: Env, s: FlowState, step: Step, query: string, attempts: nat, startedAt: nat):
      (FlowState, Option<StepResult>)
    requires attempts >= 1
  {
    var s1 := Called(s, step, true, query);
    var answer := Heard(step, true, env.agent(s.clock, step.name, true, query));
    if answer.NoAnswer? then (s1, None)
    else (s1, Some(ResultOf(step, answer, attempts + 1, attempts - 1, true, Span(startedAt, s1.clock, query))))
  }

  function RunStep(env: Env, s: FlowState, step: Step, query: string): (FlowState, Option<StepResult>) {
    if step.maxRetry >= 1 then TryFrom(env, s, step, query, 1, s.clock)
    else (s, Some(StepResult(step.name, "", Some("step did not run"), 1, Failed, None, 0, false)))
  }

  // ----- Deciding whether a step runs -----

  function Successes(results: seq<StepResult>): (r: seq<StepResult>)
    ensures forall x {:trigger x in r} :: x in r <==> x in results && x.status.Success?
  {
    if results == [] then []
    else
      var last := results[|results| - 1];
      assert results == results[..|results| - 1] + [last];
      Successes(results[..|results| - 1]) + if last.status.Success? then [last] else []
  }

  lemma {:induction false} SuccessesOfSuccesses(results: seq<StepResult>)
    requires forall r | r in results :: r.status.Success?
    ensures Successes(results) == results
  {
    if results != [] {
      var init := results[..|results| - 1];
      SuccessesOfSuccesses(init);
      assert results == init + [results[|results| - 1]];
    }
  }

  function ResultNames(results: seq<StepResult>): (names: seq<string>)
    ensures |names| == |results|
    ensures forall i | 0 <= i < |results| :: names[i] == results[i].name
  {
    seq(|results|, i requires 0 <= i < |results| => results[i].name)
  }

  /** The recorded output of a step, if it is there. */
  function OutputOf(context: seq<StepResult>, name: string): (r: Option<string>)
    ensures r.Some? <==> name in ResultNames(context)
    ensures r.Some? ==> exists i :: 0 <= i < |context| && context[i].name == name && context[i].content == r.value
  {
    if context == [] then None
    else
      var last := context[|context| - 1];
      assert ResultNames(context) == ResultNames(context[..|context| - 1]) + [last.name];
      if last.name == name then Some(last.content) else OutputOf(context[..|context| - 1], name)
  }

  /** One line per dependency; nothing when an output is missing. */
  function DependencyLines(context: seq<StepResult>, names: seq<string>): (r: Option<string>)
    ensures r.Some? <==> forall n | n in names :: n in ResultNames(context)
  {
    if names == [] then Some("")
    else
      var rest := DependencyLines(context, names[1..]);
      var output := OutputOf(context, names[0]);
      assert forall n | n in names :: n == names[0] || n in names[1..];
      if rest.None? || output.None? then None
      else Some(names[0] + ": " + output.value + (if |names| == 1 then "" else "\n" + rest.value))
  }

  const OutputsHeading := "\n\nPrevious step outputs:\n"

  function BuildQuery(env: Env, tick: nat, step: Step, query: string, context: seq<StepResult>): Option<string> {
    match step.query
    case CallableQuery => env.render(tick, step.name, query, context)
    case ConstantQuery(text) => Some(text)
    case DefaultQuery =>
      if step.dependsOn == [] then Some(query)
      else
        var lines := DependencyLines(context, step.dependsOn);
        if lines.None? then None else Some(query + OutputsHeading + lines.value)
  }

  datatype Approval = Approved | NotApproved(reason: Option<string>) | ApprovalFailed

  function CheckApproval(env: Env, tick: nat, step: Step, context: seq<StepResult>): Approval {
    if !step.requiresApproval then Approved
    else if !step.hasApprovalHandler then NotApproved(Some("approval required"))
    else
      match env.approve(tick, step.name, context)
      case ApprovalRaises => ApprovalFailed
      case Plain(verdict) => if verdict == Some(false) then NotApproved(Some("approval rejected")) else Approved
      case Message(text) => NotApproved(Some(text))
      case Table(approved, reason) => if approved then Approved else NotApproved(reason)
      case Other(truthy) => if truthy then Approved else NotApproved(None)
  }

  datatype Decision = Fails | Skips(reason: string) | Waits(reason: string) | Goes(query: string)

  function Decide(env: Env, tick: nat, cancelled: bool, step: Step, query: string, context: seq<StepResult>): Decision {
    if cancelled then Skips("cancelled before execution")
    else if step.hasCancelIf && env.cancelIf(tick, step.name, context).CancelRaises? then Fails
    else if step.hasCancelIf && env.cancelIf(tick, step.name, context).Cancels? then Skips("cancelled before execution")
    else
      var built := BuildQuery(env, tick, step, query, context);
      if built.None? then Fails
      else
        var answer := env.hook(tick, step.name, built.value);
        if answer.HookBlocks? then Skips(Or(answer.reason, "blocked by before_flow_step hook"))
        else
          var sent := if answer.HookRewrites? then answer.query else built.value;
          match CheckApproval(env, tick, step, context)
          case ApprovalFailed => Fails
          case NotApproved(reason) => Waits(Or(reason, "approval rejected"))
          case Approved => Goes(sent)
  }

  // ----- Checkpoints -----

  predicate SafeChar(c: char) {
    'a' <= c <= 'z' || 'A' <= c <= 'Z' || '0' <= c <= '9' || c == '-' || c == '_'
  }

  /** The file name a run is stored under: its safe characters. */
  function SafeId(runId: string): string {
    if runId == "" then ""
    else (if SafeChar(runId[0]) then [runId[0]] else "") + SafeId(runId[1..])
  }

  function PendingResult(step: Step): StepResult {
    StepResult(step.name, "", None, 0, Pending, None, 0, false)
  }

  function SkippedResult(step: Step, reason: string, status: Status): StepResult {
    StepResult(step.name, "", Some(reason), 0, status, None, 0, false)
  }

  function PendingOf(all: seq<Step>, results: seq<StepResult>): seq<StepResult> {
    if all == [] then []
    else
      var last := all[|all| - 1];
      PendingOf(all[..|all| - 1], results) +
      if last.name in ResultNames(results) then [] else [PendingResult(last)]
  }

  datatype Job = Job(runId: string, query: string, all: seq<Step>)

  /** The record of a run: what it has, and every step not reached as pending. */
  function Checkpoint(job: Job, status: Status, error: Option<string>, results: seq<StepResult>): Record {
    Record(job.runId, job.query, status, error, results + PendingOf(job.all, results))
  }

  /** Writes the record to memory and then to the store; false when the engine stops here. */
  function Save(env: Env, s: FlowState, job: Job, status: Status, error: Option<string>, results: seq<StepResult>):
      (FlowState, bool)
  {
    var record := Checkpoint(job, status, error, results);
    var s1 := s.(records := s.records[job.runId := record], clock := s.clock + 1);
    if s.files.None? then (s1, !env.interrupts(s.clock))
    else if SafeId(job.runId) == "" then (s1, false)
    else (s1.(files := Some(s.files.value[SafeId(job.runId) := record])), !env.interrupts(s.clock))
  }

  function RemainingSkipped(failed: Step, all: seq<Step>, seen: seq<string>): seq<StepResult> {
    if all == [] then []
    else
      var last := all[|all| - 1];
      RemainingSkipped(failed, all[..|all| - 1], seen) +
      if last.name !in seen && (failed.name in last.dependsOn || exists d | d in last.dependsOn :: d in seen)
      then [SkippedResult(last, "skipped after `" + failed.name + "` failed", Skipped)]
      else []
  }

  // ----- Executing -----

  function FinalContent(results: seq<StepResult>): string {
    var done := Successes(results);
    if done == [] then "" else done[|done| - 1].content
  }

  /** Executes the steps of `todo` in turn, given what the run already holds. */
  function Loop(env: Env, s: FlowState, job: Job, todo: seq<Step>, results: seq<StepResult>): (FlowState, Outcome)
    decreases |todo|, 1
  {
    if todo == [] then (s, Returned(FlowResult(FinalContent(results), results, None, job.runId, Success)))
    else
      var step := todo[0];
      var s1 := Polled(env, s);
      match Decide(env, s.clock, s1.cancelled, step, job.query, Successes(results))
      case Fails => (s1, Raised(Escaped))
      case Skips(reason) => Proceed(env, s1, job, todo, results, SkippedResult(step, reason, Skipped), false)
      case Waits(reason) => Suspend(env, s1, job, results, SkippedResult(step, reason, WaitingApproval))
      case Goes(query) =>
        var (s2, r) := RunStep(env, s1, step, query);
        if r.None? then (s2, Raised(Escaped))
        else Proceed(env, s2, job, todo, results, r.value, Truthy(r.value.error))
  }

  /** Checkpoints the result of the first step of `todo`, then stops or goes on with the others. */
  function Proceed(env: Env, s: FlowState, job: Job, todo: seq<Step>, results: seq<StepResult>, r: StepResult, stops: bool):
      (FlowState, Outcome)
    requires todo != []
    decreases |todo|, 0
  {
    var (s1, ok) := Save(env, s, job, r.status, r.error, results + [r]);
    if !ok then (s1, Raised(Escaped))
    else if stops then Stop(env, s1, job, todo[0], r, results + [r])
    else Loop(env, s1, job, todo[1..], results + [r])
  }

  /** A step that is not approved ends the run until it is resumed. */
  function Suspend(env: Env, s: FlowState, job: Job, results: seq<StepResult>, r: StepResult): (FlowState, Outcome) {
    var (s1, ok) := Save(env, s, job, r.status, r.error, results + [r]);
    (s1, if ok then Returned(FlowResult(FinalContent(results), results + [r], r.error, job.runId, r.status))
         else Raised(Escaped))
  }

  /** The clock moves and a cancellation requested by now takes effect. */
  function Polled(env: Env, s: FlowState): FlowState {
    s.(clock := s.clock + 1, cancelled := s.cancelled || env.cancels(s.clock))
  }

  /** A failed step ends the run; steps waiting on what was seen are recorded as skipped. */
  function Stop(env: Env, s: FlowState, job: Job, step: Step, r: StepResult, results: seq<StepResult>):
      (FlowState, Outcome)
  {
    var all := results + RemainingSkipped(step, job.all, ResultNames(results));
    var (s1, ok) := Save(env, s, job, Failed, r.error, all);
    (s1, if ok then Returned(FlowResult(r.content, all, r.error, job.runId, Failed)) else Raised(Escaped))
  }

  function Execute(env: Env, s: FlowState, job: Job, todo: seq<Step>, completed: seq<StepResult>): (FlowState, Outcome) {
    var (s1, ok) := Save(env, s, job, Running, None, completed);
    if ok then Loop(env, s1, job, todo, completed)
    else (s1, Raised(if s.files.Some? && SafeId(job.runId) == "" then UnsafeRunId else Escaped))
  }

  // ----- The operations -----

  datatype Lookup = Found(record: Record) | Missing | Unsafe

  function GetRun(s: FlowState, runId: string): Lookup {
    if runId in s.records then Found(s.records[runId])
    else if s.files.None? then Missing
    else if SafeId(runId) == "" then Unsafe
    else if SafeId(runId) in s.files.value then Found(s.files.value[SafeId(runId)])
    else Missing
  }

  function Without(steps: seq<Step>, names: set<string>): (r: seq<Step>)
    ensures forall x {:trigger x in r} :: x in r <==> x in steps && x.name !in names
  {
    if steps == [] then []
    else
      var last := steps[|steps| - 1];
      assert steps == steps[..|steps| - 1] + [last];
      Without(steps[..|steps| - 1], names) + if last.name in names then [] else [last]
  }

  function Only(steps: seq<Step>, names: set<string>): (r: seq<Step>)
    ensures forall x {:trigger x in r} :: x in r <==> x in steps && x.name in names
  {
    if steps == [] then []
    else
      var last := steps[|steps| - 1];
      assert steps == steps[..|steps| - 1] + [last];
      Only(steps[..|steps| - 1], names) + if last.name in names then [last] else []
  }

  /** The successful results outside `names`. */
  function Kept(results: seq<StepResult>, names: set<string>): (r: seq<StepResult>)
    ensures forall x {:trigger x in r} :: x in r <==> x in results && x.status.Success? && x.name !in names
  {
    if results == [] then []
    else
      var last := results[|results| - 1];
      assert results == results[..|results| - 1] + [last];
      Kept(results[..|results| - 1], names) + if last.status.Success? && last.name !in names then [last] else []
  }

  /** `OpRestart` is a new process over the same store: memory is lost, the files stay. */
  datatype Op =
    | OpRegister(step: Step, agentsRun: bool)
    | OpCancel
    | OpRun(runId: string, query: string)
    | OpResume(runId: string)
    | OpRerun(runId: string, stepName: string)
    | OpRestart

  predicate Executes(op: Op) {
    op.OpRun? || op.OpResume? || op.OpRerun?
  }

  /** The steps an operation will execute and the results it starts from. */
  datatype Plan = Plan(job: Job, todo: seq<Step>, completed: seq<StepResult>)

  function RunPlan(s: FlowState, runId: string, query: string): Plan {
    Plan(Job(runId, query, Ordered(s.steps)), Ordered(s.steps), [])
  }

  function ResumePlan(s: FlowState, runId: string, record: Record): Plan {
    var completed := Kept(record.steps, {});
    Plan(Job(runId, record.query, Ordered(s.steps)),
         Without(Ordered(s.steps), SetOf(ResultNames(completed))), completed)
  }

  ghost function RerunPlan(s: FlowState, runId: string, record: Record, stepName: string): Plan {
    var downstream := Downstream(s.steps, stepName);
    Plan(Job(runId, record.query, Ordered(s.steps)), Only(Ordered(s.steps), downstream), Kept(record.steps, downstream))
  }

  /** The operation is not refused: the flow is valid, and the run and the step it names exist. */
  ghost predicate Accepted(s: FlowState, op: Op) {
    && Executes(op) && Errors(s.steps) == []
    && (op.OpRun? || GetRun(s, op.runId).Found?)
    && (op.OpRerun? ==> op.stepName in Names(Ordered(s.steps)))
  }

  datatype Planned = Ready(plan: Plan) | Refused(problem: Problem)

  ghost function PlanOf(s: FlowState, op: Op): (p: Planned)
    requires Executes(op)
    ensures p.Ready? <==> Accepted(s, op)
  {
    if op.OpRun? then
      if Errors(s.steps) != [] then Refused(InvalidFlow(Errors(s.steps)[0]))
      else Ready(RunPlan(s, op.runId, op.query))
    else
      match GetRun(s, op.runId)
      case Missing => Refused(RunNotFound)
      case Unsafe => Refused(UnsafeRunId)
      case Found(record) =>
        if Errors(s.steps) != [] then Refused(InvalidFlow(Errors(s.steps)[0]))
        else if op.OpResume? then Ready(ResumePlan(s, op.runId, record))
        else if op.stepName !in Names(Ordered(s.steps)) then Refused(StepNotFound)
        else Ready(RerunPlan(s, op.runId, record, op.stepName))
  }

  /** Executes the plan of an operation; a refused operation changes nothing. */
  ghost function Perform(env: Env, s: FlowState, op: Op): (FlowState, Outcome)
    requires Executes(op)
  {
    match PlanOf(s, op)
    case Ready(plan) => Execute(env, s, plan.job, plan.todo, plan.completed)
    case Refused(problem) => (s, Raised(problem))
  }

  lemma {:induction false} ReadyIsPerformed(env: Env, s: FlowState, op: Op, plan: Plan)
    requires Executes(op) && PlanOf(s, op) == Ready(plan)
    ensures Perform(env, s, op) == Execute(env, s, plan.job, plan.todo, plan.completed)
  {
  }

  lemma {:induction false} RerunIsReady(s: FlowState, runId: string, stepName: string)
    requires GetRun(s, runId).Found? && Errors(s.steps) == [] && stepName in Names(Ordered(s.steps))
    ensures PlanOf(s, OpRerun(runId, stepName)) == Ready(RerunPlan(s, runId, GetRun(s, runId).record, stepName))
  {
  }

  lemma {:induction false} RerunIsExecuted(env: Env, s: FlowState, runId: string, stepName: string, record: Record)
    requires GetRun(s, runId) == Found(record) && Errors(s.steps) == [] && stepName in Names(Ordered(s.steps))
    ensures var plan := RerunPlan(s, runId, record, stepName);
            Perform(env, s, OpRerun(runId, stepName)) == Execute(env, s, plan.job, plan.todo, plan.completed)
  {
    RerunIsReady(s, runId, stepName);
    ReadyIsPerformed(env, s, OpRerun(runId, stepName), RerunPlan(s, runId, record, stepName));
  }

  /** What registering a step demands of it. */
  predicate Admissible(steps: seq<Step>, step: Step, agentsRun: bool) {
    && step.name != "" && step.name !in Names(steps) && agentsRun && step.maxRetry >= 1
    && (step.timeout.Some? ==> step.timeout.value > 0.0)
  }

  function Registered(s: FlowState, step: Step, agentsRun: bool): FlowState {
    if Admissible(s.steps, step, agentsRun) then s.(steps := s.steps + [step]) else s
  }

  // ----- Histories -----

  ghost function After(env: Env, s: FlowState, op: Op): FlowState {
    match op
    case OpRegister(step, agentsRun) => Registered(s, step, agentsRun)
    case OpCancel => s.(cancelled := true)
    case OpRestart => s.(records := map[], cancelled := false)
    case _ => Perform(env, s, op).0
  }

  lemma AfterPerforms(env: Env, s: FlowState, op: Op)
    requires Executes(op)
    ensures After(env, s, op) == Perform(env, s, op).0
  {
  }

  ghost function AfterAll(env: Env, s: FlowState, ops: seq<Op>): FlowState
    decreases |ops|
  {
    if ops == [] then s else AfterAll(env, After(env, s, ops[0]), ops[1..])
  }

  function Initial(stored: bool): FlowState {
    FlowState([], map[], if stored then Some(map[]) else None, false, 0, [])
  }
}
