/**
 The external teacher: every task gets up to three calls, every attempt is counted as a call,
 and three ledgers record what came of them. The calls the runner accumulates are compared
 with the calls the ledgers account for.
 */
module Teacher {
  import opened Benchmark
  import opened Wrappers

  const EXTERNAL_ATTEMPTS := 3

  datatype Attempt = Attempt(taskId: string, number: nat, quota: bool)

  /** Calls that were answered, calls that failed, tasks that ran out of attempts, and tasks with an unreadable answer. */
  datatype Ledger = Ledger(receipts: seq<string>, failures: seq<Attempt>, exhausted: seq<string>, malformed: seq<string>)

  const Unused := Ledger([], [], [], [])

  function Calls(l: Ledger): nat {
    |l.receipts| + |l.failures|
  }

  datatype CallResult = Answered(text: string, inputTokens: int, outputTokens: int) | ProviderError(quota: bool) | OtherError

  /** The provider answers the n-th call of the process in any way; `read` is the form the task asks for. */
  datatype Service = Service(provider: nat -> CallResult, read: (Task, string) -> (Option<string>, bool))

  function AnsweredOutcome(svc: Service, task: Task, result: CallResult, attempts: nat): ArmOutcome
    requires result.Answered?
  {
    var (answer, wellFormed) := svc.read(task, result.text);
    ArmOutcome(answer, [], wellFormed, attempts, 0, result.inputTokens, result.outputTokens, 0.0)
  }

  function ExhaustedOutcome(): ArmOutcome {
    ArmOutcome(Some(""), [], false, EXTERNAL_ATTEMPTS, 0, 0, 0, 0.0)
  }

  /** The attempts at one task from the `done`-th on; None is an exception that ends the arm. */
  function AttemptsFrom(svc: Service, l: Ledger, task: Task, done: nat): (Ledger, Option<ArmOutcome>)
    requires done <= EXTERNAL_ATTEMPTS
    decreases EXTERNAL_ATTEMPTS - done
  {
    if done == EXTERNAL_ATTEMPTS then (l.(exhausted := l.exhausted + [task.id]), Some(ExhaustedOutcome()))
    else
      match svc.provider(Calls(l))
      case Answered(_, _, _) =>
        var outcome := AnsweredOutcome(svc, task, svc.provider(Calls(l)), done + 1);
        (l.(receipts := l.receipts + [task.id],
            malformed := if outcome.answerFormValid then l.malformed else l.malformed + [task.id]), Some(outcome))
      case ProviderError(quota) =>
        var l1 := l.(failures := l.failures + [Attempt(task.id, done + 1, quota)]);
        if quota then (l1, None) else AttemptsFrom(svc, l1, task, done + 1)
      case OtherError => (l, None)
  }

  function Answer(svc: Service, l: Ledger, task: Task): (Ledger, Option<ArmOutcome>) {
    AttemptsFrom(svc, l, task, 0)
  }

  class ExternalTeacher {
    const service: Service
    var receipts: seq<string>
    var providerFailures: seq<Attempt>
    var exhausted: seq<string>
    var malformed: seq<string>

    constructor (service: Service)
      ensures this.service == service && Value() == Unused
    {
      this.service := service;
      receipts, providerFailures, exhausted, malformed := [], [], [], [];
    }

    ghost function Value(): Ledger
      reads this
    {
      Ledger(receipts, providerFailures, exhausted, malformed)
    }

    /** One call; a receipt is left when it is answered, and a note when the answer does not have the form asked for. */
    method OneCall(task: Task, attempts: nat) returns (result: CallResult, outcome: Option<ArmOutcome>)
      modifies this`receipts, this`malformed
      ensures result == service.provider(Calls(old(Value())))
      ensures receipts == old(receipts) + (if result.Answered? then [task.id] else [])
      ensures malformed == old(malformed) + (if outcome.Some? && !outcome.value.answerFormValid then [task.id] else [])
      ensures outcome == if result.Answered? then Some(AnsweredOutcome(service, task, result, attempts)) else None
    {
      result := service.provider(|receipts| + |providerFailures|);
      outcome := None;
      if result.Answered? {
        receipts := receipts + [task.id];
        outcome := Some(AnsweredOutcome(service, task, result, attempts));
        if !outcome.value.answerFormValid {
          malformed := malformed + [task.id];
        }
      }
    }

    /** One task, up to three calls, every attempt counted; None when the arm is abandoned. */
    method AnswerWithAttempts(task: Task) returns (outcome: Option<ArmOutcome>)
      modifies this
      ensures (Value(), outcome) == Answer(service, old(Value()), task)
    {
      var attempts := 0;
      while attempts < EXTERNAL_ATTEMPTS
        invariant 0 <= attempts <= EXTERNAL_ATTEMPTS
        invariant AttemptsFrom(service, Value(), task, attempts) == Answer(service, old(Value()), task)
      {
        ghost var l := Value();
        var result;
        result, outcome := OneCall(task, attempts + 1);
        assert l.receipts + [] == l.receipts && l.malformed + [] == l.malformed;
        if result.Answered? || result.OtherError? {
          return;
        }
        attempts := attempts + 1;
        providerFailures := providerFailures + [Attempt(task.id, attempts, result.quota)];
        assert Value() == l.(failures := l.failures + [Attempt(task.id, attempts, result.quota)]);
        if result.quota {
          return None;
        }
      }
      exhausted := exhausted + [task.id];
      outcome := Some(ExhaustedOutcome());
    }
  }

  // ----- One task -----

  /** What the ledgers gained from `a` to `b` and one outcome agree. */
  ghost predicate Booked(a: Ledger, b: Ledger, task: Task, o: ArmOutcome) {
    && a.receipts <= b.receipts && a.failures <= b.failures && a.exhausted <= b.exhausted
    && o.externalCalls == Calls(b) - Calls(a) && 1 <= o.externalCalls <= EXTERNAL_ATTEMPTS
    && (|b.receipts| - |a.receipts|) + (|b.exhausted| - |a.exhausted|) == 1
    && (|b.malformed| - |a.malformed|) + (|b.exhausted| - |a.exhausted|) == (if o.answerFormValid then 0 else 1)
    && (|b.exhausted| > |a.exhausted| ==> |b.failures| - |a.failures| == EXTERNAL_ATTEMPTS && Escalates(o) && !Abstained(o))
  }

  lemma {:induction false} AttemptsAreBooked(svc: Service, l: Ledger, task: Task, done: nat)
    requires done <= EXTERNAL_ATTEMPTS && AttemptsFrom(svc, l, task, done).1.Some?
    ensures var (l1, o) := AttemptsFrom(svc, l, task, done);
            && l.receipts <= l1.receipts && l.failures <= l1.failures && l.exhausted <= l1.exhausted
            && o.value.externalCalls == done + Calls(l1) - Calls(l) && 1 <= o.value.externalCalls <= EXTERNAL_ATTEMPTS
            && (|l1.receipts| - |l.receipts|) + (|l1.exhausted| - |l.exhausted|) == 1
            && (|l1.malformed| - |l.malformed|) + (|l1.exhausted| - |l.exhausted|) == (if o.value.answerFormValid then 0 else 1)
            && (|l1.exhausted| > |l.exhausted| ==>
                  done + |l1.failures| - |l.failures| == EXTERNAL_ATTEMPTS && Escalates(o.value) && !Abstained(o.value))
    decreases EXTERNAL_ATTEMPTS - done
  {
    if done < EXTERNAL_ATTEMPTS && svc.provider(Calls(l)).ProviderError? {
      var l1 := l.(failures := l.failures + [Attempt(task.id, done + 1, svc.provider(Calls(l)).quota)]);
      AttemptsAreBooked(svc, l1, task, done + 1);
    }
  }

  /** One task: its outcome counts the calls the ledgers gained, at most three, and it left one receipt or one exhaustion. */
  lemma {:induction false} EveryAttemptIsBooked(svc: Service, l: Ledger, task: Task)
    requires Answer(svc, l, task).1.Some?
    ensures Booked(l, Answer(svc, l, task).0, task, Answer(svc, l, task).1.value)
  {
    AttemptsAreBooked(svc, l, task, 0);
  }

  /** The attempt numbers and the quota flag say why an arm was abandoned: a quota failure, or an error that is no provider failure. */
  lemma {:induction false} AbandonedForAReason(svc: Service, l: Ledger, task: Task, done: nat)
    requires done <= EXTERNAL_ATTEMPTS && AttemptsFrom(svc, l, task, done).1.None?
    ensures var l1 := AttemptsFrom(svc, l, task, done).0;
            && l1.receipts == l.receipts && l1.exhausted == l.exhausted && l1.malformed == l.malformed && l.failures <= l1.failures
            && done + |l1.failures| - |l.failures| <= EXTERNAL_ATTEMPTS
            && (forall i | |l.failures| <= i < |l1.failures| - 1 :: !l1.failures[i].quota)
            && ((|l1.failures| > |l.failures| && l1.failures[|l1.failures| - 1].quota) || svc.provider(Calls(l1)).OtherError?)
    decreases EXTERNAL_ATTEMPTS - done
  {
    if done < EXTERNAL_ATTEMPTS && svc.provider(Calls(l)).ProviderError? && !svc.provider(Calls(l)).quota {
      var l1 := l.(failures := l.failures + [Attempt(task.id, done + 1, false)]);
      AbandonedForAReason(svc, l1, task, done + 1);
      assert l1.failures[|l.failures|] == Attempt(task.id, done + 1, false);
    }
  }

  // ----- Main results: the whole arm -----

  ghost predicate AnswersAsTeacher(svc: Service, answer: Answerer<Ledger>) {
    forall l, t :: answer(l, t) == Answer(svc, l, t)
  }

  /** What an arm's entries and its ledgers, from `a` to `b`, agree on. */
  ghost predicate Conserved(env: Env, a: Ledger, b: Ledger, s: seq<Entry>) {
    && Sum(s, ExternalCalls) == Calls(b) - Calls(a)
    && (|b.receipts| - |a.receipts|) + (|b.exhausted| - |a.exhausted|) == |s|
    && |b.failures| - |a.failures| >= EXTERNAL_ATTEMPTS * (|b.exhausted| - |a.exhausted|)
    && |s| <= Sum(s, ExternalCalls) <= EXTERNAL_ATTEMPTS * |s|
    && (|b.malformed| - |a.malformed|) + (|b.exhausted| - |a.exhausted|) == Count(env, s, IsMalformed)
    && |b.exhausted| - |a.exhausted| <= Count(env, s, IsEscalated)
    && (|b.exhausted| - |a.exhausted|) + Count(env, s, IsAbstained) <= |s|
    && (forall e | e in s :: 1 <= e.outcome.externalCalls <= EXTERNAL_ATTEMPTS)
  }

  lemma {:induction false} CountConcat(env: Env, a: seq<Entry>, b: seq<Entry>, feature: Feature)
    ensures Count(env, a + b, feature) == Count(env, a, feature) + Count(env, b, feature)
  {
    if b == [] {
      assert a + b == a;
    } else {
      assert (a + b)[..|a + b| - 1] == a + b[..|b| - 1];
      CountConcat(env, a, b[..|b| - 1], feature);
    }
  }

  lemma OneMoreConserved(env: Env, a: Ledger, m: Ledger, b: Ledger, e: Entry, s: seq<Entry>)
    requires Booked(a, m, e.task, e.outcome) && Conserved(env, m, b, s)
    ensures Conserved(env, a, b, [e] + s)
  {
    SumConcat([e], s, ExternalCalls);
    assert [e] == [] + [e];
    SumOfAppend([], e, ExternalCalls);
    CountOfAppend(env, [], e, IsEscalated);
    CountOfAppend(env, [], e, IsAbstained);
    CountConcat(env, [e], s, IsEscalated);
    CountConcat(env, [e], s, IsAbstained);
    CountOfAppend(env, [], e, IsMalformed);
    CountConcat(env, [e], s, IsMalformed);
    forall x | x in [e] + s
      ensures 1 <= x.outcome.externalCalls <= EXTERNAL_ATTEMPTS
    {
      assert x == e || x in s;
    }
  }

  lemma {:induction false} AnswersAreConserved(svc: Service, env: Env, arm: Arm, tasks: seq<Task>, answer: Answerer<Ledger>, l: Ledger)
    requires AnswersAsTeacher(svc, answer) && AnswerAll(env, arm, tasks, answer, l).1.Completed?
    ensures Conserved(env, l, AnswerAll(env, arm, tasks, answer, l).0, AnswerAll(env, arm, tasks, answer, l).1.entries)
    decreases |tasks|
  {
    if tasks != [] {
      var (m, o) := answer(l, tasks[0]);
      assert answer(l, tasks[0]) == Answer(svc, l, tasks[0]);
      EveryAttemptIsBooked(svc, l, tasks[0]);
      AnswersAreConserved(svc, env, arm, tasks[1..], answer, m);
      var (b, rest) := AnswerAll(env, arm, tasks[1..], answer, m);
      OneMoreConserved(env, l, m, b, Entry(tasks[0], o.value), rest.entries);
    }
  }

  /**
   A completed teacher arm: the external calls it accounts for are its receipts and its failed
   attempts together; every task left a receipt or was exhausted; each exhausted task cost three
   failures, is escalated and is not counted as an abstention; the outcomes without the form
   asked for are those noted as malformed and the exhausted ones; and no task made more than
   three calls.
   */
  lemma CallsAreConserved(svc: Service, env: Env, tasks: seq<Task>, answer: Answerer<Ledger>)
    requires AnswersAsTeacher(svc, answer)
    requires RunOf(env, Arm.ExternalTeacher, tasks, answer, Unused).1.Completed?
    ensures var (l, run) := RunOf(env, Arm.ExternalTeacher, tasks, answer, Unused);
            var totals := TotalsOf(env, run.entries);
            && totals.externalCalls == |l.receipts| + |l.failures|
            && |l.receipts| + |l.exhausted| == totals.tasks == |tasks|
            && |l.failures| >= EXTERNAL_ATTEMPTS * |l.exhausted| && totals.externalCalls <= EXTERNAL_ATTEMPTS * |tasks|
            && |l.malformed| + |l.exhausted| == Count(env, run.entries, IsMalformed)
            && |l.exhausted| <= totals.escalated && |l.exhausted| + totals.abstained <= totals.tasks
            && forall e | e in run.entries :: 1 <= e.outcome.externalCalls <= EXTERNAL_ATTEMPTS
  {
    AnswersAreConserved(svc, env, Arm.ExternalTeacher, tasks, answer, Unused);
    CompletedRunAnswersEveryTask(env, Arm.ExternalTeacher, tasks, answer, Unused);
  }
}
