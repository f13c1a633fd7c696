/**
 Quarantined content has no influence: a cycle and the same cycle without the segments it
 quarantines go through the last four stages in step.
 */
module CampaignIsolation {
  import opened Campaign

  // ----- Main results: quarantined content does not interfere -----

  /** The segments that are not quarantined. */
  function Remaining(segments: seq<Segment>, quarantined: map<Id, string>): (r: seq<Segment>)
    ensures forall x {:trigger x in r} :: x in r <==> x in segments && x.id !in quarantined
  {
    if segments == [] then []
    else
      assert forall x | x in segments :: x == segments[0] || x in segments[1..];
      (if segments[0].id in quarantined then [] else [segments[0]]) + Remaining(segments[1..], quarantined)
  }

  lemma {:induction false} RemainingIsSmaller<S, M>(svc: Services<S, M>, segments: seq<Segment>, quarantined: map<Id, string>)
    ensures |Remaining(segments, quarantined)| <= |segments|
    ensures TotalSize(svc, Remaining(segments, quarantined)) <= TotalSize(svc, segments)
    decreases |segments|
  {
    if segments != [] {
      RemainingStep(segments, quarantined);
      RemainingIsSmaller(svc, segments[1..], quarantined);
    }
  }

  ghost predicate DistinctPaths<S, M>(svc: Services<S, M>, segments: seq<Segment>) {
    forall i, j | 0 <= i < j < |segments| :: svc.pathKey(segments[i].id) != svc.pathKey(segments[j].id)
  }

  lemma {:induction false} RemainingPathsDiffer<S, M>(svc: Services<S, M>, segments: seq<Segment>, quarantined: map<Id, string>)
    requires DistinctPaths(svc, segments)
    ensures DistinctPaths(svc, Remaining(segments, quarantined))
    decreases |segments|
  {
    if segments != [] {
      var rest := Remaining(segments[1..], quarantined);
      RemainingStep(segments, quarantined);
      RemainingPathsDiffer(svc, segments[1..], quarantined);
      forall j | 0 <= j < |rest|
        ensures svc.pathKey(segments[0].id) != svc.pathKey(rest[j].id)
      {
        assert rest[j] in rest;
        var i :| 0 <= i < |segments[1..]| && segments[1..][i] == rest[j];
        assert segments[i + 1] == rest[j];
      }
    }
  }

  lemma RemainingIsBuildable<S, M>(svc: Services<S, M>, segments: seq<Segment>, quarantined: map<Id, string>)
    requires Buildable(svc, segments) && Remaining(segments, quarantined) != []
    ensures Buildable(svc, Remaining(segments, quarantined))
  {
    var rest := Remaining(segments, quarantined);
    RemainingIsSmaller(svc, segments, quarantined);
    RemainingPathsDiffer(svc, segments, quarantined);
    forall i | 0 <= i < |rest|
      ensures svc.size(rest[i]) <= svc.limits.single && svc.pathKey(rest[i].id).Some?
    {
      assert rest[i] in rest;
    }
  }

  predicate Early(stage: Stage) {
    stage.RegisterSource? || stage.Extract? || stage.Normalize? || stage.CrossCheck? || stage.Quarantine?
  }

  /** The parts of a cycle that the last four stages read and write agree, except that `q` holds quarantined segments and `c` none. */
  ghost predicate Related<S, M>(q: Cycle<S, M>, c: Cycle<S, M>) {
    && c.segments == Remaining(q.segments, q.quarantined) && c.quarantined == map[]
    && c.stagesCompleted == q.stagesCompleted
    && (forall x | x in c.segments :: Get(c.items, x.id) == Get(q.items, x.id) && Get(c.normalized, x.id) == Get(q.normalized, x.id))
    && (forall id | id in q.quarantined :: id !in q.held.compiled)
    && SameKnowledge(q, c)
  }

  ghost predicate SameKnowledge<S, M>(q: Cycle<S, M>, c: Cycle<S, M>) {
    c.held == q.held && c.replay == q.replay
  }

  // What the first five stages leave alone and what they need.

  lemma OneEarlyHoldsNothing<S, M>(svc: Services<S, M>, st: Cycle<S, M>, x: Segment, stage: Stage)
    requires Early(stage)
    ensures SameKnowledge(st, One(svc, st, x, stage).0)
  {
  }

  lemma {:induction false} EarlyHoldsNothing<S, M>(svc: Services<S, M>, st: Cycle<S, M>, todo: seq<Segment>, stage: Stage)
    requires Early(stage)
    ensures SameKnowledge(st, Each(svc, st, todo, stage).0)
    decreases |todo|
  {
    if todo != [] {
      OneEarlyHoldsNothing(svc, st, todo[0], stage);
      var (st1, ok) := One(svc, st, todo[0], stage);
      if ok {
        EarlyHoldsNothing(svc, st1, todo[1..], stage);
      }
    }
  }

  /** No service raises on the segment in the first five stages. */
  predicate Able<S, M>(svc: Services<S, M>, x: Segment) {
    svc.factory(x).Some? && svc.revalidate(x).Some? && svc.grounds(x) && svc.check(x).Some?
  }

  lemma {:induction false} EarlySucceeds<S, M>(svc: Services<S, M>, st: Cycle<S, M>, todo: seq<Segment>, stage: Stage)
    requires Early(stage) && Due(st, stage) && Inv(svc, st) && DistinctIds(st.segments)
    requires forall x | x in todo :: x in st.segments && Able(svc, x)
    ensures Each(svc, st, todo, stage).1
    decreases |todo|
  {
    if todo != [] {
      var x := todo[0];
      assert x in todo && Fine(svc, |st.stagesCompleted|, ViewOf(st, x.id), x);
      var (st1, ok) := One(svc, st, x, stage);
      assert ok;
      OneKeepsInv(svc, st, x, stage);
      EarlySucceeds(svc, st1, todo[1..], stage);
    }
  }

  lemma EarlyCallSucceeds<S, M>(svc: Services<S, M>, st: Cycle<S, M>, stage: Stage)
    requires Early(stage) && Due(st, stage) && Inv(svc, st) && Buildable(svc, st.segments) && svc.opens(stage)
    requires forall x | x in st.segments :: Able(svc, x)
    ensures var (st1, ok) := Call(svc, st, stage);
            ok && Inv(svc, st1) && st1.segments == st.segments && SameKnowledge(st, st1)
            && st1.stagesCompleted == st.stagesCompleted + [stage]
  {
    BuildableIsDistinct(svc, st.segments);
    EarlySucceeds(svc, st, st.segments, stage);
    EachKeepsInv(svc, st, st.segments, stage);
    EarlyHoldsNothing(svc, st, st.segments, stage);
    CallKeepsInv(svc, st, stage);
  }

  lemma {:induction false} EarlyCallsSucceed<S, M>(svc: Services<S, M>, st: Cycle<S, M>, k: nat)
    requires k <= 5 && st.stagesCompleted == Stages[..k] && Inv(svc, st) && Buildable(svc, st.segments)
    requires forall i | k <= i < 5 :: svc.opens(Stages[i])
    requires forall x | x in st.segments :: Able(svc, x)
    ensures var (st1, ok) := CallAll(svc, st, Stages[k..5]);
            ok && Inv(svc, st1) && st1.segments == st.segments && SameKnowledge(st, st1) && st1.stagesCompleted == Stages[..5]
    decreases 5 - k
  {
    if k < 5 {
      var stage := Stages[k];
      assert Stages[k..5][0] == stage && Stages[k..5][1..] == Stages[k + 1..5];
      EarlyCallSucceeds(svc, st, stage);
      assert Stages[..k] + [stage] == Stages[..k + 1];
      EarlyCallsSucceed(svc, Call(svc, st, stage).0, k + 1);
    }
  }

  lemma EarlyCallDone<S, M>(svc: Services<S, M>, st: Cycle<S, M>, stage: Stage)
    requires Early(stage) && Inv(svc, st) && Call(svc, st, stage).1
    ensures var st1 := Call(svc, st, stage).0;
            Inv(svc, st1) && st1.segments == st.segments && SameKnowledge(st, st1)
            && st1.stagesCompleted == st.stagesCompleted + [stage] && svc.opens(stage)
  {
    CallKeepsInv(svc, st, stage);
    EarlyHoldsNothing(svc, st, st.segments, stage);
    BodyKeepsInv(svc, st, stage);
  }

  /** The first five stages succeeded, so nothing raised, and nothing is held yet. */
  lemma {:induction false} EarlyCallsDone<S, M>(svc: Services<S, M>, st: Cycle<S, M>, k: nat)
    requires k <= 5 && st.stagesCompleted == Stages[..k] && Inv(svc, st)
    requires CallAll(svc, st, Stages[k..5]).1
    ensures var st1 := CallAll(svc, st, Stages[k..5]).0;
            Inv(svc, st1) && st1.segments == st.segments && SameKnowledge(st, st1) && st1.stagesCompleted == Stages[..5]
    ensures forall i | k <= i < 5 :: svc.opens(Stages[i])
    decreases 5 - k
  {
    if k < 5 {
      var stage := Stages[k];
      assert Stages[k..5][0] == stage && Stages[k..5][1..] == Stages[k + 1..5];
      EarlyCallDone(svc, st, stage);
      assert Stages[..k] + [stage] == Stages[..k + 1];
      EarlyCallsDone(svc, Call(svc, st, stage).0, k + 1);
    }
  }

  /** After five stages the cycle without the quarantined segments stands where the whole one stands. */
  lemma RelatedAfterQuarantine<S, M>(svc: Services<S, M>, segments: seq<Segment>, semantic: S, memory: M)
    requires CallAll(svc, NewCycle(segments, semantic, memory), Stages[..5]).1
    ensures var q := CallAll(svc, NewCycle(segments, semantic, memory), Stages[..5]).0;
            var rest := Remaining(segments, q.quarantined);
            var (c, ok) := CallAll(svc, NewCycle(rest, semantic, memory), Stages[..5]);
            rest != [] ==> ok && Related(q, c)
  {
    var q0 := NewCycle(segments, semantic, memory);
    assert Stages[..5] == Stages[0..5];
    NewCycleIsFine(svc, segments, semantic, memory);
    EarlyCallsDone(svc, q0, 0);
    var q := CallAll(svc, q0, Stages[..5]).0;
    var rest := Remaining(segments, q.quarantined);
    forall x | x in rest
      ensures Able(svc, x) && !Bad(svc, x)
    {
      assert Fine(svc, 5, ViewOf(q, x.id), x);
    }
    if rest != [] {
      RemainingIsBuildable(svc, segments, q.quarantined);
      var c0 := NewCycle(rest, semantic, memory);
      NewCycleIsFine(svc, rest, semantic, memory);
      EarlyCallsSucceed(svc, c0, 0);
      BothStand(svc, q, CallAll(svc, c0, Stages[..5]).0);
    }
  }

  lemma NothingQuarantined<S, M>(svc: Services<S, M>, c: Cycle<S, M>)
    requires Inv(svc, c) && forall x | x in c.segments :: !Bad(svc, x)
    ensures c.quarantined == map[]
  {
    forall id
      ensures id !in c.quarantined
    {
      if id in c.quarantined {
        var x := QuarantinedIsBad(svc, c, id);
      }
    }
  }

  lemma QuarantinedIsBad<S, M>(svc: Services<S, M>, c: Cycle<S, M>, id: Id) returns (x: Segment)
    requires Inv(svc, c) && id in c.quarantined
    ensures x in c.segments && Bad(svc, x)
  {
    assert Held(ViewOf(c, id));
    x :| x in c.segments && x.id == id;
    assert Fine(svc, |c.stagesCompleted|, ViewOf(c, x.id), x);
  }

  lemma BothStand<S, M>(svc: Services<S, M>, q: Cycle<S, M>, c: Cycle<S, M>)
    requires Inv(svc, q) && Inv(svc, c) && q.stagesCompleted == c.stagesCompleted == Stages[..5]
    requires c.segments == Remaining(q.segments, q.quarantined) && forall x | x in c.segments :: !Bad(svc, x)
    requires SameKnowledge(q, c) && q.held.compiled == map[]
    ensures Related(q, c)
  {
    NothingQuarantined(svc, c);
    forall x | x in c.segments
      ensures Get(c.items, x.id) == Get(q.items, x.id) && Get(c.normalized, x.id) == Get(q.normalized, x.id)
    {
      assert Fine(svc, 5, ViewOf(q, x.id), x) && Fine(svc, 5, ViewOf(c, x.id), x);
    }
  }

  // The last four stages, side by side.

  /** Everything but the knowledge. */
  ghost predicate SameFrame<S, M>(a: Cycle<S, M>, b: Cycle<S, M>) {
    && a.segments == b.segments && a.stagesCompleted == b.stagesCompleted
    && a.items == b.items && a.normalized == b.normalized && a.quarantined == b.quarantined
  }

  lemma CompileAddsOnly<S, M>(svc: Services<S, M>, k: Knowledge<S, M>, x: Segment, proposal: Segment, id: Id)
    requires id != x.id && id !in k.compiled
    ensures id !in CompileInto(svc, k, x, proposal).0.compiled
  {
  }

  lemma PromoteAddsNone<S, M>(svc: Services<S, M>, k: Knowledge<S, M>, x: Id, id: Id)
    requires id !in k.compiled
    ensures id !in PromoteIn(svc, k, x).0.compiled
  {
  }

  lemma OneHoldsNoOther<S, M>(svc: Services<S, M>, q: Cycle<S, M>, x: Segment, stage: Stage, id: Id)
    requires !Early(stage) && id != x.id && id !in q.held.compiled
    ensures id !in One(svc, q, x, stage).0.held.compiled
  {
    if stage.Compile? && x.id in q.normalized {
      CompileAddsOnly(svc, q.held, x, q.normalized[x.id], id);
    } else if stage.Promote? {
      PromoteAddsNone(svc, q.held, x.id, id);
    }
  }

  lemma OneInStep<S, M>(svc: Services<S, M>, q: Cycle<S, M>, c: Cycle<S, M>, x: Segment, stage: Stage)
    requires !Early(stage) && SameKnowledge(q, c) && x.id !in q.quarantined && x.id !in c.quarantined
    requires Get(c.items, x.id) == Get(q.items, x.id) && Get(c.normalized, x.id) == Get(q.normalized, x.id)
    ensures var (q1, okQ) := One(svc, q, x, stage);
            var (c1, okC) := One(svc, c, x, stage);
            okQ == okC && SameKnowledge(q1, c1) && SameFrame(q, q1) && SameFrame(c, c1)
  {
  }

  lemma {:induction false} OneStaysRelated<S, M>(svc: Services<S, M>, q: Cycle<S, M>, c: Cycle<S, M>, x: Segment, stage: Stage)
    requires !Early(stage) && Related(q, c) && x in c.segments
    ensures var (q1, okQ) := One(svc, q, x, stage);
            var (c1, okC) := One(svc, c, x, stage);
            okQ == okC && Related(q1, c1) && SameFrame(q, q1) && SameFrame(c, c1)
  {
    assert x.id !in q.quarantined;
    OneInStep(svc, q, c, x, stage);
    var q1 := One(svc, q, x, stage).0;
    forall id | id in q.quarantined
      ensures id !in q1.held.compiled
    {
      OneHoldsNoOther(svc, q, x, stage, id);
    }
  }

  lemma QuarantinedIsPassedOver<S, M>(svc: Services<S, M>, q: Cycle<S, M>, x: Segment, stage: Stage)
    requires !Early(stage) && x.id in q.quarantined
    ensures One(svc, q, x, stage) == (q, true)
  {
  }

  lemma RemainingStep(todo: seq<Segment>, quarantined: map<Id, string>)
    requires todo != []
    ensures var rest := Remaining(todo[1..], quarantined);
            if todo[0].id in quarantined then Remaining(todo, quarantined) == rest
            else Remaining(todo, quarantined) != [] && Remaining(todo, quarantined)[0] == todo[0] && Remaining(todo, quarantined)[1..] == rest
  {
  }

  lemma {:induction false} EachStaysRelated<S, M>(svc: Services<S, M>, q: Cycle<S, M>, c: Cycle<S, M>, todo: seq<Segment>, stage: Stage)
    requires !Early(stage) && Related(q, c) && forall x | x in todo :: x in q.segments
    ensures var (q1, okQ) := Each(svc, q, todo, stage);
            var (c1, okC) := Each(svc, c, Remaining(todo, q.quarantined), stage);
            okQ == okC && Related(q1, c1) && SameFrame(q, q1)
    decreases |todo|
  {
    if todo != [] {
      var x := todo[0];
      assert x in todo && forall y | y in todo[1..] :: y in todo;
      RemainingStep(todo, q.quarantined);
      if x.id in q.quarantined {
        QuarantinedIsPassedOver(svc, q, x, stage);
        EachStaysRelated(svc, q, c, todo[1..], stage);
      } else {
        OneStaysRelated(svc, q, c, x, stage);
        var (q1, okQ) := One(svc, q, x, stage);
        var (c1, okC) := One(svc, c, x, stage);
        if okQ {
          EachStaysRelated(svc, q1, c1, todo[1..], stage);
        }
      }
    }
  }

  lemma {:induction false} RetainedIgnoresQuarantined(segments: seq<Segment>, quarantined: map<Id, string>, compiled: map<Id, Compiled>)
    requires forall id | id in quarantined :: id !in compiled
    ensures Retained(Remaining(segments, quarantined), compiled) == Retained(segments, compiled)
  {
    if segments != [] {
      RemainingStep(segments, quarantined);
      RetainedIgnoresQuarantined(segments[1..], quarantined, compiled);
    }
  }

  lemma EvaluateStaysRelated<S, M>(svc: Services<S, M>, q: Cycle<S, M>, c: Cycle<S, M>)
    requires Related(q, c)
    ensures var (q1, okQ) := Body(svc, q, Evaluate);
            var (c1, okC) := Body(svc, c, Evaluate);
            okQ == okC && Related(q1, c1) && SameFrame(q, q1)
  {
    RetainedIgnoresQuarantined(q.segments, q.quarantined, q.held.compiled);
  }

  lemma BodyStaysRelated<S, M>(svc: Services<S, M>, q: Cycle<S, M>, c: Cycle<S, M>, stage: Stage)
    requires !Early(stage) && Related(q, c)
    ensures var (q1, okQ) := Body(svc, q, stage);
            var (c1, okC) := Body(svc, c, stage);
            okQ == okC && Related(q1, c1) && SameFrame(q, q1)
  {
    if stage.Evaluate? {
      EvaluateStaysRelated(svc, q, c);
    } else if svc.opens(stage) {
      assert Body(svc, q, stage) == Each(svc, q, q.segments, stage);
      assert Body(svc, c, stage) == Each(svc, c, c.segments, stage);
      EachStaysRelated(svc, q, c, q.segments, stage);
    }
  }

  lemma CallStaysRelated<S, M>(svc: Services<S, M>, q: Cycle<S, M>, c: Cycle<S, M>, stage: Stage)
    requires !Early(stage) && Related(q, c)
    ensures var (q1, okQ) := Call(svc, q, stage);
            var (c1, okC) := Call(svc, c, stage);
            okQ == okC && Related(q1, c1)
  {
    BodyStaysRelated(svc, q, c, stage);
  }

  lemma {:induction false} CallsStayRelated<S, M>(svc: Services<S, M>, q: Cycle<S, M>, c: Cycle<S, M>, stages: seq<Stage>)
    requires Related(q, c) && forall stage | stage in stages :: !Early(stage)
    ensures var (q1, okQ) := CallAll(svc, q, stages);
            var (c1, okC) := CallAll(svc, c, stages);
            okQ == okC && Related(q1, c1)
    decreases |stages|
  {
    if stages != [] {
      assert stages[0] in stages;
      CallStaysRelated(svc, q, c, stages[0]);
      var (q1, okQ) := Call(svc, q, stages[0]);
      if okQ {
        CallsStayRelated(svc, q1, Call(svc, c, stages[0]).0, stages[1..]);
      }
    }
  }

  lemma {:induction false} CallAllConcat<S, M>(svc: Services<S, M>, st: Cycle<S, M>, a: seq<Stage>, b: seq<Stage>)
    requires CallAll(svc, st, a).1
    ensures CallAll(svc, st, a + b) == CallAll(svc, CallAll(svc, st, a).0, b)
    decreases |a|
  {
    if a == [] {
      assert a + b == b;
    } else {
      assert (a + b)[0] == a[0] && (a + b)[1..] == a[1..] + b;
      CallAllConcat(svc, Call(svc, st, a[0]).0, a[1..], b);
    }
  }

  lemma StagesSplit()
    ensures Stages == Stages[..5] + Stages[5..] && forall stage | stage in Stages[5..] :: !Early(stage)
  {
  }

  lemma {:induction false} InStepAfterward<S, M>(svc: Services<S, M>, q: Cycle<S, M>, c: Cycle<S, M>, a: seq<Stage>, b: seq<Stage>)
    requires CallAll(svc, q, a).1 && CallAll(svc, c, a).1 && Related(CallAll(svc, q, a).0, CallAll(svc, c, a).0)
    requires forall stage | stage in b :: !Early(stage)
    ensures var (q1, okQ) := CallAll(svc, q, a + b);
            var (c1, okC) := CallAll(svc, c, a + b);
            okQ == okC && Related(q1, c1)
  {
    CallAllConcat(svc, q, a, b);
    CallAllConcat(svc, c, a, b);
    CallsStayRelated(svc, CallAll(svc, q, a).0, CallAll(svc, c, a).0, b);
  }

  lemma {:induction false} EmptyCallHolds<S, M>(svc: Services<S, M>, st: Cycle<S, M>, stage: Stage)
    requires st.segments == []
    ensures var st1 := Call(svc, st, stage).0; st1.held == st.held && st1.segments == []
  {
  }

  lemma {:induction false} EmptyCallsHold<S, M>(svc: Services<S, M>, st: Cycle<S, M>, stages: seq<Stage>)
    requires st.segments == []
    ensures CallAll(svc, st, stages).0.held == st.held
    decreases |stages|
  {
    if stages != [] {
      EmptyCallHolds(svc, st, stages[0]);
      EmptyCallsHold(svc, Call(svc, st, stages[0]).0, stages[1..]);
    }
  }

  /** Where everything was quarantined, the last four stages change nothing held. */
  lemma {:induction false} NothingRemains<S, M>(svc: Services<S, M>, q: Cycle<S, M>)
    requires Remaining(q.segments, q.quarantined) == [] && q.held.compiled == map[]
    ensures CallAll(svc, q, Stages[5..]).0.held == q.held
  {
    var c := q.(segments := [], quarantined := map[]);
    StagesSplit();
    CallsStayRelated(svc, q, c, Stages[5..]);
    EmptyCallsHold(svc, c, Stages[5..]);
  }

  lemma {:induction false} EmptyCycleIsRefused<S, M>(svc: Services<S, M>, semantic: S, memory: M)
    ensures CallAll(svc, NewCycle([], semantic, memory), Stages) == (NewCycle([], semantic, memory), false)
  {
    var c0: Cycle<S, M> := NewCycle([], semantic, memory);
    assert Stages[0] == RegisterSource;
    assert !Buildable(svc, c0.segments);
    assert Call(svc, c0, Stages[0]) == (c0, false);
  }

  /** One cycle and another without the segments that the first quarantines. */
  ghost predicate Unaffected<S, M>(q: Cycle<S, M>, okQ: bool, c: Cycle<S, M>, okC: bool, rest: seq<Segment>) {
    && c.held == q.held
    && if rest == [] then !okC else okQ == okC && c.replay == q.replay && c.stagesCompleted == q.stagesCompleted
  }

  lemma {:induction false} UnaffectedByAll<S, M>(svc: Services<S, M>, segments: seq<Segment>, semantic: S, memory: M)
    requires CallAll(svc, NewCycle(segments, semantic, memory), Stages[..5]).1
    requires Remaining(segments, CallAll(svc, NewCycle(segments, semantic, memory), Stages[..5]).0.quarantined) == []
    ensures CallAll(svc, NewCycle(segments, semantic, memory), Stages).0.held == NewCycle(segments, semantic, memory).held
  {
    var q0 := NewCycle(segments, semantic, memory);
    NewCycleIsFine(svc, segments, semantic, memory);
    assert Stages[..5] == Stages[0..5];
    EarlyCallsDone(svc, q0, 0);
    StagesSplit();
    CallAllConcat(svc, q0, Stages[..5], Stages[5..]);
    NothingRemains(svc, CallAll(svc, q0, Stages[..5]).0);
  }

  /**
   Deleting the segments that a cycle quarantines changes nothing of what it goes on to do: the
   cycle over the others ends the same way, with the same claims, compiled records, promotions
   and replay report, and leaves the same two stores, whatever the stores and services are. If
   no segment remains, no such cycle can start, and the whole one held nothing either.
   */
  lemma QuarantinedContentDoesNotInterfere<S, M>(svc: Services<S, M>, segments: seq<Segment>, semantic: S, memory: M)
    requires CallAll(svc, NewCycle(segments, semantic, memory), Stages[..5]).1
    ensures var rest := Remaining(segments, CallAll(svc, NewCycle(segments, semantic, memory), Stages[..5]).0.quarantined);
            var (q, okQ) := CallAll(svc, NewCycle(segments, semantic, memory), Stages);
            var (c, okC) := CallAll(svc, NewCycle(rest, semantic, memory), Stages);
            Unaffected(q, okQ, c, okC, rest)
  {
    var q0 := NewCycle(segments, semantic, memory);
    var rest := Remaining(segments, CallAll(svc, q0, Stages[..5]).0.quarantined);
    if rest == [] {
      UnaffectedByAll(svc, segments, semantic, memory);
      EmptyCycleIsRefused(svc, semantic, memory);
    } else {
      RelatedAfterQuarantine(svc, segments, semantic, memory);
      StagesSplit();
      InStepAfterward(svc, q0, NewCycle(rest, semantic, memory), Stages[..5], Stages[5..]);
    }
  }

  /** Two cycles that differ only in what they quarantine end with the same knowledge. */
  lemma OnlyTheRestMatters<S, M>(svc: Services<S, M>, a: seq<Segment>, b: seq<Segment>, semantic: S, memory: M)
    requires CallAll(svc, NewCycle(a, semantic, memory), Stages[..5]).1 && CallAll(svc, NewCycle(b, semantic, memory), Stages[..5]).1
    requires Remaining(a, CallAll(svc, NewCycle(a, semantic, memory), Stages[..5]).0.quarantined)
          == Remaining(b, CallAll(svc, NewCycle(b, semantic, memory), Stages[..5]).0.quarantined)
    ensures var (stA, okA) := CallAll(svc, NewCycle(a, semantic, memory), Stages);
            var (stB, okB) := CallAll(svc, NewCycle(b, semantic, memory), Stages);
            && stA.held == stB.held
            && (Remaining(a, CallAll(svc, NewCycle(a, semantic, memory), Stages[..5]).0.quarantined) != [] ==>
                  okA == okB && stA.replay == stB.replay)
  {
    QuarantinedContentDoesNotInterfere(svc, a, semantic, memory);
    QuarantinedContentDoesNotInterfere(svc, b, semantic, memory);
  }
}
