/**
 What the stages of a cycle decide: which segments may start it at all, which are quarantined,
 and the promoted list, in order.
 */
module CampaignVerdicts {
  import opened Campaign

  /** The stages that touch none of the three dictionaries the verdicts go through. */
  predicate Untouched<S, M>(a: Cycle<S, M>, b: Cycle<S, M>) {
    a.items == b.items && a.crossChecks == b.crossChecks && a.quarantined == b.quarantined
  }

  lemma {:induction false} EachLeaves<S, M>(svc: Services<S, M>, st: Cycle<S, M>, todo: seq<Segment>, stage: Stage)
    requires !stage.RegisterSource? && !stage.CrossCheck? && !stage.Quarantine?
    ensures Untouched(st, Each(svc, st, todo, stage).0)
    decreases |todo|
  {
    if todo != [] {
      var (st1, ok) := One(svc, st, todo[0], stage);
      if ok {
        EachLeaves(svc, st1, todo[1..], stage);
      }
    }
  }

  lemma {:induction false} EachKeepsRest<S, M>(svc: Services<S, M>, st: Cycle<S, M>, todo: seq<Segment>, stage: Stage)
    ensures var st1 := Each(svc, st, todo, stage).0;
            st1.segments == st.segments && st1.stagesCompleted == st.stagesCompleted
    decreases |todo|
  {
    if todo != [] {
      OneKeepsRest(svc, st, todo[0], stage);
      var (st1, ok) := One(svc, st, todo[0], stage);
      if ok {
        EachKeepsRest(svc, st1, todo[1..], stage);
      }
    }
  }

  // ----- What the first stages decide -----

  lemma {:induction false} EachRegistersAll<S, M>(svc: Services<S, M>, st: Cycle<S, M>, todo: seq<Segment>)
    ensures Each(svc, st, todo, RegisterSource).1 <==> forall x | x in todo :: svc.factory(x).Some?
    decreases |todo|
  {
    if todo != [] {
      assert forall x | x in todo :: x == todo[0] || x in todo[1..];
      assert todo[0] in todo;
      EachRegistersAll(svc, One(svc, st, todo[0], RegisterSource).0, todo[1..]);
    }
  }

  /**
   Stage 1 of a new cycle succeeds if and only if the rights gate opens, the segments make one
   source, and the factory has an item for each. No two segments that passed it share an id.
   */
  lemma RegisteringIsExact<S, M>(svc: Services<S, M>, segments: seq<Segment>, semantic: S, memory: M)
    ensures Call(svc, NewCycle(segments, semantic, memory), RegisterSource).1
       <==> svc.opens(RegisterSource) && Buildable(svc, segments) && forall x | x in segments :: svc.factory(x).Some?
    ensures Call(svc, NewCycle(segments, semantic, memory), RegisterSource).1 ==> DistinctIds(segments)
  {
    EachRegistersAll(svc, NewCycle(segments, semantic, memory), segments);
    if Buildable(svc, segments) {
      BuildableIsDistinct(svc, segments);
    }
  }

  /** After any calls in any order, a cycle past stage 1 has segments with distinct ids. */
  lemma StartedCyclesHaveDistinctIds<S, M>(svc: Services<S, M>, segments: seq<Segment>, semantic: S, memory: M, stages: seq<Stage>)
    requires Attempt(svc, NewCycle(segments, semantic, memory), stages).stagesCompleted != []
    ensures Buildable(svc, segments) && DistinctIds(segments)
  {
    NewCycleIsFine(svc, segments, semantic, memory);
    AttemptsKeepInv(svc, NewCycle(segments, semantic, memory), stages);
    BuildableIsDistinct(svc, segments);
  }

  /** Once quarantine is over, exactly the refused segments are quarantined, whatever was called and failed before. */
  lemma QuarantinedAreTheRefused<S, M>(svc: Services<S, M>, segments: seq<Segment>, semantic: S, memory: M, stages: seq<Stage>, x: Segment)
    requires x in segments && |Attempt(svc, NewCycle(segments, semantic, memory), stages).stagesCompleted| >= 5
    ensures x.id in Attempt(svc, NewCycle(segments, semantic, memory), stages).quarantined <==> Bad(svc, x)
  {
    NewCycleIsFine(svc, segments, semantic, memory);
    AttemptsKeepInv(svc, NewCycle(segments, semantic, memory), stages);
    var st := Attempt(svc, NewCycle(segments, semantic, memory), stages);
    assert Fine(svc, |st.stagesCompleted|, ViewOf(st, x.id), x);
  }

  // ----- The promoted list -----

  function IdsOf(segments: seq<Segment>): (r: seq<Id>)
    ensures |r| == |segments| && forall i | 0 <= i < |r| :: r[i] == segments[i].id
  {
    if segments == [] then [] else [segments[0].id] + IdsOf(segments[1..])
  }

  /** The segments that are not bad. */
  function Good<S, M>(svc: Services<S, M>, segments: seq<Segment>): seq<Segment>
    decreases |segments|
  {
    if segments == [] then []
    else (if Bad(svc, segments[0]) then [] else [segments[0]]) + Good(svc, segments[1..])
  }

  /** The ids that are not quarantined, in order. */
  function Offered(segments: seq<Segment>, quarantined: map<Id, string>): seq<Id> {
    if segments == [] then []
    else (if segments[0].id in quarantined then [] else [segments[0].id]) + Offered(segments[1..], quarantined)
  }

  lemma {:induction false} OfferedAreGood<S, M>(svc: Services<S, M>, segments: seq<Segment>, quarantined: map<Id, string>)
    requires forall x | x in segments :: x.id in quarantined <==> Bad(svc, x)
    ensures Offered(segments, quarantined) == IdsOf(Good(svc, segments))
    decreases |segments|
  {
    if segments != [] {
      assert segments[0] in segments;
      OfferedAreGood(svc, segments[1..], quarantined);
    }
  }

  lemma OnePromotes<S, M>(svc: Services<S, M>, st: Cycle<S, M>, x: Segment)
    requires PromoteOne(svc, st, x).1
    ensures var st1 := PromoteOne(svc, st, x).0;
            && st1.held.promoted == st.held.promoted + (if x.id in st.quarantined then [] else [x.id])
            && st1.quarantined == st.quarantined
  {
  }

  lemma Regroup<T>(a: seq<T>, b: seq<T>, c: seq<T>)
    ensures a + (b + c) == (a + b) + c
  {
  }

  lemma {:induction false} EachPromotes<S, M>(svc: Services<S, M>, st: Cycle<S, M>, todo: seq<Segment>)
    requires Each(svc, st, todo, Promote).1
    ensures var st1 := Each(svc, st, todo, Promote).0;
            st1.held.promoted == st.held.promoted + Offered(todo, st.quarantined) && st1.quarantined == st.quarantined
    decreases |todo|
  {
    if todo != [] {
      var st1 := PromoteOne(svc, st, todo[0]).0;
      OnePromotes(svc, st, todo[0]);
      assert Each(svc, st, todo, Promote) == Each(svc, st1, todo[1..], Promote);
      EachPromotes(svc, st1, todo[1..]);
      var first, rest := if todo[0].id in st.quarantined then [] else [todo[0].id], Offered(todo[1..], st.quarantined);
      Regroup(st.held.promoted, first, rest);
    }
  }

  lemma {:induction false} EachPromotesNone<S, M>(svc: Services<S, M>, st: Cycle<S, M>, todo: seq<Segment>, stage: Stage)
    requires !stage.Promote?
    ensures Each(svc, st, todo, stage).0.held.promoted == st.held.promoted
    decreases |todo|
  {
    if todo != [] {
      var (st1, ok) := One(svc, st, todo[0], stage);
      if ok {
        EachPromotesNone(svc, st1, todo[1..], stage);
      }
    }
  }

  /** The promoted list before, and since, the promotion stage. */
  predicate PromotedSoFar<S, M>(st: Cycle<S, M>, n: nat) {
    st.held.promoted == if n < 8 then [] else Offered(st.segments, st.quarantined)
  }

  lemma CallPromotes<S, M>(svc: Services<S, M>, st: Cycle<S, M>, k: nat)
    requires k < 9 && st.stagesCompleted == Stages[..k] && PromotedSoFar(st, k) && Call(svc, st, Stages[k]).1
    ensures var st1 := Call(svc, st, Stages[k]).0;
            st1.stagesCompleted == Stages[..k + 1] && st1.segments == st.segments && PromotedSoFar(st1, k + 1)
  {
    EachKeepsRest(svc, st, st.segments, Stages[k]);
    assert Stages[..k] + [Stages[k]] == Stages[..k + 1];
    if k == 7 {
      EachPromotes(svc, st, st.segments);
    } else {
      EachPromotesNone(svc, st, st.segments, Stages[k]);
      if k == 8 {
        EachLeaves(svc, st, st.segments, Stages[k]);
      }
    }
  }

  lemma {:induction false} CallsPromote<S, M>(svc: Services<S, M>, st: Cycle<S, M>, k: nat)
    requires k <= 9 && st.stagesCompleted == Stages[..k] && PromotedSoFar(st, k) && CallAll(svc, st, Stages[k..]).1
    ensures var st1 := CallAll(svc, st, Stages[k..]).0;
            st1.stagesCompleted == Stages && st1.segments == st.segments && PromotedSoFar(st1, 9)
            && Attempt(svc, st, Stages[k..]) == st1
    decreases 9 - k
  {
    if k < 9 {
      assert Stages[k..][0] == Stages[k] && Stages[k..][1..] == Stages[k + 1..];
      CallPromotes(svc, st, k);
      CallsPromote(svc, Call(svc, st, Stages[k]).0, k + 1);
    } else {
      assert Stages[..9] == Stages;
    }
  }

  /** A cycle that runs through has completed all nine stages and promoted exactly the good segments, in their order. */
  lemma {:induction false} RunPromotesTheGood<S, M>(svc: Services<S, M>, segments: seq<Segment>, semantic: S, memory: M)
    ensures var (st, ok) := CallAll(svc, NewCycle(segments, semantic, memory), Stages);
            ok ==> st.stagesCompleted == Stages && st.held.promoted == IdsOf(Good(svc, segments))
  {
    if !CallAll(svc, NewCycle(segments, semantic, memory), Stages).1 {
      return;
    }
    var st0 := NewCycle(segments, semantic, memory);
    assert Stages == Stages[0..];
    CallsPromote(svc, st0, 0);
    var st := CallAll(svc, st0, Stages).0;
    forall x | x in segments
      ensures x.id in st.quarantined <==> Bad(svc, x)
    {
      CompletedCycleSplits(svc, segments, semantic, memory, Stages, x);
    }
    OfferedAreGood(svc, segments, st.quarantined);
  }
}
