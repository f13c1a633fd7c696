/**
 The cycle as the driver runs it: a state object whose dictionaries the nine stage functions
 update in loops, a runner that is the only way into a stage, and the stores in the
 composition. Every stage does what the specification says of one call of it.
 */
module CampaignDriver {
  import opened Campaign
  import CampaignVerdicts
  import opened Wrappers

  class CycleState {
    const segments: seq<Segment>
    var stagesCompleted: seq<Stage>
    var corpusItems: map<Id, ItemStatus>
    var proposals: map<Id, bool>
    var normalized: map<Id, Segment>
    var crossChecks: map<Id, bool>
    var quarantined: map<Id, string>
    var claims: map<Id, string>
    var compiled: map<Id, Compiled>
    var promoted: seq<Id>
    var replay: Option<string>

    constructor (segments: seq<Segment>)
      ensures this.segments == segments
      ensures stagesCompleted == [] && corpusItems == map[] && proposals == map[] && normalized == map[] && crossChecks == map[]
      ensures quarantined == map[] && claims == map[] && compiled == map[] && promoted == [] && replay == None
    {
      this.segments := segments;
      stagesCompleted, promoted, replay := [], [], None;
      corpusItems, proposals, normalized, crossChecks := map[], map[], map[], map[];
      quarantined, claims, compiled := map[], map[], map[];
    }
  }

  class Composition<!S, !M> {
    const services: Services<S, M>
    var semantic: S
    var memory: M

    constructor (services: Services<S, M>, semantic: S, memory: M)
      ensures this.services == services && this.semantic == semantic && this.memory == memory
    {
      this.services, this.semantic, this.memory := services, semantic, memory;
    }
  }

  ghost function Value<S, M>(state: CycleState, composition: Composition<S, M>): Cycle<S, M>
    reads state, composition
  {
    Cycle(state.segments, state.stagesCompleted, state.corpusItems, state.proposals, state.normalized, state.crossChecks,
          state.quarantined, Knowledge(state.claims, state.compiled, state.promoted, composition.semantic, composition.memory),
          state.replay)
  }

  class CycleRunner {
    const state: CycleState

    constructor (state: CycleState)
      ensures this.state == state
    {
      this.state := state;
    }

    /** False is StageOutOfOrder, or the index error of a cycle that is already complete. */
    method Enter(stage: Stage) returns (due: bool)
      ensures due <==> |state.stagesCompleted| < |Stages| && Stages[|state.stagesCompleted|] == stage
    {
      due := |state.stagesCompleted| < |Stages| && Stages[|state.stagesCompleted|] == stage;
    }

    method Leave(stage: Stage)
      modifies state`stagesCompleted
      ensures state.stagesCompleted == old(state.stagesCompleted) + [stage]
    {
      state.stagesCompleted := state.stagesCompleted + [stage];
    }
  }

  lemma EachStep<S, M>(svc: Services<S, M>, st: Cycle<S, M>, segments: seq<Segment>, i: nat, stage: Stage)
    requires i <= |segments|
    ensures i < |segments| ==>
              var (st1, ok) := One(svc, st, segments[i], stage);
              Each(svc, st, segments[i..], stage) == if ok then Each(svc, st1, segments[i + 1..], stage) else (st1, false)
    ensures i == |segments| ==> Each(svc, st, segments[i..], stage) == (st, true)
  {
    if i < |segments| {
      assert segments[i..][0] == segments[i] && segments[i..][1..] == segments[i + 1..];
    }
  }

  /** Builds the source: refuses no segments, too many or too large ones, unsafe paths and repeated ones. */
  method BuildSource<S, M>(svc: Services<S, M>, segments: seq<Segment>) returns (ok: bool)
    ensures ok <==> Buildable(svc, segments)
  {
    if segments == [] || |segments| > svc.limits.files {
      return false;
    }
    var total := SourceSize(svc, segments);
    if total > svc.limits.bytes {
      return false;
    }
    var seen: set<string> := {};
    var i := 0;
    while i < |segments|
      invariant 0 <= i <= |segments|
      invariant forall k | 0 <= k < i :: svc.size(segments[k]) <= svc.limits.single && svc.pathKey(segments[k].id).Some?
      invariant forall w :: w in seen <==> exists k :: 0 <= k < i && svc.pathKey(segments[k].id) == Some(w)
      invariant forall j, k | 0 <= j < k < i :: svc.pathKey(segments[j].id) != svc.pathKey(segments[k].id)
    {
      var path := svc.pathKey(segments[i].id);
      if path.None? || path.value in seen || svc.size(segments[i]) > svc.limits.single {
        return false;
      }
      seen := seen + {path.value};
      i := i + 1;
    }
    return true;
  }

  method SourceSize<S, M>(svc: Services<S, M>, segments: seq<Segment>) returns (total: nat)
    ensures total == TotalSize(svc, segments)
  {
    total := 0;
    var i := |segments|;
    while i > 0
      invariant 0 <= i <= |segments| && total == TotalSize(svc, segments[i..])
    {
      i := i - 1;
      assert segments[i..][0] == segments[i] && segments[i..][1..] == segments[i + 1..];
      total := total + svc.size(segments[i]);
    }
    assert segments[0..] == segments;
  }

  /** The rights gate and the source, then the corpus factory's status of every segment. */
  method StageRegisterSource<S, M>(runner: CycleRunner, composition: Composition<S, M>, state: CycleState) returns (ok: bool)
    requires runner.state == state
    modifies state
    ensures (Value(state, composition), ok) == Call(composition.services, old(Value(state, composition)), RegisterSource)
  {
    var svc := composition.services;
    var due := runner.Enter(RegisterSource);
    if !due || !svc.opens(RegisterSource) {
      return false;
    }
    var built := BuildSource(svc, state.segments);
    if !built {
      return false;
    }
    ghost var start := Value(state, composition);
    var i := 0;
    while i < |state.segments|
      invariant 0 <= i <= |state.segments|
      invariant Each(svc, Value(state, composition), state.segments[i..], RegisterSource) == Each(svc, start, state.segments, RegisterSource)
    {
      var segment := state.segments[i];
      EachStep(svc, Value(state, composition), state.segments, i, RegisterSource);
      var status := svc.factory(segment);
      if status.None? {
        return false;
      }
      state.corpusItems := state.corpusItems[segment.id := status.value];
      i := i + 1;
    }
    EachStep(svc, Value(state, composition), state.segments, i, RegisterSource);
    runner.Leave(RegisterSource);
    return true;
  }

  /** The proposals, revalidated on the host. */
  method StageExtract<S, M>(runner: CycleRunner, composition: Composition<S, M>, state: CycleState) returns (ok: bool)
    requires runner.state == state
    modifies state
    ensures (Value(state, composition), ok) == Call(composition.services, old(Value(state, composition)), Extract)
  {
    var svc := composition.services;
    var due := runner.Enter(Extract);
    if !due || !svc.opens(Extract) {
      return false;
    }
    ghost var start := Value(state, composition);
    var i := 0;
    while i < |state.segments|
      invariant 0 <= i <= |state.segments|
      invariant Each(svc, Value(state, composition), state.segments[i..], Extract) == Each(svc, start, state.segments, Extract)
    {
      var segment := state.segments[i];
      EachStep(svc, Value(state, composition), state.segments, i, Extract);
      var valid := svc.revalidate(segment);
      if segment.id !in state.corpusItems || valid.None? {
        return false;
      }
      state.proposals := state.proposals[segment.id := valid.value];
      i := i + 1;
    }
    EachStep(svc, Value(state, composition), state.segments, i, Extract);
    runner.Leave(Extract);
    return true;
  }

  /** Structures the content of every segment as a proposal; the stores are not written. */
  method StageNormalize<S, M>(runner: CycleRunner, composition: Composition<S, M>, state: CycleState) returns (ok: bool)
    requires runner.state == state
    modifies state
    ensures (Value(state, composition), ok) == Call(composition.services, old(Value(state, composition)), Normalize)
  {
    var svc := composition.services;
    var due := runner.Enter(Normalize);
    if !due || !svc.opens(Normalize) {
      return false;
    }
    ghost var start := Value(state, composition);
    var i := 0;
    while i < |state.segments|
      invariant 0 <= i <= |state.segments|
      invariant Each(svc, Value(state, composition), state.segments[i..], Normalize) == Each(svc, start, state.segments, Normalize)
    {
      var segment := state.segments[i];
      EachStep(svc, Value(state, composition), state.segments, i, Normalize);
      if segment.id !in state.corpusItems || !svc.grounds(segment) {
        return false;
      }
      state.normalized := state.normalized[segment.id := segment];
      i := i + 1;
    }
    EachStep(svc, Value(state, composition), state.segments, i, Normalize);
    runner.Leave(Normalize);
    return true;
  }

  /** Runs the derived case of every segment and compares it with what the source asserts. */
  method StageCrossCheck<S, M>(runner: CycleRunner, composition: Composition<S, M>, state: CycleState) returns (ok: bool)
    requires runner.state == state
    modifies state
    ensures (Value(state, composition), ok) == Call(composition.services, old(Value(state, composition)), CrossCheck)
  {
    var svc := composition.services;
    var due := runner.Enter(CrossCheck);
    if !due || !svc.opens(CrossCheck) {
      return false;
    }
    ghost var start := Value(state, composition);
    var i := 0;
    while i < |state.segments|
      invariant 0 <= i <= |state.segments|
      invariant Each(svc, Value(state, composition), state.segments[i..], CrossCheck) == Each(svc, start, state.segments, CrossCheck)
    {
      var segment := state.segments[i];
      EachStep(svc, Value(state, composition), state.segments, i, CrossCheck);
      var accepted := svc.check(segment);
      if accepted.None? {
        return false;
      }
      state.crossChecks := state.crossChecks[segment.id := accepted.value];
      i := i + 1;
    }
    EachStep(svc, Value(state, composition), state.segments, i, CrossCheck);
    runner.Leave(CrossCheck);
    return true;
  }

  /** Quarantines what the factory refused and what failed the cross-check. */
  method StageQuarantine<S, M>(runner: CycleRunner, composition: Composition<S, M>, state: CycleState) returns (ok: bool)
    requires runner.state == state
    modifies state
    ensures (Value(state, composition), ok) == Call(composition.services, old(Value(state, composition)), Quarantine)
  {
    var svc := composition.services;
    var due := runner.Enter(Quarantine);
    if !due || !svc.opens(Quarantine) {
      return false;
    }
    ghost var start := Value(state, composition);
    var i := 0;
    while i < |state.segments|
      invariant 0 <= i <= |state.segments|
      invariant Each(svc, Value(state, composition), state.segments[i..], Quarantine) == Each(svc, start, state.segments, Quarantine)
    {
      var segment := state.segments[i];
      EachStep(svc, Value(state, composition), state.segments, i, Quarantine);
      if segment.id !in state.corpusItems {
        return false;
      }
      if RefusedByTheFactory(state.corpusItems[segment.id]) {
        state.quarantined := state.quarantined[segment.id := "unclear_license"];
      } else {
        if segment.id !in state.crossChecks {
          return false;
        }
        if !state.crossChecks[segment.id] {
          var reason := if segment.quarantineReason.Some? then segment.quarantineReason.value else "conflicting_provenance";
          state.quarantined := state.quarantined[segment.id := reason];
        }
      }
      i := i + 1;
    }
    EachStep(svc, Value(state, composition), state.segments, i, Quarantine);
    runner.Leave(Quarantine);
    return true;
  }

  /** The turn of one segment in the stage below. */
  method CompileSegment<S, M>(composition: Composition<S, M>, state: CycleState, segment: Segment) returns (ok: bool)
    modifies state, composition`semantic, composition`memory
    ensures (Value(state, composition), ok) == CompileOne(composition.services, old(Value(state, composition)), segment)
  {
    if segment.id !in state.quarantined {
      if segment.id !in state.corpusItems || segment.id !in state.normalized {
        return false;
      }
      var (semantic, claim) := composition.services.commit(composition.semantic, state.normalized[segment.id]);
      composition.semantic := semantic;
      if claim.None? {
        return false;
      }
      state.claims := state.claims[segment.id := claim.value];
      var (memory, written) := composition.services.create(composition.memory, segment, claim.value);
      composition.memory := memory;
      if !written {
        return false;
      }
      state.compiled := state.compiled[segment.id := Compiled(claim.value, false)];
    }
    return true;
  }

  /** Commits the claim and writes the memory record of every segment that is not quarantined. */
  method StageCompile<S, M>(runner: CycleRunner, composition: Composition<S, M>, state: CycleState) returns (ok: bool)
    requires runner.state == state
    modifies state, composition`semantic, composition`memory
    ensures (Value(state, composition), ok) == Call(composition.services, old(Value(state, composition)), Compile)
  {
    var svc := composition.services;
    var due := runner.Enter(Compile);
    if !due || !svc.opens(Compile) {
      return false;
    }
    ghost var start := Value(state, composition);
    var i := 0;
    while i < |state.segments|
      invariant 0 <= i <= |state.segments|
      invariant Each(svc, Value(state, composition), state.segments[i..], Compile) == Each(svc, start, state.segments, Compile)
    {
      var segment := state.segments[i];
      EachStep(svc, Value(state, composition), state.segments, i, Compile);
      var passed := CompileSegment(composition, state, segment);
      if !passed {
        return false;
      }
      i := i + 1;
    }
    EachStep(svc, Value(state, composition), state.segments, i, Compile);
    runner.Leave(Compile);
    return true;
  }

  lemma {:induction false} RetainedOfAppend(segments: seq<Segment>, x: Segment, compiled: map<Id, Compiled>)
    ensures Retained(segments + [x], compiled)
         == Retained(segments, compiled) + (if x.id in compiled && x.expectedAccepted then [x] else [])
  {
    if segments == [] {
      assert [] + [x] == [x] && [x][1..] == [];
    } else {
      assert (segments + [x])[0] == segments[0] && (segments + [x])[1..] == segments[1..] + [x];
      RetainedOfAppend(segments[1..], x, compiled);
    }
  }

  /** The cases the replay executes: those of the compiled segments that are expected to be accepted. */
  method RetainedCases(state: CycleState) returns (cases: seq<Segment>)
    ensures cases == Retained(state.segments, state.compiled)
  {
    cases := [];
    var i := 0;
    while i < |state.segments|
      invariant 0 <= i <= |state.segments|
      invariant cases == Retained(state.segments[..i], state.compiled)
    {
      var segment := state.segments[i];
      RetainedOfAppend(state.segments[..i], segment, state.compiled);
      assert state.segments[..i + 1] == state.segments[..i] + [segment];
      if segment.id in state.compiled && segment.expectedAccepted {
        cases := cases + [segment];
      }
      i := i + 1;
    }
    assert state.segments[..i] == state.segments;
  }

  /** Replays the retained cases. */
  method StageEvaluate<S, M>(runner: CycleRunner, composition: Composition<S, M>, state: CycleState) returns (ok: bool)
    requires runner.state == state
    modifies state
    ensures (Value(state, composition), ok) == Call(composition.services, old(Value(state, composition)), Evaluate)
  {
    var due := runner.Enter(Evaluate);
    if !due || !composition.services.opens(Evaluate) {
      return false;
    }
    var cases := RetainedCases(state);
    var report := composition.services.replay(cases);
    if report.None? {
      return false;
    }
    state.replay := report;
    runner.Leave(Evaluate);
    return true;
  }

  /** The turn of one segment in the stage below. */
  method PromoteSegment<S, M>(composition: Composition<S, M>, state: CycleState, segment: Segment) returns (ok: bool)
    modifies state, composition`semantic
    ensures (Value(state, composition), ok) == PromoteOne(composition.services, old(Value(state, composition)), segment)
  {
    if segment.id !in state.quarantined {
      if segment.id !in state.claims {
        return false;
      }
      var (semantic, supported) := composition.services.promote(composition.semantic, state.claims[segment.id]);
      composition.semantic := semantic;
      if !supported {
        return false;
      }
      state.promoted := state.promoted + [segment.id];
      if segment.id !in state.compiled {
        return false;
      }
      state.compiled := state.compiled[segment.id := state.compiled[segment.id].(promoted := true)];
    }
    return true;
  }

  /** Offers the claim of every segment that is not quarantined to the promotion gate. */
  method StagePromote<S, M>(runner: CycleRunner, composition: Composition<S, M>, state: CycleState) returns (ok: bool)
    requires runner.state == state
    modifies state, composition`semantic
    ensures (Value(state, composition), ok) == Call(composition.services, old(Value(state, composition)), Promote)
  {
    var svc := composition.services;
    var due := runner.Enter(Promote);
    if !due || !svc.opens(Promote) {
      return false;
    }
    ghost var start := Value(state, composition);
    var i := 0;
    while i < |state.segments|
      invariant 0 <= i <= |state.segments|
      invariant Each(svc, Value(state, composition), state.segments[i..], Promote) == Each(svc, start, state.segments, Promote)
    {
      var segment := state.segments[i];
      EachStep(svc, Value(state, composition), state.segments, i, Promote);
      var passed := PromoteSegment(composition, state, segment);
      if !passed {
        return false;
      }
      i := i + 1;
    }
    EachStep(svc, Value(state, composition), state.segments, i, Promote);
    runner.Leave(Promote);
    return true;
  }

  /** Reads the event types of the cycle back; no dictionary is touched. */
  method StageObserve<S, M>(runner: CycleRunner, composition: Composition<S, M>, state: CycleState) returns (ok: bool)
    requires runner.state == state
    modifies state
    ensures (Value(state, composition), ok) == Call(composition.services, old(Value(state, composition)), Observe)
  {
    EachObserved(composition.services, Value(state, composition), state.segments);
    var due := runner.Enter(Observe);
    if !due || !composition.services.opens(Observe) {
      return false;
    }
    runner.Leave(Observe);
    return true;
  }

  lemma {:induction false} EachObserved<S, M>(svc: Services<S, M>, st: Cycle<S, M>, todo: seq<Segment>)
    ensures Each(svc, st, todo, Observe) == (st, true)
    decreases |todo|
  {
    if todo != [] {
      EachObserved(svc, st, todo[1..]);
    }
  }

  method RunStage<S, M>(runner: CycleRunner, composition: Composition<S, M>, state: CycleState, stage: Stage) returns (ok: bool)
    requires runner.state == state
    modifies state, composition`semantic, composition`memory
    ensures (Value(state, composition), ok) == Call(composition.services, old(Value(state, composition)), stage)
  {
    match stage
    case RegisterSource => ok := StageRegisterSource(runner, composition, state);
    case Extract => ok := StageExtract(runner, composition, state);
    case Normalize => ok := StageNormalize(runner, composition, state);
    case CrossCheck => ok := StageCrossCheck(runner, composition, state);
    case Quarantine => ok := StageQuarantine(runner, composition, state);
    case Compile => ok := StageCompile(runner, composition, state);
    case Evaluate => ok := StageEvaluate(runner, composition, state);
    case Promote => ok := StagePromote(runner, composition, state);
    case Observe => ok := StageObserve(runner, composition, state);
  }

  /** One complete pass through the nine stages; that a pass which ran through is complete needs no further check. */
  method RunCycle<S, M>(composition: Composition<S, M>, segments: seq<Segment>) returns (state: CycleState, ok: bool)
    modifies composition`semantic, composition`memory
    ensures fresh(state)
    ensures (Value(state, composition), ok)
         == CallAll(composition.services, NewCycle(segments, old(composition.semantic), old(composition.memory)), Stages)
    ensures ok ==> state.stagesCompleted == Stages
  {
    state := new CycleState(segments);
    var runner := new CycleRunner(state);
    ghost var start := Value(state, composition);
    var i := 0;
    while i < |Stages|
      invariant 0 <= i <= |Stages|
      invariant CallAll(composition.services, Value(state, composition), Stages[i..]) == CallAll(composition.services, start, Stages)
    {
      assert Stages[i..][0] == Stages[i] && Stages[i..][1..] == Stages[i + 1..];
      ok := RunStage(runner, composition, state, Stages[i]);
      if !ok {
        return;
      }
      i := i + 1;
    }
    assert Stages[0..] == Stages;
    CampaignVerdicts.CallsPromote(composition.services, start, 0);
    return state, true;
  }
}
