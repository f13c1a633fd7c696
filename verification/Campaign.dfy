/**
 The nine-stage acquisition cycle: a gated state machine in which a segment that the corpus
 factory refused or the cross-check did not confirm is never claimed, compiled or promoted,
 and leaves no trace in the knowledge stores.
 */
module Campaign {
  import opened Wrappers

  datatype Id = Id(name: string)

  datatype Segment = Segment(id: Id, content: string, quarantineReason: Option<string>, expectedAccepted: bool)

  datatype Stage =
    | RegisterSource | Extract | Normalize | CrossCheck | Quarantine | Compile | Evaluate | Promote | Observe

  const Stages: seq<Stage> :=
    [RegisterSource, Extract, Normalize, CrossCheck, Quarantine, Compile, Evaluate, Promote, Observe]

  datatype ItemStatus = Active | FactoryQuarantined | FactoryRejected | OtherStatus

  predicate RefusedByTheFactory(status: ItemStatus) {
    status.FactoryQuarantined? || status.FactoryRejected?
  }

  /** How many files a source may have, how many bytes in all, and how many in one of them. */
  datatype Limits = Limits(files: nat, bytes: nat, single: nat)

  /**
   The services a cycle runs against; None or false is an exception. `opens` is what a stage
   does besides its segments: the rights gate, the presence of sealed proposals, the known
   predicate, the reading of the event store. `pathKey` is the normalized, case-folded path a
   segment is registered under, and `replay` the report of replaying cases together with those
   inherited from earlier cycles, leakage check included. The two knowledge stores are of arbitrary types,
   and what the services do to them, failing or not, depends on them in any way.
   */
  datatype Services<!S, !M> = Services(
    opens: Stage -> bool,
    limits: Limits,
    pathKey: Id -> Option<string>,
    size: Segment -> nat,
    factory: Segment -> Option<ItemStatus>,
    revalidate: Segment -> Option<bool>,
    grounds: Segment -> bool,
    check: Segment -> Option<bool>,
    commit: (S, Segment) -> (S, Option<string>),
    create: (M, Segment, string) -> (M, bool),
    replay: seq<Segment> -> Option<string>,
    promote: (S, string) -> (S, bool))

  datatype Compiled = Compiled(claim: string, promoted: bool)

  /** What a cycle holds as knowledge: its claims, compiled records and promotions, and the two stores. */
  datatype Knowledge<S, M> = Knowledge(
    claims: map<Id, string>,
    compiled: map<Id, Compiled>,
    promoted: seq<Id>,
    semantic: S,
    memory: M)

  datatype Cycle<S, M> = Cycle(
    segments: seq<Segment>,
    stagesCompleted: seq<Stage>,
    items: map<Id, ItemStatus>,
    proposals: map<Id, bool>,
    normalized: map<Id, Segment>,
    crossChecks: map<Id, bool>,
    quarantined: map<Id, string>,
    held: Knowledge<S, M>,
    replay: Option<string>)

  // ----- The stages -----

  /** One segment in one stage; false when an exception leaves the stage. */
  function One<S, M>(svc: Services<S, M>, st: Cycle<S, M>, x: Segment, stage: Stage): (Cycle<S, M>, bool) {
    match stage
    case RegisterSource =>
      var status := svc.factory(x);
      if status.None? then (st, false) else (st.(items := st.items[x.id := status.value]), true)
    case Extract =>
      var valid := svc.revalidate(x);
      if x.id !in st.items || valid.None? then (st, false) else (st.(proposals := st.proposals[x.id := valid.value]), true)
    case Normalize =>
      if x.id !in st.items || !svc.grounds(x) then (st, false) else (st.(normalized := st.normalized[x.id := x]), true)
    case CrossCheck =>
      var accepted := svc.check(x);
      if accepted.None? then (st, false) else (st.(crossChecks := st.crossChecks[x.id := accepted.value]), true)
    case Quarantine => QuarantineOne(st, x)
    case Compile => CompileOne(svc, st, x)
    case Promote => PromoteOne(svc, st, x)
    case Evaluate => (st, true)
    case Observe => (st, true)
  }

  function QuarantineOne<S, M>(st: Cycle<S, M>, x: Segment): (Cycle<S, M>, bool) {
    if x.id !in st.items then (st, false)
    else if RefusedByTheFactory(st.items[x.id]) then (st.(quarantined := st.quarantined[x.id := "unclear_license"]), true)
    else if x.id !in st.crossChecks then (st, false)
    else if st.crossChecks[x.id] then (st, true)
    else
      var reason := if x.quarantineReason.Some? then x.quarantineReason.value else "conflicting_provenance";
      (st.(quarantined := st.quarantined[x.id := reason]), true)
  }

  function CompileOne<S, M>(svc: Services<S, M>, st: Cycle<S, M>, x: Segment): (Cycle<S, M>, bool) {
    if x.id in st.quarantined then (st, true)
    else if x.id !in st.items || x.id !in st.normalized then (st, false)
    else
      var (held, ok) := CompileInto(svc, st.held, x, st.normalized[x.id]);
      (st.(held := held), ok)
  }

  function CompileInto<S, M>(svc: Services<S, M>, k: Knowledge<S, M>, x: Segment, proposal: Segment): (Knowledge<S, M>, bool) {
    var (semantic, claim) := svc.commit(k.semantic, proposal);
    if claim.None? then (k.(semantic := semantic), false)
    else
      var (memory, written) := svc.create(k.memory, x, claim.value);
      var k1 := k.(semantic := semantic, memory := memory, claims := k.claims[x.id := claim.value]);
      if !written then (k1, false) else (k1.(compiled := k.compiled[x.id := Compiled(claim.value, false)]), true)
  }

  function PromoteOne<S, M>(svc: Services<S, M>, st: Cycle<S, M>, x: Segment): (Cycle<S, M>, bool) {
    if x.id in st.quarantined then (st, true)
    else
      var (held, ok) := PromoteIn(svc, st.held, x.id);
      (st.(held := held), ok)
  }

  function PromoteIn<S, M>(svc: Services<S, M>, k: Knowledge<S, M>, id: Id): (Knowledge<S, M>, bool) {
    if id !in k.claims then (k, false)
    else
      var (semantic, supported) := svc.promote(k.semantic, k.claims[id]);
      if !supported then (k.(semantic := semantic), false)
      else
        var k1 := k.(semantic := semantic, promoted := k.promoted + [id]);
        if id !in k.compiled then (k1, false)
        else (k1.(compiled := k.compiled[id := k.compiled[id].(promoted := true)]), true)
  }

  function Each<S, M>(svc: Services<S, M>, st: Cycle<S, M>, todo: seq<Segment>, stage: Stage): (Cycle<S, M>, bool)
    decreases |todo|
  {
    if todo == [] then (st, true)
    else
      var (st1, ok) := One(svc, st, todo[0], stage);
      if ok then Each(svc, st1, todo[1..], stage) else (st1, false)
  }

  /** The retained cases of this cycle: the accepted ones among what was compiled. */
  function Retained(segments: seq<Segment>, compiled: map<Id, Compiled>): seq<Segment> {
    if segments == [] then []
    else
      (if segments[0].id in compiled && segments[0].expectedAccepted then [segments[0]] else [])
      + Retained(segments[1..], compiled)
  }

  function TotalSize<S, M>(svc: Services<S, M>, segments: seq<Segment>): nat
    decreases |segments|
  {
    if segments == [] then 0 else svc.size(segments[0]) + TotalSize(svc, segments[1..])
  }

  /** The segments make one source: some, not too many nor too large, under paths that are safe and all different. */
  predicate Buildable<S, M>(svc: Services<S, M>, segments: seq<Segment>) {
    && 0 < |segments| <= svc.limits.files
    && TotalSize(svc, segments) <= svc.limits.bytes
    && (forall i | 0 <= i < |segments| :: svc.size(segments[i]) <= svc.limits.single && svc.pathKey(segments[i].id).Some?)
    && (forall i, j | 0 <= i < j < |segments| :: svc.pathKey(segments[i].id) != svc.pathKey(segments[j].id))
  }

  function Body<S, M>(svc: Services<S, M>, st: Cycle<S, M>, stage: Stage): (Cycle<S, M>, bool) {
    if !svc.opens(stage) then (st, false)
    else if stage.RegisterSource? && !Buildable(svc, st.segments) then (st, false)
    else if stage.Evaluate? then
      var report := svc.replay(Retained(st.segments, st.held.compiled));
      if report.Some? then (st.(replay := report), true) else (st, false)
    else Each(svc, st, st.segments, stage)
  }

  predicate Due<S, M>(st: Cycle<S, M>, stage: Stage) {
    |st.stagesCompleted| < |Stages| && Stages[|st.stagesCompleted|] == stage
  }

  /** One call of a stage, whether or not it is due. */
  function Call<S, M>(svc: Services<S, M>, st: Cycle<S, M>, stage: Stage): (Cycle<S, M>, bool) {
    if !Due(st, stage) then (st, false)
    else
      var (st1, ok) := Body(svc, st, stage);
      (if ok then st1.(stagesCompleted := st1.stagesCompleted + [stage]) else st1, ok)
  }

  /** Calls in sequence until one raises. */
  function CallAll<S, M>(svc: Services<S, M>, st: Cycle<S, M>, stages: seq<Stage>): (Cycle<S, M>, bool)
    decreases |stages|
  {
    if stages == [] then (st, true)
    else
      var (st1, ok) := Call(svc, st, stages[0]);
      if ok then CallAll(svc, st1, stages[1..]) else (st1, false)
  }

  function NewCycle<S, M>(segments: seq<Segment>, semantic: S, memory: M): Cycle<S, M> {
    Cycle(segments, [], map[], map[], map[], map[], map[], Knowledge(map[], map[], [], semantic, memory), None)
  }

  // ----- What every sequence of calls keeps -----

  ghost predicate DistinctIds(segments: seq<Segment>) {
    forall i, j | 0 <= i < j < |segments| :: segments[i].id != segments[j].id
  }

  /** The factory refused the segment, or the cross-check did not confirm it. */
  predicate Bad<S, M>(svc: Services<S, M>, x: Segment) {
    (svc.factory(x).Some? && RefusedByTheFactory(svc.factory(x).value)) || svc.check(x) == Some(false)
  }

  function Get<T>(m: map<Id, T>, id: Id): Option<T> {
    if id in m then Some(m[id]) else None
  }

  /** Everything recorded under one id. */
  datatype View = View(
    item: Option<ItemStatus>, proposal: Option<bool>, normalized: Option<Segment>, crossCheck: Option<bool>,
    quarantined: bool, claimed: bool, compiled: bool, promoted: bool)

  function ViewOf<S, M>(st: Cycle<S, M>, id: Id): View {
    View(Get(st.items, id), Get(st.proposals, id), Get(st.normalized, id), Get(st.crossChecks, id),
         id in st.quarantined, id in st.held.claims, id in st.held.compiled, id in st.held.promoted)
  }

  /** What is recorded of a segment is what the services answered about it. */
  predicate Truthful<S, M>(svc: Services<S, M>, v: View, x: Segment) {
    && (v.item.Some? ==> svc.factory(x) == v.item)
    && (v.proposal.Some? ==> svc.revalidate(x) == v.proposal)
    && (v.normalized.Some? ==> svc.grounds(x) && v.normalized.value == x)
    && (v.crossCheck.Some? ==> svc.check(x) == v.crossCheck)
    && (v.quarantined ==> Bad(svc, x))
  }

  /** Nothing bad is held as knowledge, and nothing at all before quarantine is over. */
  predicate Safe<S, M>(svc: Services<S, M>, n: nat, v: View, x: Segment) {
    v.claimed || v.compiled || v.promoted ==> n >= 5 && !Bad(svc, x) && !v.quarantined
  }

  /** What the first `n` stages have settled about a segment. */
  predicate Settled<S, M>(svc: Services<S, M>, n: nat, v: View, x: Segment) {
    && (n >= 1 ==> v.item.Some?)
    && (n >= 2 ==> v.proposal.Some?)
    && (n >= 3 ==> v.normalized.Some?)
    && (n >= 4 ==> v.crossCheck.Some?)
    && (n >= 5 && Bad(svc, x) ==> v.quarantined)
    && (n >= 6 && !Bad(svc, x) ==> v.claimed && v.compiled)
    && (n >= 8 && !Bad(svc, x) ==> v.promoted)
  }

  predicate Fine<S, M>(svc: Services<S, M>, n: nat, v: View, x: Segment) {
    Truthful(svc, v, x) && Safe(svc, n, v, x) && Settled(svc, n, v, x)
  }

  ghost predicate Known(segments: seq<Segment>, id: Id) {
    exists x :: x in segments && x.id == id
  }

  predicate Held(v: View) {
    v.quarantined || v.claimed || v.compiled || v.promoted
  }

  /** Only segments of the cycle are quarantined or held. */
  ghost predicate Own<S, M>(st: Cycle<S, M>) {
    forall id | Held(ViewOf(st, id)) :: Known(st.segments, id)
  }

  ghost predicate Inv<S, M>(svc: Services<S, M>, st: Cycle<S, M>) {
    && st.stagesCompleted <= Stages
    && (st.stagesCompleted != [] ==> Buildable(svc, st.segments))
    && Own(st)
    && forall x | x in st.segments :: Fine(svc, |st.stagesCompleted|, ViewOf(st, x.id), x)
  }

  /** Segments registered under different paths have different ids. */
  lemma BuildableIsDistinct<S, M>(svc: Services<S, M>, segments: seq<Segment>)
    requires Buildable(svc, segments)
    ensures DistinctIds(segments)
  {
  }

  lemma SameIdSameSegment(segments: seq<Segment>, x: Segment, y: Segment)
    requires DistinctIds(segments) && x in segments && y in segments && x.id == y.id
    ensures x == y
  {
    var i :| 0 <= i < |segments| && segments[i] == x;
    var j :| 0 <= j < |segments| && segments[j] == y;
  }

  /** What one segment's turn in a stage settles about it. */
  predicate Turned<S, M>(svc: Services<S, M>, stage: Stage, v: View, x: Segment) {
    match stage
    case RegisterSource => v.item.Some?
    case Extract => v.proposal.Some?
    case Normalize => v.normalized.Some?
    case CrossCheck => v.crossCheck.Some?
    case Quarantine => Bad(svc, x) ==> v.quarantined
    case Compile => !Bad(svc, x) ==> v.claimed && v.compiled
    case Promote => !Bad(svc, x) ==> v.promoted
    case Evaluate => true
    case Observe => true
  }

  lemma CompileTouchesOnly<S, M>(svc: Services<S, M>, st: Cycle<S, M>, x: Segment, id: Id)
    requires id != x.id
    ensures ViewOf(CompileOne(svc, st, x).0, id) == ViewOf(st, id)
  {
  }

  lemma PromoteTouchesOnly<S, M>(svc: Services<S, M>, st: Cycle<S, M>, x: Segment, id: Id)
    requires id != x.id
    ensures ViewOf(PromoteOne(svc, st, x).0, id) == ViewOf(st, id)
  {
  }

  lemma {:induction false} OneTouchesOnly<S, M>(svc: Services<S, M>, st: Cycle<S, M>, x: Segment, stage: Stage, id: Id)
    requires id != x.id
    ensures ViewOf(One(svc, st, x, stage).0, id) == ViewOf(st, id)
  {
    match stage {
      case Compile => CompileTouchesOnly(svc, st, x, id);
      case Promote => PromoteTouchesOnly(svc, st, x, id);
      case _ =>
    }
  }

  lemma OneKeepsRest<S, M>(svc: Services<S, M>, st: Cycle<S, M>, x: Segment, stage: Stage)
    ensures var st1 := One(svc, st, x, stage).0;
            st1.segments == st.segments && st1.stagesCompleted == st.stagesCompleted
  {
  }

  /** The turn of a segment in a due stage keeps what is fine, settles it when it succeeds, and never unsettles it. */
  ghost predicate TurnsWell<S, M>(svc: Services<S, M>, st: Cycle<S, M>, x: Segment, stage: Stage, st1: Cycle<S, M>, ok: bool) {
    && Fine(svc, |st.stagesCompleted|, ViewOf(st1, x.id), x)
    && (ok || Turned(svc, stage, ViewOf(st, x.id), x) ==> Turned(svc, stage, ViewOf(st1, x.id), x))
  }

  lemma QuarantineTurns<S, M>(svc: Services<S, M>, st: Cycle<S, M>, x: Segment)
    requires Fine(svc, |st.stagesCompleted|, ViewOf(st, x.id), x) && Due(st, Quarantine)
    ensures var (st1, ok) := QuarantineOne(st, x); TurnsWell(svc, st, x, Quarantine, st1, ok)
  {
    assert |st.stagesCompleted| == 4;
  }

  lemma CompileTurns<S, M>(svc: Services<S, M>, st: Cycle<S, M>, x: Segment)
    requires Fine(svc, |st.stagesCompleted|, ViewOf(st, x.id), x) && Due(st, Compile)
    ensures var (st1, ok) := CompileOne(svc, st, x); TurnsWell(svc, st, x, Compile, st1, ok)
  {
    assert |st.stagesCompleted| == 5;
  }

  lemma PromoteTurns<S, M>(svc: Services<S, M>, st: Cycle<S, M>, x: Segment)
    requires Fine(svc, |st.stagesCompleted|, ViewOf(st, x.id), x) && Due(st, Promote)
    ensures var (st1, ok) := PromoteOne(svc, st, x); TurnsWell(svc, st, x, Promote, st1, ok)
  {
    assert |st.stagesCompleted| == 7;
  }

  lemma OneTurns<S, M>(svc: Services<S, M>, st: Cycle<S, M>, x: Segment, stage: Stage)
    requires Fine(svc, |st.stagesCompleted|, ViewOf(st, x.id), x) && Due(st, stage)
    ensures var (st1, ok) := One(svc, st, x, stage); TurnsWell(svc, st, x, stage, st1, ok)
  {
    match stage {
      case Quarantine => QuarantineTurns(svc, st, x);
      case Compile => CompileTurns(svc, st, x);
      case Promote => PromoteTurns(svc, st, x);
      case _ => RecordTurns(svc, st, x, stage);
    }
  }

  lemma RecordTurns<S, M>(svc: Services<S, M>, st: Cycle<S, M>, x: Segment, stage: Stage)
    requires !stage.Quarantine? && !stage.Compile? && !stage.Promote?
    requires Fine(svc, |st.stagesCompleted|, ViewOf(st, x.id), x) && Due(st, stage)
    ensures var (st1, ok) := One(svc, st, x, stage); TurnsWell(svc, st, x, stage, st1, ok)
  {
  }

  lemma OneStaysOwn<S, M>(svc: Services<S, M>, st: Cycle<S, M>, x: Segment, stage: Stage)
    requires Own(st) && x in st.segments
    ensures Own(One(svc, st, x, stage).0)
  {
    OneKeepsRest(svc, st, x, stage);
    assert Known(st.segments, x.id);
    var st1 := One(svc, st, x, stage).0;
    forall id | Held(ViewOf(st1, id))
      ensures Known(st.segments, id)
    {
      if id != x.id {
        OneTouchesOnly(svc, st, x, stage, id);
      }
    }
  }

  lemma {:induction false} OneKeepsInv<S, M>(svc: Services<S, M>, st: Cycle<S, M>, x: Segment, stage: Stage)
    requires Inv(svc, st) && DistinctIds(st.segments) && x in st.segments && Due(st, stage)
    ensures var (st1, ok) := One(svc, st, x, stage);
            && st1.segments == st.segments && st1.stagesCompleted == st.stagesCompleted
            && Inv(svc, st1)
            && (ok ==> Turned(svc, stage, ViewOf(st1, x.id), x))
            && forall y | y in st.segments && Turned(svc, stage, ViewOf(st, y.id), y) :: Turned(svc, stage, ViewOf(st1, y.id), y)
  {
    var st1 := One(svc, st, x, stage).0;
    OneKeepsRest(svc, st, x, stage);
    OneStaysOwn(svc, st, x, stage);
    OneTurns(svc, st, x, stage);
    forall y | y in st.segments
      ensures Fine(svc, |st.stagesCompleted|, ViewOf(st1, y.id), y)
      ensures Turned(svc, stage, ViewOf(st, y.id), y) ==> Turned(svc, stage, ViewOf(st1, y.id), y)
    {
      assert Fine(svc, |st.stagesCompleted|, ViewOf(st, y.id), y);
      if y.id == x.id {
        SameIdSameSegment(st.segments, x, y);
      } else {
        OneTouchesOnly(svc, st, x, stage, y.id);
      }
    }
  }

  lemma {:induction false} EachKeepsInv<S, M>(svc: Services<S, M>, st: Cycle<S, M>, todo: seq<Segment>, stage: Stage)
    requires Inv(svc, st) && DistinctIds(st.segments) && Due(st, stage) && forall x | x in todo :: x in st.segments
    ensures var (st1, ok) := Each(svc, st, todo, stage);
            && st1.segments == st.segments && st1.stagesCompleted == st.stagesCompleted
            && Inv(svc, st1)
            && (ok ==> forall x | x in todo :: Turned(svc, stage, ViewOf(st1, x.id), x))
            && forall y | y in st.segments && Turned(svc, stage, ViewOf(st, y.id), y) :: Turned(svc, stage, ViewOf(st1, y.id), y)
    decreases |todo|
  {
    if todo != [] {
      OneKeepsInv(svc, st, todo[0], stage);
      var (st1, ok) := One(svc, st, todo[0], stage);
      if ok {
        EachKeepsInv(svc, st1, todo[1..], stage);
        assert forall x | x in todo :: x == todo[0] || x in todo[1..];
      }
    }
  }

  lemma CompletingKeepsInv<S, M>(svc: Services<S, M>, st: Cycle<S, M>, stage: Stage)
    requires Inv(svc, st) && Due(st, stage) && Buildable(svc, st.segments)
    requires forall x | x in st.segments :: Turned(svc, stage, ViewOf(st, x.id), x)
    ensures Inv(svc, st.(stagesCompleted := st.stagesCompleted + [stage]))
  {
    var st1 := st.(stagesCompleted := st.stagesCompleted + [stage]);
    assert st1.stagesCompleted == Stages[..|st.stagesCompleted| + 1];
    forall id
      ensures ViewOf(st1, id) == ViewOf(st, id)
    {
    }
    forall x | x in st.segments
      ensures Fine(svc, |st1.stagesCompleted|, ViewOf(st, x.id), x)
    {
      OneMoreStage(svc, st, stage, x);
    }
  }

  lemma OneMoreStage<S, M>(svc: Services<S, M>, st: Cycle<S, M>, stage: Stage, x: Segment)
    requires Due(st, stage) && Fine(svc, |st.stagesCompleted|, ViewOf(st, x.id), x) && Turned(svc, stage, ViewOf(st, x.id), x)
    ensures Fine(svc, |st.stagesCompleted| + 1, ViewOf(st, x.id), x)
  {
  }

  lemma BodyKeepsInv<S, M>(svc: Services<S, M>, st: Cycle<S, M>, stage: Stage)
    requires Inv(svc, st) && Due(st, stage) && Buildable(svc, st.segments)
    ensures var (st1, ok) := Body(svc, st, stage);
            && st1.segments == st.segments && st1.stagesCompleted == st.stagesCompleted && Inv(svc, st1)
            && (ok ==> forall x | x in st.segments :: Turned(svc, stage, ViewOf(st1, x.id), x))
  {
    BuildableIsDistinct(svc, st.segments);
    if svc.opens(stage) {
      if stage.Evaluate? {
        assert forall id :: ViewOf(Body(svc, st, stage).0, id) == ViewOf(st, id);
      } else {
        EachKeepsInv(svc, st, st.segments, stage);
      }
    }
  }

  lemma CallKeepsInv<S, M>(svc: Services<S, M>, st: Cycle<S, M>, stage: Stage)
    requires Inv(svc, st)
    ensures Inv(svc, Call(svc, st, stage).0) && Call(svc, st, stage).0.segments == st.segments
  {
    if Due(st, stage) && Buildable(svc, st.segments) {
      BodyKeepsInv(svc, st, stage);
      var (st1, ok) := Body(svc, st, stage);
      if ok {
        CompletingKeepsInv(svc, st1, stage);
      }
    }
  }

  /** Any calls in any order, going on after failures. */
  function Attempt<S, M>(svc: Services<S, M>, st: Cycle<S, M>, stages: seq<Stage>): Cycle<S, M>
    decreases |stages|
  {
    if stages == [] then st else Attempt(svc, Call(svc, st, stages[0]).0, stages[1..])
  }

  lemma {:induction false} AttemptsKeepInv<S, M>(svc: Services<S, M>, st: Cycle<S, M>, stages: seq<Stage>)
    requires Inv(svc, st)
    ensures Inv(svc, Attempt(svc, st, stages)) && Attempt(svc, st, stages).segments == st.segments
    decreases |stages|
  {
    if stages != [] {
      CallKeepsInv(svc, st, stages[0]);
      AttemptsKeepInv(svc, Call(svc, st, stages[0]).0, stages[1..]);
    }
  }

  // ----- Main results: safety -----

  lemma NewCycleIsFine<S, M>(svc: Services<S, M>, segments: seq<Segment>, semantic: S, memory: M)
    ensures Inv(svc, NewCycle(segments, semantic, memory))
  {
  }

  /** A segment that may be held as knowledge. */
  predicate Cleared<S, M>(svc: Services<S, M>, x: Segment) {
    svc.factory(x).Some? && !RefusedByTheFactory(svc.factory(x).value) && svc.check(x) == Some(true)
  }

  /**
   Whatever stages are called in whatever order, failing wherever they fail, the completed
   stages are the first ones in order, and every segment claimed, compiled or promoted was
   accepted by the factory, confirmed by the cross-check and is not quarantined.
   */
  lemma EveryCallSequenceIsSafe<S, M>(svc: Services<S, M>, segments: seq<Segment>, semantic: S, memory: M, stages: seq<Stage>, id: Id)
    ensures var st := Attempt(svc, NewCycle(segments, semantic, memory), stages);
            && st.stagesCompleted <= Stages
            && (id in st.held.claims || id in st.held.compiled || id in st.held.promoted ==>
                  id !in st.quarantined && exists x :: x in segments && x.id == id && Cleared(svc, x))
  {
    var st0 := NewCycle(segments, semantic, memory);
    NewCycleIsFine(svc, segments, semantic, memory);
    AttemptsKeepInv(svc, st0, stages);
    var st := Attempt(svc, st0, stages);
    if id in st.held.claims || id in st.held.compiled || id in st.held.promoted {
      assert Held(ViewOf(st, id));
      var x :| x in segments && x.id == id;
      assert Fine(svc, |st.stagesCompleted|, ViewOf(st, x.id), x);
      HeldIsCleared(svc, |st.stagesCompleted|, ViewOf(st, x.id), x);
    }
  }

  lemma HeldIsCleared<S, M>(svc: Services<S, M>, n: nat, v: View, x: Segment)
    requires Fine(svc, n, v, x) && (v.claimed || v.compiled || v.promoted)
    ensures Cleared(svc, x) && !v.quarantined
  {
    assert v.item.Some? && svc.factory(x) == v.item;
    assert v.crossCheck.Some? && svc.check(x) == v.crossCheck;
    assert !Bad(svc, x) && svc.check(x) == Some(v.crossCheck.value);
    assert v.crossCheck.value;
  }

  /** A completed cycle splits its segments: each is either quarantined or compiled, and promoted exactly when compiled. */
  lemma CompletedCycleSplits<S, M>(svc: Services<S, M>, segments: seq<Segment>, semantic: S, memory: M, stages: seq<Stage>, x: Segment)
    requires x in segments
    requires Attempt(svc, NewCycle(segments, semantic, memory), stages).stagesCompleted == Stages
    ensures var st := Attempt(svc, NewCycle(segments, semantic, memory), stages);
            && (x.id in st.quarantined <==> Bad(svc, x))
            && (x.id in st.held.compiled <==> !Bad(svc, x))
            && (x.id in st.held.promoted <==> x.id in st.held.compiled)
  {
    var st0 := NewCycle(segments, semantic, memory);
    NewCycleIsFine(svc, segments, semantic, memory);
    AttemptsKeepInv(svc, st0, stages);
    var st := Attempt(svc, st0, stages);
    assert Fine(svc, |st.stagesCompleted|, ViewOf(st, x.id), x);
  }
}
