/**
 The steps of a workflow and the graph that their dependencies form: the coloured
 depth-first walk shared by validation and ordering, what it reports, and the set of
 steps downstream of one step.
 */
module FlowGraph {
  import opened Wrappers

  /** How a step obtains the text it sends to its agent. */
  datatype StepQuery = DefaultQuery | ConstantQuery(text: string) | CallableQuery

  datatype Step = Step(
    name: string,
    dependsOn: seq<string>,
    query: StepQuery,
    maxRetry: int,
    timeout: Option<real>,
    hasFallback: bool,
    hasCancelIf: bool,
    requiresApproval: bool,
    hasApprovalHandler: bool)

  type Graph = map<string, Step>

  function Names(steps: seq<Step>): (names: seq<string>)
    ensures |names| == |steps|
    ensures forall i | 0 <= i < |steps| :: names[i] == steps[i].name
  {
    seq(|steps|, i requires 0 <= i < |steps| => steps[i].name)
  }

  /** The dictionary from name to step; a later step replaces an earlier one of the same name. */
  function ByName(steps: seq<Step>): (g: Graph)
    ensures forall n :: n in g <==> n in Names(steps)
    ensures forall n | n in g :: g[n] in steps && g[n].name == n
  {
    if steps == [] then map[]
    else
      var last := steps[|steps| - 1];
      assert steps == steps[..|steps| - 1] + [last];
      assert Names(steps) == Names(steps[..|steps| - 1]) + [last.name];
      ByName(steps[..|steps| - 1])[last.name := last]
  }

  ghost predicate Distinct<T(!new)>(s: seq<T>) {
    forall i, j | 0 <= i < j < |s| :: s[i] != s[j]
  }

  lemma {:induction false} ByNameFindsEach(steps: seq<Step>, i: nat)
    requires Distinct(Names(steps)) && i < |steps|
    ensures steps[i].name in ByName(steps) && ByName(steps)[steps[i].name] == steps[i]
  {
    var name := steps[i].name;
    assert Names(steps)[i] == name;
    assert name in ByName(steps);
    var j :| 0 <= j < |steps| && steps[j] == ByName(steps)[name];
    assert Names(steps)[j] == name;
    assert i == j;
  }

  // ----- Paths -----

  /** A dependency of `a` that is itself a registered step. */
  predicate Edge(g: Graph, a: string, b: string) {
    a in g && b in g && b in g[a].dependsOn
  }

  ghost predicate Path(g: Graph, p: seq<string>) {
    |p| >= 2 && forall i | 0 <= i < |p| - 1 :: Edge(g, p[i], p[i + 1])
  }

  /** `a` depends on `b`, directly or through other steps. */
  ghost predicate Reaches(g: Graph, a: string, b: string) {
    exists p :: Path(g, p) && p[0] == a && p[|p| - 1] == b
  }

  ghost predicate Cyclic(g: Graph) {
    exists a :: Reaches(g, a, a)
  }

  lemma EdgeReaches(g: Graph, a: string, b: string)
    requires Edge(g, a, b)
    ensures Reaches(g, a, b)
  {
    assert Path(g, [a, b]);
  }

  lemma ReachesTransitive(g: Graph, a: string, b: string, c: string)
    requires Reaches(g, a, b) && Reaches(g, b, c)
    ensures Reaches(g, a, c)
  {
    var p :| Path(g, p) && p[0] == a && p[|p| - 1] == b;
    var q :| Path(g, q) && q[0] == b && q[|q| - 1] == c;
    var r := p + q[1..];
    forall i | 0 <= i < |r| - 1
      ensures Edge(g, r[i], r[i + 1])
    {
      if i < |p| - 1 {
        assert Edge(g, p[i], p[i + 1]);
      } else {
        assert r[i] == q[i + 1 - |p|];
        assert Edge(g, q[i + 1 - |p|], q[i + 2 - |p|]);
      }
    }
    assert Path(g, r);
  }

  /** The first edge of a path, and what its far end still reaches. */
  lemma ReachesFirst(g: Graph, a: string, b: string) returns (d: string)
    requires Reaches(g, a, b)
    ensures Edge(g, a, d) && (d == b || Reaches(g, d, b))
  {
    var p :| Path(g, p) && p[0] == a && p[|p| - 1] == b;
    d := p[1];
    assert Edge(g, p[0], p[1]);
    if |p| > 2 {
      var q := p[1..];
      forall i | 0 <= i < |q| - 1
        ensures Edge(g, q[i], q[i + 1])
      {
        assert Edge(g, p[i + 1], p[i + 2]);
      }
      assert Path(g, q);
    }
  }

  // ----- The depth-first walk -----

  /** What a walk has finished, in post-order, and the steps at which it met a cycle. */
  datatype Walk = Walk(order: seq<string>, cycles: seq<string>)

  function Visit(g: Graph, name: string, temporary: set<string>, acc: Walk): (w: Walk)
    requires name in g
    ensures acc.order <= w.order && acc.cycles <= w.cycles
    ensures forall n | n in w.order :: n in acc.order || n in g
    decreases g.Keys - temporary, 0
  {
    if name in acc.order then acc
    else if name in temporary then acc.(cycles := acc.cycles + [name])
    else
      var w := VisitAll(g, g[name].dependsOn, temporary + {name}, acc);
      w.(order := w.order + [name])
  }

  function VisitAll(g: Graph, names: seq<string>, temporary: set<string>, acc: Walk): (w: Walk)
    ensures acc.order <= w.order && acc.cycles <= w.cycles
    ensures forall n | n in w.order :: n in acc.order || n in g
    decreases g.Keys - temporary, 1 + |names|
  {
    if names == [] then acc
    else
      VisitAll(g, names[1..], temporary,
               if names[0] in g then Visit(g, names[0], temporary, acc) else acc)
  }

  function WalkOf(steps: seq<Step>): (w: Walk)
    ensures forall n | n in w.order :: n in ByName(steps)
  {
    VisitAll(ByName(steps), Names(steps), {}, Walk([], []))
  }

  ghost predicate Topological(g: Graph, order: seq<string>) {
    && Distinct(order)
    && (forall i | 0 <= i < |order| :: order[i] in g)
    && (forall i, d | 0 <= i < |order| && Edge(g, order[i], d) :: d in order[..i])
  }

  /** A walk that reports no cycle finishes every dependency before its dependents. */
  lemma {:induction false} VisitIsTopological(g: Graph, name: string, temporary: set<string>, acc: Walk)
    requires name in g && Topological(g, acc.order) && temporary !! set n | n in acc.order
    requires Visit(g, name, temporary, acc).cycles == acc.cycles
    ensures var w := Visit(g, name, temporary, acc);
            Topological(g, w.order) && name in w.order && temporary !! set n | n in w.order
    decreases g.Keys - temporary, 0
  {
    if name !in acc.order && name !in temporary {
      var w := VisitAll(g, g[name].dependsOn, temporary + {name}, acc);
      VisitAllIsTopological(g, g[name].dependsOn, temporary + {name}, acc);
      var order := w.order + [name];
      forall i, d | 0 <= i < |order| && Edge(g, order[i], d)
        ensures d in order[..i]
      {
        if i < |w.order| {
          assert order[..i] == w.order[..i];
        } else {
          assert order[..i] == w.order;
        }
      }
    }
  }

  lemma {:induction false} VisitAllIsTopological(g: Graph, names: seq<string>, temporary: set<string>, acc: Walk)
    requires Topological(g, acc.order) && temporary !! set n | n in acc.order
    requires VisitAll(g, names, temporary, acc).cycles == acc.cycles
    ensures var w := VisitAll(g, names, temporary, acc);
            && Topological(g, w.order) && temporary !! (set n | n in w.order)
            && forall n | n in names && n in g :: n in w.order
    decreases g.Keys - temporary, 1 + |names|
  {
    if names != [] {
      var mid := if names[0] in g then Visit(g, names[0], temporary, acc) else acc;
      var w := VisitAll(g, names[1..], temporary, mid);
      assert |acc.cycles| <= |mid.cycles| <= |w.cycles|;
      if names[0] in g {
        VisitIsTopological(g, names[0], temporary, acc);
      }
      VisitAllIsTopological(g, names[1..], temporary, mid);
      forall n | n in names && n in g
        ensures n in w.order
      {
        if n != names[0] {
          assert n in names[1..];
        } else {
          assert n in mid.order;
        }
      }
    }
  }

  /** Every step the walk reports lies on a cycle. */
  lemma {:induction false} VisitReportsRealCycles(g: Graph, name: string, temporary: set<string>, acc: Walk)
    requires name in g && forall t | t in temporary :: Reaches(g, t, name)
    requires forall c | c in acc.cycles :: Reaches(g, c, c)
    ensures forall c | c in Visit(g, name, temporary, acc).cycles :: Reaches(g, c, c)
    decreases g.Keys - temporary, 0
  {
    if name !in acc.order && name !in temporary {
      var inner := temporary + {name};
      forall t, d | t in inner && d in g[name].dependsOn && d in g
        ensures Reaches(g, t, d)
      {
        EdgeReaches(g, name, d);
        if t != name {
          ReachesTransitive(g, t, name, d);
        }
      }
      VisitAllReportsRealCycles(g, g[name].dependsOn, inner, acc);
    }
  }

  lemma {:induction false} VisitAllReportsRealCycles(g: Graph, names: seq<string>, temporary: set<string>, acc: Walk)
    requires forall t, d | t in temporary && d in names && d in g :: Reaches(g, t, d)
    requires forall c | c in acc.cycles :: Reaches(g, c, c)
    ensures forall c | c in VisitAll(g, names, temporary, acc).cycles :: Reaches(g, c, c)
    decreases g.Keys - temporary, 1 + |names|
  {
    if names != [] {
      var mid := if names[0] in g then Visit(g, names[0], temporary, acc) else acc;
      if names[0] in g {
        VisitReportsRealCycles(g, names[0], temporary, acc);
      }
      VisitAllReportsRealCycles(g, names[1..], temporary, mid);
    }
  }

  /** Along a path, the position in a topological order falls. */
  lemma {:induction false} PathDescends(g: Graph, order: seq<string>, i: nat, b: string)
    requires Topological(g, order) && i < |order| && Reaches(g, order[i], b)
    ensures b in order[..i]
    decreases i
  {
    var d := ReachesFirst(g, order[i], b);
    if d != b {
      var j :| 0 <= j < i && order[j] == d;
      PathDescends(g, order, j, b);
    }
  }

  lemma TopologicalIsAcyclic(g: Graph, order: seq<string>)
    requires Topological(g, order) && forall n | n in g :: n in order
    ensures !Cyclic(g)
  {
    if Cyclic(g) {
      var a :| Reaches(g, a, a);
      var d := ReachesFirst(g, a, a);
      var i :| 0 <= i < |order| && order[i] == a;
      PathDescends(g, order, i, a);
    }
  }

  /** A walk without reports orders each step once, after its dependencies. */
  lemma {:induction false} WalkIsTopological(steps: seq<Step>)
    requires WalkOf(steps).cycles == []
    ensures Topological(ByName(steps), WalkOf(steps).order)
    ensures forall n :: n in ByName(steps) <==> n in WalkOf(steps).order
  {
    VisitAllIsTopological(ByName(steps), Names(steps), {}, Walk([], []));
  }

  /** The walk reports a cycle exactly when the known dependencies contain one, and every report names a step on a cycle. */
  lemma {:induction false} CycleReportIsExact(steps: seq<Step>)
    ensures WalkOf(steps).cycles != [] <==> Cyclic(ByName(steps))
    ensures forall c | c in WalkOf(steps).cycles :: Reaches(ByName(steps), c, c)
  {
    var g, w := ByName(steps), WalkOf(steps);
    VisitAllReportsRealCycles(g, Names(steps), {}, Walk([], []));
    if w.cycles == [] {
      WalkIsTopological(steps);
      TopologicalIsAcyclic(g, w.order);
    } else {
      assert w.cycles[0] in w.cycles;
    }
  }

  /** Registration order is kept when it already puts dependencies first. */
  lemma {:induction false} RegistrationOrderIsKept(steps: seq<Step>)
    requires Topological(ByName(steps), Names(steps))
    ensures WalkOf(steps).order == Names(steps)
  {
    var g, names := ByName(steps), Names(steps);
    InOrderFrom(g, names, 0, []);
    assert names[..0] == [];
    assert names[0..] == names;
    assert names[..|names|] == names;
    assert VisitAll(g, names, {}, Walk([], [])) == Walk(names, []);
  }

  lemma {:induction false} InOrderFrom(g: Graph, names: seq<string>, i: nat, cycles: seq<string>)
    requires Topological(g, names) && i <= |names|
    ensures VisitAll(g, names[i..], {}, Walk(names[..i], cycles)) == Walk(names[..|names|], cycles)
    decreases |names| - i
  {
    if i < |names| {
      var acc := Walk(names[..i], cycles);
      assert acc.order + [names[i]] == names[..i + 1];
      VisitReady(g, names[i], acc);
      InOrderFrom(g, names, i + 1, cycles);
      var rest := names[i..];
      assert rest[0] == names[i] && rest[1..] == names[i + 1..];
    }
  }

  lemma VisitReady(g: Graph, name: string, acc: Walk)
    requires name in g && name !in acc.order
    requires forall d | Edge(g, name, d) :: d in acc.order
    ensures Visit(g, name, {}, acc) == acc.(order := acc.order + [name])
  {
    forall d | d in g[name].dependsOn && d in g
      ensures d in acc.order
    {
      assert Edge(g, name, d);
    }
    VisitAllDone(g, g[name].dependsOn, {} + {name}, acc);
  }

  lemma {:induction false} VisitAllDone(g: Graph, names: seq<string>, temporary: set<string>, acc: Walk)
    requires forall n | n in names && n in g :: n in acc.order
    ensures VisitAll(g, names, temporary, acc) == acc
    decreases |names|
  {
    if names != [] {
      VisitAllDone(g, names[1..], temporary, acc);
    }
  }

  // ----- Validation and ordering -----

  datatype Issue =
    | DuplicateNames
    | UnknownDependency(step: string, dependency: string)
    | CycleAt(step: string)
    | Isolated(step: string)

  function UnknownIn(g: Graph, step: Step, k: nat): seq<Issue>
    requires k <= |step.dependsOn|
  {
    if k == 0 then []
    else
      var d := step.dependsOn[k - 1];
      UnknownIn(g, step, k - 1) + if d in g then [] else [UnknownDependency(step.name, d)]
  }

  function UnknownUpTo(g: Graph, steps: seq<Step>, k: nat): seq<Issue>
    requires k <= |steps|
  {
    if k == 0 then []
    else UnknownUpTo(g, steps, k - 1) + UnknownIn(g, steps[k - 1], |steps[k - 1].dependsOn|)
  }

  predicate Referenced(steps: seq<Step>, name: string) {
    exists i | 0 <= i < |steps| :: name in steps[i].dependsOn
  }

  function IsolatedUpTo(steps: seq<Step>, k: nat): seq<Issue>
    requires k <= |steps|
  {
    if k == 0 then []
    else
      var s := steps[k - 1];
      IsolatedUpTo(steps, k - 1) +
      if s.dependsOn == [] && !Referenced(steps, s.name) && |steps| > 1 then [Isolated(s.name)] else []
  }

  function CycleIssues(cycles: seq<string>): seq<Issue> {
    seq(|cycles|, i requires 0 <= i < |cycles| => CycleAt(cycles[i]))
  }

  /** The errors that make a flow refuse to run, in the order they are found. */
  function Errors(steps: seq<Step>): seq<Issue> {
    (if |ByName(steps)| != |steps| then [DuplicateNames] else [])
    + UnknownUpTo(ByName(steps), steps, |steps|)
    + CycleIssues(WalkOf(steps).cycles)
  }

  /** Every dependency of every step is registered. */
  ghost predicate AllKnown(steps: seq<Step>) {
    forall i, d | 0 <= i < |steps| && d in steps[i].dependsOn :: d in Names(steps)
  }

  lemma {:induction false} UnknownInIsExact(g: Graph, step: Step, k: nat)
    requires k <= |step.dependsOn|
    ensures UnknownIn(g, step, k) == [] <==> forall d | d in step.dependsOn[..k] :: d in g
  {
    if k > 0 {
      UnknownInIsExact(g, step, k - 1);
      assert step.dependsOn[..k] == step.dependsOn[..k - 1] + [step.dependsOn[k - 1]];
    }
  }

  lemma {:induction false} UnknownIsExact(g: Graph, steps: seq<Step>, k: nat)
    requires k <= |steps|
    ensures UnknownUpTo(g, steps, k) == [] <==>
            forall i, d | 0 <= i < k && d in steps[i].dependsOn :: d in g
  {
    if k > 0 {
      UnknownIsExact(g, steps, k - 1);
      var s := steps[k - 1];
      UnknownInIsExact(g, s, |s.dependsOn|);
      assert s.dependsOn[..|s.dependsOn|] == s.dependsOn;
    }
  }

  lemma {:induction false} ByNameSize(steps: seq<Step>)
    requires Distinct(Names(steps))
    ensures |ByName(steps)| == |steps|
  {
    if steps != [] {
      var init := steps[..|steps| - 1];
      assert Names(steps) == Names(init) + [steps[|steps| - 1].name];
      ByNameSize(init);
    }
  }

  /** A flow is refused exactly when a dependency is unknown or the dependencies are cyclic. */
  lemma {:induction false} RefusalIsExact(steps: seq<Step>)
    requires Distinct(Names(steps))
    ensures Errors(steps) == [] <==> AllKnown(steps) && !Cyclic(ByName(steps))
  {
    ByNameSize(steps);
    UnknownIsExact(ByName(steps), steps, |steps|);
    CycleReportIsExact(steps);
    assert CycleIssues(WalkOf(steps).cycles) == [] <==> WalkOf(steps).cycles == [];
  }

  /** The execution order: the registered steps in the walk's post-order. */
  function Ordered(steps: seq<Step>): (r: seq<Step>)
    ensures Names(r) == WalkOf(steps).order
    ensures forall s | s in r :: s in steps
  {
    var g, order := ByName(steps), WalkOf(steps).order;
    var r := seq(|order|, i requires 0 <= i < |order| => assert order[i] in order; g[order[i]]);
    assert Names(r) == order by {
      forall i | 0 <= i < |order|
        ensures Names(r)[i] == order[i]
      {
        assert order[i] in order;
      }
    }
    assert forall s | s in r :: s in steps by {
      forall s | s in r
        ensures s in steps
      {
        var i :| 0 <= i < |r| && r[i] == s;
        assert order[i] in order;
      }
    }
    r
  }

  /** Each step occurs once, after all its dependencies. */
  ghost predicate DependencyOrder(steps: seq<Step>, r: seq<Step>) {
    && Distinct(Names(r))
    && (forall s :: s in r <==> s in steps)
    && |r| == |steps|
    && (forall i, d | 0 <= i < |r| && d in r[i].dependsOn :: d in Names(r)[..i])
  }

  /** The execution order is a permutation of the registered steps, dependencies first. */
  lemma OrderedIsDependencyOrder(steps: seq<Step>)
    requires Distinct(Names(steps)) && Errors(steps) == []
    ensures DependencyOrder(steps, Ordered(steps))
  {
    RefusalIsExact(steps);
    CycleReportIsExact(steps);
    WalkIsTopological(steps);
    var g, r := ByName(steps), Ordered(steps);
    var order := WalkOf(steps).order;
    forall s | s in steps
      ensures s in r
    {
      var i :| 0 <= i < |steps| && steps[i] == s;
      ByNameFindsEach(steps, i);
      assert s.name in Names(steps);
      assert s.name in order;
      var j :| 0 <= j < |order| && order[j] == s.name;
      assert r[j].name == Names(r)[j];
      SameNameSameStep(steps, r[j], s);
    }
    forall i, d | 0 <= i < |r| && d in r[i].dependsOn
      ensures d in Names(r)[..i]
    {
      assert r[i] in r;
      var k :| 0 <= k < |steps| && steps[k] == r[i];
      ByNameFindsEach(steps, k);
      assert d in g;
      assert Names(r)[i] == r[i].name;
      assert Edge(g, order[i], d);
    }
    SameSetSameLength(Names(r), Names(steps));
  }

  lemma SameNameSameStep(steps: seq<Step>, a: Step, b: Step)
    requires Distinct(Names(steps)) && a in steps && b in steps && a.name == b.name
    ensures a == b
  {
    var i :| 0 <= i < |steps| && steps[i] == a;
    var j :| 0 <= j < |steps| && steps[j] == b;
    assert Names(steps)[i] == Names(steps)[j];
  }

  lemma SameNames(steps: seq<Step>, all: seq<Step>)
    requires forall s :: s in all <==> s in steps
    ensures forall n :: n in Names(all) <==> n in Names(steps)
  {
    forall n
      ensures n in Names(all) <==> n in Names(steps)
    {
      if n in Names(all) {
        var i :| 0 <= i < |all| && Names(all)[i] == n;
        assert all[i] in steps;
        var j :| 0 <= j < |steps| && steps[j] == all[i];
        assert Names(steps)[j] == n;
      }
      if n in Names(steps) {
        var i :| 0 <= i < |steps| && Names(steps)[i] == n;
        assert steps[i] in all;
        var j :| 0 <= j < |all| && all[j] == steps[i];
        assert Names(all)[j] == n;
      }
    }
  }

  function SetOf<T>(s: seq<T>): set<T> {
    set x | x in s
  }

  lemma {:induction false} DistinctSize<T(!new)>(s: seq<T>)
    requires Distinct(s)
    ensures |SetOf(s)| == |s|
  {
    if s != [] {
      var init := s[..|s| - 1];
      DistinctSize(init);
      LastIsNew(s);
      assert SetOf(s) == SetOf(init) + {s[|s| - 1]};
    }
  }

  lemma LastIsNew<T(!new)>(s: seq<T>)
    requires Distinct(s) && s != []
    ensures s[|s| - 1] !in SetOf(s[..|s| - 1])
    ensures forall x :: x in s <==> x in s[..|s| - 1] || x == s[|s| - 1]
  {
    assert s == s[..|s| - 1] + [s[|s| - 1]];
  }

  lemma SameSetSameLength<T(!new)>(a: seq<T>, b: seq<T>)
    requires Distinct(a) && Distinct(b) && forall x :: x in a <==> x in b
    ensures |a| == |b|
  {
    DistinctSize(a);
    DistinctSize(b);
    assert SetOf(a) == SetOf(b);
  }

  // ----- Downstream steps -----

  /** The step itself and every registered step that depends on it, directly or not. */
  ghost function Downstream(steps: seq<Step>, name: string): set<string> {
    {name} + set n | n in Names(steps) && Reaches(ByName(steps), n, name)
  }

  /** Closed under dependents. */
  ghost predicate Upward(steps: seq<Step>, names: set<string>) {
    forall i, d | 0 <= i < |steps| && d in steps[i].dependsOn && d in names :: steps[i].name in names
  }

  lemma {:induction false} DownstreamIsUpward(steps: seq<Step>, name: string)
    requires Distinct(Names(steps)) && name in Names(steps)
    ensures Upward(steps, Downstream(steps, name))
  {
    forall i, d | 0 <= i < |steps| && d in steps[i].dependsOn && d in Downstream(steps, name)
      ensures steps[i].name in Downstream(steps, name)
    {
      DependentIsDownstream(steps, name, i, d);
    }
  }

  lemma {:induction false} DependentIsDownstream(steps: seq<Step>, name: string, i: nat, d: string)
    requires Distinct(Names(steps)) && name in Names(steps)
    requires i < |steps| && d in steps[i].dependsOn && d in Downstream(steps, name)
    ensures steps[i].name in Downstream(steps, name)
  {
    var g := ByName(steps);
    assert Names(steps)[i] == steps[i].name;
    ByNameFindsEach(steps, i);
    EdgeReaches(g, steps[i].name, d);
    if d != name {
      ReachesTransitive(g, steps[i].name, d, name);
    }
  }

  /** It is the least such set. */
  lemma DownstreamIsLeast(steps: seq<Step>, name: string, other: set<string>)
    requires name in other && Upward(steps, other)
    ensures Downstream(steps, name) <= other
  {
    forall n | n in Downstream(steps, name)
      ensures n in other
    {
      if n != name {
        var p :| Path(ByName(steps), p) && p[0] == n && p[|p| - 1] == name;
        PathEndsInside(steps, p, other);
      }
    }
  }

  lemma {:induction false} PathEndsInside(steps: seq<Step>, p: seq<string>, other: set<string>)
    requires Upward(steps, other) && Path(ByName(steps), p) && p[|p| - 1] in other
    ensures p[0] in other
    decreases |p|
  {
    var g := ByName(steps);
    assert Edge(g, p[0], p[1]);
    if |p| > 2 {
      var q := p[1..];
      forall i | 0 <= i < |q| - 1
        ensures Edge(g, q[i], q[i + 1])
      {
        assert Edge(g, p[i + 1], p[i + 2]);
      }
      PathEndsInside(steps, q, other);
    }
    assert g[p[0]] in steps;
  }
}
