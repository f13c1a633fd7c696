/**
 Reassembling the tool calls of a streamed answer from the fragments its chunks carry.
 */
module StreamedCalls {
  import opened Wrappers

  /** A fragment; an absent field is the empty string, which the reassembly ignores alike. */
  datatype Delta = Delta(index: Option<nat>, id: string, name: string, arguments: string)

  datatype Slot = Slot(name: string, arguments: string, index: nat, id: string)

  function Index(d: Delta): nat {
    if d.index.Some? then d.index.value else 0
  }

  function Or(s: string, default: string): string {
    if s != "" then s else default
  }

  // ----- The reassembly as coded -----

  function AddTo(slot: Slot, d: Delta): Slot {
    Slot(Or(d.name, slot.name), slot.arguments + d.arguments, slot.index, Or(d.id, slot.id))
  }

  /** A fragment for an unknown index opens one slot at the end; a slot that is still missing then is only logged. */
  function Apply(slots: seq<Slot>, d: Delta): seq<Slot> {
    var i := Index(d);
    var slots1 := if |slots| <= i then slots + [Slot("", "", i, "")] else slots;
    if i < |slots1| then slots1[i := AddTo(slots1[i], d)] else slots1
  }

  function ApplyAll(ds: seq<Delta>): seq<Slot> {
    if ds == [] then [] else Apply(ApplyAll(ds[..|ds| - 1]), ds[|ds| - 1])
  }

  /** Only the first fragment of a chunk is read. */
  function Firsts(chunks: seq<seq<Delta>>): seq<Delta> {
    if chunks == [] then []
    else
      var last := chunks[|chunks| - 1];
      Firsts(chunks[..|chunks| - 1]) + if last == [] then [] else [last[0]]
  }

  method Accumulate(chunks: seq<seq<Delta>>) returns (toolCalls: seq<Slot>)
    ensures toolCalls == ApplyAll(Firsts(chunks))
  {
    toolCalls := [];
    assert chunks[..|chunks|] == chunks;
    for k := 0 to |chunks|
      invariant toolCalls == ApplyAll(Firsts(chunks[..k]))
    {
      var before := Firsts(chunks[..k]);
      assert chunks[..k + 1][..k] == chunks[..k];
      if chunks[k] != [] {
        var delta := chunks[k][0];
        assert (before + [delta])[..|before|] == before;
        toolCalls := AddDelta(toolCalls, delta);
      } else {
        assert before + [] == before;
      }
    }
  }

  method AddDelta(calls: seq<Slot>, delta: Delta) returns (toolCalls: seq<Slot>)
    ensures toolCalls == Apply(calls, delta)
  {
    toolCalls := calls;
    var i := Index(delta);
    if |toolCalls| <= i {
      toolCalls := toolCalls + [Slot("", "", i, "")];
    }
    if |toolCalls| <= i {
      return;
    }
    if delta.id != "" {
      toolCalls := toolCalls[i := toolCalls[i].(id := delta.id)];
    }
    if delta.name != "" {
      toolCalls := toolCalls[i := toolCalls[i].(name := delta.name)];
    }
    toolCalls := toolCalls[i := toolCalls[i].(arguments := toolCalls[i].arguments + delta.arguments)];
  }

  // ----- What the fragments say, call by call -----

  /** The fragments of call `i`, in order. */
  function Project(ds: seq<Delta>, i: nat): seq<Delta> {
    if ds == [] then []
    else
      var last := ds[|ds| - 1];
      Project(ds[..|ds| - 1], i) + if Index(last) == i then [last] else []
  }

  /** All argument fragments joined, and the last name and id that are not empty. */
  function Joined(ds: seq<Delta>, i: nat): (slot: Slot)
    ensures slot.index == i
  {
    if ds == [] then Slot("", "", i, "")
    else AddTo(Joined(ds[..|ds| - 1], i), ds[|ds| - 1])
  }

  /** One more than the largest index. */
  function Width(ds: seq<Delta>): nat {
    if ds == [] then 0
    else
      var w, i := Width(ds[..|ds| - 1]), Index(ds[|ds| - 1]);
      if i < w then w else i + 1
  }

  function Reassembled(ds: seq<Delta>): (slots: seq<Slot>)
    ensures |slots| == Width(ds)
  {
    seq(Width(ds), i requires 0 <= i => Joined(Project(ds, i), i))
  }

  /** New calls are introduced as 0, 1, 2 and so on. */
  predicate InOrder(ds: seq<Delta>) {
    ds == [] || (InOrder(ds[..|ds| - 1]) && Index(ds[|ds| - 1]) <= Width(ds[..|ds| - 1]))
  }

  lemma {:induction false} ProjectBeyond(ds: seq<Delta>, i: nat)
    ensures Width(ds) <= i ==> Project(ds, i) == []
  {
    if ds != [] {
      ProjectBeyond(ds[..|ds| - 1], i);
    }
  }

  lemma {:induction false} InOrderReassembles(ds: seq<Delta>)
    requires InOrder(ds)
    ensures ApplyAll(ds) == Reassembled(ds)
  {
    if ds != [] {
      var init, last := ds[..|ds| - 1], ds[|ds| - 1];
      InOrderReassembles(init);
      ApplyReassembles(ds);
    }
  }

  lemma JoinedAppends(ds: seq<Delta>, d: Delta, i: nat)
    ensures Joined(ds + [d], i) == AddTo(Joined(ds, i), d)
  {
    assert (ds + [d])[..|ds|] == ds;
  }

  lemma ProjectLast(ds: seq<Delta>, i: nat)
    requires ds != []
    ensures Project(ds, i) == Project(ds[..|ds| - 1], i) + (if Index(ds[|ds| - 1]) == i then [ds[|ds| - 1]] else [])
  {
  }

  lemma ApplyAt(slots: seq<Slot>, d: Delta, j: nat)
    requires Index(d) <= |slots| && j < (if Index(d) == |slots| then |slots| + 1 else |slots|)
    ensures j < |Apply(slots, d)|
    ensures Apply(slots, d)[j] == var slot := if j < |slots| then slots[j] else Slot("", "", j, ""); if j == Index(d) then AddTo(slot, d) else slot
  {
  }

  lemma SlotReassembles(ds: seq<Delta>, j: nat)
    requires ds != [] && Index(ds[|ds| - 1]) <= Width(ds[..|ds| - 1]) && j < Width(ds)
    ensures j < |Apply(Reassembled(ds[..|ds| - 1]), ds[|ds| - 1])|
    ensures Apply(Reassembled(ds[..|ds| - 1]), ds[|ds| - 1])[j] == Joined(Project(ds, j), j)
  {
    var init, last := ds[..|ds| - 1], ds[|ds| - 1];
    ApplyAt(Reassembled(init), last, j);
    ProjectBeyond(init, j);
    ProjectLast(ds, j);
    JoinedAppends(Project(init, j), last, j);
    if j != Index(last) {
      assert Project(ds, j) == Project(init, j);
    }
  }

  lemma ApplyReassembles(ds: seq<Delta>)
    requires ds != [] && Index(ds[|ds| - 1]) <= Width(ds[..|ds| - 1])
    ensures Apply(Reassembled(ds[..|ds| - 1]), ds[|ds| - 1]) == Reassembled(ds)
  {
    var slots, r := Apply(Reassembled(ds[..|ds| - 1]), ds[|ds| - 1]), Reassembled(ds);
    assert |slots| == |r|;
    forall j | 0 <= j < |r|
      ensures slots[j] == r[j]
    {
      SlotReassembles(ds, j);
    }
  }

  /** Each slot still carries the index of its place. */
  ghost predicate InPlace(slots: seq<Slot>) {
    forall i | 0 <= i < |slots| :: slots[i].index == i
  }

  /** A call introduced out of turn leaves a slot that names another place, for good. */
  lemma {:induction false} OutOfOrderIsVisible(ds: seq<Delta>)
    requires !InOrder(ds)
    ensures !InPlace(ApplyAll(ds))
  {
    if ds == [] {
    } else {
      var init, last := ds[..|ds| - 1], ds[|ds| - 1];
      var slots, before := ApplyAll(ds), ApplyAll(init);
      if InOrder(init) {
        InOrderReassembles(init);
        assert slots[|before|].index == Index(last);
      } else {
        OutOfOrderIsVisible(init);
        var i :| 0 <= i < |before| && before[i].index != i;
        assert slots[i].index == before[i].index;
      }
    }
  }

  // ----- Main results -----

  /** Every call is put together from its own fragments exactly when new calls come in order. */
  lemma ReassemblyIsExact(ds: seq<Delta>)
    ensures ApplyAll(ds) == Reassembled(ds) <==> InOrder(ds)
  {
    if InOrder(ds) {
      InOrderReassembles(ds);
    } else {
      OutOfOrderIsVisible(ds);
      assert InPlace(Reassembled(ds));
    }
  }

  lemma {:induction false} ProjectWithin(ds: seq<Delta>, i: nat)
    requires InOrder(ds) && i < Width(ds)
    ensures Project(ds, i) != []
  {
    var init, last := ds[..|ds| - 1], ds[|ds| - 1];
    if i < Width(init) {
      ProjectWithin(init, i);
    }
  }

  /** How the fragments of different calls interleave makes no difference. */
  lemma InterleavingDoesNotMatter(a: seq<Delta>, b: seq<Delta>)
    requires InOrder(a) && InOrder(b) && forall i: nat :: Project(a, i) == Project(b, i)
    ensures ApplyAll(a) == ApplyAll(b)
  {
    InOrderReassembles(a);
    InOrderReassembles(b);
    if Width(a) < Width(b) {
      ProjectWithin(b, Width(a));
      ProjectBeyond(a, Width(a));
    } else if Width(b) < Width(a) {
      ProjectWithin(a, Width(b));
      ProjectBeyond(b, Width(b));
    }
  }

  function Flatten(chunks: seq<seq<Delta>>): seq<Delta> {
    if chunks == [] then [] else Flatten(chunks[..|chunks| - 1]) + chunks[|chunks| - 1]
  }

  /** No fragment is dropped exactly when no chunk carries two. */
  lemma {:induction false} ChunksAreReadWhole(chunks: seq<seq<Delta>>)
    ensures |Firsts(chunks)| <= |Flatten(chunks)|
    ensures Firsts(chunks) == Flatten(chunks) <==> forall k | 0 <= k < |chunks| :: |chunks[k]| <= 1
  {
    if chunks != [] {
      var init, last := chunks[..|chunks| - 1], chunks[|chunks| - 1];
      ChunksAreReadWhole(init);
      assert forall k | 0 <= k < |init| :: init[k] == chunks[k];
      if forall k | 0 <= k < |chunks| :: |chunks[k]| <= 1 {
        assert last == [] || last == [last[0]];
      } else if |last| <= 1 {
        assert last == [] || last == [last[0]];
        assert |last| == 0 || |last| == 1;
        if Firsts(chunks) == Flatten(chunks) {
          assert Firsts(chunks)[..|Firsts(chunks)| - |last|] == Firsts(init);
          assert Flatten(chunks)[..|Flatten(chunks)| - |last|] == Flatten(init);
        }
      } else {
        assert |Firsts(chunks)| < |Flatten(chunks)|;
      }
    }
  }
}
