/** What is in a recorded graph, no operation that cannot be captured at any depth, and what a loop does in which order. */
module GraphContents {
  import opened Options
  import opened GraphSpec
  import opened GraphCapture
  import opened GraphRefresh
  import opened GraphReplay

  /** Host transfers and kernels: what a stream capture records by itself. */
  predicate Plain(op: Op) {
    op.Upload? || op.Download? || op.Kernel?
  }

  /** Which operations a capture takes whole, which as graphs of their own, and which not at all. */
  lemma {:induction false} CompatIff(op: Op)
    ensures CompatOf(op) == Full <==> Plain(op)
    ensures CompatOf(op) == Special <==>
      op.Loop? && op.lastOnly && exists k :: 0 <= k < |op.body| && CompatOf(op.body[k]) != NotCapturable
  {
    if op.Loop? { GraphableExists(op.body); }
  }

  lemma {:induction false} RunnerIff(op: Op)
    ensures NeedsRunner(op) <==> op.Loop? && exists k :: 0 <= k < |op.body| && !Plain(op.body[k])
  {
    if op.Loop? {
      forall k | 0 <= k < |op.body| ensures CompatOf(op.body[k]) == Full <==> Plain(op.body[k]) { CompatIff(op.body[k]); }
    }
  }

  // ----- no graph holds an operation that cannot be captured

  predicate Captured(exec: seq<Event>) {
    forall i :: 0 <= i < |exec| ==> !exec[i].Called?
  }

  /** Every leaf of the tree. */
  predicate Clean(g: Graph) {
    match g
    case Leaf(exec, _, _, _) => Captured(exec)
    case Pack(graphs, _) => forall i :: 0 <= i < |graphs| ==> Clean(graphs[i])
  }

  predicate AllClean(gs: seq<Graph>) {
    forall i :: 0 <= i < |gs| ==> Clean(gs[i])
  }

  lemma {:induction false} PlainEvents(seg: seq<Op>, x: Tensors)
    requires Recordable(seg)
    ensures Captured(EagerSeq(seg, x))
  {
    FullEagerly(seg, x, |seg|);
    assert seg[..|seg|] == seg;
    forall p | 0 <= p < |seg| ensures !EventOf(seg[p], x).Called? { FullKinds(seg[p]); }
  }

  lemma {:induction false} RecordClean(seg: seq<Op>, x: Tensors)
    requires Recordable(seg)
    ensures Clean(Record(seg, x, |seg|))
  {
    hide Record, Recordable;
    RecordEvents(seg, x, |seg|);
    forall p | 0 <= p < |seg| ensures !EventOf(seg[p], x).Called? { RecordableKind(seg, p); }
  }

  lemma {:induction false} RecordableKind(seg: seq<Op>, p: nat)
    requires Recordable(seg) && p < |seg|
    ensures seg[p].Upload? || seg[p].Download? || seg[p].Kernel?
  {
    FullKinds(seg[p]);
  }

  lemma {:induction false} SliceInsertCaptured(op: Op, n: nat, it: nat)
    requires op.Loop?
    ensures Captured(SliceEvents(op, n, it)) && Captured(InsertEvents(op, n, it))
  {
    if n > 0 { SliceInsertCaptured(op, n - 1, it); }
  }

  lemma {:induction false} LoopClean(op: Op, x: Tensors, runner: bool, nested: bool)
    requires op.Loop? && CaptureLoop(op, x, runner, nested).Some?
    ensures Clean(CaptureLoop(op, x, runner, nested).value)
    decreases op, 0
  {
    hide SliceEvents, InsertEvents, EagerSeq;
    SliceInsertCaptured(op, op.slices, 0);
    SliceInsertCaptured(op, op.inserts, 0);
    if runner { CaptureClean(op.body, x); } else { PlainEvents(op.body, x); }
  }

  lemma {:induction false} CaptureFromClean(ops: seq<Op>, x: Tensors, i: nat)
    requires i <= |ops| && CaptureFrom(ops, x, i).Some?
    ensures AllClean(CaptureFrom(ops, x, i).value)
    decreases ops, 1, |ops| - i
  {
    hide Record, CaptureLoop, HasNestedRunners, NeedsRunner, SegmentEnd, Clean;
    if i < |ops| {
      var j := SegmentEnd(ops, i);
      SegmentFacts(ops, i);
      CaptureFromClean(ops, x, j);
      if CompatOf(ops[i]) == Full {
        RecordClean(ops[i..j], x);
      } else if IsSpecial(ops[i]) {
        LoopClean(ops[i], x, i > 0 && NeedsRunner(ops[i]), HasNestedRunners(ops));
      }
    }
  }

  /** No graph recorded by a capture holds an operation that cannot be captured. */
  lemma {:induction false} CaptureClean(ops: seq<Op>, x: Tensors)
    requires CaptureAll(ops, x).Some?
    ensures Clean(CaptureAll(ops, x).value)
    decreases ops, 2, 0
  {
    hide CaptureFrom;
    CaptureFromClean(ops, x, 0);
  }

  // ----- refreshing brings none in

  lemma {:induction false} RefreshCaptured(exec: seq<Event>, slots: seq<Slot>, upload: bool, x: Tensors, n: nat)
    requires n <= |slots| && Captured(exec)
    ensures Captured(RefreshExec(exec, slots, upload, x, n))
  {
    if n > 0 { RefreshCaptured(exec, slots, upload, x, n - 1); }
  }

  lemma {:induction false} UpdateClean(g: Graph, x: Tensors)
    requires Clean(g)
    ensures Clean(UpdateCapture(g, x))
  {
    match g
    case Leaf(exec, ups, downs, _) =>
      RefreshCaptured(exec, ups, true, x, |ups|);
      RefreshCaptured(RefreshExec(exec, ups, true, x, |ups|), downs, false, x, |downs|);
    case Pack(graphs, _) =>
      forall i | 0 <= i < |graphs| ensures Clean(UpdateCaptures(graphs, x)[i]) { UpdateClean(graphs[i], x); }
  }

  // ----- one graph or three

  /** A special loop is recorded as one graph exactly if its body is transfers and kernels only, and else as slices, the
      graphs of its body, and back edges with inserts. */
  lemma {:induction false} OneLeafIff(op: Op, x: Tensors, nested: bool)
    requires op.Loop? && CaptureLoop(op, x, NeedsRunner(op), nested).Some?
    ensures var g := CaptureLoop(op, x, NeedsRunner(op), nested).value;
            && (g.Leaf? <==> forall k :: 0 <= k < |op.body| ==> Plain(op.body[k]))
            && (g.Pack? ==> |g.graphs| == 3 && Some(g.graphs[1]) == CaptureAll(op.body, x))
  {
    RunnerIff(op);
  }

  /** The constructor announces one graph for a segment of transfers and kernels, one for a special loop over such a body
      and three for any other, but none for a special loop at the very start. */
  lemma {:induction false} SegmentCounted(ops: seq<Op>, i: nat)
    requires i < |ops|
    ensures Counted(ops, i) == Counted(ops, SegmentEnd(ops, i)) +
      if Plain(ops[i]) then 1
      else if !IsSpecial(ops[i]) || i == 0 then 0
      else if forall k :: 0 <= k < |ops[i].body| ==> Plain(ops[i].body[k]) then 1
      else 3
    ensures IsSpecial(ops[i]) ==> SegmentEnd(ops, i) == i + 1
  {
    CompatIff(ops[i]);
    RunnerIff(ops[i]);
    SegmentFacts(ops, i);
  }

  /** Packs are nested exactly if a special loop after the first operation has something else than transfers and kernels
      in its body. */
  lemma {:induction false} NestedIff(ops: seq<Op>)
    ensures HasNestedRunners(ops) <==>
      exists i :: 0 < i < |ops| && IsSpecial(ops[i]) && exists k :: 0 <= k < |ops[i].body| && !Plain(ops[i].body[k])
  {
    forall i | 0 < i < |ops| && IsSpecial(ops[i])
      ensures NeedsRunner(ops[i]) <==> exists k :: 0 <= k < |ops[i].body| && !Plain(ops[i].body[k])
    {
      RunnerIff(ops[i]);
    }
  }

  // ----- the events of a loop

  lemma {:induction false} SlicesInOrder(op: Op, n: nat, it: nat)
    requires op.Loop?
    ensures |SliceEvents(op, n, it)| == |InsertEvents(op, n, it)| == n
    ensures forall k :: 0 <= k < n ==>
      SliceEvents(op, n, it)[k] == Sliced(op.id, k, it) && InsertEvents(op, n, it)[k] == Inserted(op.id, k, it)
  {
    if n > 0 { SlicesInOrder(op, n - 1, it); }
  }

  /** Event `p` of one iteration: the slices, the body, the back edges, the inserts. */
  function EventAt(op: Op, body: seq<Event>, it: nat, p: nat): Event
    requires op.Loop?
  {
    var moved := op.slices + |body|;
    if p < op.slices then Sliced(op.id, p, it)
    else if p < moved then body[p - op.slices]
    else if p == moved then Moved(op.id)
    else Inserted(op.id, p - moved - 1, it)
  }

  function IterationLength(op: Op, body: seq<Event>): nat
    requires op.Loop?
  {
    op.slices + |body| + 1 + op.inserts
  }

  lemma {:induction false} IterationAt(op: Op, body: seq<Event>, it: nat)
    requires op.Loop?
    ensures |IterationEvents(op, body, it)| == IterationLength(op, body)
    ensures forall p: nat :: p < IterationLength(op, body) ==>
      IterationEvents(op, body, it)[p] == EventAt(op, body, it, p)
  {
    hide SliceEvents, InsertEvents;
    SlicesInOrder(op, op.slices, it);
    SlicesInOrder(op, op.inserts, it);
  }

  function Nth(it: nat, length: nat): nat {
    it * length
  }

  lemma {:induction false} NthNext(it: nat, length: nat)
    ensures Nth(it + 1, length) == Nth(it, length) + length && Nth(0, length) == 0
  {}

  lemma {:induction false} IterationsAt(op: Op, body: seq<Event>, from: nat, it: nat, p: nat)
    requires op.Loop? && from <= it < op.iterations && p < IterationLength(op, body)
    ensures var at := Nth(it - from, IterationLength(op, body)) + p;
            && at < |IterationsFrom(op, body, from)|
            && IterationsFrom(op, body, from)[at] == EventAt(op, body, it, p)
    decreases it - from
  {
    hide IterationEvents, EventAt, IterationLength, Nth;
    IterationAt(op, body, from);
    NthNext(0, IterationLength(op, body));
    if it > from {
      IterationsAt(op, body, from + 1, it, p);
      NthNext(it - from - 1, IterationLength(op, body));
    }
  }

  lemma {:induction false} IterationsLength(op: Op, body: seq<Event>, from: nat)
    requires op.Loop? && from <= op.iterations
    ensures |IterationsFrom(op, body, from)| == Nth(op.iterations - from, IterationLength(op, body))
    decreases op.iterations - from
  {
    hide IterationEvents, IterationLength, Nth;
    NthNext(0, IterationLength(op, body));
    if from < op.iterations {
      IterationAt(op, body, from);
      IterationsLength(op, body, from + 1);
      NthNext(op.iterations - from - 1, IterationLength(op, body));
    }
  }

  /** A loop is announced, runs every iteration in order, each one slicing its inputs, running the body, moving the back
      edges and inserting its outputs, and is concluded. */
  lemma {:induction false} LoopAt(op: Op, body: seq<Event>, it: nat, p: nat)
    requires op.Loop? && it < op.iterations && p < IterationLength(op, body)
    ensures var length := Nth(op.iterations, IterationLength(op, body));
            && |LoopEvents(op, body)| == length + 2
            && LoopEvents(op, body)[0] == First(op.id) && LoopEvents(op, body)[length + 1] == Last(op.id)
            && Nth(it, IterationLength(op, body)) + p < length
            && LoopEvents(op, body)[1 + Nth(it, IterationLength(op, body)) + p] == EventAt(op, body, it, p)
  {
    hide IterationsFrom, EventAt, IterationLength, Nth;
    IterationsLength(op, body, 0);
    IterationsAt(op, body, 0, it, p);
  }

  // ----- an example

  /** An operation inside a loop body that cannot be captured makes the loop three graphs: the one the constructor counts
      for the kernel before it, and three more. */
  lemma {:induction false} EagerBody(x: Tensors)
    ensures var ops := [Kernel(0), Loop(1, 0, 0, 2, true, [Kernel(2), Eager(3)])];
            Counted(ops, 0) == 4 && CaptureAll(ops, x).Some? && GraphsCount(CaptureAll(ops, x).value) == 4
  {
    var body := [Kernel(2), Eager(3)];
    var ops := [Kernel(0), Loop(1, 0, 0, 2, true, body)];
    BodyOf(body);
    assert NeedsRunner(ops[1]) && CompatOf(ops[1]) == Special;
    assert SegmentEnd(ops, 1) == 2 && SegmentEnd(ops, 0) == 1;
    assert Counted(ops, 1) == 3 && Counted(ops, 0) == 4;
    assert Capturable(body);
    assert Capturable(ops);
    CapturableIff(ops, x);
    CountFrom(ops, x, 0);
  }

  lemma {:induction false} BodyOf(body: seq<Op>)
    requires body == [Kernel(2), Eager(3)]
    ensures Counted(body, 0) == 1 && AnyGraphable(body) && CompatOf(body[1]) != Full
  {
    assert SegmentEnd(body, 1) == 2 && SegmentEnd(body, 0) == 1;
    assert Counted(body, 2) == 0 && Counted(body, 1) == 0;
  }
}
