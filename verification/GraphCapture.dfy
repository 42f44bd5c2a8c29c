/** When capture succeeds: the exact condition on the execution sequence, and the agreement between the number of graphs
    it records and the number its runner's constructor announced. */
module GraphCapture {
  import opened Options
  import opened GraphSpec
  import opened GraphPartition

  predicate IsSpecial(op: Op) {
    CompatOf(op) == Special
  }

  /** Every assertion of Capture holds: the sequence does not start with a special operation, its special loops agree on
      having a runner, and the runner of each records a single graph. */
  predicate Capturable(ops: seq<Op>) {
    && ops != []
    && !IsSpecial(ops[0])
    && forall i :: 0 <= i < |ops| && IsSpecial(ops[i]) ==>
      && NeedsRunner(ops[i]) == HasNestedRunners(ops)
      && (NeedsRunner(ops[i]) ==> Capturable(ops[i].body) && Counted(ops[i].body, 0) == 1)
  }

  lemma {:induction false} SegmentFacts(ops: seq<Op>, i: nat)
    requires i < |ops|
    ensures forall k :: i <= k < SegmentEnd(ops, i) ==> CompatOf(ops[k]) == CompatOf(ops[i])
    ensures IsSpecial(ops[i]) ==> SegmentEnd(ops, i) == i + 1
  {
    var j := SegmentEnd(ops, i);
    SegmentUniform(ops, i);
    forall k | i <= k < j ensures CompatOf(ops[k]) == CompatOf(ops[i]) {
      assert ops[i..j][k - i] == ops[k] && ops[i..j][0] == ops[i];
    }
  }

  // ----- counting

  lemma {:induction false} GraphsCountsCons(g: Graph, rest: seq<Graph>)
    ensures GraphsCounts([g] + rest) == GraphsCount(g) + GraphsCounts(rest)
    ensures KernelsCounts([g] + rest) == KernelsCount(g) + KernelsCounts(rest)
  {
    var all := [g] + rest;
    if rest == [] {
      assert all == [g] && [g][..0] == [];
    } else {
      GraphsCountsCons(g, rest[..|rest| - 1]);
      assert all[..|all| - 1] == [g] + rest[..|rest| - 1];
    }
  }

  lemma {:induction false} LoopPackCounts(pre: Graph, body: Graph, post: Graph)
    ensures GraphsCounts([pre, body, post]) == GraphsCount(pre) + GraphsCount(body) + GraphsCount(post)
    ensures KernelsCounts([pre, body, post]) == KernelsCount(pre) + KernelsCount(body) + KernelsCount(post)
  {
    GraphsCountsCons(body, [post]);
    GraphsCountsCons(pre, [body, post]);
    GraphsCountsCons(post, []);
    assert [pre, body, post] == [pre] + [body, post] && [body, post] == [body] + [post] && [post] == [post] + [];
  }

  lemma {:induction false} RecordCounts(ops: seq<Op>, x: Tensors, n: nat)
    requires n <= |ops|
    ensures Record(ops, x, n).Leaf? && Record(ops, x, n).kernels == 0
  {
    if n > 0 { RecordCounts(ops, x, n - 1); }
  }

  lemma {:induction false} GraphableExists(ops: seq<Op>)
    ensures AnyGraphable(ops) <==> exists k :: 0 <= k < |ops| && CompatOf(ops[k]) != NotCapturable
  {
    if ops != [] {
      GraphableExists(ops[1..]);
      forall k | 1 <= k < |ops| ensures ops[k] == ops[1..][k - 1] {}
      if k :| 0 <= k < |ops| && CompatOf(ops[k]) != NotCapturable {
        if k > 0 { assert CompatOf(ops[1..][k - 1]) != NotCapturable; }
      }
    }
  }

  /** Something capturable after a first operation that is not special is counted. */
  lemma {:induction false} CountedPositive(ops: seq<Op>, i: nat, k: nat)
    requires i <= k < |ops| && CompatOf(ops[k]) != NotCapturable
    requires i > 0 || !IsSpecial(ops[0])
    ensures Counted(ops, i) >= 1
    decreases |ops| - i
  {
    SegmentFacts(ops, i);
    var j := SegmentEnd(ops, i);
    if k >= j { CountedPositive(ops, j, k); }
  }

  /** The runner of every special loop from `i` records one graph. */
  predicate SingleBodies(ops: seq<Op>, i: nat) {
    forall k :: i <= k < |ops| && IsSpecial(ops[k]) && NeedsRunner(ops[k]) ==> Counted(ops[k].body, 0) == 1
  }

  /** What one special loop adds to the count of recorded graphs. */
  lemma {:induction false} LoopCount(op: Op, x: Tensors, runner: bool, nested: bool)
    requires IsSpecial(op) && CaptureLoop(op, x, runner, nested).Some?
    ensures var n := GraphsCount(CaptureLoop(op, x, runner, nested).value);
      if runner then n == 2 + Counted(op.body, 0) && Counted(op.body, 0) >= 1 else n == 1
  {
    if runner {
      var body := CaptureAll(op.body, x).value;
      LoopPackCounts(Leaf(SliceEvents(op, op.slices, 0), [], [], op.slices), body,
                     Leaf(PostEvents(op, 0), [], [], op.inserts));
      GraphableExists(op.body);
      var k :| 0 <= k < |op.body| && CompatOf(op.body[k]) != NotCapturable;
      CountFrom(op.body, x, 0);
      CountedPositive(op.body, 0, k);
    }
  }

  /** Capture never records fewer graphs than announced; it records as many exactly when the sequence does not start
      with a special operation and every body with a runner is a single graph. */
  lemma {:induction false} CountFrom(ops: seq<Op>, x: Tensors, i: nat)
    requires i <= |ops| && CaptureFrom(ops, x, i).Some?
    ensures GraphsCounts(CaptureFrom(ops, x, i).value) >= Counted(ops, i)
    ensures GraphsCounts(CaptureFrom(ops, x, i).value) == Counted(ops, i) <==>
      SingleBodies(ops, i) && (i < |ops| && IsSpecial(ops[i]) ==> i > 0)
    decreases ops, |ops| - i
  {
    if i < |ops| {
      var j := SegmentEnd(ops, i);
      SegmentFacts(ops, i);
      CountFrom(ops, x, j);
      SingleBodiesStep(ops, i);
      var rest := CaptureFrom(ops, x, j).value;
      if CompatOf(ops[i]) == Full {
        RecordCounts(ops[i..j], x, j - i);
        GraphsCountsCons(Record(ops[i..j], x, j - i), rest);
      } else if IsSpecial(ops[i]) {
        var runner := i > 0 && NeedsRunner(ops[i]);
        LoopCount(ops[i], x, runner, HasNestedRunners(ops));
        GraphsCountsCons(CaptureLoop(ops[i], x, runner, HasNestedRunners(ops)).value, rest);
      }
    }
  }

  lemma {:induction false} SingleBodiesStep(ops: seq<Op>, i: nat)
    requires i < |ops|
    ensures SingleBodies(ops, i) <==>
      SingleBodies(ops, SegmentEnd(ops, i))
      && (IsSpecial(ops[i]) && NeedsRunner(ops[i]) ==> Counted(ops[i].body, 0) == 1)
  {
    SegmentFacts(ops, i);
  }

  // ----- success

  predicate LoopsFit(ops: seq<Op>, i: nat) {
    forall k :: i <= k < |ops| && IsSpecial(ops[k]) ==>
      NeedsRunner(ops[k]) == HasNestedRunners(ops) && (NeedsRunner(ops[k]) ==> Capturable(ops[k].body))
  }

  lemma {:induction false} LoopsFitStep(ops: seq<Op>, i: nat)
    requires i < |ops|
    ensures LoopsFit(ops, i) <==>
      LoopsFit(ops, SegmentEnd(ops, i))
      && (IsSpecial(ops[i]) ==>
            NeedsRunner(ops[i]) == HasNestedRunners(ops) && (NeedsRunner(ops[i]) ==> Capturable(ops[i].body)))
  {
    SegmentFacts(ops, i);
  }

  lemma {:induction false} CaptureFromIff(ops: seq<Op>, x: Tensors, i: nat)
    requires i <= |ops| && (i == 0 && ops != [] ==> !IsSpecial(ops[0]))
    ensures CaptureFrom(ops, x, i).Some? <==> LoopsFit(ops, i)
    decreases ops, 0, |ops| - i
  {
    if i < |ops| {
      SegmentFacts(ops, i);
      CaptureFromIff(ops, x, SegmentEnd(ops, i));
      LoopsFitStep(ops, i);
      if IsSpecial(ops[i]) { CapturableIff(ops[i].body, x); }
    }
  }

  /** Capture meets all its assertions exactly on capturable sequences, whatever the host tensors. */
  lemma {:induction false} CapturableIff(ops: seq<Op>, x: Tensors)
    ensures CaptureAll(ops, x).Some? <==> Capturable(ops)
    decreases ops, 1, 0
  {
    if ops != [] {
      if CaptureFrom(ops, x, 0).Some? { CountFrom(ops, x, 0); }
      if !IsSpecial(ops[0]) { CaptureFromIff(ops, x, 0); }
    }
  }

  /** The k-th recorded graph comes from the k-th segment that is not eager. */
  function Graphed(segs: seq<seq<Op>>): seq<seq<Op>> {
    if segs == [] then []
    else if segs[0] != [] && CompatOf(segs[0][0]) != NotCapturable then [segs[0]] + Graphed(segs[1..])
    else Graphed(segs[1..])
  }

  predicate RecordedFrom(g: Graph, seg: seq<Op>, x: Tensors, nested: bool) {
    && seg != []
    && (CompatOf(seg[0]) == Full ==> g == Record(seg, x, |seg|))
    && (IsSpecial(seg[0]) ==> Some(g) == CaptureLoop(seg[0], x, NeedsRunner(seg[0]), nested))
  }

  lemma {:induction false} GraphsFollowSegments(ops: seq<Op>, x: Tensors, i: nat)
    requires i <= |ops| && CaptureFrom(ops, x, i).Some?
    requires i == 0 && ops != [] ==> !IsSpecial(ops[0])
    ensures var gs, segs := CaptureFrom(ops, x, i).value, Graphed(Segments(ops, i));
      && |gs| == |segs|
      && forall k :: 0 <= k < |gs| ==> RecordedFrom(gs[k], segs[k], x, HasNestedRunners(ops))
    decreases |ops| - i
  {
    hide Record, CaptureLoop, HasNestedRunners, NeedsRunner, SegmentEnd, CompatOf;
    if i < |ops| {
      var j := SegmentEnd(ops, i);
      SegmentFacts(ops, i);
      GraphsFollowSegments(ops, x, j);
      var seg, segs := ops[i..j], Segments(ops, i);
      assert segs[0] == seg && segs[1..] == Segments(ops, j) && seg[0] == ops[i];
      if CompatOf(ops[i]) != NotCapturable {
        var gs := CaptureFrom(ops, x, i).value;
        assert gs[1..] == CaptureFrom(ops, x, j).value;
        assert RecordedFrom(gs[0], seg, x, HasNestedRunners(ops));
        forall k | 0 < k < |gs| ensures RecordedFrom(gs[k], Graphed(segs)[k], x, HasNestedRunners(ops)) {
          assert gs[k] == gs[1..][k - 1];
        }
      }
    }
  }
}
