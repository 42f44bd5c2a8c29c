/** Cutting the execution sequence: the loop of the runner's constructor, and why its result is the only one possible. */
module GraphPartition {
  import opened GraphSpec

  function Flat(segs: seq<seq<Op>>): seq<Op> {
    if segs == [] then [] else segs[0] + Flat(segs[1..])
  }

  predicate Uniform(seg: seq<Op>) {
    && seg != []
    && (forall i :: 0 <= i < |seg| ==> CompatOf(seg[i]) == CompatOf(seg[0]))
    && (CompatOf(seg[0]) == Special ==> |seg| == 1)
  }

  /** Neighbours could not have been one segment. */
  predicate Separated(a: seq<Op>, b: seq<Op>)
    requires a != [] && b != []
  {
    CompatOf(a[0]) != CompatOf(b[0]) || CompatOf(b[0]) == Special
  }

  /** `segs` cuts `ops` into uniform segments, special operations alone, as few as possible. */
  predicate IsSegmentation(segs: seq<seq<Op>>, ops: seq<Op>) {
    && Flat(segs) == ops
    && (forall k :: 0 <= k < |segs| ==> Uniform(segs[k]))
    && (forall k :: 0 < k < |segs| ==> Separated(segs[k - 1], segs[k]))
  }

  lemma {:induction false} SegmentUniform(ops: seq<Op>, i: nat)
    requires i < |ops|
    ensures Uniform(ops[i..SegmentEnd(ops, i)])
    ensures SegmentEnd(ops, i) < |ops| ==> Cut(ops, SegmentEnd(ops, i))
    decreases |ops| - i
  {
    if i + 1 < |ops| && !Cut(ops, i + 1) {
      SegmentUniform(ops, i + 1);
      var j := SegmentEnd(ops, i);
      assert ops[i..j] == [ops[i]] + ops[i + 1..j];
    }
  }

  lemma {:induction false} SegmentsFrom(ops: seq<Op>, i: nat)
    requires i <= |ops|
    ensures IsSegmentation(Segments(ops, i), ops[i..])
    ensures i < |ops| ==> |Segments(ops, i)| > 0 && Segments(ops, i)[0] == ops[i..SegmentEnd(ops, i)]
    decreases |ops| - i
  {
    if i < |ops| {
      var j := SegmentEnd(ops, i);
      SegmentUniform(ops, i);
      SegmentsFrom(ops, j);
      assert ops[i..] == ops[i..j] + ops[j..];
      var rest := Segments(ops, j);
      assert Segments(ops, i)[1..] == rest;
      if j < |ops| {
        assert ops[i..j][j - 1 - i] == ops[j - 1];
        assert Separated(ops[i..j], rest[0]);
      }
    }
  }

  /** The end of the first segment is the only position whose surroundings look like one. */
  lemma {:induction false} EndUnique(ops: seq<Op>, i: nat, j: nat)
    requires i < j <= |ops|
    requires forall k :: i < k < j ==> !Cut(ops, k)
    requires j < |ops| ==> Cut(ops, j)
    ensures SegmentEnd(ops, i) == j
    decreases j - i
  {
    if i + 1 < j { EndUnique(ops, i + 1, j); }
  }

  lemma {:induction false} FlatLength(segs: seq<seq<Op>>)
    requires forall k :: 0 <= k < |segs| ==> segs[k] != []
    ensures |Flat(segs)| >= |segs|
  {
    if segs != [] { FlatLength(segs[1..]); }
  }

  lemma {:induction false} SegmentationEmpty(segs: seq<seq<Op>>, ops: seq<Op>)
    requires IsSegmentation(segs, ops)
    ensures segs == [] <==> ops == []
    ensures segs != [] ==> 0 < |segs[0]| <= |ops|
  {
    FlatLength(segs);
  }

  /** There is only one such cut. */
  lemma {:induction false} SegmentationUnique(segs: seq<seq<Op>>, ops: seq<Op>, i: nat)
    requires i <= |ops| && IsSegmentation(segs, ops[i..])
    ensures segs == Segments(ops, i)
    decreases |ops| - i
  {
    hide IsSegmentation, SegmentEnd, Segments;
    SegmentationEmpty(segs, ops[i..]);
    SegmentsStep(ops, i);
    if segs != [] {
      FirstSegment(segs, ops, i);
      RestSegmentation(segs, ops, i);
      SegmentationUnique(segs[1..], ops, i + |segs[0]|);
      assert segs == [segs[0]] + segs[1..];
    }
  }

  lemma {:induction false} SegmentsStep(ops: seq<Op>, i: nat)
    requires i <= |ops|
    ensures i == |ops| ==> Segments(ops, i) == []
    ensures i < |ops| ==> Segments(ops, i) == [ops[i..SegmentEnd(ops, i)]] + Segments(ops, SegmentEnd(ops, i))
  {}

  lemma {:induction false} RestSegmentation(segs: seq<seq<Op>>, ops: seq<Op>, i: nat)
    requires i <= |ops| && IsSegmentation(segs, ops[i..]) && segs != [] && 0 < |segs[0]| <= |ops| - i
    ensures IsSegmentation(segs[1..], ops[i + |segs[0]|..])
  {
    TailSegmentation(segs, ops[i..]);
    assert ops[i..][|segs[0]|..] == ops[i + |segs[0]|..];
  }

  lemma {:induction false} FirstSegment(segs: seq<seq<Op>>, ops: seq<Op>, i: nat)
    requires i < |ops| && IsSegmentation(segs, ops[i..]) && segs != []
    ensures i + |segs[0]| == SegmentEnd(ops, i) && segs[0] == ops[i..SegmentEnd(ops, i)]
  {
    var first, rest := segs[0], segs[1..];
    var j := i + |first|;
    assert ops[i..] == first + Flat(rest);
    assert first == ops[i..j];
    forall k | i < k < j ensures !Cut(ops, k) {
      assert first[k - i] == ops[k] && first[k - 1 - i] == ops[k - 1];
    }
    if j < |ops| {
      assert rest != [] && Separated(first, segs[1]) && rest[0] == segs[1];
      assert ops[j] == ops[i..][|first|] == Flat(rest)[0] == segs[1][0];
      assert ops[j - 1] == first[|first| - 1];
    }
    EndUnique(ops, i, j);
  }

  lemma {:induction false} TailSegmentation(segs: seq<seq<Op>>, ops: seq<Op>)
    requires IsSegmentation(segs, ops) && segs != []
    ensures IsSegmentation(segs[1..], ops[|segs[0]|..])
  {
    var rest := segs[1..];
    forall k | 0 < k < |rest| ensures Separated(rest[k - 1], rest[k]) {
      assert rest[k - 1] == segs[k] && rest[k] == segs[k + 1];
    }
  }

  /** The constructor's loop: grow the current sequence, emit it at every change and at every special operation. */
  method Partition(ops: seq<Op>) returns (segs: seq<seq<Op>>)
    requires ops != []
    ensures IsSegmentation(segs, ops) && segs == Segments(ops, 0)
  {
    hide Segments, CompatOf;
    segs := [];
    var current := [ops[0]];
    var last := CompatOf(ops[0]);
    for i := 1 to |ops|
      invariant Flat(segs) + current == ops[..i] && Uniform(current)
      invariant last == CompatOf(ops[i - 1]) == CompatOf(current[0])
      invariant forall k :: 0 <= k < |segs| ==> Uniform(segs[k])
      invariant forall k :: 0 < k < |segs| ==> Separated(segs[k - 1], segs[k])
      invariant |segs| > 0 ==> Separated(segs[|segs| - 1], current)
    {
      var comp := CompatOf(ops[i]);
      if comp != last || comp == Special {
        last := comp;
        FlatAppend(segs, current);
        segs := segs + [current];
        current := [];
      }
      current := current + [ops[i]];
      assert ops[..i + 1] == ops[..i] + [ops[i]];
    }
    FlatAppend(segs, current);
    segs := segs + [current];
    assert ops[..|ops|] == ops && ops[0..] == ops;
    SegmentationUnique(segs, ops, 0);
  }

  lemma {:induction false} FlatAppend(segs: seq<seq<Op>>, seg: seq<Op>)
    ensures Flat(segs + [seg]) == Flat(segs) + seg
  {
    if segs != [] {
      assert (segs + [seg])[1..] == segs[1..] + [seg];
      FlatAppend(segs[1..], seg);
    }
  }
}
