/** Replaying recorded graphs: any sequence of inferences performs the original operations in order, on the tensors of
    the current inference, exactly when no two host transfers of one segment share a name. */
module GraphReplay {
  import opened GraphSpec
  import opened GraphCapture
  import opened GraphRefresh

  // ----- loop bodies move no host data

  predicate Internal(ops: seq<Op>) {
    ops != [] ==> InternalOp(ops[0]) && Internal(ops[1..])
  }

  predicate InternalOp(op: Op) {
    !op.Upload? && !op.Download? && (op.Loop? ==> Internal(op.body))
  }

  predicate BodiesInternal(ops: seq<Op>) {
    forall i :: 0 <= i < |ops| && ops[i].Loop? ==> Internal(ops[i].body)
  }

  lemma {:induction false} InternalMembers(ops: seq<Op>)
    requires Internal(ops)
    ensures forall i :: 0 <= i < |ops| ==> InternalOp(ops[i])
    ensures BodiesInternal(ops)
  {
    if ops != [] {
      InternalMembers(ops[1..]);
      forall i | 0 <= i < |ops| ensures InternalOp(ops[i]) {
        if i > 0 { assert ops[i] == ops[1..][i - 1]; }
      }
    }
  }

  lemma {:induction false} InternalOpEvents(op: Op, x: Tensors, y: Tensors)
    requires InternalOp(op)
    ensures EagerOp(op, x) == EagerOp(op, y)
  {
    if op.Loop? { InternalEvents(op.body, x, y); }
  }

  lemma {:induction false} InternalEvents(ops: seq<Op>, x: Tensors, y: Tensors)
    requires Internal(ops)
    ensures EagerSeq(ops, x) == EagerSeq(ops, y)
  {
    if ops != [] {
      InternalOpEvents(ops[0], x, y);
      InternalEvents(ops[1..], x, y);
    }
  }

  // ----- what a context holds

  /** The graphs of the segments from `i`: recorded with the tensors `x`, last refreshed for `y`. */
  predicate ListHolds(ops: seq<Op>, gs: seq<Graph>, x: Tensors, y: Tensors, i: nat)
    requires i <= |ops|
    decreases ops, 0, |ops| - i
  {
    if i == |ops| then gs == []
    else if CompatOf(ops[i]) == NotCapturable then ListHolds(ops, gs, x, y, SegmentEnd(ops, i))
    else
      && gs != []
      && (if IsSpecial(ops[i]) then LoopHolds(ops[i], gs[0], x, y) else Holds(gs[0], ops[i..SegmentEnd(ops, i)], x, y))
      && ListHolds(ops, gs[1..], x, y, SegmentEnd(ops, i))
  }

  predicate LoopHolds(op: Op, g: Graph, x: Tensors, y: Tensors)
    decreases op, 2, 0
  {
    && op.Loop?
    && if NeedsRunner(op) then
         && g.Pack? && |g.graphs| == 3
         && g.graphs[0] == Leaf(SliceEvents(op, op.slices, 0), [], [], op.slices)
         && PackHolds(op.body, g.graphs[1], x, y)
         && g.graphs[2] == Leaf(PostEvents(op, 0), [], [], op.inserts)
       else
         g == Leaf(IterationEvents(op, EagerSeq(op.body, y), 0), [], [], op.slices + op.inserts)
  }

  predicate PackHolds(ops: seq<Op>, g: Graph, x: Tensors, y: Tensors)
    decreases ops, 1, 0
  {
    g.Pack? && ListHolds(ops, g.graphs, x, y, 0)
  }

  lemma {:induction false} CaptureListHolds(ops: seq<Op>, x: Tensors, i: nat)
    requires i <= |ops| && CaptureFrom(ops, x, i).Some? && (ops != [] ==> !IsSpecial(ops[0]))
    ensures ListHolds(ops, CaptureFrom(ops, x, i).value, x, x, i)
    decreases ops, 0, |ops| - i
  {
    if i < |ops| {
      var j := SegmentEnd(ops, i);
      SegmentFacts(ops, i);
      CaptureListHolds(ops, x, j);
      if CompatOf(ops[i]) != NotCapturable {
        var gs := CaptureFrom(ops, x, i).value;
        assert gs[1..] == CaptureFrom(ops, x, j).value;
        if IsSpecial(ops[i]) {
          if NeedsRunner(ops[i]) { CaptureHolds(ops[i].body, x); }
        } else {
          RecordHolds(ops[i..j], x);
        }
      }
    }
  }

  /** Capture records the segments as they are. */
  lemma {:induction false} CaptureHolds(ops: seq<Op>, x: Tensors)
    requires CaptureAll(ops, x).Some?
    ensures PackHolds(ops, CaptureAll(ops, x).value, x, x)
    decreases ops, 1, 0
  {
    CapturableIff(ops, x);
    CaptureListHolds(ops, x, 0);
  }

  lemma {:induction false} RefreshLoopHolds(op: Op, g: Graph, x: Tensors, y: Tensors, z: Tensors)
    requires LoopHolds(op, g, x, y) && Internal(op.body)
    ensures LoopHolds(op, UpdateCapture(g, z), x, z)
    decreases op, 1, 0
  {
    var r := UpdateCapture(g, z);
    if NeedsRunner(op) {
      InternalMembers(op.body);
      RefreshListHolds(op.body, g.graphs[1].graphs, x, y, z, 0);
      assert r.graphs == UpdateCaptures(g.graphs, z);
    } else {
      InternalEvents(op.body, y, z);
    }
  }

  /** Refreshing moves every recorded graph to the new tensors, at any depth. */
  lemma {:induction false} RefreshListHolds(ops: seq<Op>, gs: seq<Graph>, x: Tensors, y: Tensors, z: Tensors, i: nat)
    requires i <= |ops| && BodiesInternal(ops) && ListHolds(ops, gs, x, y, i)
    ensures ListHolds(ops, UpdateCaptures(gs, z), x, z, i)
    decreases ops, 0, |ops| - i
  {
    hide UpdateCapture, UpdateCaptures, Holds, LoopHolds, Internal, SegmentEnd;
    if i < |ops| {
      var j := SegmentEnd(ops, i);
      SegmentFacts(ops, i);
      if CompatOf(ops[i]) == NotCapturable {
        RefreshListHolds(ops, gs, x, y, z, j);
      } else {
        RefreshListHolds(ops, gs[1..], x, y, z, j);
        var r := UpdateCaptures(gs, z);
        assert r[1..] == UpdateCaptures(gs[1..], z) && r[0] == UpdateCapture(gs[0], z);
        if IsSpecial(ops[i]) {
          RefreshLoopHolds(ops[i], gs[0], x, y, z);
        } else {
          RefreshHolds(gs[0], ops[i..j], x, y, z);
        }
      }
    }
  }

  // ----- what a context performs

  function SegmentReplay(seg: seq<Op>, x: Tensors, y: Tensors): seq<Event> {
    seq(|seg|, p requires 0 <= p < |seg| => ReplayedAt(seg, x, y, p))
  }

  /** The events of a context recorded with `x` and refreshed for `y`: eager execution, except for stale transfers. */
  function Replayed(ops: seq<Op>, x: Tensors, y: Tensors, i: nat): seq<Event>
    requires i <= |ops|
    decreases |ops| - i
  {
    if i == |ops| then []
    else
      var seg := ops[i..SegmentEnd(ops, i)];
      (if CompatOf(ops[i]) == Full then SegmentReplay(seg, x, y) else EagerSeq(seg, y))
      + Replayed(ops, x, y, SegmentEnd(ops, i))
  }

  predicate NamesApart(seg: seq<Op>) {
    forall p, q :: 0 <= p < q < |seg| ==>
      !(seg[p].Upload? && seg[q].Upload? && seg[p].name == seg[q].name)
      && !(seg[p].Download? && seg[q].Download? && seg[p].name == seg[q].name)
  }

  /** No two uploads, and no two downloads, of one segment share a name. */
  predicate SegmentsApart(ops: seq<Op>, i: nat)
    requires i <= |ops|
    decreases |ops| - i
  {
    i == |ops| || (NamesApart(ops[i..SegmentEnd(ops, i)]) && SegmentsApart(ops, SegmentEnd(ops, i)))
  }

  lemma {:induction false} NamesApartIff(seg: seq<Op>)
    ensures NamesApart(seg) <==> forall p: nat :: p < |seg| ==> !Stale(seg, p)
  {
    if forall p: nat :: p < |seg| ==> !Stale(seg, p) {
      forall p, q | 0 <= p < q < |seg|
        ensures !(seg[p].Upload? && seg[q].Upload? && seg[p].name == seg[q].name)
        ensures !(seg[p].Download? && seg[q].Download? && seg[p].name == seg[q].name)
      {
        assert !Stale(seg, q);
        assert IsHost(seg[p], true) == seg[p].Upload? && IsHost(seg[p], false) == seg[p].Download?;
      }
    }
    if NamesApart(seg) {
      forall p: nat | p < |seg| ensures !Stale(seg, p) {}
    }
  }

  lemma {:induction false} EagerAppend(a: seq<Op>, b: seq<Op>, x: Tensors)
    ensures EagerSeq(a + b, x) == EagerSeq(a, x) + EagerSeq(b, x)
  {
    hide EagerOp;
    if a == [] {
      assert a + b == b;
    } else {
      assert (a + b)[0] == a[0] && (a + b)[1..] == a[1..] + b;
      EagerAppend(a[1..], b, x);
      calc {
        EagerSeq(a + b, x);
        EagerOp(a[0], x) + (EagerSeq(a[1..], x) + EagerSeq(b, x));
        (EagerOp(a[0], x) + EagerSeq(a[1..], x)) + EagerSeq(b, x);
      }
    }
  }

  lemma {:induction false} EagerNone(ops: seq<Op>, x: Tensors)
    requires ops == []
    ensures EagerSeq(ops, x) == []
  {}

  lemma {:induction false} FullEagerly(seg: seq<Op>, x: Tensors, n: nat)
    requires Recordable(seg) && n <= |seg|
    ensures |EagerSeq(seg[..n], x)| == n
    ensures forall p :: 0 <= p < n ==> EagerSeq(seg[..n], x)[p] == EventOf(seg[p], x)
  {
    if n > 0 {
      FullKinds(seg[n - 1]);
      FullEagerly(seg, x, n - 1);
      EagerAppend(seg[..n - 1], [seg[n - 1]], x);
      assert seg[..n] == seg[..n - 1] + [seg[n - 1]];
      assert EagerSeq([seg[n - 1]], x) == [EventOf(seg[n - 1], x)];
    }
  }

  lemma {:induction false} SegmentReplayEager(seg: seq<Op>, x: Tensors, y: Tensors)
    requires Recordable(seg) && NamesApart(seg)
    ensures SegmentReplay(seg, x, y) == EagerSeq(seg, y)
  {
    NamesApartIff(seg);
    FullEagerly(seg, y, |seg|);
    assert seg[..|seg|] == seg;
  }

  lemma {:induction false} ReplayedEager(ops: seq<Op>, x: Tensors, y: Tensors, i: nat)
    requires i <= |ops| && SegmentsApart(ops, i)
    ensures Replayed(ops, x, y, i) == EagerSeq(ops[i..], y)
    decreases |ops| - i
  {
    hide EagerSeq, CompatOf, SegmentReplay, NamesApart;
    if i == |ops| {
      EagerNone(ops[i..], y);
    } else {
      var j := SegmentEnd(ops, i);
      SegmentFacts(ops, i);
      ReplayedEager(ops, x, y, j);
      if CompatOf(ops[i]) == Full { SegmentReplayEager(ops[i..j], x, y); }
      EagerAppend(ops[i..j], ops[j..], y);
      assert ops[i..] == ops[i..j] + ops[j..];
    }
  }

  lemma {:induction false} InternalApart(ops: seq<Op>, i: nat)
    requires Internal(ops) && i <= |ops|
    ensures SegmentsApart(ops, i)
    decreases |ops| - i
  {
    if i < |ops| {
      InternalMembers(ops);
      var seg := ops[i..SegmentEnd(ops, i)];
      forall p | 0 <= p < |seg| ensures !seg[p].Upload? && !seg[p].Download? { assert InternalOp(ops[i + p]); }
      InternalApart(ops, SegmentEnd(ops, i));
    }
  }
}
