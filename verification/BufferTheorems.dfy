/** The lifespan pass, and what the extractor's final state satisfies. */
module BufferTheorems {
  import opened Graphs
  import opened BufferSpec
  import opened BufferInvariant
  import opened BufferRuns

  // ----- the lifespan pass

  /** Inputs visited before the k-th input of node `n`. */
  predicate Visited(g: Graph, n: nat, k: nat, m: nat, j: nat) {
    m < |g| && j < |g[m].inputs| && (m < n || (m == n && j < k))
  }

  /** The input (m, j) is a tensor living in buffer `r`. */
  ghost predicate Consumes(g: Graph, st: State, m: nat, j: nat, r: BufferID)
    requires Upward(st.links)
  {
    m < |g| && j < |g[m].inputs| && RootedAt(st.tensorNames, st.links, g[m].inputs[j], r)
  }

  /** `st` is `before` with some lifespans ending later. */
  ghost predicate OnlyEndsGrow(before: State, st: State) {
    && st == before.(mutableBuffers := st.mutableBuffers)
    && (forall r :: r in st.mutableBuffers <==> r in before.mutableBuffers)
    && (forall r :: r in st.mutableBuffers ==>
          && st.mutableBuffers[r] == before.mutableBuffers[r].(end := st.mutableBuffers[r].end)
          && before.mutableBuffers[r].end <= st.mutableBuffers[r].end)
  }

  /** Every visited input lies inside the lifespan of its buffer. */
  ghost predicate Reached(g: Graph, before: State, buffers: Buffers, n: nat, k: nat)
    requires Upward(before.links)
  {
    && (forall m: nat, j: nat :: Visited(g, n, k, m, j) ==> g[m].inputs[j] in before.tensorNames)
    && (forall m: nat, j: nat, r :: Visited(g, n, k, m, j) && Consumes(g, before, m, j, r) && r in buffers ==>
          m <= buffers[r].end)
  }

  /** No lifespan was extended further than some visited input. */
  ghost predicate Justified(g: Graph, before: State, buffers: Buffers, n: nat, k: nat)
    requires Upward(before.links)
  {
    forall r :: r in buffers && r in before.mutableBuffers && buffers[r].end != before.mutableBuffers[r].end ==>
      exists m: nat, j: nat :: Visited(g, n, k, m, j) && Consumes(g, before, m, j, r) && m == buffers[r].end
  }

  ghost predicate Extended(g: Graph, before: State, st: State, n: nat, k: nat)
    requires Upward(before.links)
  {
    && OnlyEndsGrow(before, st)
    && Reached(g, before, st.mutableBuffers, n, k)
    && Justified(g, before, st.mutableBuffers, n, k)
  }

  ghost predicate ConstantsApart(st: State) {
    forall id :: id in st.immutableBuffers ==> id !in st.mutableBuffers
  }

  lemma {:induction false} ReachedNext(g: Graph, before: State, buffers: Buffers, n: nat, k: nat, r: BufferID, d: Desc)
    requires Upward(before.links) && Consumes(g, before, n, k, r) && Reached(g, before, buffers, n, k)
    requires r in buffers ==> n <= d.end && buffers[r].end <= d.end
    ensures Reached(g, before, if r in buffers then buffers[r := d] else buffers, n, k + 1)
  {
    forall m: nat, j: nat | Visited(g, n, k + 1, m, j) ensures Visited(g, n, k, m, j) || (m == n && j == k) {}
  }

  lemma {:induction false} JustifiedNext(g: Graph, before: State, buffers: Buffers, n: nat, k: nat, r: BufferID, d: Desc)
    requires Upward(before.links) && Consumes(g, before, n, k, r) && Justified(g, before, buffers, n, k)
    requires r in buffers ==> d.end == n || d.end == buffers[r].end
    ensures Justified(g, before, if r in buffers then buffers[r := d] else buffers, n, k + 1)
  {
    assert Visited(g, n, k + 1, n, k);
    forall m: nat, j: nat | Visited(g, n, k, m, j) ensures Visited(g, n, k + 1, m, j) {}
  }

  lemma {:induction false} ExtendInputSound(g: Graph, before: State, st: State, n: nat, k: nat)
    requires n < |g| && k < |g[n].inputs| && Upward(before.links) && Extended(g, before, st, n, k)
    requires ConstantsApart(before) && ExtendInput(g, st, n, k).Ok?
    ensures Extended(g, before, ExtendInput(g, st, n, k).value, n, k + 1)
  {
    hide Reached, Justified;
    var r := Root(st.links, st.tensorNames[g[n].inputs[k]]);
    var d := if r !in st.mutableBuffers then Desc(0, 0, 0)
             else if n > st.mutableBuffers[r].end then st.mutableBuffers[r].(end := n) else st.mutableBuffers[r];
    assert Consumes(g, before, n, k, r);
    ReachedNext(g, before, st.mutableBuffers, n, k, r, d);
    JustifiedNext(g, before, st.mutableBuffers, n, k, r, d);
    assert r in st.mutableBuffers && d == st.mutableBuffers[r] ==> st.mutableBuffers[r := d] == st.mutableBuffers;
  }

  lemma {:induction false} ExtendNodeSound(g: Graph, before: State, st: State, n: nat, k: nat)
    requires n < |g| && k <= |g[n].inputs| && Upward(before.links) && Extended(g, before, st, n, 0)
    requires ConstantsApart(before) && ExtendNode(g, st, n, k).Ok?
    ensures Extended(g, before, ExtendNode(g, st, n, k).value, n, k)
  {
    hide Extended, ExtendInput;
    if k > 0 {
      ExtendNodeSound(g, before, st, n, k - 1);
      assert st.links == before.links by { SameLinks(g, before, st, n, 0); }
      ExtendInputSound(g, before, ExtendNode(g, st, n, k - 1).value, n, k - 1);
    }
  }

  lemma {:induction false} SameLinks(g: Graph, before: State, st: State, n: nat, k: nat)
    requires Upward(before.links) && Extended(g, before, st, n, k)
    ensures st.links == before.links
  {}

  lemma {:induction false} ExtendSound(g: Graph, st: State, n: nat)
    requires n <= |g| && Upward(st.links) && ConstantsApart(st) && Extend(g, st, n).Ok?
    ensures Extended(g, st, Extend(g, st, n).value, n, 0)
  {
    hide Extended, ExtendNode;
    if n == 0 {
      ExtendedRefl(g, st);
    } else {
      ExtendSound(g, st, n - 1);
      var mid := Extend(g, st, n - 1).value;
      SameLinks(g, st, mid, n - 1, 0);
      ExtendNodeSound(g, st, mid, n - 1, |g[n - 1].inputs|);
      ExtendedNext(g, st, Extend(g, st, n).value, n - 1);
    }
  }

  lemma {:induction false} ExtendedRefl(g: Graph, st: State)
    requires Upward(st.links)
    ensures Extended(g, st, st, 0, 0)
  {}

  lemma {:induction false} ExtendedNext(g: Graph, before: State, st: State, n: nat)
    requires n < |g| && Upward(before.links) && Extended(g, before, st, n, |g[n].inputs|)
    ensures Extended(g, before, st, n + 1, 0)
  {
    forall m: nat, j: nat ensures Visited(g, n, |g[n].inputs|, m, j) <==> Visited(g, n + 1, 0, m, j) {}
  }

  // ----- the final state

  /** Node `n` produces or consumes a tensor living in buffer `r`. */
  ghost predicate Touches(g: Graph, st: State, n: nat, r: BufferID)
    requires Upward(st.links)
  {
    || (exists p: nat :: RootedAt(st.tensorNames, st.links, TensorName(n, p), r))
    || (exists k: nat :: Consumes(g, st, n, k, r))
  }

  /** Everything the second pass keeps, and the lifespans it completes. */
  ghost predicate Final(g: Graph, st: State) {
    && Named(g, st.tensorNames, st.next, |g|, 0)
    && AliasesFollow(g, st.tensorNames)
    && Ordered(g, st.tensorNames)
    && Upward(st.links)
    && Classified(st.mutableBuffers, st.tensorSizes, st.immutableBuffers, st.links, st.next)
    && ParentsKnown(st.links, st.tensorSizes)
    && Placed(st.tensorNames, st.tensorSizes, st.immutableBuffers)
    && Packed(st.links, st.tensorSizes)
    && Sized(g, st.tensorNames, st.tensorSizes)
    && BuffersSized(g, st.tensorNames, st.mutableBuffers)
    && ConstantsKept(g, st.tensorNames, st.immutableBuffers)
    && OnlyConcatsContain(g, st.tensorNames, st.links)
    && Rooted(st.mutableBuffers, st.tensorSizes, st.links)
  }

  /** `r`'s lifespan starts at a node that touches it and covers every node that does. */
  ghost predicate Covered(g: Graph, st: State, r: BufferID)
    requires Upward(st.links) && r in st.mutableBuffers
  {
    var d := st.mutableBuffers[r];
    && Touches(g, st, d.start, r)
    && (forall n: nat :: Touches(g, st, n, r) ==> d.start <= n <= d.end)
  }

  lemma {:induction false} FinalOf(g: Graph, before: State, st: State)
    requires Inv(g, before, |g|, 0) && OnlyEndsGrow(before, st)
    ensures Final(g, st)
  {
    hide Named, AliasesFollow, Ordered, ParentsKnown, Placed, Packed, Sized, OnlyConcatsContain, Spanned, Tight;
  }

  lemma {:induction false} EndsTouched(g: Graph, before: State, st: State, r: BufferID)
    requires Upward(before.links) && Extended(g, before, st, |g|, 0) && r in st.mutableBuffers
    requires Tight(g, before.tensorNames, before.mutableBuffers, before.links)
    ensures Touches(g, st, st.mutableBuffers[r].start, r)
    ensures st.mutableBuffers[r].end == |g| == before.mutableBuffers[r].end || Touches(g, st, st.mutableBuffers[r].end, r)
  {
    hide Reached;
    var d, b := st.mutableBuffers[r], before.mutableBuffers[r];
    var s :| RootedAt(st.tensorNames, st.links, s, r) && s.node == b.start;
    assert RootedAt(st.tensorNames, st.links, TensorName(s.node, s.port), r);
    if d.end != b.end {
      var m: nat, j: nat :| Visited(g, |g|, 0, m, j) && Consumes(g, before, m, j, r) && m == d.end;
      assert Consumes(g, st, m, j, r);
    } else if d.end != |g| {
      var e :| RootedAt(st.tensorNames, st.links, e, r) && e.node == b.end;
      assert RootedAt(st.tensorNames, st.links, TensorName(e.node, e.port), r);
    }
  }

  lemma {:induction false} ConsumerInside(g: Graph, before: State, st: State, r: BufferID, m: nat, j: nat)
    requires Topological(g) && Upward(before.links) && Extended(g, before, st, |g|, 0) && r in st.mutableBuffers
    requires Spanned(g, before.tensorNames, before.mutableBuffers, before.links) && Consumes(g, st, m, j, r)
    ensures st.mutableBuffers[r].start <= m <= st.mutableBuffers[r].end
  {
    hide Justified;
    assert Visited(g, |g|, 0, m, j) && Consumes(g, before, m, j, r);
    assert RootedAt(before.tensorNames, before.links, g[m].inputs[j], r);
  }

  lemma {:induction false} ProducerInside(g: Graph, before: State, st: State, r: BufferID, t: TensorName)
    requires Topological(g) && Upward(before.links) && Extended(g, before, st, |g|, 0) && r in st.mutableBuffers
    requires Spanned(g, before.tensorNames, before.mutableBuffers, before.links)
    requires AliasesFollow(g, st.tensorNames) && Exists(g, t) && RootedAt(st.tensorNames, st.links, t, r)
    ensures st.mutableBuffers[r].start <= t.node <= st.mutableBuffers[r].end
  {
    hide Justified, Reached;
    assert RootedAt(before.tensorNames, before.links, t, r);
    if !Own(g, t) {
      assert Consumes(g, st, t.node, 0, r);
      ConsumerInside(g, before, st, r, t.node, 0);
    }
  }

  lemma {:induction false} CoveredOf(g: Graph, before: State, st: State, r: BufferID)
    requires Topological(g) && Inv(g, before, |g|, 0) && Extended(g, before, st, |g|, 0) && r in st.mutableBuffers
    ensures Covered(g, st, r)
  {
    hide Ordered, ParentsKnown, Placed, Packed, Sized, OnlyConcatsContain, BuffersSized, Rooted, Classified, Spanned,
      Tight, AliasesFollow, Reached, Justified;
    EndsTouched(g, before, st, r);
    var d := st.mutableBuffers[r];
    forall n: nat, p: nat | RootedAt(st.tensorNames, st.links, TensorName(n, p), r) ensures d.start <= n <= d.end {
      assert Done(g, |g|, 0, TensorName(n, p));
      ProducerInside(g, before, st, r, TensorName(n, p));
    }
    forall n: nat, k: nat | Consumes(g, st, n, k, r) ensures d.start <= n <= d.end {
      ConsumerInside(g, before, st, r, n, k);
    }
  }

  /** Whatever chain of aliases and merges leads to a buffer, its lifespan covers all nodes that use it. */
  lemma {:induction false} LifespansCover(g: Graph, stable: Stability)
    requires WellFormed(g) && Topological(g) && DistinctConcats(g) && Extract(g, stable).Ok?
    ensures var st := Extract(g, stable).value;
            Final(g, st) && forall r :: r in st.mutableBuffers ==> Covered(g, st, r)
  {
    hide Inv, Extended, Covered, Final, Assign, Extend;
    var before := Assign(g, stable, |g|).value;
    var st := Extract(g, stable).value;
    AssignInv(g, stable, |g|);
    InvApart(g, before);
    ExtendSound(g, before, |g|);
    ExtendedGrows(g, before, st);
    FinalOf(g, before, st);
    forall r | r in st.mutableBuffers ensures Covered(g, st, r) { CoveredOf(g, before, st, r); }
  }

  lemma {:induction false} InvApart(g: Graph, st: State)
    requires Inv(g, st, |g|, 0)
    ensures ConstantsApart(st)
  {
    hide Ordered, ParentsKnown, Placed, Packed, Sized, OnlyConcatsContain, BuffersSized, Rooted, Tight, Spanned, Named;
  }

  lemma {:induction false} ExtendedGrows(g: Graph, before: State, st: State)
    requires Upward(before.links) && Extended(g, before, st, |g|, 0)
    ensures OnlyEndsGrow(before, st)
  {}

  lemma {:induction false} InputsKnown(g: Graph, stable: Stability)
    requires WellFormed(g) && DistinctConcats(g) && Extract(g, stable).Ok?
    ensures forall n, k :: 0 <= n < |g| && 0 <= k < |g[n].inputs| ==>
      g[n].inputs[k] in Extract(g, stable).value.tensorNames
  {
    hide Inv, Assign, Extend, OnlyEndsGrow, Justified;
    var before := Assign(g, stable, |g|).value;
    AssignInv(g, stable, |g|);
    InvApart(g, before);
    ExtendSound(g, before, |g|);
    forall n: nat, k: nat | n < |g| && k < |g[n].inputs| ensures g[n].inputs[k] in before.tensorNames {
      assert Visited(g, |g|, 0, n, k);
    }
  }
}
