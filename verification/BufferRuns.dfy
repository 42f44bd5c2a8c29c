/** From one step to whole extractions. */
module BufferRuns {
  import opened Graphs
  import opened BufferSpec
  import opened BufferInvariant

  // ----- ids and sources

  lemma {:induction false} SourceOwns(g: Graph, st: State, t: TensorName)
    requires AliasesFollow(g, st.tensorNames) && t in st.tensorNames
    requires forall s :: s in st.tensorNames ==> Exists(g, s)
    ensures Source(g, t) in st.tensorNames && Own(g, Source(g, t))
    ensures st.tensorNames[Source(g, t)] == st.tensorNames[t]
    decreases t.node
  {
    if IsAlias(g[t.node]) {
      SourceOwns(g, st, g[t.node].inputs[0]);
    }
  }

  /** Two tensors share a TensorID exactly when they rename the same tensor. */
  lemma {:induction false} SameIdIffSameSource(g: Graph, st: State, n: nat, p: nat, s: TensorName, t: TensorName)
    requires Inv(g, st, n, p) && s in st.tensorNames && t in st.tensorNames
    ensures st.tensorNames[s] == st.tensorNames[t] <==> Source(g, s) == Source(g, t)
  {
    hide AliasesFollow, Packed, Sized, BuffersSized, OnlyConcatsContain, Spanned, Tight, Rooted, Classified, Placed;
    SourceOwns(g, st, s);
    SourceOwns(g, st, t);
    var a, b := Source(g, s), Source(g, t);
    assert a == b || Before(a, b) || Before(b, a);
  }

  /** The inputs of every ConcatOptimized rename pairwise different tensors. */
  predicate DistinctInputs(g: Graph, n: nat)
    requires n < |g|
  {
    forall i, j :: 0 <= i < j < |g[n].inputs| ==> Source(g, g[n].inputs[i]) != Source(g, g[n].inputs[j])
  }

  predicate DistinctBefore(g: Graph, n: nat)
    requires n <= |g|
  {
    forall m :: 0 <= m < n && g[m].kind.ConcatNode? ==> DistinctInputs(g, m)
  }

  predicate DistinctConcats(g: Graph) {
    DistinctBefore(g, |g|)
  }

  lemma {:induction false} DistinctIds(g: Graph, st: State, n: nat)
    requires n < |g| && Inv(g, st, n, 0) && ConcatIds(g, st, n, |g[n].inputs|).Ok?
    ensures Distinct(ConcatIds(g, st, n, |g[n].inputs|).value) <==> DistinctInputs(g, n)
  {
    hide Inv, ConcatIds;
    var ids := ConcatIds(g, st, n, |g[n].inputs|).value;
    ConcatIdsAre(g, st, n);
    forall i, j | 0 <= i < j < |ids|
      ensures ids[i] == ids[j] <==> Source(g, g[n].inputs[i]) == Source(g, g[n].inputs[j])
    {
      SameIdIffSameSource(g, st, n, 0, g[n].inputs[i], g[n].inputs[j]);
    }
  }

  lemma {:induction false} ConcatIdsAre(g: Graph, st: State, n: nat)
    requires n < |g| && ConcatIds(g, st, n, |g[n].inputs|).Ok?
    ensures var ids := ConcatIds(g, st, n, |g[n].inputs|).value;
            && |ids| == |g[n].inputs|
            && forall j :: 0 <= j < |ids| ==> g[n].inputs[j] in st.tensorNames && ids[j] == st.tensorNames[g[n].inputs[j]]
  {}

  // ----- the first pass

  lemma {:induction false} EmptyInv(g: Graph)
    ensures Inv(g, Empty, 0, 0)
  {}

  lemma {:induction false} FreshAllInv(g: Graph, st: State, n: nat, ports: nat, last: nat)
    requires n < |g| && ports <= |g[n].outputs| && !IsAlias(g[n]) && !g[n].kind.ConstantNode?
    requires Inv(g, st, n, 0) && (last == n || last == |g|)
    ensures Inv(g, FreshOutputs(g, st, n, ports, last), n, ports)
  {
    hide Inv;
    if ports > 0 {
      FreshAllInv(g, st, n, ports - 1, last);
      FreshInv(g, FreshOutputs(g, st, n, ports - 1, last), n, ports - 1, last);
    }
  }

  lemma {:induction false} ResultInv(g: Graph, stable: Stability, st: State, n: nat)
    requires n < |g| && IsAlias(g[n]) && |g[n].inputs| > 0 && Inv(g, st, n, 0)
    requires ResultStep(g, stable, st, n).Ok?
    ensures Inv(g, ResultStep(g, stable, st, n).value, n, |g[n].outputs|)
  {
    hide Inv;
    if g[n].inputs[0] in st.tensorNames {
      AliasInv(g, st, n);
      var id := st.tensorNames[g[n].inputs[0]];
      var named := AliasOutputs(st, n, |g[n].outputs|, id);
      if stable.results { StretchInv(g, named, id, n, |g[n].outputs|); }
    }
  }

  /** After its last output a node is done. */
  lemma {:induction false} NextNode(g: Graph, st: State, n: nat)
    requires n < |g| && Inv(g, st, n, |g[n].outputs|)
    ensures Inv(g, st, n + 1, 0)
  {
    hide Ordered, AliasesFollow, Packed, Sized, BuffersSized, OnlyConcatsContain, Spanned, Tight, Rooted, Classified,
      Placed, Upward, ParentsKnown;
    forall t ensures Done(g, n, |g[n].outputs|, t) <==> Done(g, n + 1, 0, t) {}
  }

  lemma {:induction false} StepInv(g: Graph, stable: Stability, st: State, n: nat)
    requires WellFormed(g) && n < |g| && Inv(g, st, n, 0) && Step(g, stable, st, n).Ok?
    requires g[n].kind.ConcatNode? ==> DistinctInputs(g, n)
    ensures Inv(g, Step(g, stable, st, n).value, n + 1, 0)
  {
    hide Inv, DistinctInputs, ConcatStep, ResultStep, ConstantStep, FreshOutputs, AliasOutputs, Distinct;
    assert WellFormedNode(g[n]);
    var st' := Step(g, stable, st, n).value;
    match g[n].kind {
      case ParameterNode =>
        if |g[n].inputs| > 0 { AliasInv(g, st, n); }
        else { FreshAllInv(g, st, n, |g[n].outputs|, if stable.params then |g| else n); }
      case ResultNode => ResultInv(g, stable, st, n);
      case AssignNode => ResultInv(g, stable, st, n);
      case ConstantNode(_) => ConstantInv(g, st, n);
      case ConcatNode =>
        ConcatOk(g, st, n);
        DistinctIds(g, st, n);
        ConcatInv(g, st, n);
      case ReshapeNode =>
        if g[n].dynamic { FreshAllInv(g, st, n, |g[n].outputs|, n); } else { AliasInv(g, st, n); }
      case ReadValueNode => FreshAllInv(g, st, n, |g[n].outputs|, n);
      case ComputeNode => FreshAllInv(g, st, n, |g[n].outputs|, n);
    }
    NextNode(g, st', n);
  }

  lemma {:induction false} ConcatOk(g: Graph, st: State, n: nat)
    requires n < |g| && |g[n].outputs| > 0 && ConcatStep(g, st, n).Ok?
    ensures ConcatIds(g, st, n, |g[n].inputs|).Ok?
  {}

  /** Every reachable state of the first pass satisfies the invariant. */
  lemma {:induction false} AssignInv(g: Graph, stable: Stability, n: nat)
    requires WellFormed(g) && n <= |g| && DistinctBefore(g, n) && Assign(g, stable, n).Ok?
    ensures Inv(g, Assign(g, stable, n).value, n, 0)
  {
    hide Inv, Step, DistinctInputs;
    if n == 0 {
      EmptyInv(g);
    } else {
      AssignInv(g, stable, n - 1);
      StepInv(g, stable, Assign(g, stable, n - 1).value, n - 1);
    }
  }
}
