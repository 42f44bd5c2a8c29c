/** Exactly which graphs the extractor accepts, read off the graph alone, and why it refuses the others. */
module BufferAcceptance {
  import opened Options
  import opened Graphs
  import opened BufferSpec
  import opened BufferInvariant
  import opened BufferRuns
  import opened TensorValues

  // ----- the conditions

  /** The tensor is an output of an earlier node. */
  predicate Known(g: Graph, n: nat, t: TensorName) {
    Exists(g, t) && t.node < n
  }

  predicate IsConstant(g: Graph, s: TensorName) {
    s.node < |g| && g[s.node].kind.ConstantNode?
  }

  /** Concat `m` has tensor `s` among its inputs, under whatever name. */
  predicate MergedBy(g: Graph, m: nat, s: TensorName)
    requires m < |g|
  {
    g[m].kind.ConcatNode? && exists k :: 0 <= k < |g[m].inputs| && Source(g, g[m].inputs[k]) == s
  }

  /** The first of the first `n` nodes that merges `s`, or `n`. */
  function FirstMerge(g: Graph, s: TensorName, n: nat): (m: nat)
    requires n <= |g|
    ensures m <= n && (m < n ==> MergedBy(g, m, s)) && forall i :: 0 <= i < m ==> !MergedBy(g, i, s)
  {
    if n == 0 then 0
    else
      var m := FirstMerge(g, s, n - 1);
      if m < n - 1 then m else if MergedBy(g, n - 1, s) then n - 1 else n
  }

  /** No earlier concat has made the tensor a part of its output. */
  predicate Unmerged(g: Graph, n: nat, t: TensorName)
    requires n <= |g|
  {
    forall m :: 0 <= m < n ==> !MergedBy(g, m, Source(g, t))
  }

  /** Bytes of a tensor's contents: a concat has those of its inputs, whatever its own shape declares. */
  function Content(g: Graph, t: TensorName): nat
    decreases t.node, 1, 0
  {
    var s := Source(g, t);
    if !Exists(g, s) then 0
    else if g[s.node].kind.ConcatNode? then Contents(g, s.node, |g[s.node].inputs|)
    else TensorBytes(g, s)
  }

  /** Of the first `k` inputs of node `m` together. */
  function Contents(g: Graph, m: nat, k: nat): nat
    requires m < |g| && k <= |g[m].inputs|
    decreases m, 0, k
  {
    if k == 0 then 0
    else Contents(g, m, k - 1) + if g[m].inputs[k - 1].node < m then Content(g, g[m].inputs[k - 1]) else 0
  }

  /** The tensor that owns the buffer `s` ends up in. */
  function Owner(g: Graph, s: TensorName): TensorName
    decreases if s.node < |g| then |g| - s.node else 0
  {
    var m := FirstMerge(g, s, |g|);
    if s.node < m < |g| then Owner(g, TensorName(m, 0)) else s
  }

  predicate ConcatAccepted(g: Graph, n: nat)
    requires n < |g| && |g[n].outputs| > 0
  {
    && g[n].inputs != []
    && (forall k :: 0 <= k < |g[n].inputs| ==>
          var t := g[n].inputs[k];
          Known(g, n, t) && !IsConstant(g, Source(g, t)) && Unmerged(g, n, t))
    && (TensorBytes(g, TensorName(n, 0)) == 0 || TensorBytes(g, TensorName(n, 0)) == Contents(g, n, |g[n].inputs|))
  }

  /** What the first pass asks of one node. */
  predicate NodeAccepted(g: Graph, stable: Stability, n: nat)
    requires WellFormed(g) && n < |g|
  {
    assert WellFormedNode(g[n]);
    match g[n].kind
    case ParameterNode => g[n].inputs != [] ==> g[n].outputs != [] && Known(g, n, g[n].inputs[0])
    case ResultNode => SinkAccepted(g, stable, n)
    case AssignNode => SinkAccepted(g, stable, n)
    case ConcatNode => ConcatAccepted(g, n)
    case ReshapeNode =>
      g[n].dynamic || (|g[n].inputs| >= 1 && |g[n].outputs| == 1 && Known(g, n, g[n].inputs[0]))
    case _ => true
  }

  predicate SinkAccepted(g: Graph, stable: Stability, n: nat)
    requires n < |g| && |g[n].inputs| > 0
  {
    var t := g[n].inputs[0];
    && (g[n].outputs != [] || stable.results ==> Known(g, n, t))
    && (stable.results ==> !IsConstant(g, Source(g, t)) && Unmerged(g, n, t))
  }

  /** What the lifespan pass asks of one input: it exists, and fits the buffer it lives in. */
  predicate InputAccepted(g: Graph, t: TensorName) {
    && Exists(g, t)
    && var s := Source(g, t);
       IsConstant(g, s) || !Exists(g, Owner(g, s)) || TensorBytes(g, Owner(g, s)) == 0
       || TensorBytes(g, t) <= TensorBytes(g, Owner(g, s))
  }

  predicate Accepted(g: Graph, stable: Stability)
    requires WellFormed(g)
  {
    && (forall n :: 0 <= n < |g| ==> NodeAccepted(g, stable, n))
    && (forall n, k :: 0 <= n < |g| && 0 <= k < |g[n].inputs| ==> InputAccepted(g, g[n].inputs[k]))
  }

  // ----- the reasons for a refusal

  /** The first input of a concat, among the first `k`, that is unknown or merged already. */
  function ConcatInputRefusal(g: Graph, n: nat, k: nat): (e: Option<Error>)
    requires n < |g| && k <= |g[n].inputs|
    ensures e.None? <==> forall j :: 0 <= j < k ==> Known(g, n, g[n].inputs[j]) && Unmerged(g, n, g[n].inputs[j])
  {
    if k == 0 then None
    else
      var e, t := ConcatInputRefusal(g, n, k - 1), g[n].inputs[k - 1];
      if e.Some? then e
      else if !Known(g, n, t) then Some(UnknownTensor)
      else if !Unmerged(g, n, t) then Some(NotARootTensor)
      else None
  }

  function ConcatRefusal(g: Graph, n: nat): (e: Option<Error>)
    requires n < |g| && |g[n].outputs| > 0
    ensures e.None? <==> ConcatAccepted(g, n)
  {
    var bytes := TensorBytes(g, TensorName(n, 0));
    var e := ConcatInputRefusal(g, n, |g[n].inputs|);
    if e.Some? then e
    else if g[n].inputs == [] then Some(EmptyConcat)
    else if exists k :: 0 <= k < |g[n].inputs| && IsConstant(g, Source(g, g[n].inputs[k])) then Some(NotAMutableBuffer)
    else if bytes != 0 && bytes != Contents(g, n, |g[n].inputs|) then Some(ConcatSizeMismatch)
    else None
  }

  function NodeRefusal(g: Graph, stable: Stability, n: nat): (e: Option<Error>)
    requires WellFormed(g) && n < |g|
    ensures e.None? <==> NodeAccepted(g, stable, n)
  {
    assert WellFormedNode(g[n]);
    if NodeAccepted(g, stable, n) then None
    else if g[n].kind.ParameterNode? then Some(if g[n].outputs == [] then NoOutputs else UnknownTensor)
    else if g[n].kind.ConcatNode? then ConcatRefusal(g, n)
    else if g[n].kind.ReshapeNode? then Some(BadReshape)
    else Some(if Known(g, n, g[n].inputs[0]) then ResultBufferNotFound else UnknownTensor)
  }

  function InputRefusal(g: Graph, t: TensorName): (e: Option<Error>)
    ensures e.None? <==> InputAccepted(g, t)
  {
    if !Exists(g, t) then Some(UnknownTensor) else if InputAccepted(g, t) then None else Some(BufferTooSmall)
  }

  function FirstNode(g: Graph, stable: Stability, n: nat): (e: Option<Error>)
    requires WellFormed(g) && n <= |g|
    ensures e.None? <==> forall m :: 0 <= m < n ==> NodeAccepted(g, stable, m)
  {
    if n == 0 then None
    else
      var e := FirstNode(g, stable, n - 1);
      if e.Some? then e else NodeRefusal(g, stable, n - 1)
  }

  function FirstPort(g: Graph, n: nat, k: nat): (e: Option<Error>)
    requires n < |g| && k <= |g[n].inputs|
    ensures e.None? <==> forall j :: 0 <= j < k ==> InputAccepted(g, g[n].inputs[j])
  {
    if k == 0 then None
    else
      var e := FirstPort(g, n, k - 1);
      if e.Some? then e else InputRefusal(g, g[n].inputs[k - 1])
  }

  function FirstInput(g: Graph, n: nat): (e: Option<Error>)
    requires n <= |g|
    ensures e.None? <==> forall m, j :: 0 <= m < n && 0 <= j < |g[m].inputs| ==> InputAccepted(g, g[m].inputs[j])
  {
    if n == 0 then None
    else
      var e := FirstInput(g, n - 1);
      if e.Some? then e else FirstPort(g, n - 1, |g[n - 1].inputs|)
  }

  /** The first node refused, or else the first input. */
  function Refusal(g: Graph, stable: Stability): (e: Option<Error>)
    requires WellFormed(g)
    ensures e.None? <==> Accepted(g, stable)
  {
    var e := FirstNode(g, stable, |g|);
    if e.Some? then e else FirstInput(g, |g|)
  }

  // ----- what every accepted step keeps, repeated concat inputs or not

  /** Where the id of tensor `s` is filed after `n` nodes. */
  predicate Filed(g: Graph, st: State, n: nat, s: TensorName)
    requires n <= |g| && Exists(g, s) && s in st.tensorNames
  {
    var id, m := st.tensorNames[s], FirstMerge(g, s, n);
    && (id in st.immutableBuffers <==> IsConstant(g, s))
    && (id in st.tensorSizes <==> !IsConstant(g, s))
    && (id in st.links <==> m < n) && (IsConstant(g, s) ==> m == n)
    && (id in st.links ==> s.node < m && TensorName(m, 0) in st.tensorNames
                           && st.links[id].parent == st.tensorNames[TensorName(m, 0)])
    && (id in st.mutableBuffers <==> !IsConstant(g, s) && id !in st.links)
    && (id in st.mutableBuffers ==> st.mutableBuffers[id].size == TensorBytes(g, s))
    && (id in st.tensorSizes ==> st.tensorSizes[id] == Content(g, s))
  }

  predicate AllFiled(g: Graph, st: State, n: nat)
    requires n <= |g|
  {
    forall s :: s in st.tensorNames && Own(g, s) ==> Filed(g, st, n, s)
  }

  predicate IdsBelow(st: State) {
    && (forall id :: id in st.links ==> id < st.next)
    && (forall id :: id in st.tensorSizes ==> id < st.next)
    && (forall id :: id in st.mutableBuffers ==> id < st.next)
    && (forall id :: id in st.immutableBuffers ==> id < st.next)
  }

  /** Concats merge earlier tensors only. */
  predicate ConcatsLater(g: Graph, n: nat)
    requires n <= |g|
  {
    forall m, k :: 0 <= m < n && g[m].kind.ConcatNode? && 0 <= k < |g[m].inputs| ==> g[m].inputs[k].node < m
  }

  ghost predicate Kept(g: Graph, st: State, n: nat, p: nat)
    requires n <= |g|
  {
    && Named(g, st.tensorNames, st.next, n, p) && AliasesFollow(g, st.tensorNames) && Ordered(g, st.tensorNames)
    && Upward(st.links) && IdsBelow(st) && ConcatsLater(g, n) && AllFiled(g, st, n)
  }

  lemma {:induction false} EmptyKept(g: Graph)
    ensures Kept(g, Empty, 0, 0)
  {}

  /** A tensor not yet produced is not merged yet. */
  lemma {:induction false} NotMerged(g: Graph, n: nat, s: TensorName)
    requires n <= |g| && ConcatsLater(g, n) && n <= s.node
    ensures FirstMerge(g, s, n) == n
  {}

  lemma {:induction false} OwnContent(g: Graph, s: TensorName)
    requires Own(g, s)
    ensures Source(g, s) == s
    ensures !g[s.node].kind.ConcatNode? ==> Content(g, s) == TensorBytes(g, s)
    ensures g[s.node].kind.ConcatNode? ==> Content(g, s) == Contents(g, s.node, |g[s.node].inputs|)
  {}

  // ----- what a step leaves as it was

  predicate NamesStay(st: State, st': State) {
    forall t :: t in st.tensorNames ==> t in st'.tensorNames && st'.tensorNames[t] == st.tensorNames[t]
  }

  predicate IdStays(st: State, st': State, id: BufferID) {
    && (id in st'.immutableBuffers <==> id in st.immutableBuffers)
    && (id in st'.tensorSizes <==> id in st.tensorSizes)
    && (id in st.tensorSizes && id in st'.tensorSizes ==> st'.tensorSizes[id] == st.tensorSizes[id])
    && (id in st'.mutableBuffers <==> id in st.mutableBuffers)
    && (id in st.mutableBuffers && id in st'.mutableBuffers ==>
          st'.mutableBuffers[id].size == st.mutableBuffers[id].size)
  }

  lemma {:induction false} FiledStays(g: Graph, st: State, st': State, n: nat, s: TensorName)
    requires n <= |g| && Exists(g, s) && s in st.tensorNames && Filed(g, st, n, s)
    requires NamesStay(st, st') && st'.links == st.links && IdStays(st, st', st.tensorNames[s])
    ensures s in st'.tensorNames && Filed(g, st', n, s)
  {
    hide Content, FirstMerge;
  }

  /** A step that keeps all ids files every tensor named before as it was. */
  lemma {:induction false} OthersFiled(g: Graph, st: State, st': State, n: nat)
    requires n <= |g| && AllFiled(g, st, n) && NamesStay(st, st') && st'.links == st.links
    requires forall t :: t in st.tensorNames ==> IdStays(st, st', st.tensorNames[t])
    ensures forall s :: s in st.tensorNames && Own(g, s) ==> s in st'.tensorNames && Filed(g, st', n, s)
  {
    hide Filed, IdStays, NamesStay;
    forall s | s in st.tensorNames && Own(g, s) ensures s in st'.tensorNames && Filed(g, st', n, s) {
      FiledStays(g, st, st', n, s);
    }
  }

  // ----- fresh outputs

  lemma {:induction false} FreshKept(g: Graph, st: State, n: nat, p: nat, last: nat)
    requires n < |g| && p < |g[n].outputs| && !IsAlias(g[n]) && !g[n].kind.ConstantNode? && !g[n].kind.ConcatNode?
    requires Kept(g, st, n, p)
    ensures Kept(g, FreshOutput(g, st, TensorName(n, p), last), n, p + 1)
  {
    hide Ordered, AliasesFollow, Content, FirstMerge, Filed, Named, IsAlias;
    NameFresh(g, st.tensorNames, st.next, n, p);
    FreshStays(g, st, n, p, last);
    OthersFiled(g, st, FreshOutput(g, st, TensorName(n, p), last), n);
    FreshFiled(g, st, n, p, last);
  }

  lemma {:induction false} FreshStays(g: Graph, st: State, n: nat, p: nat, last: nat)
    requires n < |g| && p < |g[n].outputs| && IdsBelow(st) && Named(g, st.tensorNames, st.next, n, p)
    ensures var st' := FreshOutput(g, st, TensorName(n, p), last);
            && NamesStay(st, st') && IdsBelow(st')
            && forall t :: t in st.tensorNames ==> IdStays(st, st', st.tensorNames[t])
  {
    assert !Done(g, n, p, TensorName(n, p));
  }

  lemma {:induction false} FreshFiled(g: Graph, st: State, n: nat, p: nat, last: nat)
    requires n < |g| && p < |g[n].outputs| && !IsAlias(g[n]) && !g[n].kind.ConstantNode? && !g[n].kind.ConcatNode?
    requires IdsBelow(st) && ConcatsLater(g, n)
    ensures Filed(g, FreshOutput(g, st, TensorName(n, p), last), n, TensorName(n, p))
  {
    hide Content, FirstMerge;
    NotMerged(g, n, TensorName(n, p));
    OwnContent(g, TensorName(n, p));
  }

  lemma {:induction false} FreshAllKept(g: Graph, st: State, n: nat, ports: nat, last: nat)
    requires n < |g| && ports <= |g[n].outputs| && !IsAlias(g[n]) && !g[n].kind.ConstantNode? && !g[n].kind.ConcatNode?
    requires Kept(g, st, n, 0)
    ensures Kept(g, FreshOutputs(g, st, n, ports, last), n, ports)
  {
    hide Kept;
    if ports > 0 {
      FreshAllKept(g, st, n, ports - 1, last);
      FreshKept(g, FreshOutputs(g, st, n, ports - 1, last), n, ports - 1, last);
    }
  }

  // ----- aliases, sinks and constants

  lemma {:induction false} AliasKept(g: Graph, st: State, n: nat)
    requires n < |g| && IsAlias(g[n]) && |g[n].inputs| > 0 && g[n].inputs[0] in st.tensorNames && Kept(g, st, n, 0)
    ensures Kept(g, AliasOutputs(st, n, |g[n].outputs|, st.tensorNames[g[n].inputs[0]]), n, |g[n].outputs|)
  {
    hide Content, FirstMerge, AliasesFollow, Ordered, Filed, Named;
    var id := st.tensorNames[g[n].inputs[0]];
    var st' := AliasOutputs(st, n, |g[n].outputs|, id);
    NameAlias(g, st, n, id);
    AliasStays(g, st, n, id);
    OthersFiled(g, st, st', n);
    assert forall s :: s in st'.tensorNames && Own(g, s) ==> s in st.tensorNames;
  }

  lemma {:induction false} AliasStays(g: Graph, st: State, n: nat, id: BufferID)
    requires n < |g| && IsAlias(g[n]) && Named(g, st.tensorNames, st.next, n, 0) && Ordered(g, st.tensorNames)
    ensures var st' := AliasOutputs(st, n, |g[n].outputs|, id);
            && NamesStay(st, st') && Ordered(g, st'.tensorNames)
            && forall t :: t in st.tensorNames ==> IdStays(st, st', st.tensorNames[t])
  {
    forall t | t in st.tensorNames ensures t.node != n { assert Done(g, n, 0, t); }
  }

  lemma {:induction false} EndKept(g: Graph, st: State, n: nat, p: nat, id: BufferID, end: nat)
    requires n <= |g| && Kept(g, st, n, p) && id in st.mutableBuffers
    ensures Kept(g, st.(mutableBuffers := st.mutableBuffers[id := st.mutableBuffers[id].(end := end)]), n, p)
  {
    hide Content, FirstMerge, AliasesFollow, Ordered, Named, Filed;
    OthersFiled(g, st, st.(mutableBuffers := st.mutableBuffers[id := st.mutableBuffers[id].(end := end)]), n);
  }

  lemma {:induction false} ConstantKept(g: Graph, st: State, n: nat)
    requires n < |g| && g[n].kind.ConstantNode? && |g[n].outputs| == 1 && Kept(g, st, n, 0)
    ensures Kept(g, ConstantStep(g, st, n), n, 1)
  {
    hide Ordered, AliasesFollow, Content, FirstMerge, Filed, Named;
    NameFresh(g, st.tensorNames, st.next, n, 0);
    ConstantStays(g, st, n);
    OthersFiled(g, st, ConstantStep(g, st, n), n);
    ConstantFiled(g, st, n);
  }

  lemma {:induction false} ConstantStays(g: Graph, st: State, n: nat)
    requires n < |g| && g[n].kind.ConstantNode? && IdsBelow(st) && Named(g, st.tensorNames, st.next, n, 0)
    ensures var st' := ConstantStep(g, st, n);
            && NamesStay(st, st') && IdsBelow(st')
            && forall t :: t in st.tensorNames ==> IdStays(st, st', st.tensorNames[t])
  {
    assert !Done(g, n, 0, TensorName(n, 0));
  }

  lemma {:induction false} ConstantFiled(g: Graph, st: State, n: nat)
    requires n < |g| && g[n].kind.ConstantNode? && |g[n].outputs| == 1 && IdsBelow(st) && ConcatsLater(g, n)
    ensures Filed(g, ConstantStep(g, st, n), n, TensorName(n, 0))
  {
    hide Content, FirstMerge;
    NotMerged(g, n, TensorName(n, 0));
  }

  /** A node that is no concat merges nothing. */
  lemma {:induction false} NextKept(g: Graph, st: State, n: nat)
    requires n < |g| && !g[n].kind.ConcatNode? && Kept(g, st, n, |g[n].outputs|)
    ensures Kept(g, st, n + 1, 0)
  {
    hide Ordered, AliasesFollow, Content;
    forall t ensures Done(g, n, |g[n].outputs|, t) <==> Done(g, n + 1, 0, t) {}
    forall s | s in st.tensorNames && Own(g, s) ensures Filed(g, st, n + 1, s) {
      assert !MergedBy(g, n, s);
    }
  }

  // ----- ids stand for sources

  lemma {:induction false} KnownIff(g: Graph, st: State, n: nat, t: TensorName)
    requires n <= |g| && Kept(g, st, n, 0)
    ensures t in st.tensorNames <==> Known(g, n, t)
  {
    hide AliasesFollow, Ordered, AllFiled, ConcatsLater;
    assert Done(g, n, 0, t) <==> Known(g, n, t);
  }

  lemma {:induction false} IdOfSource(g: Graph, st: State, n: nat, t: TensorName)
    requires n <= |g| && Kept(g, st, n, 0) && t in st.tensorNames
    ensures var s := Source(g, t);
            s in st.tensorNames && Own(g, s) && st.tensorNames[s] == st.tensorNames[t] && Filed(g, st, n, s)
  {
    hide AliasesFollow, Ordered, ConcatsLater, Filed, Known, Kept;
    assert AliasesFollow(g, st.tensorNames) && AllFiled(g, st, n) by { KeptParts(g, st, n); }
    forall s | s in st.tensorNames ensures Exists(g, s) { KnownIff(g, st, n, s); assert Known(g, n, s); KnownExists(g, n, s); }
    SourceOwns(g, st, t);
  }

  lemma {:induction false} KnownExists(g: Graph, n: nat, s: TensorName)
    requires Known(g, n, s)
    ensures Exists(g, s)
  {}

  lemma {:induction false} KeptParts(g: Graph, st: State, n: nat)
    requires n <= |g| && Kept(g, st, n, 0)
    ensures AliasesFollow(g, st.tensorNames) && AllFiled(g, st, n) && Ordered(g, st.tensorNames) && ConcatsLater(g, n)
    ensures Named(g, st.tensorNames, st.next, n, 0) && Upward(st.links) && IdsBelow(st)
  {
    hide AliasesFollow, Ordered, ConcatsLater, AllFiled, Named, Upward, IdsBelow;
  }

  /** Different tensors of their own have different ids. */
  lemma {:induction false} IdsDiffer(g: Graph, names: Names, s: TensorName, t: TensorName)
    requires Ordered(g, names) && s in names && t in names && Own(g, s) && Own(g, t)
    ensures names[s] == names[t] <==> s == t
  {
    assert s == t || Before(s, t) || Before(t, s);
  }

  lemma {:induction false} SameContent(g: Graph, t: TensorName)
    ensures Content(g, Source(g, t)) == Content(g, t)
  {
    SourceTwice(g, t);
  }

  /** What is filed under the id of any name. */
  lemma {:induction false} IdFiled(g: Graph, st: State, n: nat, t: TensorName)
    requires n <= |g| && Kept(g, st, n, 0) && t in st.tensorNames
    ensures var id, s := st.tensorNames[t], Source(g, t);
            && (id in st.links <==> !Unmerged(g, n, t))
            && (id in st.immutableBuffers <==> IsConstant(g, s))
            && (id in st.mutableBuffers <==> !IsConstant(g, s) && Unmerged(g, n, t))
            && (id in st.tensorSizes <==> !IsConstant(g, s))
            && (id in st.tensorSizes ==> st.tensorSizes[id] == Content(g, t))
  {
    hide Kept, Content;
    IdOfSource(g, st, n, t);
    SameContent(g, t);
  }

  // ----- a concat

  lemma {:induction false} ConcatIdsIff(g: Graph, st: State, n: nat, k: nat)
    requires n < |g| && k <= |g[n].inputs| && Kept(g, st, n, 0)
    ensures var r, e := ConcatIds(g, st, n, k), ConcatInputRefusal(g, n, k);
            if r.Ok? then e.None? else e == Some(r.error)
  {
    hide Kept, Known, Unmerged;
    if k > 0 {
      ConcatIdsIff(g, st, n, k - 1);
      KnownIff(g, st, n, g[n].inputs[k - 1]);
      if g[n].inputs[k - 1] in st.tensorNames { IdFiled(g, st, n, g[n].inputs[k - 1]); }
    }
  }

  /** The running sum over the ids is the sum of the inputs' contents. */
  lemma {:induction false} PrefixContents(g: Graph, st: State, n: nat, ids: seq<BufferID>, k: nat)
    requires n < |g| && Kept(g, st, n, 0) && k <= |ids| == |g[n].inputs|
    requires forall j :: 0 <= j < |ids| ==>
      g[n].inputs[j] in st.tensorNames && ids[j] == st.tensorNames[g[n].inputs[j]] && ids[j] in st.tensorSizes
    ensures PrefixSize(st.tensorSizes, ids, k) == Contents(g, n, k)
  {
    hide Kept, Content;
    if k > 0 {
      PrefixContents(g, st, n, ids, k - 1);
      KnownIff(g, st, n, g[n].inputs[k - 1]);
      IdFiled(g, st, n, g[n].inputs[k - 1]);
    }
  }

  lemma {:induction false} ConcatStepIff(g: Graph, st: State, n: nat)
    requires n < |g| && |g[n].outputs| > 0 && Kept(g, st, n, 0)
    ensures var r, e := ConcatStep(g, st, n), ConcatRefusal(g, n);
            if r.Ok? then e.None? else e == Some(r.error)
  {
    hide Kept, Known, Unmerged, ConcatIds, PrefixSize, Merged, MinStart, LinkChildren, TensorBytes, Contents, ConcatAccepted,
      ConcatInputRefusal, IsConstant;
    ConcatIdsIff(g, st, n, |g[n].inputs|);
    var merged := ConcatIds(g, st, n, |g[n].inputs|);
    if merged.Ok? {
      var ids := merged.value;
      forall j | 0 <= j < |ids|
        ensures ids[j] in st.mutableBuffers && ids[j] in st.tensorSizes <==> !IsConstant(g, Source(g, g[n].inputs[j]))
        ensures ids[j] in st.mutableBuffers <==> ids[j] in st.tensorSizes
      {
        IdFiled(g, st, n, g[n].inputs[j]);
      }
      if forall j :: 0 <= j < |ids| ==> ids[j] in st.tensorSizes { PrefixContents(g, st, n, ids, |ids|); }
    }
  }

  lemma {:induction false} LinksAfter(links: Links, sizes: Sizes, ids: seq<BufferID>, parent: BufferID, k: nat)
    requires k <= |ids|
    ensures var links' := LinkChildren(links, sizes, ids, parent, k);
            && (forall c :: c in links' <==> c in links || c in ids[..k])
            && (forall c {:trigger links'[c]} :: c in links' ==>
                  if c in ids[..k] then links'[c].parent == parent else links'[c] == links[c])
  {
    hide PrefixSize;
    if k > 0 {
      LinksAfter(links, sizes, ids, parent, k - 1);
      assert ids[..k] == ids[..k - 1] + [ids[k - 1]];
    }
  }

  /** The merged ids are those of the tensors this concat merges. */
  lemma {:induction false} MergedIff(g: Graph, st: State, n: nat, s: TensorName)
    requires n < |g| && g[n].kind.ConcatNode? && Kept(g, st, n, 0) && ConcatIds(g, st, n, |g[n].inputs|).Ok?
    requires s in st.tensorNames && Own(g, s)
    ensures st.tensorNames[s] in ConcatIds(g, st, n, |g[n].inputs|).value <==> MergedBy(g, n, s)
  {
    hide Kept, ConcatIds, Own;
    var ids := ConcatIds(g, st, n, |g[n].inputs|).value;
    KeptParts(g, st, n);
    forall k | 0 <= k < |ids| ensures ids[k] == st.tensorNames[s] <==> Source(g, g[n].inputs[k]) == s {
      IdOfSource(g, st, n, g[n].inputs[k]);
      IdsDiffer(g, st.tensorNames, s, Source(g, g[n].inputs[k]));
    }
  }

  /** The state after a concat, as far as it is filed. */
  ghost predicate Concatenated(g: Graph, st: State, st': State, n: nat, ids: seq<BufferID>)
    requires n < |g| && |g[n].outputs| > 0
  {
    && st'.tensorNames == st.tensorNames[TensorName(n, 0) := st.next] && st'.next == st.next + 1
    && st'.immutableBuffers == st.immutableBuffers
    && (forall c :: c in st'.links <==> c in st.links || c in ids)
    && (forall c {:trigger st'.links[c]} :: c in st'.links ==>
          if c in ids then st'.links[c].parent == st.next else c in st.links && st'.links[c] == st.links[c])
    && st'.tensorSizes == st.tensorSizes[st.next := Contents(g, n, |g[n].inputs|)]
    && (forall id :: id in st'.mutableBuffers <==> id == st.next || (id in st.mutableBuffers && id !in ids))
    && (forall id :: id in st'.mutableBuffers ==>
          st'.mutableBuffers[id].size == if id == st.next then TensorBytes(g, TensorName(n, 0)) else st.mutableBuffers[id].size)
  }

  lemma {:induction false} ConcatIs(g: Graph, st: State, n: nat) returns (ids: seq<BufferID>)
    requires n < |g| && |g[n].outputs| > 0 && Kept(g, st, n, 0) && ConcatStep(g, st, n).Ok?
    ensures ConcatIds(g, st, n, |g[n].inputs|) == Ok(ids)
    ensures Concatenated(g, st, ConcatStep(g, st, n).value, n, ids)
    ensures forall j :: 0 <= j < |ids| ==> ids[j] < st.next
  {
    hide Kept, ConcatIds, ConcatStep, PrefixSize, LinkChildren, Merged, MinStart, TensorBytes, Contents, Named, AliasesFollow,
      Ordered, AllFiled, ConcatsLater;
    ConcatStepIs(g, st, n);
    ids := ConcatIds(g, st, n, |g[n].inputs|).value;
    KeptParts(g, st, n);
    forall j | 0 <= j < |ids| ensures ids[j] < st.next {
      assert ids[j] in st.tensorSizes;
    }
    PrefixContents(g, st, n, ids, |ids|);
    ConcatParts(g, st, n, ids);
  }

  /** The parts of the state that a concat makes. */
  lemma {:induction false} ConcatParts(g: Graph, st: State, n: nat, ids: seq<BufferID>)
    requires n < |g| && |g[n].outputs| > 0 && |ids| > 0 && forall j :: 0 <= j < |ids| ==> ids[j] in st.mutableBuffers
    requires forall j :: 0 <= j < |ids| ==> ids[j] < st.next
    requires PrefixSize(st.tensorSizes, ids, |ids|) == Contents(g, n, |g[n].inputs|)
    ensures Concatenated(g, st, State(
              Merged(st.mutableBuffers, ids, st.next,
                     Desc(MinStart(st.mutableBuffers, ids, |ids|), n, TensorBytes(g, TensorName(n, 0)))),
              st.tensorSizes[st.next := PrefixSize(st.tensorSizes, ids, |ids|)], st.immutableBuffers,
              st.immutableWorkbuffers, st.tensorNames[TensorName(n, 0) := st.next],
              LinkChildren(st.links, st.tensorSizes, ids, st.next, |ids|), st.next + 1), n, ids)
  {
    hide PrefixSize, LinkChildren, Merged, MinStart, TensorBytes, Contents;
    LinksAfter(st.links, st.tensorSizes, ids, st.next, |ids|);
    assert ids[..|ids|] == ids;
    MergedLookup(st.mutableBuffers, ids, st.next,
                 Desc(MinStart(st.mutableBuffers, ids, |ids|), n, TensorBytes(g, TensorName(n, 0))));
  }

  /** What a concat does to an id in use. */
  lemma {:induction false} OldId(g: Graph, st: State, st': State, n: nat, ids: seq<BufferID>, id: BufferID)
    requires n < |g| && |g[n].outputs| > 0 && Concatenated(g, st, st', n, ids) && id < st.next
    ensures id in st'.immutableBuffers <==> id in st.immutableBuffers
    ensures id in st'.tensorSizes <==> id in st.tensorSizes
    ensures id in st.tensorSizes ==> st'.tensorSizes[id] == st.tensorSizes[id]
    ensures id in st'.links <==> id in st.links || id in ids
    ensures id in ids ==> id in st'.links && st'.links[id].parent == st.next
    ensures id in st.links && id !in ids ==> st'.links[id] == st.links[id]
    ensures id in st'.mutableBuffers <==> id in st.mutableBuffers && id !in ids
    ensures id in st'.mutableBuffers ==> st'.mutableBuffers[id].size == st.mutableBuffers[id].size
  {
    hide Contents, TensorBytes;
  }

  lemma {:induction false} OldNames(g: Graph, st: State, st': State, n: nat, ids: seq<BufferID>)
    requires n < |g| && |g[n].outputs| > 0 && Concatenated(g, st, st', n, ids) && Named(g, st.tensorNames, st.next, n, 0)
    ensures NamesStay(st, st') && TensorName(n, 0) in st'.tensorNames && st'.tensorNames[TensorName(n, 0)] == st.next
  {
    hide Contents, TensorBytes;
    assert !Done(g, n, 0, TensorName(n, 0));
  }

  lemma {:induction false} ConcatFiled(g: Graph, st: State, st': State, n: nat, ids: seq<BufferID>, s: TensorName)
    requires n < |g| && g[n].kind.ConcatNode? && |g[n].outputs| == 1 && Kept(g, st, n, 0) && Concatenated(g, st, st', n, ids)
    requires ConcatIds(g, st, n, |g[n].inputs|) == Ok(ids)
    requires s in st.tensorNames && Own(g, s) && Filed(g, st, n, s) && s.node < n && st.tensorNames[s] < st.next
    requires ConcatAccepted(g, n) && Named(g, st.tensorNames, st.next, n, 0)
    ensures s in st'.tensorNames && Filed(g, st', n + 1, s)
  {
    hide Kept, ConcatIds, Content, Contents, TensorBytes, Own, Concatenated;
    MergedIff(g, st, n, s);
    OldId(g, st, st', n, ids, st.tensorNames[s]);
    OldNames(g, st, st', n, ids);
    if MergedBy(g, n, s) {
      var k :| 0 <= k < |g[n].inputs| && Source(g, g[n].inputs[k]) == s;
      assert Unmerged(g, n, g[n].inputs[k]) && !IsConstant(g, s);
    }
  }

  lemma {:induction false} ParentFiled(g: Graph, st: State, st': State, n: nat, ids: seq<BufferID>)
    requires n < |g| && g[n].kind.ConcatNode? && |g[n].outputs| == 1 && IdsBelow(st) && Concatenated(g, st, st', n, ids)
    requires forall j :: 0 <= j < |ids| ==> ids[j] < st.next
    requires ConcatsLater(g, n + 1)
    ensures Filed(g, st', n + 1, TensorName(n, 0))
  {
    hide Content, Contents, FirstMerge;
    OwnContent(g, TensorName(n, 0));
    ParentUnmerged(g, n);
  }

  lemma {:induction false} ParentUnmerged(g: Graph, n: nat)
    requires n < |g| && ConcatsLater(g, n + 1)
    ensures FirstMerge(g, TensorName(n, 0), n + 1) == n + 1
  {}

  lemma {:induction false} ConcatKept(g: Graph, st: State, n: nat)
    requires n < |g| && g[n].kind.ConcatNode? && |g[n].outputs| == 1 && Kept(g, st, n, 0) && ConcatStep(g, st, n).Ok?
    ensures Kept(g, ConcatStep(g, st, n).value, n + 1, 0)
  {
    hide ConcatStep, ConcatIds, Content, Contents, Filed, AliasesFollow, Ordered, ConcatAccepted, ConcatRefusal, Named, Upward,
      Concatenated;
    ConcatStepIff(g, st, n);
    var st' := ConcatStep(g, st, n).value;
    var ids := ConcatIs(g, st, n);
    ConcatNames(g, st, st', n, ids);
    ConcatsLaterNext(g, n);
    ConcatBelow(g, st, st', n, ids);
    ParentFiled(g, st, st', n, ids);
    forall s | s in st'.tensorNames && Own(g, s) ensures Filed(g, st', n + 1, s) {
      if s != TensorName(n, 0) {
        NamedBefore(g, st, st', n, ids, s);
        ConcatFiled(g, st, st', n, ids, s);
      }
    }
  }

  lemma {:induction false} NamedBefore(g: Graph, st: State, st': State, n: nat, ids: seq<BufferID>, s: TensorName)
    requires n < |g| && |g[n].outputs| == 1 && Concatenated(g, st, st', n, ids) && s in st'.tensorNames
    requires Named(g, st.tensorNames, st.next, n, 0) && s != TensorName(n, 0)
    ensures s in st.tensorNames && s.node < n && st.tensorNames[s] < st.next
  {
    assert Done(g, n, 0, s);
  }

  lemma {:induction false} ConcatsLaterNext(g: Graph, n: nat)
    requires n < |g| && ConcatsLater(g, n) && (g[n].kind.ConcatNode? ==> |g[n].outputs| > 0 && ConcatAccepted(g, n))
    ensures ConcatsLater(g, n + 1)
  {
    hide Contents, TensorBytes;
  }

  lemma {:induction false} ConcatBelow(g: Graph, st: State, st': State, n: nat, ids: seq<BufferID>)
    requires n < |g| && |g[n].outputs| == 1 && Concatenated(g, st, st', n, ids) && IdsBelow(st) && Upward(st.links)
    requires forall j :: 0 <= j < |ids| ==> ids[j] < st.next
    ensures IdsBelow(st') && Upward(st'.links)
  {
    hide Contents, TensorBytes;
  }

  lemma {:induction false} ConcatNames(g: Graph, st: State, st': State, n: nat, ids: seq<BufferID>)
    requires n < |g| && g[n].kind.ConcatNode? && |g[n].outputs| == 1 && Concatenated(g, st, st', n, ids)
    requires Named(g, st.tensorNames, st.next, n, 0) && AliasesFollow(g, st.tensorNames) && Ordered(g, st.tensorNames)
    ensures Named(g, st'.tensorNames, st'.next, n + 1, 0) && AliasesFollow(g, st'.tensorNames) && Ordered(g, st'.tensorNames)
  {
    hide Contents, TensorBytes, AliasesFollow, Ordered;
    NameFresh(g, st.tensorNames, st.next, n, 0);
    forall t ensures Done(g, n, 1, t) <==> Done(g, n + 1, 0, t) {}
  }

  // ----- the first pass

  lemma {:induction false} SinkStepIff(g: Graph, stable: Stability, st: State, n: nat)
    requires WellFormed(g) && n < |g| && (g[n].kind.ResultNode? || g[n].kind.AssignNode?) && Kept(g, st, n, 0)
    ensures |g[n].inputs| > 0
    ensures var r, e := ResultStep(g, stable, st, n), NodeRefusal(g, stable, n);
            if r.Ok? then e.None? && Kept(g, r.value, n + 1, 0) else e == Some(r.error)
  {
    hide Kept, Known, Unmerged, AliasOutputs;
    assert WellFormedNode(g[n]);
    var t := g[n].inputs[0];
    KnownIff(g, st, n, t);
    if t in st.tensorNames {
      IdFiled(g, st, n, t);
      AliasKept(g, st, n);
      var named := AliasOutputs(st, n, |g[n].outputs|, st.tensorNames[t]);
      NextKept(g, named, n);
      AliasBuffers(st, n, |g[n].outputs|, st.tensorNames[t]);
      if st.tensorNames[t] in st.mutableBuffers { EndKept(g, named, n + 1, 0, st.tensorNames[t], |g|); }
    } else if g[n].outputs == [] {
      assert Kept(g, st, n, |g[n].outputs|);
      NextKept(g, st, n);
    }
  }

  lemma {:induction false} AliasBuffers(st: State, n: nat, ports: nat, id: BufferID)
    ensures AliasOutputs(st, n, ports, id).mutableBuffers == st.mutableBuffers
  {}

  /** A step succeeds exactly on an accepted node, and else fails for the stated reason. */
  lemma {:induction false} StepIff(g: Graph, stable: Stability, st: State, n: nat)
    requires WellFormed(g) && n < |g| && Kept(g, st, n, 0)
    ensures var r, e := Step(g, stable, st, n), NodeRefusal(g, stable, n);
            if r.Ok? then e.None? && Kept(g, r.value, n + 1, 0) else e == Some(r.error)
  {
    hide Kept, Known, ConcatStep, ResultStep, ConstantStep, FreshOutputs, AliasOutputs, NodeRefusal, ConcatRefusal;
    assert WellFormedNode(g[n]);
    RefusalOf(g, stable, n);
    if |g[n].inputs| > 0 { KnownIff(g, st, n, g[n].inputs[0]); }
    if g[n].kind.ResultNode? || g[n].kind.AssignNode? {
      SinkStepIff(g, stable, st, n);
    } else if g[n].kind.ConcatNode? {
      ConcatStepIff(g, st, n);
      if ConcatStep(g, st, n).Ok? { ConcatKept(g, st, n); }
    } else if g[n].kind.ConstantNode? {
      ConstantKept(g, st, n);
      NextKept(g, ConstantStep(g, st, n), n);
    } else if IsAlias(g[n]) {
      if |g[n].inputs| > 0 && g[n].inputs[0] in st.tensorNames {
        AliasKept(g, st, n);
        NextKept(g, AliasOutputs(st, n, |g[n].outputs|, st.tensorNames[g[n].inputs[0]]), n);
      }
    } else {
      var last := if g[n].kind.ParameterNode? && stable.params then |g| else n;
      FreshAllKept(g, st, n, |g[n].outputs|, last);
      NextKept(g, FreshOutputs(g, st, n, |g[n].outputs|, last), n);
    }
  }

  /** The refusals of the nodes that are neither sinks nor concats. */
  lemma {:induction false} RefusalOf(g: Graph, stable: Stability, n: nat)
    requires WellFormed(g) && n < |g|
    ensures g[n].kind.ParameterNode? ==>
      NodeRefusal(g, stable, n) == if g[n].inputs == [] then None else if g[n].outputs == [] then Some(NoOutputs)
                                   else if Known(g, n, g[n].inputs[0]) then None else Some(UnknownTensor)
    ensures g[n].kind.ConcatNode? ==> |g[n].outputs| > 0 && NodeRefusal(g, stable, n) == ConcatRefusal(g, n)
    ensures g[n].kind.ReshapeNode? ==>
      NodeRefusal(g, stable, n)
      == if g[n].dynamic || (|g[n].inputs| >= 1 && |g[n].outputs| == 1 && Known(g, n, g[n].inputs[0])) then None
         else Some(BadReshape)
    ensures g[n].kind.ConstantNode? || g[n].kind.ReadValueNode? || g[n].kind.ComputeNode? ==>
      NodeRefusal(g, stable, n).None?
  {
    hide Known, ConcatRefusal, ConcatAccepted;
    assert WellFormedNode(g[n]);
  }

  lemma {:induction false} AssignIff(g: Graph, stable: Stability, n: nat)
    requires WellFormed(g) && n <= |g|
    ensures var r, e := Assign(g, stable, n), FirstNode(g, stable, n);
            if r.Ok? then e.None? && Kept(g, r.value, n, 0) else e == Some(r.error)
  {
    hide Kept, Step, NodeRefusal, NodeAccepted;
    if n == 0 {
      EmptyKept(g);
    } else {
      AssignIff(g, stable, n - 1);
      if Assign(g, stable, n - 1).Ok? { StepIff(g, stable, Assign(g, stable, n - 1).value, n - 1); }
    }
  }

  // ----- the lifespan pass

  /** The parent pointers end at the tensor that owns the buffer. */
  lemma {:induction false} RootIsOwner(g: Graph, st: State, s: TensorName)
    requires Kept(g, st, |g|, 0) && s in st.tensorNames && Own(g, s) && !IsConstant(g, s)
    ensures var o := Owner(g, s);
            && o in st.tensorNames && Own(g, o) && !IsConstant(g, o) && st.tensorNames[o] !in st.links
            && Root(st.links, st.tensorNames[s]) == st.tensorNames[o]
    decreases if s.node < |g| then |g| - s.node else 0
  {
    hide Content, Named, AliasesFollow, Ordered, ConcatsLater, IdsBelow;
    var m := FirstMerge(g, s, |g|);
    assert Filed(g, st, |g|, s);
    if m < |g| {
      OwnConcat(g, st, m);
      RootIsOwner(g, st, TensorName(m, 0));
    }
  }

  lemma {:induction false} OwnConcat(g: Graph, st: State, m: nat)
    requires Kept(g, st, |g|, 0) && m < |g| && g[m].kind.ConcatNode? && TensorName(m, 0) in st.tensorNames
    ensures Own(g, TensorName(m, 0)) && !IsConstant(g, TensorName(m, 0))
  {
    hide Kept, Known;
    KnownIff(g, st, |g|, TensorName(m, 0));
    assert Known(g, |g|, TensorName(m, 0));
    KnownExists(g, |g|, TensorName(m, 0));
  }

  /** The lifespan pass changes ends only. */
  ghost predicate EndsOnly(before: State, st: State) {
    && st == before.(mutableBuffers := st.mutableBuffers)
    && (forall id :: id in st.mutableBuffers <==> id in before.mutableBuffers)
    && (forall id :: id in st.mutableBuffers ==> st.mutableBuffers[id].size == before.mutableBuffers[id].size)
  }

  lemma {:induction false} InputIff(g: Graph, before: State, st: State, n: nat, k: nat)
    requires n < |g| && k < |g[n].inputs| && Kept(g, before, |g|, 0) && EndsOnly(before, st) && Upward(st.links)
    ensures var r, e := ExtendInput(g, st, n, k), InputRefusal(g, g[n].inputs[k]);
            if r.Ok? then e.None? && EndsOnly(before, r.value) else e == Some(r.error)
  {
    hide Kept, Owner;
    var t := g[n].inputs[k];
    KnownIff(g, before, |g|, t);
    if t in before.tensorNames {
      IdOfSource(g, before, |g|, t);
      if IsConstant(g, Source(g, t)) {
        ConstantRoot(g, before, t);
      } else {
        BufferOf(g, before, t);
      }
    }
  }

  lemma {:induction false} ConstantRoot(g: Graph, st: State, t: TensorName)
    requires Kept(g, st, |g|, 0) && t in st.tensorNames && IsConstant(g, Source(g, t)) && Upward(st.links)
    ensures Root(st.links, st.tensorNames[t]) in st.immutableBuffers
  {
    hide Kept, Content;
    IdOfSource(g, st, |g|, t);
    ConstantUnlinked(g, st, Source(g, t));
  }

  lemma {:induction false} ConstantUnlinked(g: Graph, st: State, s: TensorName)
    requires Kept(g, st, |g|, 0) && s in st.tensorNames && Own(g, s) && IsConstant(g, s)
    ensures st.tensorNames[s] !in st.links
  {
    hide Content, Named, AliasesFollow, Ordered, ConcatsLater, IdsBelow;
    assert Filed(g, st, |g|, s);
  }

  lemma {:induction false} BufferOf(g: Graph, st: State, t: TensorName)
    requires Kept(g, st, |g|, 0) && t in st.tensorNames && !IsConstant(g, Source(g, t)) && Upward(st.links)
    ensures var o := Owner(g, Source(g, t));
            var r := Root(st.links, st.tensorNames[t]);
            && Exists(g, o) && r !in st.immutableBuffers && r in st.mutableBuffers
            && st.mutableBuffers[r].size == TensorBytes(g, o)
  {
    hide Kept, Content, Owner;
    IdOfSource(g, st, |g|, t);
    RootIsOwner(g, st, Source(g, t));
    KeptParts(g, st, |g|);
    assert Filed(g, st, |g|, Owner(g, Source(g, t)));
  }

  lemma {:induction false} PortsIff(g: Graph, before: State, st: State, n: nat, k: nat)
    requires n < |g| && k <= |g[n].inputs| && Kept(g, before, |g|, 0) && EndsOnly(before, st) && Upward(st.links)
    ensures var r, e := ExtendNode(g, st, n, k), FirstPort(g, n, k);
            if r.Ok? then e.None? && EndsOnly(before, r.value) else e == Some(r.error)
  {
    hide Kept, ExtendInput, InputRefusal, InputAccepted, EndsOnly;
    if k > 0 {
      PortsIff(g, before, st, n, k - 1);
      if ExtendNode(g, st, n, k - 1).Ok? { InputIff(g, before, ExtendNode(g, st, n, k - 1).value, n, k - 1); }
    }
  }

  lemma {:induction false} ExtendIff(g: Graph, before: State, n: nat)
    requires n <= |g| && Kept(g, before, |g|, 0) && Upward(before.links)
    ensures var r, e := Extend(g, before, n), FirstInput(g, n);
            if r.Ok? then e.None? && EndsOnly(before, r.value) else e == Some(r.error)
  {
    hide Kept, ExtendNode, FirstPort, InputAccepted;
    if n > 0 {
      ExtendIff(g, before, n - 1);
      if Extend(g, before, n - 1).Ok? {
        PortsIff(g, before, Extend(g, before, n - 1).value, n - 1, |g[n - 1].inputs|);
      }
    }
  }

  // ----- the theorem

  /** The extractor accepts exactly the graphs that meet the conditions, and refuses any other with the error of the first
      node it refuses, or else of the first input. */
  lemma {:induction false} ExtractsIff(g: Graph, stable: Stability)
    requires WellFormed(g)
    ensures Extract(g, stable).Ok? <==> Accepted(g, stable)
    ensures forall e :: Extract(g, stable) == Err(e) <==> Refusal(g, stable) == Some(e)
  {
    hide Accepted, Kept, Assign, Extend, FirstNode, FirstInput;
    var refusal := Refusal(g, stable);
    AssignIff(g, stable, |g|);
    if Assign(g, stable, |g|).Ok? {
      assert Upward(Assign(g, stable, |g|).value.links);
      ExtendIff(g, Assign(g, stable, |g|).value, |g|);
    }
  }
}
