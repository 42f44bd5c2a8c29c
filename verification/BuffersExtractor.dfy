/** The extractor as the program runs it: loops over the nodes that insert into, erase from and update its tables.
    Each method is proved against the specification of module BufferSpec. */
module BuffersExtractor {
  import opened Options
  import opened Graphs
  import opened BufferSpec

  class OperationBuffersExtractor {
    const nodes: Graph
    const stable: Stability

    var mutableBuffers: map<BufferID, Desc>
    var tensorSizes: map<BufferID, nat>
    var immutableBuffers: map<BufferID, seq<Byte>>
    var immutableWorkbuffers: map<BufferID, nat>
    var tensorNames: map<TensorName, BufferID>
    var links: map<BufferID, Link>
    var nextBufferId: BufferID

    ghost function Abs(): State
      reads this
    {
      State(mutableBuffers, tensorSizes, immutableBuffers, immutableWorkbuffers, tensorNames, links, nextBufferId)
    }

    constructor (orderedNodes: Graph, stability: Stability)
      ensures nodes == orderedNodes && stable == stability && Abs() == Empty
    {
      nodes, stable := orderedNodes, stability;
      mutableBuffers, tensorSizes, immutableBuffers := map[], map[], map[];
      immutableWorkbuffers, tensorNames, links, nextBufferId := map[], map[], map[], 0;
    }

    /** Both passes.  Succeeds with the specified state, or fails with the specified error. */
    method Extract() returns (failure: Option<Error>)
      requires WellFormed(nodes) && Abs() == Empty
      modifies this
      ensures failure.None? ==> BufferSpec.Extract(nodes, stable) == Ok(Abs())
      ensures failure.Some? ==> BufferSpec.Extract(nodes, stable) == Err(failure.value)
    {
      failure := AssignBuffers();
      if failure.None? { failure := ExtendLifespans(); }
    }

    /** The first pass: one step per node. */
    method AssignBuffers() returns (failure: Option<Error>)
      requires WellFormed(nodes) && Abs() == Empty
      modifies this
      ensures failure.None? ==> Assign(nodes, stable, |nodes|) == Ok(Abs())
      ensures failure.Some? ==> Assign(nodes, stable, |nodes|) == Err(failure.value)
    {
      hide Step;
      for n := 0 to |nodes|
        invariant Assign(nodes, stable, n) == Ok(Abs())
      {
        failure := ExtractNode(n);
        if failure.Some? {
          FailsToTheEnd(nodes, stable, n + 1, |nodes|);
          return;
        }
      }
      failure := None;
    }

    /** The second pass: one step per input. */
    method ExtendLifespans() returns (failure: Option<Error>)
      requires Upward(links)
      modifies this`mutableBuffers
      ensures failure.None? ==> Extend(nodes, old(Abs()), |nodes|) == Ok(Abs())
      ensures failure.Some? ==> Extend(nodes, old(Abs()), |nodes|) == Err(failure.value)
    {
      hide ExtendNode;
      for n := 0 to |nodes|
        invariant Extend(nodes, old(Abs()), n) == Ok(Abs())
      {
        failure := ExtendInputs(n);
        if failure.Some? {
          ExtendFails(nodes, old(Abs()), n + 1, |nodes|);
          return;
        }
      }
      failure := None;
    }

    method ExtendInputs(n: nat) returns (failure: Option<Error>)
      requires n < |nodes| && Upward(links)
      modifies this`mutableBuffers
      ensures failure.None? ==> ExtendNode(nodes, old(Abs()), n, |nodes[n].inputs|) == Ok(Abs())
      ensures failure.Some? ==> ExtendNode(nodes, old(Abs()), n, |nodes[n].inputs|) == Err(failure.value)
    {
      hide ExtendInput;
      for k := 0 to |nodes[n].inputs|
        invariant ExtendNode(nodes, old(Abs()), n, k) == Ok(Abs())
      {
        failure := ExtendLifespan(n, k);
        if failure.Some? {
          ExtendNodeFails(nodes, old(Abs()), n, k + 1, |nodes[n].inputs|);
          return;
        }
      }
      failure := None;
    }

    method ExtractNode(n: nat) returns (failure: Option<Error>)
      requires WellFormed(nodes) && n < |nodes|
      modifies this
      ensures failure.None? ==> Step(nodes, stable, old(Abs()), n) == Ok(Abs())
      ensures failure.Some? ==> Step(nodes, stable, old(Abs()), n) == Err(failure.value)
    {
      assert WellFormedNode(nodes[n]);
      match nodes[n].kind {
        case ParameterNode => failure := ExtractParameterTensors(n);
        case ResultNode => failure := ExtractResultTensors(n);
        case AssignNode => failure := ExtractResultTensors(n);
        case ConstantNode(_) =>
          ExtractImmutableTensors(n);
          failure := None;
        case ConcatNode => failure := MergeConcatMutableTensors(n);
        case ReshapeNode => failure := ExtractReshapeTensors(n);
        case ReadValueNode =>
          ExtractMutableTensors(n, n);
          failure := None;
        case ComputeNode =>
          ExtractMutableTensors(n, n);
          failure := None;
      }
    }

    method ExtractMutableTensors(n: nat, last: nat)
      requires n < |nodes|
      modifies this
      ensures Abs() == FreshOutputs(nodes, old(Abs()), n, |nodes[n].outputs|, last)
    {
      hide Basic;
      for p := 0 to |nodes[n].outputs|
        invariant Abs() == FreshOutputs(nodes, old(Abs()), n, p, last)
      {
        var bytes := ByteSize(nodes[n].outputs[p]);
        tensorSizes := tensorSizes[nextBufferId := bytes];
        mutableBuffers := mutableBuffers[nextBufferId := Desc(n, last, bytes)];
        tensorNames := tensorNames[TensorName(n, p) := nextBufferId];
        nextBufferId := nextBufferId + 1;
      }
    }

    /** All outputs of node `n` get the TensorID of its first input. */
    method AliasTensors(n: nat, id: BufferID)
      requires n < |nodes|
      modifies this`tensorNames
      ensures Abs() == AliasOutputs(old(Abs()), n, |nodes[n].outputs|, id)
    {
      for p := 0 to |nodes[n].outputs|
        invariant Abs() == AliasOutputs(old(Abs()), n, p, id)
      {
        tensorNames := tensorNames[TensorName(n, p) := id];
      }
    }

    method ExtractParameterTensors(n: nat) returns (failure: Option<Error>)
      requires n < |nodes|
      modifies this
      ensures failure.None? ==> ParameterStep(nodes, stable, old(Abs()), n) == Ok(Abs())
      ensures failure.Some? ==> ParameterStep(nodes, stable, old(Abs()), n) == Err(failure.value)
    {
      failure := None;
      if |nodes[n].inputs| > 0 {
        if nodes[n].outputs == [] { return Some(NoOutputs); }
        if nodes[n].inputs[0] !in tensorNames { return Some(UnknownTensor); }
        AliasTensors(n, tensorNames[nodes[n].inputs[0]]);
      } else {
        ExtractMutableTensors(n, if stable.params then |nodes| else n);
      }
    }

    method ExtractResultTensors(n: nat) returns (failure: Option<Error>)
      requires n < |nodes| && |nodes[n].inputs| > 0
      modifies this
      ensures failure.None? ==> ResultStep(nodes, stable, old(Abs()), n) == Ok(Abs())
      ensures failure.Some? ==> ResultStep(nodes, stable, old(Abs()), n) == Err(failure.value)
    {
      var input := nodes[n].inputs[0];
      if |nodes[n].outputs| > 0 {
        if input !in tensorNames { return Some(UnknownTensor); }
        AliasTensors(n, tensorNames[input]);
      } else {
        assert input in tensorNames ==> AliasOutputs(Abs(), n, 0, tensorNames[input]) == Abs();
      }
      if stable.results {
        if input !in tensorNames { return Some(UnknownTensor); }
        var id := tensorNames[input];
        if id !in mutableBuffers { return Some(ResultBufferNotFound); }
        mutableBuffers := mutableBuffers[id := mutableBuffers[id].(end := |nodes|)];
      }
      failure := None;
    }

    method ExtractImmutableTensors(n: nat)
      requires n < |nodes| && nodes[n].kind.ConstantNode?
      modifies this
      ensures Abs() == ConstantStep(nodes, old(Abs()), n)
    {
      immutableBuffers := immutableBuffers[nextBufferId := nodes[n].kind.data];
      tensorNames := tensorNames[TensorName(n, 0) := nextBufferId];
      nextBufferId := nextBufferId + 1;
    }

    method ExtractReshapeTensors(n: nat) returns (failure: Option<Error>)
      requires n < |nodes|
      modifies this
      ensures failure.None? ==> ReshapeStep(nodes, old(Abs()), n) == Ok(Abs())
      ensures failure.Some? ==> ReshapeStep(nodes, old(Abs()), n) == Err(failure.value)
    {
      failure := None;
      if nodes[n].dynamic {
        ExtractMutableTensors(n, n);
        return;
      }
      if |nodes[n].inputs| < 1 || |nodes[n].outputs| != 1 || nodes[n].inputs[0] !in tensorNames {
        return Some(BadReshape);
      }
      AliasTensors(n, tensorNames[nodes[n].inputs[0]]);
    }

    /** The ids behind the inputs of a concat: each must be known and a root. */
    method MergedIds(n: nat) returns (failure: Option<Error>, ids: seq<BufferID>)
      requires n < |nodes|
      ensures failure.None? ==> ConcatIds(nodes, Abs(), n, |nodes[n].inputs|) == Ok(ids)
      ensures failure.Some? ==> ConcatIds(nodes, Abs(), n, |nodes[n].inputs|) == Err(failure.value)
    {
      ids := [];
      for k := 0 to |nodes[n].inputs|
        invariant ConcatIds(nodes, Abs(), n, k) == Ok(ids)
      {
        var t := nodes[n].inputs[k];
        if t !in tensorNames || tensorNames[t] in links {
          failure := Some(if t !in tensorNames then UnknownTensor else NotARootTensor);
          ConcatIdsFail(nodes, Abs(), n, k + 1, |nodes[n].inputs|);
          return;
        }
        ids := ids + [tensorNames[t]];
      }
      failure := None;
    }

    /** The earliest start among the merged buffers, if they are all mutable. */
    method MinLifespanStart(ids: seq<BufferID>) returns (start: Option<nat>)
      requires |ids| > 0
      ensures start.None? <==> exists j :: 0 <= j < |ids| && (ids[j] !in mutableBuffers || ids[j] !in tensorSizes)
      ensures start.Some? ==> start.value == MinStart(mutableBuffers, ids, |ids|)
    {
      var k := 0;
      while k < |ids|
        invariant 0 <= k <= |ids|
        invariant forall j :: 0 <= j < k ==> ids[j] in mutableBuffers && ids[j] in tensorSizes
      {
        if ids[k] !in mutableBuffers || ids[k] !in tensorSizes { return None; }
        k := k + 1;
      }
      var least := mutableBuffers[ids[0]].start;
      for j := 1 to |ids|
        invariant least == MinStart(mutableBuffers, ids, j)
      {
        if mutableBuffers[ids[j]].start < least { least := mutableBuffers[ids[j]].start; }
      }
      start := Some(least);
    }

    method MergeConcatMutableTensors(n: nat) returns (failure: Option<Error>)
      requires n < |nodes| && |nodes[n].outputs| > 0
      modifies this
      ensures failure.None? ==> ConcatStep(nodes, old(Abs()), n) == Ok(Abs())
      ensures failure.Some? ==> ConcatStep(nodes, old(Abs()), n) == Err(failure.value)
    {
      hide PrefixSize, LinkChildren, Merged, MinStart, ConcatIds, Basic;
      var ids;
      failure, ids := MergedIds(n);
      if failure.Some? { return; }
      if ids == [] { return Some(EmptyConcat); }
      var start := MinLifespanStart(ids);
      if start.None? { return Some(NotAMutableBuffer); }
      var bytes, parent := ByteSize(nodes[n].outputs[0]), nextBufferId;
      nextBufferId := nextBufferId + 1;
      tensorNames := tensorNames[TensorName(n, 0) := parent];
      ReplaceBuffers(ids, parent, Desc(start.value, n, bytes));
      var total := LinkToParent(ids, parent);
      tensorSizes := tensorSizes[parent := total];
      if bytes != 0 && bytes != total { return Some(ConcatSizeMismatch); }
    }

    /** Inserts the parent's descriptor and erases the children's. */
    method ReplaceBuffers(ids: seq<BufferID>, parent: BufferID, d: Desc)
      modifies this`mutableBuffers
      ensures mutableBuffers == Merged(old(mutableBuffers), ids, parent, d)
    {
      mutableBuffers := mutableBuffers[parent := d];
      for k := 0 to |ids|
        invariant mutableBuffers == old(mutableBuffers)[parent := d] - set j | 0 <= j < k :: ids[j]
      {
        mutableBuffers := mutableBuffers - {ids[k]};
      }
    }

    /** SetParent on every merged tensor, at the running offset. */
    method LinkToParent(ids: seq<BufferID>, parent: BufferID) returns (total: nat)
      requires forall j :: 0 <= j < |ids| ==> ids[j] in tensorSizes
      modifies this`links
      ensures links == LinkChildren(old(links), tensorSizes, ids, parent, |ids|)
      ensures total == PrefixSize(tensorSizes, ids, |ids|)
    {
      total := 0;
      for k := 0 to |ids|
        invariant links == LinkChildren(old(links), tensorSizes, ids, parent, k)
        invariant total == PrefixSize(tensorSizes, ids, k)
      {
        links := links[ids[k] := Link(parent, total)];
        total := total + tensorSizes[ids[k]];
      }
    }

    /** The lifespan pass at the k-th input of node `n`. */
    method ExtendLifespan(n: nat, k: nat) returns (failure: Option<Error>)
      requires n < |nodes| && k < |nodes[n].inputs| && Upward(links)
      modifies this`mutableBuffers
      ensures failure.None? ==> ExtendInput(nodes, old(Abs()), n, k) == Ok(Abs())
      ensures failure.Some? ==> ExtendInput(nodes, old(Abs()), n, k) == Err(failure.value)
    {
      var t := nodes[n].inputs[k];
      if t !in tensorNames || !Exists(nodes, t) { return Some(UnknownTensor); }
      var id := Root(links, tensorNames[t]);
      if id in immutableBuffers { return None; }
      if id !in mutableBuffers { return Some(UnknownTensor); }
      var d := mutableBuffers[id];
      if n > d.end { mutableBuffers := mutableBuffers[id := d.(end := n)]; }
      if d.size != 0 && d.size < TensorBytes(nodes, t) { return Some(BufferTooSmall); }
      failure := None;
    }

    /** Called once per executed node after construction. */
    method ProcessWorkbufferRequest(n: nat, immutableSizes: seq<nat>, mutableSizes: seq<nat>)
      returns (immutableIds: seq<BufferID>, mutableIds: seq<BufferID>)
      modifies this
      ensures Abs() == AddMutableWorkbuffers(AddImmutableWorkbuffers(old(Abs()), immutableSizes), n, mutableSizes)
      ensures immutableIds == seq(|immutableSizes|, i => old(nextBufferId) + i)
      ensures mutableIds == seq(|mutableSizes|, i => old(nextBufferId) + |immutableSizes| + i)
    {
      immutableIds := AddImmutable(immutableSizes);
      mutableIds := AddMutable(n, mutableSizes);
    }

    method AddImmutable(sizes: seq<nat>) returns (ids: seq<BufferID>)
      modifies this`immutableWorkbuffers, this`nextBufferId
      ensures Abs() == AddImmutableWorkbuffers(old(Abs()), sizes)
      ensures ids == seq(|sizes|, i => old(nextBufferId) + i)
    {
      ids := [];
      for k := 0 to |sizes|
        invariant Abs() == AddImmutableWorkbuffers(old(Abs()), sizes[..k])
        invariant ids == seq(k, i => old(nextBufferId) + i)
      {
        AddImmutableNext(old(Abs()), sizes, k);
        immutableWorkbuffers := immutableWorkbuffers[nextBufferId := sizes[k]];
        ids := ids + [nextBufferId];
        nextBufferId := nextBufferId + 1;
      }
      assert sizes[..|sizes|] == sizes;
    }

    method AddMutable(n: nat, sizes: seq<nat>) returns (ids: seq<BufferID>)
      modifies this`mutableBuffers, this`nextBufferId
      ensures Abs() == AddMutableWorkbuffers(old(Abs()), n, sizes)
      ensures ids == seq(|sizes|, i => old(nextBufferId) + i)
    {
      ids := [];
      for k := 0 to |sizes|
        invariant Abs() == AddMutableWorkbuffers(old(Abs()), n, sizes[..k])
        invariant ids == seq(k, i => old(nextBufferId) + i)
      {
        AddMutableNext(old(Abs()), n, sizes, k);
        mutableBuffers := mutableBuffers[nextBufferId := Desc(n, n, sizes[k])];
        ids := ids + [nextBufferId];
        nextBufferId := nextBufferId + 1;
      }
      assert sizes[..|sizes|] == sizes;
    }
  }

  lemma {:induction false} FailsToTheEnd(g: Graph, stable: Stability, m: nat, n: nat)
    requires WellFormed(g) && m <= n <= |g| && Assign(g, stable, m).Err?
    ensures Assign(g, stable, n) == Assign(g, stable, m)
    decreases n
  {
    hide Step;
    if m < n { FailsToTheEnd(g, stable, m, n - 1); }
  }

  lemma {:induction false} ExtendNodeFails(g: Graph, st: State, n: nat, j: nat, k: nat)
    requires n < |g| && j <= k <= |g[n].inputs| && Upward(st.links) && ExtendNode(g, st, n, j).Err?
    ensures ExtendNode(g, st, n, k) == ExtendNode(g, st, n, j)
    decreases k
  {
    if j < k { ExtendNodeFails(g, st, n, j, k - 1); }
  }

  lemma {:induction false} ExtendFails(g: Graph, st: State, m: nat, n: nat)
    requires m <= n <= |g| && Upward(st.links) && Extend(g, st, m).Err?
    ensures Extend(g, st, n) == Extend(g, st, m)
    decreases n
  {
    if m < n { ExtendFails(g, st, m, n - 1); }
  }

  lemma {:induction false} ConcatIdsFail(g: Graph, st: State, n: nat, j: nat, k: nat)
    requires n < |g| && j <= k <= |g[n].inputs| && ConcatIds(g, st, n, j).Err?
    ensures ConcatIds(g, st, n, k) == ConcatIds(g, st, n, j)
    decreases k
  {
    if j < k { ConcatIdsFail(g, st, n, j, k - 1); }
  }

  lemma {:induction false} AddImmutableNext(st: State, sizes: seq<nat>, k: nat)
    requires k < |sizes|
    ensures var s := AddImmutableWorkbuffers(st, sizes[..k]);
            AddImmutableWorkbuffers(st, sizes[..k + 1])
            == s.(immutableWorkbuffers := s.immutableWorkbuffers[s.next := sizes[k]], next := s.next + 1)
  {
    assert sizes[..k + 1][..k] == sizes[..k];
  }

  lemma {:induction false} AddMutableNext(st: State, n: nat, sizes: seq<nat>, k: nat)
    requires k < |sizes|
    ensures var s := AddMutableWorkbuffers(st, n, sizes[..k]);
            AddMutableWorkbuffers(st, n, sizes[..k + 1])
            == s.(mutableBuffers := s.mutableBuffers[s.next := Desc(n, n, sizes[k])], next := s.next + 1)
  {
    assert sizes[..k + 1][..k] == sizes[..k];
  }
}
