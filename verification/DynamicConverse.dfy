/** The other direction: a graph that merges a dynamic node's output with other tensors, shows it to a dynamic node under
    another shape, or reads one that a null operation left unwritten, is accepted and reads wrong values. */
module DynamicConverse {
  import opened Options
  import opened Graphs
  import opened BufferSpec
  import opened BufferInvariant
  import opened BufferRuns
  import opened BufferTheorems
  import opened BufferLayout
  import opened TensorValues
  import opened SharedMemory
  import opened DynamicRegions
  import opened SharedBlock
  import opened DynamicRun
  import opened DynamicTheorems

  // ----- what can be said of the allocations whatever the concats merge

  /** An allocation has the size of one tensor its dynamic node produced. */
  ghost predicate SizedBy(g: Graph, st: State, d: TensorName, id: BufferID, size: nat)
    requires Upward(st.links)
  {
    RegisteredBy(g, st, d, id) && (Type(g, d).elements.Some? ==> size <= TensorBytes(g, d))
  }

  ghost predicate SizesKnown(g: Graph, st: State, c: Ctx)
    requires Upward(st.links)
  {
    forall id :: id in c.allocations ==> exists d :: SizedBy(g, st, d, id, |c.allocations[id]|)
  }

  /** What lives in a buffer of known size is never released. */
  ghost predicate StaysAllocated(g: Graph, st: State, c: Ctx, n: nat)
    requires Upward(st.links)
  {
    forall d :: (RegisteredBy(g, st, d, RootOf(st, d)) && d.node < n && RootOf(st, d) in st.mutableBuffers
                 && st.mutableBuffers[RootOf(st, d)].size != 0) ==>
      RootOf(st, d) in c.allocations
  }

  ghost predicate Allocated(g: Graph, st: State, c: Ctx, n: nat)
    requires Upward(st.links)
  {
    SizesKnown(g, st, c) && StaysAllocated(g, st, c, n)
  }

  /** `c'` has the allocations of `c`, with some outputs of node `n` registered and some buffers without a size released. */
  ghost predicate AllocatesOutputs(plan: Plan, c: Ctx, c': Ctx, n: nat)
    requires Ready(plan) && n < |plan.g|
  {
    && (forall id :: id in c'.allocations ==>
          || (id in c.allocations && |c'.allocations[id]| == |c.allocations[id]|)
          || exists p: nat :: p < OwnPorts(plan.g[n]) && plan.g[n].dynamic
               && SizedBy(plan.g, plan.st, TensorName(n, p), id, |c'.allocations[id]|))
    && (forall id :: id in c.allocations && id in plan.st.mutableBuffers && plan.st.mutableBuffers[id].size != 0 ==>
          id in c'.allocations)
    && (forall p: nat :: (p < OwnPorts(plan.g[n]) && plan.g[n].dynamic && OutputRoot(plan, n, p) in plan.st.mutableBuffers
                          && plan.st.mutableBuffers[OutputRoot(plan, n, p)].size != 0) ==>
          OutputRoot(plan, n, p) in c'.allocations)
  }

  lemma {:induction false} AllocatedNext(plan: Plan, c: Ctx, c': Ctx, n: nat)
    requires Ready(plan) && n < |plan.g| && Allocated(plan.g, plan.st, c, n) && AllocatesOutputs(plan, c, c', n)
    ensures Allocated(plan.g, plan.st, c', n + 1)
  {
    hide RegisteredBy;
    forall id | id in c'.allocations ensures exists d :: SizedBy(plan.g, plan.st, d, id, |c'.allocations[id]|) {
      if id in c.allocations && |c'.allocations[id]| == |c.allocations[id]| {
        var d :| SizedBy(plan.g, plan.st, d, id, |c.allocations[id]|);
        assert SizedBy(plan.g, plan.st, d, id, |c'.allocations[id]|);
      } else {
        var p: nat :| p < OwnPorts(plan.g[n]) && SizedBy(plan.g, plan.st, TensorName(n, p), id, |c'.allocations[id]|);
      }
    }
    forall d | RegisteredBy(plan.g, plan.st, d, RootOf(plan.st, d)) && d.node < n + 1
               && RootOf(plan.st, d) in plan.st.mutableBuffers && plan.st.mutableBuffers[RootOf(plan.st, d)].size != 0
      ensures RootOf(plan.st, d) in c'.allocations
    {
      if d.node == n { PortOf(plan, d); }
    }
  }

  lemma {:induction false} PortOf(plan: Plan, d: TensorName)
    requires Ready(plan) && RegisteredBy(plan.g, plan.st, d, RootOf(plan.st, d))
    ensures plan.g[d.node].dynamic && d.port < OwnPorts(plan.g[d.node])
    ensures OutputRoot(plan, d.node, d.port) == RootOf(plan.st, d)
  {
    assert d == TensorName(d.node, d.port);
  }

  // ----- the sizes of what a dynamic node registers

  lemma {:induction false} RegisteredSizes(plan: Plan, env: Env, c: Ctx, n: nat, inputs: seq<TensorValue>,
                                           first: seq<Byte>, v: Variant, ports: nat)
    requires Ready(plan) && n < |plan.g| && ports <= |v.sizes| == |v.shapes|
    ensures var c' := RegisterOutputs(plan, env, c, n, inputs, first, v, ports);
            && (forall id :: id in c.allocations ==> id in c'.allocations)
            && (forall p: nat :: p < ports ==> OutputRoot(plan, n, p) in c'.allocations)
            && (forall id :: id in c'.allocations ==>
                  || (id in c.allocations && c'.allocations[id] == c.allocations[id])
                  || exists p: nat :: p < ports && id == OutputRoot(plan, n, p)
                       && |c'.allocations[id]| == |Malloc(env, n, p, v.sizes[p])|)
  {
    hide OutputRoot, Malloc, CachedOutput;
    if ports > 0 {
      RegisteredSizes(plan, env, c, n, inputs, first, v, ports - 1);
      CachedSize(plan.g, env, n, inputs, first, v, ports - 1);
      var mid := RegisterOutputs(plan, env, c, n, inputs, first, v, ports - 1);
      var c' := RegisterOutputs(plan, env, c, n, inputs, first, v, ports);
      forall id | id in c'.allocations && !(id in c.allocations && c'.allocations[id] == c.allocations[id])
        ensures exists p: nat :: p < ports && id == OutputRoot(plan, n, p)
                  && |c'.allocations[id]| == |Malloc(env, n, p, v.sizes[p])|
      {
        if id != OutputRoot(plan, n, ports - 1) { assert id in mid.allocations && c'.allocations[id] == mid.allocations[id]; }
      }
    }
  }

  lemma {:induction false} CachedSize(g: Graph, env: Env, n: nat, inputs: seq<TensorValue>, first: seq<Byte>, v: Variant,
                                      p: nat)
    requires n < |g| && p < |v.sizes|
    ensures |CachedOutput(g, env, n, inputs, first, v, p)| == |Malloc(env, n, p, v.sizes[p])|
  {
    hide Malloc, Transfer;
  }

  /** A statically typed output is allocated at its tensor's bytes. */
  lemma {:induction false} OutputBytes(g: Graph, env: Env, n: nat, p: nat)
    requires GoodGraph(g) && ValuesFit(g, env) && n < |g| && p < |g[n].outputs| && !IsAlias(g[n])
    ensures var o := TensorName(n, p);
            var v := Reference(g, env, o);
            Type(g, o).elements.Some? ==>
              && AllocBytes(g, o, v.shape) <= TensorBytes(g, o) && 1 <= TensorBytes(g, o) && |v.data| <= TensorBytes(g, o)
  {
    hide Elements, Reference, WellFormed, DynamicFlags, ReferenceOutputs;
    ReferenceIsOutput(g, env, n, p);
    assert Exists(g, TensorName(n, p));
    assert Type(g, TensorName(n, p)).elementSize > 0;
  }

  lemma {:induction false} RegisteredOutput(plan: Plan, env: Env, block: nat, n: nat, p: nat)
    requires Sound(plan, env, block) && Ready(plan) && n < |plan.g| && plan.g[n].dynamic && p < OwnPorts(plan.g[n])
    ensures RegisteredBy(plan.g, plan.st, TensorName(n, p), OutputRoot(plan, n, p))
  {
    hide Final, Tiled, Covered, LinkedByConcat, Placement, ValuesFit, WorkAdded, WellFormed, DynamicFlags, BytesKept;
    NameExists(plan.g, plan.st, TensorName(n, p));
  }

  lemma {:induction false} SoundGood(plan: Plan, env: Env, block: nat)
    requires Sound(plan, env, block)
    ensures GoodGraph(plan.g) && ValuesFit(plan.g, env) && Regions(plan.g, plan.st) && WorkAdded(plan)
    ensures Final(plan.g, plan.st) && Ready(plan)
  {
    hide Final, Tiled, Covered, LinkedByConcat, Placement, ValuesFit, GoodGraph;
    RegionsFinal(plan.g, plan.st);
  }

  lemma {:induction false} ReleaseKeeps(plan: Plan, c: Ctx, n: nat)
    requires Ready(plan) && WorkAdded(plan)
    ensures forall id :: id in c.allocations && id in plan.st.mutableBuffers && plan.st.mutableBuffers[id].size != 0 ==>
      id in ReleaseAll(c, ReleaseSet(plan.buffers, n)).allocations
  {}

  lemma {:induction false} CachedAllocates(plan: Plan, env: Env, c: Ctx, n: nat)
    requires Sound(plan, env, |c.block|) && Ready(plan) && Topological(plan.g) && n < |plan.g| && IsCached(plan.g[n])
    requires VariantsFit(plan.g, env) && ReadsRight(plan, env, c, n) && RunDynamic(plan, env, c, n).Some?
    ensures AllocatesOutputs(plan, c, RunDynamic(plan, env, c, n).value, n)
  {
    hide Sound, ReadsRight, Reference, ReferenceVariant, ReadInputs, FirstPointer, RegisterOutputs, ReleaseSet, VariantsFit,
      ValuesFit, GoodGraph, Regions, Final, WorkAdded, OutputRoot, SizedBy, Malloc;
    SoundGood(plan, env, |c.block|);
    var inputs, v, first := References(plan.g, env, n), ReferenceVariant(plan.g, env, n), FirstPointer(plan, c, n);
    assert inputs[..|plan.g[n].inputs|] == inputs;
    ReadsReferences(plan, env, c, n, |plan.g[n].inputs|);
    ReferenceVariantIs(plan.g, env, n);
    VariantCount(plan.g, env, n);
    var mid := RegisterOutputs(plan, env, c, n, inputs, first, v, |plan.g[n].outputs|);
    RegisteredSizes(plan, env, c, n, inputs, first, v, |plan.g[n].outputs|);
    ReleaseKeeps(plan, mid, n);
    forall p: nat | p < OwnPorts(plan.g[n])
      ensures p < |v.sizes|
              && SizedBy(plan.g, plan.st, TensorName(n, p), OutputRoot(plan, n, p), |Malloc(env, n, p, v.sizes[p])|)
    {
      CachedSized(plan, env, |c.block|, n, p);
    }
  }

  lemma {:induction false} ReferenceVariantIs(g: Graph, env: Env, n: nat)
    requires Topological(g) && n < |g|
    ensures ReferenceVariant(g, env, n)
            == CreateVariant(g, env, n, MakeKey(g, env, n, References(g, env, n)), References(g, env, n))
  {}

  lemma {:induction false} CachedSized(plan: Plan, env: Env, block: nat, n: nat, p: nat)
    requires Sound(plan, env, block) && Ready(plan) && Topological(plan.g) && n < |plan.g| && IsCached(plan.g[n])
    requires VariantsFit(plan.g, env) && p < OwnPorts(plan.g[n])
    ensures var v := ReferenceVariant(plan.g, env, n);
            && p < |v.sizes|
            && SizedBy(plan.g, plan.st, TensorName(n, p), OutputRoot(plan, n, p), |Malloc(env, n, p, v.sizes[p])|)
  {
    hide Sound, Reference, MakeKey, Folded, Evaluate, Elements, ValuesFit, GoodGraph, Regions, Final, RegisteredBy,
      VariantsFit, AllocBytes;
    SoundGood(plan, env, block);
    CachedVariant(plan.g, env, n, p);
    RegisteredOutput(plan, env, block, n, p);
    OutputBytes(plan.g, env, n, p);
  }

  lemma {:induction false} BoundaryAllocates(plan: Plan, env: Env, c: Ctx, n: nat)
    requires Sound(plan, env, |c.block|) && Ready(plan) && Topological(plan.g) && n < |plan.g| && plan.g[n].dynamic
    requires plan.g[n].kind.ParameterNode? || plan.g[n].kind.ReadValueNode?
    requires (Reads(plan.g, env, n) ==> ReadsRight(plan, env, c, n)) && RunDynamic(plan, env, c, n).Some?
    ensures AllocatesOutputs(plan, c, RunDynamic(plan, env, c, n).value, n)
  {
    hide Sound, ReadsRight, Reference, ReadInputs, ValuesFit, GoodGraph, Regions, Final, StateValue, PointersKnown,
      AllocatesOutputs, RegisterValue;
    SoundGood(plan, env, |c.block|);
    var inputs := References(plan.g, env, n);
    assert inputs[..|plan.g[n].inputs|] == inputs;
    if Reads(plan.g, env, n) { ReadsReferences(plan, env, c, n, |plan.g[n].inputs|); }
    BoundaryOutput(plan.g, env, n);
    ValueAllocates(plan, env, c, n);
  }

  lemma {:induction false} ValueAllocates(plan: Plan, env: Env, c: Ctx, n: nat)
    requires Sound(plan, env, |c.block|) && Ready(plan) && Topological(plan.g) && n < |plan.g| && plan.g[n].dynamic
    requires plan.g[n].kind.ParameterNode? || plan.g[n].kind.ReadValueNode?
    ensures |ReferenceOutputs(plan.g, env, n)| == 1
    ensures AllocatesOutputs(plan, c, RegisterValue(plan, env, c, n, ReferenceOutputs(plan.g, env, n)[0]), n)
  {
    hide Sound, Reference, ReferenceOutputs, SizedBy, Store, Malloc, OutputRoot;
    ValueSized(plan, env, |c.block|, n);
  }

  lemma {:induction false} ValueSized(plan: Plan, env: Env, block: nat, n: nat)
    requires Sound(plan, env, block) && Ready(plan) && Topological(plan.g) && n < |plan.g| && plan.g[n].dynamic
    requires plan.g[n].kind.ParameterNode? || plan.g[n].kind.ReadValueNode?
    ensures |ReferenceOutputs(plan.g, env, n)| == 1
    ensures var v := ReferenceOutputs(plan.g, env, n)[0];
            && OwnPorts(plan.g[n]) == 1
            && SizedBy(plan.g, plan.st, TensorName(n, 0), OutputRoot(plan, n, 0),
                       |Store(Malloc(env, n, 0, |v.data|), v.data)|)
  {
    hide Sound, Reference, ReferenceOutputs, Elements, ValuesFit, GoodGraph, Regions, Final, RegisteredBy, AllocBytes;
    SoundGood(plan, env, block);
    BoundaryOutput(plan.g, env, n);
    RegisteredOutput(plan, env, block, n, 0);
    ReferenceIsOutput(plan.g, env, n, 0);
    OutputBytes(plan.g, env, n, 0);
  }

  // ----- static nodes

  lemma {:induction false} WritesKeepSizes(plan: Plan, c: Ctx, n: nat, values: seq<TensorValue>, ports: nat)
    requires Ready(plan) && WriteOutputs(plan, c, n, values, ports).Some?
    ensures var c' := WriteOutputs(plan, c, n, values, ports).value;
            && (forall id :: id in c'.allocations <==> id in c.allocations)
            && (forall id :: id in c.allocations ==> |c'.allocations[id]| == |c.allocations[id]|)
  {
    hide RootOf, Address, Write;
    if ports > 0 { WritesKeepSizes(plan, c, n, values, ports - 1); }
  }

  lemma {:induction false} StaticAllocates(plan: Plan, env: Env, c: Ctx, n: nat)
    requires Ready(plan) && n < |plan.g| && !plan.g[n].dynamic && RunStatic(plan, env, c, n).Some?
    ensures AllocatesOutputs(plan, c, RunStatic(plan, env, c, n).value, n)
  {
    hide Gather, WriteOutputs, Evaluate, Scribble;
    var seen := Seen(plan, env, c, n);
    assert seen.allocations == c.allocations;
    if !IsNop(plan.g[n]) && !IsAlias(plan.g[n]) {
      WritesKeepSizes(plan, seen, n, Evaluate(plan.g, env, n, Gather(plan, env, seen, n).value), |plan.g[n].outputs|);
    }
  }

  lemma {:induction false} SinkAllocates(plan: Plan, env: Env, c: Ctx, n: nat)
    requires Ready(plan) && WorkAdded(plan) && n < |plan.g| && plan.g[n].dynamic && RunDynamic(plan, env, c, n).Some?
    requires plan.g[n].kind.ResultNode? || plan.g[n].kind.AssignNode?
    ensures AllocatesOutputs(plan, c, RunDynamic(plan, env, c, n).value, n)
  {
    hide Gather, ReleaseSet, WorkAdded;
    ReleaseKeeps(plan, c, n);
  }

  lemma {:induction false} NodeAllocates(plan: Plan, env: Env, c: Ctx, n: nat)
    requires Sound(plan, env, |c.block|) && Ready(plan) && Topological(plan.g) && n < |plan.g| && VariantsFit(plan.g, env)
    requires (Reads(plan.g, env, n) ==> ReadsRight(plan, env, c, n)) && RunNode(plan, env, c, n).Some?
    requires Allocated(plan.g, plan.st, c, n)
    ensures Allocated(plan.g, plan.st, RunNode(plan, env, c, n).value, n + 1)
  {
    hide Sound, ReadsRight, RunDynamic, RunStatic, VariantsFit, Allocated, AllocatesOutputs, ValuesFit, GoodGraph, Regions,
      Final, WorkAdded;
    SoundGood(plan, env, |c.block|);
    ReshapePorts(plan.g, n);
    if !plan.g[n].dynamic {
      StaticAllocates(plan, env, c, n);
    } else if plan.g[n].kind.ParameterNode? || plan.g[n].kind.ReadValueNode? {
      BoundaryAllocates(plan, env, c, n);
    } else if plan.g[n].kind.ResultNode? || plan.g[n].kind.AssignNode? {
      SinkAllocates(plan, env, c, n);
    } else {
      CachedAllocates(plan, env, c, n);
    }
    AllocatedNext(plan, c, RunNode(plan, env, c, n).value, n);
  }

  lemma {:induction false} BlockKept(plan: Plan, env: Env, block: Memory, n: nat)
    requires Ready(plan) && n <= |plan.g| && Run(plan, env, block, n).Some?
    ensures |Run(plan, env, block, n).value.block| == |block|
  {
    hide RunDynamic, RunStatic;
    if n > 0 {
      BlockKept(plan, env, block, n - 1);
      var c := Run(plan, env, block, n - 1).value;
      if plan.g[n - 1].dynamic { DynamicBlock(plan, env, c, n - 1); } else { StaticBlock(plan, env, c, n - 1); }
    }
  }

  lemma {:induction false} RegistersKeepBlock(plan: Plan, env: Env, c: Ctx, n: nat, inputs: seq<TensorValue>,
                                              first: seq<Byte>, v: Variant, ports: nat)
    requires Ready(plan) && n < |plan.g| && ports <= |v.sizes| == |v.shapes|
    ensures RegisterOutputs(plan, env, c, n, inputs, first, v, ports).block == c.block
  {
    hide OutputRoot, CachedOutput;
    if ports > 0 { RegistersKeepBlock(plan, env, c, n, inputs, first, v, ports - 1); }
  }

  lemma {:induction false} DynamicBlock(plan: Plan, env: Env, c: Ctx, n: nat)
    requires Ready(plan) && n < |plan.g| && RunDynamic(plan, env, c, n).Some?
    ensures RunDynamic(plan, env, c, n).value.block == c.block
  {
    hide Gather, RegisterOutputs, MakeKey, StateValue, FirstPointer, ReleaseSet, OutputRoot, CreateVariant;
    var node, inputs := plan.g[n], Gather(plan, env, c, n).value;
    if !node.kind.ParameterNode? && !node.kind.ResultNode? && !node.kind.AssignNode? && !node.kind.ReadValueNode? {
      var v := CreateVariant(plan.g, env, n, MakeKey(plan.g, env, n, inputs), inputs);
      RegistersKeepBlock(plan, env, c, n, inputs, FirstPointer(plan, c, n), v, |node.outputs|);
    }
  }

  lemma {:induction false} WritesKeepBlock(plan: Plan, c: Ctx, n: nat, values: seq<TensorValue>, ports: nat)
    requires Ready(plan) && WriteOutputs(plan, c, n, values, ports).Some?
    ensures |WriteOutputs(plan, c, n, values, ports).value.block| == |c.block|
  {
    hide RootOf, Address, Write;
    if ports > 0 { WritesKeepBlock(plan, c, n, values, ports - 1); }
  }

  lemma {:induction false} StaticBlock(plan: Plan, env: Env, c: Ctx, n: nat)
    requires Ready(plan) && n < |plan.g| && RunStatic(plan, env, c, n).Some?
    ensures |RunStatic(plan, env, c, n).value.block| == |c.block|
  {
    hide Gather, WriteOutputs, Evaluate, Scribble;
    var seen := Seen(plan, env, c, n);
    if !IsNop(plan.g[n]) && !IsAlias(plan.g[n]) {
      WritesKeepBlock(plan, seen, n, Evaluate(plan.g, env, n, Gather(plan, env, seen, n).value), |plan.g[n].outputs|);
    }
  }

  /** A run that reads right keeps every buffer of known size allocated, at the size of one of its dynamic tensors. */
  lemma {:induction false} RunAllocates(plan: Plan, env: Env, block: Memory, n: nat)
    requires Sound(plan, env, |block|) && Ready(plan) && Topological(plan.g) && n <= |plan.g| && VariantsFit(plan.g, env)
    requires (forall m :: 0 <= m < n ==> Right(plan, env, block, m)) && Run(plan, env, block, n).Some?
    ensures Allocated(plan.g, plan.st, Run(plan, env, block, n).value, n)
  {
    hide Sound, ReadsRight, RunDynamic, RunStatic, VariantsFit, RegisteredBy;
    if n > 0 {
      assert Right(plan, env, block, n - 1);
      RunAllocates(plan, env, block, n - 1);
      BlockKept(plan, env, block, n - 1);
      NodeAllocates(plan, env, Run(plan, env, block, n - 1).value, n - 1);
    }
  }

  // ----- what the graph provides

  /** Concats and renames keep the element type. */
  predicate ElementTypesKept(g: Graph) {
    forall n, k, p :: 0 <= n < |g| && 0 <= k < |g[n].inputs| && 0 <= p < |g[n].outputs|
                      && (g[n].kind.ConcatNode? || (IsAlias(g[n]) && k == 0)) ==>
      Type(g, g[n].inputs[k]).elementSize == g[n].outputs[p].elementSize
  }

  /** A NopOp shows its k-th input's bytes in its output. */
  predicate PassesOn(node: Node, k: nat) {
    node.kind.ConcatNode? || (node.kind.ReshapeNode? && !node.dynamic && k == 0)
  }

  /** Some operation reads the tensor, or a concat or static reshape of it. */
  predicate Observed(g: Graph, env: Env, t: TensorName)
    decreases if t.node < |g| then |g| - t.node else 0
  {
    exists n: nat, k: nat :: t.node < n < |g| && k < |g[n].inputs| && g[n].inputs[k] == t
      && (Reads(g, env, n) || (PassesOn(g[n], k) && Observed(g, env, TensorName(n, 0))))
  }

  /** No concat is computed in vain: the ordered nodes are those the results depend on. */
  predicate ConcatsObserved(g: Graph, env: Env) {
    forall m :: 0 <= m < |g| && g[m].kind.ConcatNode? ==> Observed(g, env, TensorName(m, 0))
  }

  // ----- the region tree above a dynamic tensor

  lemma {:induction false} AliasElement(g: Graph, st: State, t: TensorName)
    requires Regions(g, st) && ElementTypesKept(g) && t in st.tensorNames
    ensures Type(g, t).elementSize == Type(g, Source(g, t)).elementSize
    decreases t.node
  {
    hide Extracted, WellFormed, BytesKept, DynamicFlags;
    RegionsFinal(g, st);
    NameExists(g, st, t);
    if IsAlias(g[t.node]) && |g[t.node].inputs| > 0 {
      KnownInput(g, st, t.node, 0);
      AliasElement(g, st, g[t.node].inputs[0]);
    }
  }

  /** The owner of the root has the element type of everything below it. */
  lemma {:induction false} ElementUp(g: Graph, st: State, s: TensorName) returns (r: TensorName)
    requires Regions(g, st) && ElementTypesKept(g) && Upward(st.links) && s in st.tensorNames && Own(g, s)
    ensures r in st.tensorNames && Own(g, r) && st.tensorNames[r] == RootOf(st, s) && s.node <= r.node
    ensures Type(g, r).elementSize == Type(g, s).elementSize
    ensures st.tensorNames[s] in st.links ==> r.node < |g| && r == TensorName(r.node, 0) && g[r.node].kind.ConcatNode?
    ensures st.tensorNames[s] !in st.links ==> r == s
    decreases Above(st.links, st.tensorNames[s])
  {
    hide Regions;
    var id := st.tensorNames[s];
    if id !in st.links {
      r := s;
    } else {
      ParentClimbs(st.links, id);
      var m, k := StepUp(g, st, s);
      ConcatTensor(g, st, m);
      AliasElement(g, st, g[m].inputs[k]);
      r := ElementUp(g, st, TensorName(m, 0));
    }
  }

  lemma {:induction false} ContainsChain(links: Links, a: BufferID, b: BufferID, x: BufferID)
    requires Upward(links) && Contains(links, a, x) && Contains(links, b, x)
    ensures Contains(links, a, b) || Contains(links, b, a)
    decreases Above(links, x)
  {
    if a != x && b != x {
      ParentClimbs(links, x);
      ContainsChain(links, a, b, links[x].parent);
    }
  }

  lemma {:induction false} ContainsUp(links: Links, a: BufferID, x: BufferID)
    requires Upward(links) && Contains(links, a, x)
    ensures x <= a
    decreases Above(links, x)
  {
    if a != x {
      ParentClimbs(links, x);
      ContainsUp(links, a, links[x].parent);
    }
  }

  lemma {:induction false} SiblingsApart(links: Links, a: BufferID, b: BufferID, x: BufferID)
    requires Upward(links) && a in links && b in links && a != b && links[a].parent == links[b].parent
    requires Contains(links, a, x)
    ensures !Contains(links, b, x)
  {
    if Contains(links, b, x) {
      ContainsChain(links, a, b, x);
      if Contains(links, a, b) {
        ParentClimbs(links, b);
        ContainsUp(links, a, links[b].parent);
      } else {
        ParentClimbs(links, a);
        ContainsUp(links, b, links[a].parent);
      }
    }
  }

  /** Of a concat's first two inputs one lies beside a given tensor that contains no other. */
  lemma {:induction false} PartBeside(g: Graph, st: State, m: nat, e: TensorName) returns (q: BufferID)
    requires Regions(g, st) && Upward(st.links) && m < |g| && g[m].kind.ConcatNode? && |g[m].inputs| > 1
    requires DistinctInputs(g, m) && e in st.tensorNames && Own(g, e) && g[e.node].dynamic
    requires RootOf(st, e) == RootOf(st, TensorName(m, 0))
    ensures q in st.links && q in st.tensorSizes && st.tensorSizes[q] > 0 && Root(st.links, q) == RootOf(st, e)
    ensures !Contains(st.links, q, st.tensorNames[e]) && !Contains(st.links, st.tensorNames[e], q)
  {
    hide Regions;
    RegionsFinal(g, st);
    var a := PartLink(g, st, m, 0);
    var b := PartLink(g, st, m, 1);
    PartsDiffer(g, st, m);
    if Contains(st.links, a, st.tensorNames[e]) {
      SiblingsApart(st.links, a, b, st.tensorNames[e]);
      q := b;
    } else {
      q := a;
    }
    NothingInside(g, st, e, q);
  }

  /** Input `k` of a concat: a region of positive size under the concat's root. */
  lemma {:induction false} PartLink(g: Graph, st: State, m: nat, k: nat) returns (q: BufferID)
    requires Regions(g, st) && Upward(st.links) && m < |g| && g[m].kind.ConcatNode? && k < |g[m].inputs|
    ensures g[m].inputs[k] in st.tensorNames && q == st.tensorNames[g[m].inputs[k]]
    ensures q in st.links && TensorName(m, 0) in st.tensorNames && st.links[q].parent == st.tensorNames[TensorName(m, 0)]
    ensures Root(st.links, q) == RootOf(st, TensorName(m, 0))
    ensures q in st.tensorSizes && st.tensorSizes[q] > 0
  {
    hide Covered, LinkedByConcat, GoodGraph, Named, AliasesFollow, Ordered, ParentsKnown, Placed, Sized,
      OnlyConcatsContain, ConstantsKept, Packed, BuffersSized, Rooted, PrefixSize;
    KnownInput(g, st, m, k);
    ConcatTensor(g, st, m);
    q := st.tensorNames[g[m].inputs[k]];
    var ids := InputIds(g, st, m);
    assert ids[k] == q && ids[k] in st.links;
    PartSized(g, st, m, k);
  }

  lemma {:induction false} PartSized(g: Graph, st: State, m: nat, k: nat)
    requires Regions(g, st) && Upward(st.links) && m < |g| && g[m].kind.ConcatNode? && k < |g[m].inputs|
    requires g[m].inputs[k] in st.tensorNames && st.tensorNames[g[m].inputs[k]] in st.tensorSizes
    ensures st.tensorSizes[st.tensorNames[g[m].inputs[k]]] > 0
  {
    hide Regions, Final;
    RegionsFinal(g, st);
    RegionsGood(g, st);
    var t := g[m].inputs[k];
    AliasBytes(g, st, t);
    SourceFacts(g, st, t);
    ConcatInputTyped(g, m, k);
    TypedBytes(g, t);
    OwnerSized(g, st, Source(g, t));
  }

  lemma {:induction false} TypedBytes(g: Graph, t: TensorName)
    requires GoodGraph(g) && Exists(g, t) && Type(g, t).elements.Some?
    ensures 0 < Type(g, t).elementSize <= TensorBytes(g, t)
  {
    hide WellFormed, Topological, DynamicFlags;
    var ty := Type(g, t);
    assert ty.elementSize > 0;
    assert TensorBytes(g, t) == ByteSize(ty);
    assert ty.elements.value > 0 ==> ty.elementSize <= ty.elementSize * ty.elements.value;
  }

  lemma {:induction false} PartsDiffer(g: Graph, st: State, m: nat)
    requires Regions(g, st) && m < |g| && |g[m].inputs| > 1 && DistinctInputs(g, m)
    ensures g[m].inputs[0] in st.tensorNames && g[m].inputs[1] in st.tensorNames
    ensures st.tensorNames[g[m].inputs[0]] != st.tensorNames[g[m].inputs[1]]
  {
    hide Regions;
    RegionsFinal(g, st);
    KnownInput(g, st, m, 0);
    KnownInput(g, st, m, 1);
    SourceFacts(g, st, g[m].inputs[0]);
    SourceFacts(g, st, g[m].inputs[1]);
    OwnIdsDiffer(g, st, Source(g, g[m].inputs[0]), Source(g, g[m].inputs[1]));
  }

  /** A dynamic node's output contains no other region. */
  lemma {:induction false} NothingInside(g: Graph, st: State, e: TensorName, q: BufferID)
    requires Regions(g, st) && Upward(st.links) && e in st.tensorNames && Own(g, e) && g[e.node].dynamic
    requires !Contains(st.links, q, st.tensorNames[e])
    ensures !Contains(st.links, st.tensorNames[e], q)
  {
    hide WellFormed, BytesKept, Tiled, Covered, LinkedByConcat, Named, AliasesFollow, Ordered, ParentsKnown, Placed, Sized,
      ConstantsKept, Packed, BuffersSized, Classified, Rooted;
    if Contains(st.links, st.tensorNames[e], q) {
      var c := ChildTowards(st.links, st.tensorNames[e], q);
    }
  }

  /** A dynamic tensor that shares its buffer with a concat of several is strictly smaller than the buffer. */
  lemma {:induction false} Undersized(g: Graph, st: State, m: nat, e: TensorName) returns (r: TensorName)
    requires Regions(g, st) && ElementTypesKept(g) && Upward(st.links) && m < |g| && g[m].kind.ConcatNode?
    requires |g[m].inputs| > 1 && DistinctInputs(g, m) && e in st.tensorNames && Own(g, e) && g[e.node].dynamic
    requires RootOf(st, e) == RootOf(st, TensorName(m, 0))
    ensures r in st.tensorNames && Own(g, r) && st.tensorNames[r] == RootOf(st, e) && r.node < |g|
    ensures r == TensorName(r.node, 0) && g[r.node].kind.ConcatNode? && Type(g, e).elements.Some?
    ensures Type(g, r).elementSize <= TensorBytes(g, e) < TensorBytes(g, r)
  {
    hide Regions, Final;
    RegionsFinal(g, st);
    RegionsGood(g, st);
    var q := PartBeside(g, st, m, e);
    var id := st.tensorNames[e];
    var root := RootOf(st, e);
    RootContains(st.links, id);
    RootContains(st.links, q);
    r := ElementUp(g, st, e);
    InputTyped(g, st, e);
    NotConstant(g, st, e);
    RootKnown(g, st, e);
    OwnerSized(g, st, e);
    OwnerSized(g, st, r);
    RegionsApart(st.links, st.tensorSizes, q, id);
    ContainedInside(st.links, st.tensorSizes, root, id);
    ContainedInside(st.links, st.tensorSizes, root, q);
  }

  /** A tensor that some concat contains is statically typed. */
  lemma {:induction false} InputTyped(g: Graph, st: State, e: TensorName)
    requires Regions(g, st) && Upward(st.links) && e in st.tensorNames && Own(g, e) && g[e.node].dynamic
    requires st.tensorNames[e] in st.links
    ensures Exists(g, e) && Type(g, e).elements.Some? && Type(g, e).elementSize <= TensorBytes(g, e)
    ensures 0 < TensorBytes(g, e)
  {
    hide Regions, Final;
    RegionsGood(g, st);
    var m, k := StepUp(g, st, e);
    ConcatInputTyped(g, m, k);
    OriginTyped(g, st, g[m].inputs[k]);
    DynamicIsOrigin(g, st, e);
    TypedBytes(g, e);
  }

  // ----- a merged dynamic tensor is read short

  /** Whoever observes the tensor that owns a whole buffer reads some rename of it. */
  lemma {:induction false} ObservedReader(g: Graph, st: State, env: Env, t: TensorName) returns (n: nat, k: nat)
    requires Regions(g, st) && t in st.tensorNames && st.tensorNames[t] !in st.links && Observed(g, env, t)
    ensures n < |g| && k < |g[n].inputs| && t.node < n && Reads(g, env, n)
    ensures g[n].inputs[k] in st.tensorNames && st.tensorNames[g[n].inputs[k]] == st.tensorNames[t]
    decreases if t.node < |g| then |g| - t.node else 0
  {
    hide Regions, Reads;
    n, k :| t.node < n < |g| && k < |g[n].inputs| && g[n].inputs[k] == t
      && (Reads(g, env, n) || (PassesOn(g[n], k) && Observed(g, env, TensorName(n, 0))));
    KnownInput(g, st, n, k);
    if !Reads(g, env, n) {
      ReshapePasses(g, st, n, k);
      n, k := ObservedReader(g, st, env, TensorName(n, 0));
    }
  }

  lemma {:induction false} ReshapePasses(g: Graph, st: State, n: nat, k: nat)
    requires Regions(g, st) && n < |g| && k < |g[n].inputs| && PassesOn(g[n], k) && g[n].inputs[k] in st.tensorNames
    requires st.tensorNames[g[n].inputs[k]] !in st.links
    ensures var o := TensorName(n, 0); o in st.tensorNames && st.tensorNames[o] == st.tensorNames[g[n].inputs[k]]
  {
    hide Tiled, Covered, LinkedByConcat, BytesKept, WellFormed, Ordered, ParentsKnown, Placed, Sized, OnlyConcatsContain,
      ConstantsKept, Packed, BuffersSized, Classified, Rooted;
    if g[n].kind.ConcatNode? {
      var q := PartLink(g, st, n, k);
      assert false;
    } else {
      NameExists(g, st, TensorName(n, 0));
    }
  }

  /** A pointer to a whole buffer sees no more than what is registered under it. */
  lemma {:induction false} PointerShort(plan: Plan, c: Ctx, n: nat, t: TensorName)
    requires Ready(plan) && n < |plan.g| && IdOf(plan.st, t) !in plan.st.links && RootOf(plan.st, t) in c.allocations
    ensures Pointer(plan, c, n, t).Some? && |Pointer(plan, c, n, t).value| <= |c.allocations[RootOf(plan.st, t)]|
  {}

  lemma {:induction false} ConcatLength(g: Graph, env: Env, r: TensorName, bytes: nat)
    requires GoodGraph(g) && ValuesFit(g, env) && Exists(g, r) && g[r.node].kind.ConcatNode? && r == TensorName(r.node, 0)
    requires Type(g, r).elements.Some? && Type(g, r).elementSize <= bytes < TensorBytes(g, r)
    ensures bytes < |Reference(g, env, r).data|
  {
    hide Reference, Elements, WellFormed, DynamicFlags;
    assert Typed(g, env, r, Reference(g, env, r));
  }

  lemma {:induction false} SeenAllocations(plan: Plan, env: Env, c: Ctx, n: nat)
    requires Ready(plan) && n < |plan.g|
    ensures Seen(plan, env, c, n).allocations == c.allocations
  {
    hide Scribble;
  }

  /** A node that reads a whole buffer to which an undersized tensor is registered does not read the reference value. */
  lemma {:induction false} ReadsShort(plan: Plan, env: Env, block: nat, c: Ctx, n: nat, k: nat, r: TensorName,
                                      bytes: nat)
    requires Sound(plan, env, block) && Ready(plan) && Topological(plan.g) && n < |plan.g| && k < |plan.g[n].inputs|
    requires r in plan.st.tensorNames && Own(plan.g, r) && r == TensorName(r.node, 0) && plan.g[r.node].kind.ConcatNode?
    requires var t := plan.g[n].inputs[k];
             t in plan.st.tensorNames && plan.st.tensorNames[t] == plan.st.tensorNames[r]
    requires plan.st.tensorNames[r] !in plan.st.links
    requires plan.st.tensorNames[r] in c.allocations
    requires |c.allocations[plan.st.tensorNames[r]]| <= bytes
    requires Type(plan.g, r).elementSize <= bytes < TensorBytes(plan.g, r)
    ensures ReadInput(plan, env, Seen(plan, env, c, n), n, k) != Some(Reference(plan.g, env, plan.g[n].inputs[k]))
  {
    hide Sound, GoodGraph, ValuesFit, Regions, Final, Reference, WorkAdded, Pointer, InputShape, Seen;
    SoundGood(plan, env, block);
    var t := plan.g[n].inputs[k];
    OwnerOf(plan.g, plan.st, t, r);
    assert Topological(plan.g) && Final(plan.g, plan.st);
    AliasData(plan.g, plan.st, env, t);
    ConcatTensor(plan.g, plan.st, r.node);
    ConcatLength(plan.g, env, r, bytes);
    SeenAllocations(plan, env, c, n);
    PointerShort(plan, Seen(plan, env, c, n), n, t);
  }

  /** The concat that owns the buffer into which concat `m` merges a dynamic tensor. */
  lemma {:induction false} MergedOwner(plan: Plan, env: Env, block: nat, m: nat, k: nat) returns (r: TensorName)
    requires Sound(plan, env, block) && Ready(plan) && ElementTypesKept(plan.g) && DistinctConcats(plan.g)
    requires m < |plan.g| && plan.g[m].kind.ConcatNode? && |plan.g[m].inputs| > 1 && k < |plan.g[m].inputs|
    requires ProducedDynamically(plan.g, Origin(plan.g, plan.g[m].inputs[k]))
    ensures r in plan.st.tensorNames && Own(plan.g, r) && r == TensorName(r.node, 0) && plan.g[r.node].kind.ConcatNode?
    ensures plan.st.tensorNames[r] !in plan.st.links
    ensures var d := Origin(plan.g, plan.g[m].inputs[k]);
            RegisteredBy(plan.g, plan.st, d, plan.st.tensorNames[r]) && d.node <= r.node
    ensures plan.st.tensorNames[r] == RootOf(plan.st, TensorName(m, 0))
  {
    hide Sound, GoodGraph, ValuesFit, Regions, Final, Reference, WorkAdded, DistinctInputs;
    SoundGood(plan, env, block);
    assert DistinctInputs(plan.g, m);
    var d := Origin(plan.g, plan.g[m].inputs[k]);
    var q := PartLink(plan.g, plan.st, m, k);
    OriginFacts(plan.g, plan.st, env, plan.g[m].inputs[k]);
    r := Undersized(plan.g, plan.st, m, d);
    BelowRoot(plan.g, plan.st, d, r);
  }

  /** What is registered under that buffer is too small for it. */
  lemma {:induction false} MergedAllocation(plan: Plan, env: Env, block: nat, c: Ctx, n: nat, m: nat, d: TensorName,
                                            r: TensorName) returns (bytes: nat)
    requires Sound(plan, env, block) && Ready(plan) && ElementTypesKept(plan.g) && DistinctConcats(plan.g)
    requires m < |plan.g| && plan.g[m].kind.ConcatNode? && |plan.g[m].inputs| > 1
    requires r in plan.st.tensorNames && Own(plan.g, r) && r == TensorName(r.node, 0) && plan.g[r.node].kind.ConcatNode?
    requires plan.st.tensorNames[r] !in plan.st.links && plan.st.tensorNames[r] == RootOf(plan.st, TensorName(m, 0))
    requires RegisteredBy(plan.g, plan.st, d, plan.st.tensorNames[r]) && d.node < n && Allocated(plan.g, plan.st, c, n)
    ensures plan.st.tensorNames[r] in c.allocations && |c.allocations[plan.st.tensorNames[r]]| <= bytes
    ensures Type(plan.g, r).elementSize <= bytes < TensorBytes(plan.g, r)
  {
    hide Sound, GoodGraph, ValuesFit, Regions, Final, Reference, WorkAdded, DistinctInputs;
    SoundGood(plan, env, block);
    assert DistinctInputs(plan.g, m);
    RootBig(plan.g, plan.st, r);
    var root := plan.st.tensorNames[r];
    assert root == RootOf(plan.st, d);
    var e :| SizedBy(plan.g, plan.st, e, root, |c.allocations[root]|);
    bytes := TensorBytes(plan.g, e);
    var r' := Undersized(plan.g, plan.st, m, e);
    if r' != r { OwnIdsDiffer(plan.g, plan.st, r', r); }
  }

  lemma {:induction false} RootBig(g: Graph, st: State, r: TensorName)
    requires Regions(g, st) && Upward(st.links) && r in st.tensorNames && Own(g, r) && r == TensorName(r.node, 0)
    requires g[r.node].kind.ConcatNode? && st.tensorNames[r] !in st.links
    ensures st.tensorNames[r] in st.mutableBuffers && st.mutableBuffers[st.tensorNames[r]].size != 0
  {
    hide Regions, Final;
    RegionsFinal(g, st);
    ConcatTensor(g, st, r.node);
    ConcatNotConstant(g, st, r);
    StaticInBlock(g, st, r);
  }

  lemma {:induction false} ConcatNotConstant(g: Graph, st: State, r: TensorName)
    requires Final(g, st) && r in st.tensorNames && Own(g, r) && g[r.node].kind.ConcatNode?
    ensures st.tensorNames[r] !in st.immutableBuffers
  {
    hide Named, AliasesFollow, Ordered, ParentsKnown, Placed, Sized, OnlyConcatsContain, Packed, BuffersSized,
      Classified, Rooted;
  }

  /** A tensor is produced before the concat that owns its buffer. */
  lemma {:induction false} BelowRoot(g: Graph, st: State, d: TensorName, r: TensorName)
    requires Regions(g, st) && Upward(st.links) && d in st.tensorNames && Own(g, d) && r in st.tensorNames && Own(g, r)
    requires RootOf(st, d) == st.tensorNames[r]
    ensures d.node <= r.node
  {
    hide Tiled, Covered, LinkedByConcat, GoodGraph, Named, AliasesFollow, ParentsKnown, Placed, Sized,
      OnlyConcatsContain, ConstantsKept, Packed, BuffersSized, Classified, Rooted;
    assert Before(r, d) || d.node <= r.node;
  }

  /** If a concat merges a dynamic tensor with others then some node reads wrong. */
  lemma {:induction false} MergedReadFails(plan: Plan, env: Env, block: Memory, m: nat, k: nat) returns (n: nat)
    requires Sound(plan, env, |block|) && Ready(plan) && Topological(plan.g) && VariantsFit(plan.g, env)
    requires ElementTypesKept(plan.g) && ConcatsObserved(plan.g, env) && DistinctConcats(plan.g)
    requires m < |plan.g| && plan.g[m].kind.ConcatNode? && |plan.g[m].inputs| > 1 && k < |plan.g[m].inputs|
    requires ProducedDynamically(plan.g, Origin(plan.g, plan.g[m].inputs[k]))
    ensures n < |plan.g| && exists i :: 0 <= i <= n && !Right(plan, env, block, i)
  {
    hide Sound, GoodGraph, ValuesFit, Regions, Final, Reference, WorkAdded, VariantsFit, ElementTypesKept, Allocated, Run,
      ReadInput, Observed;
    SoundGood(plan, env, |block|);
    var r := MergedOwner(plan, env, |block|, m, k);
    var j: nat;
    n, j := ObservedReader(plan.g, plan.st, env, r);
    if forall i :: 0 <= i <= n ==> Right(plan, env, block, i) {
      assert Right(plan, env, block, n);
      RunAllocates(plan, env, block, n);
      var c := Run(plan, env, block, n).value;
      var bytes := MergedAllocation(plan, env, |block|, c, n, m, Origin(plan.g, plan.g[m].inputs[k]), r);
      ReadsShort(plan, env, |block|, c, n, j, r, bytes);
      assert false;
    }
  }

  // ----- exactly which accepted graphs run right

  lemma {:induction false} MergedPart(g: Graph) returns (m: nat, k: nat)
    requires !ConcatsApart(g)
    ensures m < |g| && g[m].kind.ConcatNode? && |g[m].inputs| > 1 && k < |g[m].inputs|
    ensures ProducedDynamically(g, Origin(g, g[m].inputs[k]))
  {
    m, k :| 0 <= m < |g| && g[m].kind.ConcatNode? && |g[m].inputs| > 1 && 0 <= k < |g[m].inputs|
      && ProducedDynamically(g, Origin(g, g[m].inputs[k]));
  }

  /** Reading right forces every rename a dynamic node sees to keep its shape. */
  lemma {:induction false} RightKeepsShapes(plan: Plan, env: Env, block: Memory)
    requires Setting(plan, env, |block|) && Ready(plan) && Topological(plan.g)
    requires forall n :: 0 <= n < |plan.g| ==> Right(plan, env, block, n)
    ensures RenamesKept(plan.g, env)
  {
    hide Setting, RunInv, Run, ReadInput, ShapeKept, Reference;
    forall n, k | 0 <= n < |plan.g| && 0 <= k < |plan.g[n].inputs| && plan.g[n].dynamic && Reads(plan.g, env, n)
                  && ProducedDynamically(plan.g, Origin(plan.g, plan.g[n].inputs[k]))
      ensures ShapeKept(plan.g, env, plan.g[n].inputs[k])
    {
      assert Right(plan, env, block, n);
      RunKeepsInv(plan, env, block, n);
      ReadIff(plan, env, Run(plan, env, block, n).value, n, k);
    }
  }

  /** A run that reads right has no merged dynamic outputs, and shows none to a dynamic node under a changed shape. */
  lemma {:induction false} RightOnly(g: Graph, stable: Stability, env: Env, requests: seq<Request>,
                                     place: map<BufferID, nat>, block: Memory)
    requires Runnable(g, env) && ElementTypesKept(g) && ConcatsObserved(g, env) && Extract(g, stable).Ok?
    requires |requests| == |g| && Placement(MakePlan(g, Extract(g, stable).value, requests, place), |block|)
    ensures var plan := MakePlan(g, Extract(g, stable).value, requests, place);
            && Ready(plan)
            && ((forall n :: 0 <= n < |g| ==> Right(plan, env, block, n)) ==> ConcatsApart(g) && RenamesKept(g, env))
  {
    hide Extract, Placement, RenamesKept, ConcatsApart, Setting, Right, WorkIds, AddRequests, DistinctConcats, ValuesFit,
      VariantsFit, DynamicFlags, BytesKept, ElementTypesKept, ConcatsObserved, Sound;
    var plan := MakePlan(g, Extract(g, stable).value, requests, place);
    PlanSound(g, stable, env, requests, place, |block|);
    SoundGood(plan, env, |block|);
    if forall n :: 0 <= n < |g| ==> Right(plan, env, block, n) {
      if !ConcatsApart(g) {
        var m, k := MergedPart(g);
        var n := MergedReadFails(plan, env, block, m, k);
        assert false;
      }
      PlanSetting(g, stable, env, requests, place, |block|);
      RightKeepsShapes(plan, env, block);
    }
  }

  // ----- what fresh memory may contain

  function Fresh(env: Env, contents: (nat, nat, nat) -> Byte): Env {
    env.(garbage := contents)
  }

  /** Bytes that differ from those of every output. */
  function Adverse(g: Graph, env: Env): (nat, nat, nat) -> Byte
    requires Topological(g)
  {
    (n: nat, p: nat, i: nat) => Other(Reference(g, env, TensorName(n, p)).data, i)
  }

  function Other(data: seq<Byte>, i: nat): (b: Byte)
    ensures i < |data| ==> b != data[i]
  {
    if i < |data| && data[i] == 0 then 1 else 0
  }

  /** The reference does not depend on it. */
  lemma {:induction false} ReferenceFresh(g: Graph, env: Env, contents: (nat, nat, nat) -> Byte, t: TensorName)
    requires Topological(g)
    ensures Reference(g, Fresh(env, contents), t) == Reference(g, env, t)
    decreases t.node, 1
  {
    if Exists(g, t) {
      if IsAlias(g[t.node]) {
        if |g[t.node].inputs| > 0 { ReferenceFresh(g, env, contents, g[t.node].inputs[0]); }
      } else {
        ReferencesFresh(g, env, contents, t.node);
      }
    }
  }

  lemma {:induction false} ReferencesFresh(g: Graph, env: Env, contents: (nat, nat, nat) -> Byte, n: nat)
    requires Topological(g) && n < |g|
    ensures References(g, Fresh(env, contents), n) == References(g, env, n)
    ensures ReferenceOutputs(g, Fresh(env, contents), n) == ReferenceOutputs(g, env, n)
    decreases n, 0
  {
    hide Reference;
    forall k | 0 <= k < |g[n].inputs|
      ensures Reference(g, Fresh(env, contents), g[n].inputs[k]) == Reference(g, env, g[n].inputs[k])
    {
      ReferenceFresh(g, env, contents, g[n].inputs[k]);
    }
  }

  lemma {:induction false} FreshKey(g: Graph, env: Env, contents: (nat, nat, nat) -> Byte, n: nat, inputs: seq<TensorValue>)
    requires n < |g| && |inputs| == |g[n].inputs|
    ensures MakeKey(g, Fresh(env, contents), n, inputs) == MakeKey(g, env, n, inputs)
  {
    hide Elements;
    var a, b := MakeKey(g, Fresh(env, contents), n, inputs), MakeKey(g, env, n, inputs);
    if env.valueDependent(n) {
      forall k | 0 <= k < |inputs| ensures a.values[k] == b.values[k] {
        assert Foldable(g, Fresh(env, contents), n, k, inputs[k].shape) <==> Foldable(g, env, n, k, inputs[k].shape);
      }
    }
    assert a.values == b.values;
  }

  lemma {:induction false} FreshVariant(g: Graph, env: Env, contents: (nat, nat, nat) -> Byte, n: nat)
    requires Topological(g) && n < |g|
    ensures ReferenceVariant(g, Fresh(env, contents), n) == ReferenceVariant(g, env, n)
  {
    hide Reference, Evaluate, Elements, AllocBytes;
    ReferencesFresh(g, env, contents, n);
    var inputs, env' := References(g, env, n), Fresh(env, contents);
    FreshKey(g, env, contents, n, inputs);
    assert Folded(g, env', n, MakeKey(g, env, n, inputs), inputs) == Folded(g, env, n, MakeKey(g, env, n, inputs), inputs);
  }

  lemma {:induction false} FreshRunnable(g: Graph, env: Env, contents: (nat, nat, nat) -> Byte)
    requires Runnable(g, env)
    ensures Runnable(g, Fresh(env, contents))
  {
    hide Reference, ReferenceOutputs, ReferenceVariant, GoodGraph, DistinctConcats, Elements, Topological;
    GoodTopological(g);
    var env' := Fresh(env, contents);
    forall t: TensorName ensures Reference(g, env', t) == Reference(g, env, t) { ReferenceFresh(g, env, contents, t); }
    forall n | 0 <= n < |g|
      ensures ReferenceOutputs(g, env', n) == ReferenceOutputs(g, env, n)
      ensures ReferenceVariant(g, env', n) == ReferenceVariant(g, env, n)
    {
      ReferencesFresh(g, env, contents, n);
      FreshVariant(g, env, contents, n);
    }
    assert ValuesFit(g, env');
  }

  lemma {:induction false} FreshUnwritten(g: Graph, env: Env, contents: (nat, nat, nat) -> Byte, d: TensorName)
    requires Topological(g)
    ensures Unwritten(g, Fresh(env, contents), d) <==> Unwritten(g, env, d)
  {
    hide Reference, ReferenceOutputs, HasEmpty;
    ReferenceFresh(g, env, contents, d);
    if d.node < |g| { ReferencesFresh(g, env, contents, d.node); }
  }

  lemma {:induction false} FreshConditions(g: Graph, env: Env, contents: (nat, nat, nat) -> Byte)
    requires Topological(g)
    ensures RenamesKept(g, Fresh(env, contents)) <==> RenamesKept(g, env)
    ensures ReadsWritten(g, Fresh(env, contents)) <==> ReadsWritten(g, env)
  {
    hide Unwritten;
    forall d ensures Unwritten(g, Fresh(env, contents), d) <==> Unwritten(g, env, d) { FreshUnwritten(g, env, contents, d); }
  }

  lemma {:induction false} FreshObserved(g: Graph, env: Env, contents: (nat, nat, nat) -> Byte, t: TensorName)
    requires Observed(g, env, t)
    ensures Observed(g, Fresh(env, contents), t)
    decreases if t.node < |g| then |g| - t.node else 0
  {
    var n: nat, k: nat :| t.node < n < |g| && k < |g[n].inputs| && g[n].inputs[k] == t
      && (Reads(g, env, n) || (PassesOn(g[n], k) && Observed(g, env, TensorName(n, 0))));
    if !Reads(g, env, n) { FreshObserved(g, env, contents, TensorName(n, 0)); }
    assert Reads(g, Fresh(env, contents), n) <==> Reads(g, env, n);
  }

  lemma {:induction false} FreshAllObserved(g: Graph, env: Env, contents: (nat, nat, nat) -> Byte)
    requires ConcatsObserved(g, env)
    ensures ConcatsObserved(g, Fresh(env, contents))
  {
    forall m | 0 <= m < |g| && g[m].kind.ConcatNode? ensures Observed(g, Fresh(env, contents), TensorName(m, 0)) {
      FreshObserved(g, env, contents, TensorName(m, 0));
    }
  }

  // ----- an unwritten output is read wrong

  /** Fresh memory does not begin like the output. */
  predicate Differs(g: Graph, env: Env, d: TensorName)
    requires Topological(g)
  {
    var data := Reference(g, env, d).data;
    data != [] ==> env.garbage(d.node, d.port, 0) != data[0]
  }

  /** Where fresh memory differs from what an unwritten output should hold, its reader reads wrong. */
  lemma {:induction false} UnwrittenReadFails(plan: Plan, env: Env, c: Ctx, n: nat, k: nat)
    requires Setting(plan, env, |c.block|) && Ready(plan) && Topological(plan.g) && n < |plan.g| && k < |plan.g[n].inputs|
    requires RunInv(plan, env, c, n) && Unwritten(plan.g, env, Origin(plan.g, plan.g[n].inputs[k]))
    requires Differs(plan.g, env, Origin(plan.g, plan.g[n].inputs[k]))
    ensures ReadInput(plan, env, Seen(plan, env, c, n), n, k) != Some(Reference(plan.g, env, plan.g[n].inputs[k]))
  {
    hide Setting, RunInv, Reference, Pointer, InputShape, Seen, ReferenceOutputs, HasEmpty;
    DynamicPointer(plan, env, |c.block|, c, n, k);
    PointerSeen(plan, env, c, n, plan.g[n].inputs[k]);
  }

  lemma {:induction false} RightWritten(plan: Plan, env: Env, block: Memory)
    requires Setting(plan, env, |block|) && Ready(plan) && Topological(plan.g)
    requires forall t: TensorName :: Differs(plan.g, env, t)
    requires forall n :: 0 <= n < |plan.g| ==> Right(plan, env, block, n)
    ensures ReadsWritten(plan.g, env)
  {
    hide Setting, RunInv, Run, ReadInput, Reference, Unwritten, Differs;
    forall n, k | 0 <= n < |plan.g| && 0 <= k < |plan.g[n].inputs| && Reads(plan.g, env, n)
      ensures !Unwritten(plan.g, env, Origin(plan.g, plan.g[n].inputs[k]))
    {
      assert Right(plan, env, block, n);
      RunKeepsInv(plan, env, block, n);
      if Unwritten(plan.g, env, Origin(plan.g, plan.g[n].inputs[k])) {
        UnwrittenReadFails(plan, env, Run(plan, env, block, n).value, n, k);
      }
    }
  }

  /** Against adverse memory a run that reads right reads no unwritten output. */
  lemma {:induction false} RightAdverse(g: Graph, stable: Stability, env: Env, requests: seq<Request>,
                                        place: map<BufferID, nat>, block: Memory)
    requires Runnable(g, env) && ElementTypesKept(g) && ConcatsObserved(g, env) && Extract(g, stable).Ok?
    requires |requests| == |g| && Placement(MakePlan(g, Extract(g, stable).value, requests, place), |block|)
    ensures var plan := MakePlan(g, Extract(g, stable).value, requests, place);
            && Ready(plan)
            && ((forall n :: 0 <= n < |g| ==> Right(plan, Fresh(env, Adverse(g, env)), block, n)) ==>
                  ConcatsApart(g) && RenamesKept(g, env) && ReadsWritten(g, env))
  {
    hide Extract, Placement, RenamesKept, ReadsWritten, ConcatsApart, Setting, Right, WorkIds, AddRequests, DistinctConcats,
      ValuesFit, VariantsFit, DynamicFlags, BytesKept, ElementTypesKept, ConcatsObserved, Reference, Runnable, MakePlan;
    RunnableGood(g, env);
    GoodTopological(g);
    var contents := Adverse(g, env);
    var env' := Fresh(env, contents);
    FreshRunnable(g, env, contents);
    FreshAllObserved(g, env, contents);
    FreshConditions(g, env, contents);
    RightOnly(g, stable, env', requests, place, block);
    var plan := MakePlan(g, Extract(g, stable).value, requests, place);
    PlanGraph(g, Extract(g, stable).value, requests, place);
    if forall n :: 0 <= n < |g| ==> Right(plan, env', block, n) {
      PlanSetting(g, stable, env', requests, place, |block|);
      forall t: TensorName ensures Differs(g, env', t) { ReferenceFresh(g, env, contents, t); }
      RightWritten(plan, env', block);
    }
  }

  lemma {:induction false} RunnableGood(g: Graph, env: Env)
    requires Runnable(g, env)
    ensures GoodGraph(g)
  {}

  lemma {:induction false} PlanGraph(g: Graph, st: State, requests: seq<Request>, place: map<BufferID, nat>)
    requires |requests| == |g|
    ensures MakePlan(g, st, requests, place).g == g
  {}

  /** An accepted graph runs right from any block contents, whatever fresh memory contains, if and only if no concat merges a
      dynamic node's output with other tensors, no dynamic node sees one under a changed shape, and nobody reads a non-empty
      output of a node that computes an empty one as well. */
  lemma {:induction false} DynamicRunIff(g: Graph, stable: Stability, env: Env, requests: seq<Request>,
                                         place: map<BufferID, nat>, block: Memory)
    requires Runnable(g, env) && ElementTypesKept(g) && ConcatsObserved(g, env) && Extract(g, stable).Ok?
    requires |requests| == |g| && Placement(MakePlan(g, Extract(g, stable).value, requests, place), |block|)
    ensures var plan := MakePlan(g, Extract(g, stable).value, requests, place);
            && Ready(plan)
            && ((forall contents: (nat, nat, nat) -> Byte, n :: 0 <= n < |g| ==>
                  Right(plan, Fresh(env, contents), block, n))
                <==> ConcatsApart(g) && RenamesKept(g, env) && ReadsWritten(g, env))
  {
    hide Extract, Placement, RenamesKept, ReadsWritten, ConcatsApart, Setting, Right, WorkIds, AddRequests, DistinctConcats,
      ValuesFit, VariantsFit, DynamicFlags, BytesKept, ElementTypesKept, ConcatsObserved, Reference, Runnable, MakePlan;
    RunnableGood(g, env);
    GoodTopological(g);
    var plan := MakePlan(g, Extract(g, stable).value, requests, place);
    RightAdverse(g, stable, env, requests, place, block);
    PlanGraph(g, Extract(g, stable).value, requests, place);
    if ConcatsApart(g) && RenamesKept(g, env) && ReadsWritten(g, env) {
      forall contents: (nat, nat, nat) -> Byte, n | 0 <= n < |g| ensures Right(plan, Fresh(env, contents), block, n) {
        FreshRunnable(g, env, contents);
        FreshConditions(g, env, contents);
        PlanSetting(g, stable, Fresh(env, contents), requests, place, |block|);
        AllRight(plan, Fresh(env, contents), block, |g|);
      }
    }
  }

  /** A dynamic node reading a renamed dynamic output finds the shape registered before the rename: after any run that
      read right so far, it reads its reference input if and only if the rename keeps the declared shape. */
  lemma {:induction false} RenamedReadIff(g: Graph, stable: Stability, env: Env, requests: seq<Request>,
                                          place: map<BufferID, nat>, block: Memory, n: nat, k: nat)
    requires Runnable(g, env) && ConcatsApart(g) && Extract(g, stable).Ok? && |requests| == |g|
    requires Placement(MakePlan(g, Extract(g, stable).value, requests, place), |block|)
    requires n < |g| && g[n].dynamic && k < |g[n].inputs| && ProducedDynamically(g, Origin(g, g[n].inputs[k]))
    requires !Unwritten(g, env, Origin(g, g[n].inputs[k]))
    ensures var plan := MakePlan(g, Extract(g, stable).value, requests, place);
            && Ready(plan)
            && ((forall m :: 0 <= m < n ==> Right(plan, env, block, m)) ==>
                  && Run(plan, env, block, n).Some?
                  && (ReadInput(plan, env, Run(plan, env, block, n).value, n, k) == Some(Reference(g, env, g[n].inputs[k]))
                      <==> ShapeKept(g, env, g[n].inputs[k])))
  {
    hide Extract, Placement, ConcatsApart, Setting, Right, WorkIds, AddRequests, DistinctConcats, ValuesFit, VariantsFit,
      DynamicFlags, BytesKept, Run, RunInv, ReadInput, Reference, ShapeKept, Unwritten;
    PlanSetting(g, stable, env, requests, place, |block|);
    var plan := MakePlan(g, Extract(g, stable).value, requests, place);
    SettingFacts(plan, env, |block|);
    if forall m :: 0 <= m < n ==> Right(plan, env, block, m) {
      RunKeepsInv(plan, env, block, n);
      ReadIff(plan, env, Run(plan, env, block, n).value, n, k);
    }
  }
}
