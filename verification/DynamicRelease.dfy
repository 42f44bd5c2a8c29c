/** Which buffers are allocated while a graph runs: those registered so far, but for the ones whose lifespan ended at a
    node that releases. */
module DynamicRelease {
  import opened Graphs
  import opened BufferTheorems
  import opened TensorValues
  import opened SharedMemory
  import opened DynamicRegions
  import opened SharedBlock
  import opened DynamicRun
  import opened DynamicTheorems
  import opened DynamicConverse

  /** Parameters, variable reads and results keep what ends with them; so do static nodes. */
  predicate Releases(node: Node) {
    node.dynamic && !node.kind.ParameterNode? && !node.kind.ReadValueNode? && !node.kind.ResultNode?
  }

  /** The outputs a node registers. */
  function RegisteredPorts(node: Node): nat {
    if !node.dynamic || node.kind.ResultNode? || node.kind.AssignNode? then 0
    else if node.kind.ParameterNode? || node.kind.ReadValueNode? then 1
    else |node.outputs|
  }

  ghost predicate RegistersAt(plan: Plan, n: nat, id: BufferID)
    requires Ready(plan) && n < |plan.g|
  {
    exists p: nat :: p < RegisteredPorts(plan.g[n]) && OutputRoot(plan, n, p) == id
  }

  ghost predicate RegisteredBefore(plan: Plan, n: nat, id: BufferID)
    requires Ready(plan) && n <= |plan.g|
  {
    exists m: nat :: m < n && RegistersAt(plan, m, id)
  }

  /** A buffer without a static size whose last node was before `n` and released it. */
  predicate ReleasedBefore(plan: Plan, n: nat, id: BufferID) {
    && id in plan.buffers && plan.buffers[id].size == 0 && plan.buffers[id].end < n && plan.buffers[id].end < |plan.g|
    && Releases(plan.g[plan.buffers[id].end])
  }

  predicate ReleasedAt(plan: Plan, n: nat, id: BufferID)
    requires n < |plan.g|
  {
    id in plan.buffers && plan.buffers[id].size == 0 && plan.buffers[id].end == n && Releases(plan.g[n])
  }

  lemma {:induction false} RegistersKeys(plan: Plan, env: Env, c: Ctx, n: nat, inputs: seq<TensorValue>, first: seq<Byte>,
                                         v: Variant, ports: nat, id: BufferID)
    requires Ready(plan) && n < |plan.g| && ports <= |v.sizes| == |v.shapes|
    ensures id in RegisterOutputs(plan, env, c, n, inputs, first, v, ports).allocations <==>
      id in c.allocations || exists p: nat :: p < ports && OutputRoot(plan, n, p) == id
  {
    hide OutputRoot, CachedOutput;
    if ports > 0 { RegistersKeys(plan, env, c, n, inputs, first, v, ports - 1, id); }
  }

  /** The allocations after one node. */
  ghost predicate NodeKeys(plan: Plan, c: Ctx, c': Ctx, n: nat, id: BufferID)
    requires Ready(plan) && n < |plan.g|
  {
    id in c'.allocations <==> (id in c.allocations || RegistersAt(plan, n, id)) && !ReleasedAt(plan, n, id)
  }

  lemma {:induction false} StaticKeys(plan: Plan, env: Env, c: Ctx, n: nat, id: BufferID)
    requires Ready(plan) && n < |plan.g| && !plan.g[n].dynamic && RunStatic(plan, env, c, n).Some?
    ensures NodeKeys(plan, c, RunStatic(plan, env, c, n).value, n, id)
  {
    hide Gather, WriteOutputs, Evaluate, Scribble, OutputRoot;
    var seen := Seen(plan, env, c, n);
    if !IsNop(plan.g[n]) && !IsAlias(plan.g[n]) {
      WritesKeepSizes(plan, seen, n, Evaluate(plan.g, env, n, Gather(plan, env, seen, n).value), |plan.g[n].outputs|);
    }
  }

  lemma {:induction false} DynamicKeys(plan: Plan, env: Env, c: Ctx, n: nat, id: BufferID)
    requires Ready(plan) && n < |plan.g| && plan.g[n].dynamic && RunDynamic(plan, env, c, n).Some?
    ensures NodeKeys(plan, c, RunDynamic(plan, env, c, n).value, n, id)
  {
    hide Gather, RegisterOutputs, MakeKey, StateValue, FirstPointer, OutputRoot, CreateVariant;
    var node, inputs := plan.g[n], Gather(plan, env, c, n).value;
    if node.kind.ParameterNode? || node.kind.ReadValueNode? {
      assert 0 < RegisteredPorts(node);
    } else if !node.kind.ResultNode? && !node.kind.AssignNode? {
      var v := CreateVariant(plan.g, env, n, MakeKey(plan.g, env, n, inputs), inputs);
      RegistersKeys(plan, env, c, n, inputs, FirstPointer(plan, c, n), v, |node.outputs|, id);
    }
  }

  lemma {:induction false} PortsOwned(plan: Plan, env: Env, block: nat, n: nat)
    requires Sound(plan, env, block) && Ready(plan) && n < |plan.g|
    ensures RegisteredPorts(plan.g[n]) > 0 ==> plan.g[n].dynamic && RegisteredPorts(plan.g[n]) <= OwnPorts(plan.g[n])
  {
    hide Sound, ReferenceOutputs, GoodGraph, ValuesFit, Regions, Final, WorkAdded;
    SoundGood(plan, env, block);
    ReshapePorts(plan.g, n);
    if plan.g[n].dynamic && (plan.g[n].kind.ParameterNode? || plan.g[n].kind.ReadValueNode?) {
      BoundaryOutput(plan.g, env, n);
    }
  }

  /** The root of a dynamic node's output is a buffer that outlives the node. */
  lemma {:induction false} OutputInLife(plan: Plan, env: Env, block: nat, n: nat, p: nat)
    requires Sound(plan, env, block) && Ready(plan) && n < |plan.g| && plan.g[n].dynamic && p < OwnPorts(plan.g[n])
    ensures OutputRoot(plan, n, p) in plan.buffers && n <= plan.buffers[OutputRoot(plan, n, p)].end
  {
    hide Sound, GoodGraph, ValuesFit, Regions, Final;
    SoundGood(plan, env, block);
    RegisteredOutput(plan, env, block, n, p);
    OutputRootIs(plan, n, p);
    NotConstant(plan.g, plan.st, TensorName(n, p));
    RootKnown(plan.g, plan.st, TensorName(n, p));
    NodeInside(plan.g, plan.st, TensorName(n, p));
  }

  /** A buffer is not registered after the end of its lifespan. */
  lemma {:induction false} RegisteredInLife(plan: Plan, env: Env, block: nat, n: nat, id: BufferID)
    requires Sound(plan, env, block) && Ready(plan) && n < |plan.g| && RegistersAt(plan, n, id)
    ensures !ReleasedBefore(plan, n, id)
  {
    hide Sound, OutputRoot, OwnPorts, RegisteredPorts, Releases;
    PortsOwned(plan, env, block, n);
    var p: nat :| p < RegisteredPorts(plan.g[n]) && OutputRoot(plan, n, p) == id;
    OutputInLife(plan, env, block, n, p);
  }

  /** At any point of a run exactly those buffers are allocated that some node so far registered, less those without a
      static size whose lifespan ended at a node that releases. */
  lemma {:induction false} AllocatedIff(plan: Plan, env: Env, block: Memory, n: nat, id: BufferID)
    requires Sound(plan, env, |block|) && Ready(plan) && n <= |plan.g| && Run(plan, env, block, n).Some?
    ensures id in Run(plan, env, block, n).value.allocations <==>
      RegisteredBefore(plan, n, id) && !ReleasedBefore(plan, n, id)
  {
    hide Sound, RunDynamic, RunStatic, RegistersAt, Releases;
    if n > 0 {
      AllocatedIff(plan, env, block, n - 1, id);
      var c := Run(plan, env, block, n - 1).value;
      if plan.g[n - 1].dynamic { DynamicKeys(plan, env, c, n - 1, id); } else { StaticKeys(plan, env, c, n - 1, id); }
      if RegistersAt(plan, n - 1, id) { RegisteredInLife(plan, env, |block|, n - 1, id); }
    }
  }
}
