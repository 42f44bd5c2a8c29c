/** The dynamic executor as the program runs it, on the per-request context it registers buffers and shapes in and the
    cache it shares with all requests. */
module DynamicOperation {
  import opened Options
  import opened Graphs
  import opened BufferLayout
  import opened TensorValues
  import opened SharedMemory
  import opened DynamicRun
  import Cached = DynamicCache
  import LRU = LruCache

  class DynamicBufferContext {
    var allocations: map<BufferID, seq<Byte>>
    var shapes: map<BufferID, Shape>

    ghost function Abs(block: Memory): Ctx
      reads this
    {
      Ctx(allocations, shapes, block)
    }

    constructor ()
      ensures allocations == map[] && shapes == map[]
    {
      allocations, shapes := map[], map[];
    }

    /** insert_or_assign on both tables: an earlier allocation under the same id is freed. */
    method RegisterDynamicBuffer(id: BufferID, allocation: seq<Byte>, shape: Shape)
      modifies this`allocations, this`shapes
      ensures forall block :: Abs(block) == Register(old(Abs(block)), id, allocation, shape)
    {
      allocations := allocations[id := allocation];
      shapes := shapes[id := shape];
    }

    /** Frees the allocation; the shape stays for the rest of the inference. */
    method ReleaseDynamicBuffer(id: BufferID)
      modifies this`allocations
      ensures forall block :: Abs(block) == ReleaseAll(old(Abs(block)), {id})
    {
      allocations := allocations - {id};
    }

    method GetDynamicBuffer(id: BufferID) returns (r: Option<seq<Byte>>)
      ensures r == if id in allocations then Some(allocations[id]) else None
    {
      r := if id in allocations then Some(allocations[id]) else None;
    }
  }

  type OperationCache = LRU.Cache<Cached.GlobalKey, Variant>

  /** One node of the graph wrapped for dynamic shapes. */
  class DynamicOperation {
    const plan: Plan
    const env: Env
    const n: nat
    const releaseIds: seq<BufferID>

    ghost predicate Valid() {
      && Ready(plan) && n < |plan.g| && plan.g[n].dynamic
      && (forall r :: r in releaseIds <==> r in ReleaseSet(plan.buffers, n))
    }

    constructor (thePlan: Plan, environment: Env, node: nat, release: seq<BufferID>)
      requires Ready(thePlan) && node < |thePlan.g| && thePlan.g[node].dynamic
      requires forall r :: r in release <==> r in ReleaseSet(thePlan.buffers, node)
      ensures Valid() && plan == thePlan && env == environment && n == node
    {
      plan, env, n, releaseIds := thePlan, environment, node, release;
    }

    /** The node's effect is that of the specification, whatever the cache holds, as long as requests filled it. */
    method Execute(c: DynamicBufferContext, cache: OperationCache, block: Memory) returns (ok: bool)
      requires Valid() && Cached.EntriesGenuine(plan.g, env, cache.entries)
      modifies c, cache
      ensures Cached.EntriesGenuine(plan.g, env, cache.entries)
      ensures ok <==> RunDynamic(plan, env, old(c.Abs(block)), n).Some?
      ensures ok ==> Some(c.Abs(block)) == RunDynamic(plan, env, old(c.Abs(block)), n)
    {
      hide CreateVariant, MakeKey, StateValue, ReleaseSet, Gather, CachedOutput, RegisterOutputs, FirstPointer,
        Cached.EntriesGenuine, OutputRoot, Reads;
      var read := PrepareInputs(c, block);
      if read.None? { return false; }
      var kind, inputs := plan.g[n].kind, read.value;
      if kind.ParameterNode? {
        StoreValue(c, env.parameter(n), block);
      } else if kind.ReadValueNode? {
        StoreValue(c, StateValue(plan.g, env, n, inputs), block);
      } else if kind.AssignNode? {
        ReleaseBuffers(c, block);
      } else if !kind.ResultNode? {
        if |inputs| != |plan.g[n].inputs| { return false; }
        var v := GetOrCreate(cache, inputs);
        if |v.shapes| < |plan.g[n].outputs| || (kind.ReshapeNode? && |inputs| == 0) { return false; }
        var outputs := ExecuteCachedOperation(c, inputs, v, block);
        FinalizeOutputs(c, inputs, v, outputs, block);
      }
      ok := true;
    }

    /** The shape and the bytes of every input, or failure. */
    method PrepareInputs(c: DynamicBufferContext, block: Memory) returns (r: Option<seq<TensorValue>>)
      requires Valid()
      ensures r == Gather(plan, env, c.Abs(block), n)
    {
      hide ReadInput;
      if !Reads(plan.g, env, n) {
        var known := ResolvePointers(c, block);
        return if known then Some([]) else None;
      }
      var inputs: seq<TensorValue> := [];
      for k := 0 to |plan.g[n].inputs|
        invariant ReadInputs(plan, env, c.Abs(block), n, k) == Some(inputs)
      {
        var v := PrepareInput(c, k, block);
        if v.None? {
          ReadInputsFail(plan, env, c.Abs(block), n, k + 1, |plan.g[n].inputs|);
          return None;
        }
        inputs := inputs + [v.value];
      }
      r := Some(inputs);
    }

    method ResolvePointers(c: DynamicBufferContext, block: Memory) returns (known: bool)
      requires Valid()
      ensures known <==> PointersKnown(plan, c.Abs(block), n)
    {
      hide Pointer;
      for k := 0 to |plan.g[n].inputs|
        invariant forall j :: 0 <= j < k ==>
          plan.g[n].inputs[j] in plan.st.tensorNames && Pointer(plan, c.Abs(block), n, plan.g[n].inputs[j]).Some?
      {
        var pointer := ResolvePointer(c, plan.g[n].inputs[k], block);
        if plan.g[n].inputs[k] !in plan.st.tensorNames || pointer.None? { return false; }
      }
      known := true;
    }

    /** The context's buffer first, without the tensor's offset; else the memory manager's static pointer. */
    method ResolvePointer(c: DynamicBufferContext, t: TensorName, block: Memory) returns (pointer: Option<seq<Byte>>)
      requires Valid()
      ensures pointer == Pointer(plan, c.Abs(block), n, t)
    {
      var id, root := IdOf(plan.st, t), RootOf(plan.st, t);
      var dynamicBuffer := c.GetDynamicBuffer(root);
      if dynamicBuffer.Some? { pointer := Some(From(dynamicBuffer.value, 0)); }
      else if id in plan.st.immutableBuffers { pointer := Some(plan.st.immutableBuffers[id]); }
      else if root in plan.place { pointer := Some(From(block, Address(plan, id))); }
      else { pointer := None; }
    }

    method PrepareInput(c: DynamicBufferContext, k: nat, block: Memory) returns (r: Option<TensorValue>)
      requires Valid() && k < |plan.g[n].inputs|
      ensures r == ReadInput(plan, env, c.Abs(block), n, k)
    {
      hide Pointer;
      var t := plan.g[n].inputs[k];
      if t !in plan.st.tensorNames { return None; }
      var root := RootOf(plan.st, t);
      var shape;
      if root in c.shapes { shape := c.shapes[root]; }
      else if Type(plan.g, t).elements.Some? { shape := env.staticShape(t); }
      else { return None; }
      var pointer := ResolvePointer(c, t, block);
      var count := DataBytes(plan.g, t, shape);
      if pointer.None? || count > |pointer.value| { return None; }
      r := Some(TensorValue(shape, pointer.value[..count]));
    }

    /** Look up, build outside the lock on a miss, and publish. */
    method GetOrCreate(cache: OperationCache, inputs: seq<TensorValue>) returns (v: Variant)
      requires Valid() && |inputs| == |plan.g[n].inputs| && Cached.EntriesGenuine(plan.g, env, cache.entries)
      modifies cache
      ensures Cached.EntriesGenuine(plan.g, env, cache.entries)
      ensures v == CreateVariant(plan.g, env, n, MakeKey(plan.g, env, n, inputs), inputs)
    {
      hide LRU.Find, MakeKey, CreateVariant, Cached.EntriesGenuine;
      var key := Cached.GlobalKey(n, MakeKey(plan.g, env, n, inputs));
      Cached.FindGenuine(plan.g, env, cache.entries, Cached.Request(n, inputs));
      var found := cache.Lookup(key);
      if found.Some? { return found.value; }
      v := CreateVariant(plan.g, env, n, key.key, inputs);
      v := Publish(cache, inputs, v);
    }

    /** The second critical section: another request may have stored the key meanwhile. */
    method Publish(cache: OperationCache, inputs: seq<TensorValue>, built: Variant) returns (v: Variant)
      requires Valid() && |inputs| == |plan.g[n].inputs| && Cached.EntriesGenuine(plan.g, env, cache.entries)
      requires built == CreateVariant(plan.g, env, n, MakeKey(plan.g, env, n, inputs), inputs)
      modifies cache
      ensures Cached.EntriesGenuine(plan.g, env, cache.entries) && v == built
    {
      hide LRU.Insert, MakeKey, CreateVariant, Cached.EntriesGenuine;
      var key := Cached.GlobalKey(n, MakeKey(plan.g, env, n, inputs));
      Cached.FindGenuine(plan.g, env, cache.entries, Cached.Request(n, inputs));
      var found := cache.Lookup(key);
      if found.Some? { return found.value; }
      Cached.InsertGenuine(plan.g, env, cache.entries, cache.capacity, Cached.Request(n, inputs));
      v := cache.Store(key, built);
    }

    /** Parameters and variable reads upload one value into a buffer of its exact size. */
    method StoreValue(c: DynamicBufferContext, v: TensorValue, ghost block: Memory)
      requires Valid()
      modifies c
      ensures c.Abs(block) == RegisterValue(plan, env, old(c.Abs(block)), n, v)
    {
      c.RegisterDynamicBuffer(OutputRoot(plan, n, 0), Store(Malloc(env, n, 0, |v.data|), v.data), v.shape);
    }

    /** Allocates all outputs, then fills them: a copy for a reshape, nothing for a null operation, else the kernel. */
    method ExecuteCachedOperation(c: DynamicBufferContext, inputs: seq<TensorValue>, v: Variant, block: Memory)
      returns (outputs: seq<seq<Byte>>)
      requires Valid() && |inputs| == |plan.g[n].inputs| && (plan.g[n].kind.ReshapeNode? ==> |inputs| > 0)
      requires |v.sizes| == |v.shapes|
      ensures |outputs| == |v.sizes|
      ensures forall p :: 0 <= p < |outputs| ==>
        outputs[p] == CachedOutput(plan.g, env, n, inputs, FirstPointer(plan, c.Abs(block), n), v, p)
    {
      hide Pointer;
      outputs := [];
      for p := 0 to |v.sizes|
        invariant |outputs| == p && forall q :: 0 <= q < p ==> outputs[q] == Malloc(env, n, q, v.sizes[q])
      {
        outputs := outputs + [Malloc(env, n, p, v.sizes[p])];
      }
      if plan.g[n].kind.ReshapeNode? {
        if |outputs| > 0 {
          var first := ResolvePointer(c, plan.g[n].inputs[0], block);
          outputs := outputs[0 := Store(outputs[0], Transfer(env, n, first.GetOr([]), v.sizes[0]))];
        }
        return;
      }
      if v.noop { return; }
      ghost var raw := outputs;
      for p := 0 to |outputs|
        invariant |outputs| == |raw|
        invariant forall q :: 0 <= q < p ==> outputs[q] == Store(raw[q], OutputOf(env.op(n, inputs), q).data)
        invariant forall q :: p <= q < |outputs| ==> outputs[q] == raw[q]
      {
        outputs := outputs[p := Store(outputs[p], OutputOf(env.op(n, inputs), p).data)];
      }
    }

    method FinalizeOutputs(c: DynamicBufferContext, ghost inputs: seq<TensorValue>, v: Variant, outputs: seq<seq<Byte>>,
                           ghost block: Memory)
      requires Valid() && |plan.g[n].outputs| <= |v.shapes| == |v.sizes| == |outputs|
      requires forall p :: 0 <= p < |outputs| ==>
        outputs[p] == CachedOutput(plan.g, env, n, inputs, FirstPointer(plan, c.Abs(block), n), v, p)
      modifies c
      ensures var first := FirstPointer(plan, old(c.Abs(block)), n);
              c.Abs(block)
              == ReleaseAll(RegisterOutputs(plan, env, old(c.Abs(block)), n, inputs, first, v, |plan.g[n].outputs|),
                            ReleaseSet(plan.buffers, n))
    {
      hide CachedOutput, ReleaseSet, FirstPointer, OutputRoot;
      ghost var first := FirstPointer(plan, c.Abs(block), n);
      for p := 0 to |plan.g[n].outputs|
        invariant c.Abs(block) == RegisterOutputs(plan, env, old(c.Abs(block)), n, inputs, first, v, p)
      {
        c.RegisterDynamicBuffer(OutputRoot(plan, n, p), outputs[p], v.shapes[p]);
      }
      ReleaseBuffers(c, block);
    }

    method ReleaseBuffers(c: DynamicBufferContext, ghost block: Memory)
      requires Valid()
      modifies c`allocations
      ensures c.Abs(block) == ReleaseAll(old(c.Abs(block)), ReleaseSet(plan.buffers, n))
    {
      hide ReleaseSet;
      for k := 0 to |releaseIds|
        invariant c.Abs(block) == ReleaseAll(old(c.Abs(block)), set i | 0 <= i < k :: releaseIds[i])
      {
        c.ReleaseDynamicBuffer(releaseIds[k]);
      }
      assert (set i | 0 <= i < |releaseIds| :: releaseIds[i]) == ReleaseSet(plan.buffers, n);
    }
  }

  lemma {:induction false} ReadInputsFail(plan: Plan, env: Env, c: Ctx, n: nat, j: nat, k: nat)
    requires Ready(plan) && n < |plan.g| && j <= k <= |plan.g[n].inputs| && ReadInputs(plan, env, c, n, j).None?
    ensures ReadInputs(plan, env, c, n, k).None?
    decreases k
  {
    if j < k { ReadInputsFail(plan, env, c, n, j, k - 1); }
  }
}
