/** The execution of a graph whose static nodes share one block and whose dynamic nodes allocate, register and release
    their buffers while it runs. */
module DynamicRun {
  import opened Arithmetic
  import opened Options
  import opened Graphs
  import opened BufferSpec
  import opened BufferInvariant
  import opened BufferLayout
  import opened TensorValues
  import opened SharedMemory

  /** Input shapes, and for value-dependent ops the small integer inputs themselves. */
  datatype ShapeKey = ShapeKey(shapes: seq<Shape>, values: seq<seq<int>>)

  /** A static operation specialised to one key; `noop` is the null operation of a zero-element output. */
  datatype Variant = Variant(shapes: seq<Shape>, sizes: seq<nat>, noop: bool)

  // ----- keys and variants

  /** isShapeValueInput: at most 1-D, 1 to 64 elements, 32- or 64-bit integers. */
  predicate IsShapeValue(env: Env, t: TensorName, shape: Shape) {
    |shape| <= 1 && 0 < Elements(shape) <= 64 && env.integers(t)
  }

  predicate Foldable(g: Graph, env: Env, n: nat, k: nat, shape: Shape)
    requires n < |g| && k < |g[n].inputs|
  {
    var t := g[n].inputs[k];
    !(t.node < |g| && g[t.node].kind.ConstantNode?) && IsShapeValue(env, t, shape)
  }

  /** Steps 1 and 2b of prepareCachedOperationContext. */
  function MakeKey(g: Graph, env: Env, n: nat, inputs: seq<TensorValue>): (key: ShapeKey)
    requires n < |g| && |inputs| == |g[n].inputs|
    ensures |key.shapes| == |inputs|
  {
    var shapes := seq(|inputs|, k requires 0 <= k < |inputs| => inputs[k].shape);
    ShapeKey(shapes,
      if env.valueDependent(n) then
        seq(|inputs|, k requires 0 <= k < |inputs| =>
          if Foldable(g, env, n, k, inputs[k].shape) then env.decode(g[n].inputs[k], inputs[k].data) else [])
      else [])
  }

  /** The values folded into the clone: those of the key, downloaded again only where the key has none. */
  function Folded(g: Graph, env: Env, n: nat, key: ShapeKey, inputs: seq<TensorValue>): seq<seq<int>>
    requires n < |g| && |inputs| == |g[n].inputs| == |key.shapes|
  {
    seq(|inputs|, k requires 0 <= k < |inputs| =>
      if env.valueDependent(n) && Foldable(g, env, n, k, key.shapes[k]) then
        if k < |key.values| && key.values[k] != [] then key.values[k]
        else env.decode(g[n].inputs[k], inputs[k].data)
      else [])
  }

  predicate HasEmpty(shapes: seq<Shape>) {
    exists p :: 0 <= p < |shapes| && Elements(shapes[p]) == 0
  }

  /** createCachedOperation; `inputs` are the tensors behind the input pointers at the time of the call. */
  function CreateVariant(g: Graph, env: Env, n: nat, key: ShapeKey, inputs: seq<TensorValue>): (v: Variant)
    requires n < |g| && |inputs| == |g[n].inputs| == |key.shapes|
    ensures |v.sizes| == |v.shapes|
  {
    var shapes := env.infer(n, key.shapes, Folded(g, env, n, key, inputs));
    Variant(shapes,
            seq(|shapes|, p requires 0 <= p < |shapes| => AllocBytes(g, TensorName(n, p), shapes[p])),
            HasEmpty(shapes))
  }

  /** An output allocation is sized for at least one element. */
  function AllocBytes(g: Graph, t: TensorName, shape: Shape): nat {
    Type(g, t).elementSize * (if Elements(shape) == 0 then 1 else Elements(shape))
  }

  /** The cached variant is a function of the node and the key alone: whichever inputs the request that created it had,
      every later request with the same key would have built the same one. */
  lemma {:induction false} KeyDeterminesVariant(g: Graph, env: Env, n: nat, mine: seq<TensorValue>, theirs: seq<TensorValue>)
    requires n < |g| && |mine| == |theirs| == |g[n].inputs|
    requires MakeKey(g, env, n, mine) == MakeKey(g, env, n, theirs)
    ensures CreateVariant(g, env, n, MakeKey(g, env, n, mine), mine)
            == CreateVariant(g, env, n, MakeKey(g, env, n, theirs), theirs)
  {
    var key := MakeKey(g, env, n, mine);
    var a, b := Folded(g, env, n, key, mine), Folded(g, env, n, key, theirs);
    forall k | 0 <= k < |mine| ensures a[k] == b[k] {
      assert key.shapes[k] == mine[k].shape == theirs[k].shape;
    }
    assert a == b;
  }

  /** A scalar or a vector of 1 to 64 integers of 32 or 64 bits, that is not a constant of the graph. */
  predicate SmallIntegers(g: Graph, env: Env, t: TensorName, shape: Shape) {
    && !(t.node < |g| && g[t.node].kind.ConstantNode?) && env.integers(t)
    && (shape == [] || (|shape| == 1 && 1 <= shape[0] <= 64))
  }

  lemma {:induction false} FoldableIff(g: Graph, env: Env, n: nat, k: nat, shape: Shape)
    requires n < |g| && k < |g[n].inputs|
    ensures Foldable(g, env, n, k, shape) <==> SmallIntegers(g, env, g[n].inputs[k], shape)
  {
    if |shape| == 0 { assert shape == []; }
    if |shape| == 1 {
      assert shape[1..] == [];
      assert Elements(shape) == shape[0];
    }
  }

  /** The key of a value-dependent node holds all input shapes and, decoded, every small integer input, and so does what is
      folded into its clone; there is nothing else in either. */
  lemma {:induction false} KeyHolds(g: Graph, env: Env, n: nat, inputs: seq<TensorValue>, k: nat)
    requires n < |g| && |inputs| == |g[n].inputs| && k < |inputs|
    ensures var key := MakeKey(g, env, n, inputs);
            var t, v := g[n].inputs[k], inputs[k];
            var held := if env.valueDependent(n) && SmallIntegers(g, env, t, v.shape) then env.decode(t, v.data) else [];
            && key.shapes[k] == v.shape && Folded(g, env, n, key, inputs)[k] == held
            && (if env.valueDependent(n) then |key.values| == |inputs| && key.values[k] == held else key.values == [])
  {
    hide Elements, SmallIntegers;
    FoldableIff(g, env, n, k, inputs[k].shape);
  }

  /** Two requests of one node have the same key exactly if all their shapes agree and, where the output depends on values,
      all their small integer inputs. */
  lemma {:induction false} SameKeyIff(g: Graph, env: Env, n: nat, mine: seq<TensorValue>, theirs: seq<TensorValue>)
    requires n < |g| && |mine| == |theirs| == |g[n].inputs|
    ensures MakeKey(g, env, n, mine) == MakeKey(g, env, n, theirs) <==>
      forall k :: 0 <= k < |mine| ==>
        && mine[k].shape == theirs[k].shape
        && (env.valueDependent(n) && SmallIntegers(g, env, g[n].inputs[k], mine[k].shape) ==>
              env.decode(g[n].inputs[k], mine[k].data) == env.decode(g[n].inputs[k], theirs[k].data))
  {
    hide MakeKey, SmallIntegers, Folded, Foldable;
    var a, b := MakeKey(g, env, n, mine), MakeKey(g, env, n, theirs);
    forall k | 0 <= k < |mine|
      ensures a.shapes[k] == mine[k].shape && b.shapes[k] == theirs[k].shape
      ensures if env.valueDependent(n) then
                && |a.values| == |b.values| == |mine|
                && a.values[k] == (if SmallIntegers(g, env, g[n].inputs[k], mine[k].shape)
                                   then env.decode(g[n].inputs[k], mine[k].data) else [])
                && b.values[k] == (if SmallIntegers(g, env, g[n].inputs[k], theirs[k].shape)
                                   then env.decode(g[n].inputs[k], theirs[k].data) else [])
              else a.values == b.values
    {
      KeyHolds(g, env, n, mine, k);
      KeyHolds(g, env, n, theirs, k);
    }
    if |mine| == 0 { NoKey(g, env, n, mine, theirs); }
    if (forall k :: 0 <= k < |mine| ==>
          && mine[k].shape == theirs[k].shape
          && (env.valueDependent(n) && SmallIntegers(g, env, g[n].inputs[k], mine[k].shape) ==>
                env.decode(g[n].inputs[k], mine[k].data) == env.decode(g[n].inputs[k], theirs[k].data)))
    {
      assert a.shapes == b.shapes;
      if |mine| > 0 {
        assert a.shapes[0] == mine[0].shape;
        if env.valueDependent(n) {
          assert |a.values| == |b.values| == |mine|;
          forall k | 0 <= k < |mine| ensures a.values[k] == b.values[k] { assert mine[k].shape == theirs[k].shape; }
        }
        assert a.values == b.values;
      }
    }
  }

  lemma {:induction false} NoKey(g: Graph, env: Env, n: nat, mine: seq<TensorValue>, theirs: seq<TensorValue>)
    requires n < |g| && |mine| == |theirs| == |g[n].inputs| == 0
    ensures MakeKey(g, env, n, mine) == MakeKey(g, env, n, theirs)
  {
    assert mine == theirs;
  }

  /** A shape has no elements exactly if one of its dimensions is zero. */
  lemma {:induction false} EmptyIff(shape: Shape)
    ensures Elements(shape) == 0 <==> 0 in shape
  {
    if shape != [] {
      EmptyIff(shape[1..]);
      assert shape == [shape[0]] + shape[1..];
    }
  }

  lemma {:induction false} ElementsProduct(a: Shape, b: Shape)
    ensures Elements(a + b) == Elements(a) * Elements(b)
    ensures forall d :: Elements([d]) == d
  {
    forall d: nat ensures Elements([d]) == d { assert [d][1..] == []; }
    if a == [] {
      assert a + b == b;
    } else {
      ElementsProduct(a[1..], b);
      assert (a + b)[1..] == a[1..] + b;
      Regroup(a[0], Elements(a[1..]), Elements(b));
    }
  }

  /** The variant has the inferred shapes, at least one element's bytes per output, and is a null operation exactly if some
      output has a zero dimension. */
  lemma {:induction false} VariantHolds(g: Graph, env: Env, n: nat, inputs: seq<TensorValue>)
    requires n < |g| && |inputs| == |g[n].inputs|
    ensures var key := MakeKey(g, env, n, inputs);
            var v := CreateVariant(g, env, n, key, inputs);
            && v.shapes == env.infer(n, key.shapes, Folded(g, env, n, key, inputs))
            && (v.noop <==> exists p :: 0 <= p < |v.shapes| && 0 in v.shapes[p])
            && forall p :: 0 <= p < |v.sizes| ==>
                 v.sizes[p] == Type(g, TensorName(n, p)).elementSize
                               * (if 0 in v.shapes[p] then 1 else Elements(v.shapes[p]))
  {
    hide Elements, Folded, MakeKey;
    var v := CreateVariant(g, env, n, MakeKey(g, env, n, inputs), inputs);
    forall p | 0 <= p < |v.shapes| ensures Elements(v.shapes[p]) == 0 <==> 0 in v.shapes[p] { EmptyIff(v.shapes[p]); }
  }

  // ----- the executor

  /** DynamicBufferContext, and the request's block. */
  datatype Ctx = Ctx(allocations: map<BufferID, seq<Byte>>, shapes: map<BufferID, Shape>, block: Memory)

  ghost predicate Ready(plan: Plan) {
    Upward(plan.st.links) && |plan.work| == |plan.g|
  }

  function Register(c: Ctx, id: BufferID, allocation: seq<Byte>, shape: Shape): Ctx {
    c.(allocations := c.allocations[id := allocation], shapes := c.shapes[id := shape])
  }

  function ReleaseAll(c: Ctx, ids: set<BufferID>): Ctx {
    c.(allocations := c.allocations - ids)
  }

  /** createDynamicReleaseSchedule: the buffers without a static size whose lifespan ends at `n`. */
  function ReleaseSet(buffers: Buffers, n: nat): set<BufferID> {
    set r | r in buffers && buffers[r].size == 0 && buffers[r].end == n
  }

  function Malloc(env: Env, n: nat, p: nat, size: nat): seq<Byte> {
    seq(if size == 0 then 1 else size, i requires 0 <= i => env.garbage(n, p, i))
  }

  /** `data` written to the front of an allocation. */
  function Store(allocation: seq<Byte>, data: seq<Byte>): seq<Byte> {
    if |data| <= |allocation| then data + allocation[|data|..] else allocation
  }

  /** A copy of `count` bytes; what lies past the source is arbitrary. */
  function Transfer(env: Env, n: nat, source: seq<Byte>, count: nat): seq<Byte> {
    seq(count, i requires 0 <= i < count => if i < |source| then source[i] else env.garbage(n, 0, i))
  }

  /** The storage from `offset` on. */
  function From(storage: seq<Byte>, offset: nat): seq<Byte> {
    if offset <= |storage| then storage[offset..] else []
  }

  /** What an input pointer of node `n` points at: the registered allocation, to which only the memory manager adds the
      tensor's offset, else a constant, else the block; None where there is no pointer. */
  function Pointer(plan: Plan, c: Ctx, n: nat, t: TensorName): Option<seq<Byte>>
    requires Ready(plan) && n < |plan.g|
  {
    var id := IdOf(plan.st, t);
    if RootOf(plan.st, t) in c.allocations then
      Some(From(c.allocations[RootOf(plan.st, t)], if plan.g[n].dynamic then 0 else Offset(plan.st.links, id)))
    else if id in plan.st.immutableBuffers then Some(plan.st.immutableBuffers[id])
    else if RootOf(plan.st, t) in plan.place then Some(From(c.block, Address(plan, id)))
    else None
  }

  /** The shape an operation works with: a DynamicOperation asks the context first. */
  function InputShape(plan: Plan, env: Env, c: Ctx, n: nat, t: TensorName): Option<Shape>
    requires Ready(plan) && n < |plan.g|
  {
    if plan.g[n].dynamic && RootOf(plan.st, t) in c.shapes then Some(c.shapes[RootOf(plan.st, t)])
    else if Type(plan.g, t).elements.Some? then Some(env.staticShape(t))
    else None
  }

  /** What node `n` reads as its k-th input; None where the program throws or reads outside the storage. */
  function ReadInput(plan: Plan, env: Env, c: Ctx, n: nat, k: nat): Option<TensorValue>
    requires Ready(plan) && n < |plan.g| && k < |plan.g[n].inputs|
  {
    var t := plan.g[n].inputs[k];
    var pointer, shape := Pointer(plan, c, n, t), InputShape(plan, env, c, n, t);
    if t !in plan.st.tensorNames || pointer.None? || shape.None? then None
    else
      var count := DataBytes(plan.g, t, shape.value);
      if count <= |pointer.value| then Some(TensorValue(shape.value, pointer.value[..count])) else None
  }

  function ReadInputs(plan: Plan, env: Env, c: Ctx, n: nat, k: nat): (r: Option<seq<TensorValue>>)
    requires Ready(plan) && n < |plan.g| && k <= |plan.g[n].inputs|
    ensures r.Some? ==> |r.value| == k
  {
    if k == 0 then Some([])
    else
      var r, v := ReadInputs(plan, env, c, n, k - 1), ReadInput(plan, env, c, n, k - 1);
      if r.None? || v.None? then None else Some(r.value + [v.value])
  }

  /** A variable that has a state is read without looking at the initial value. */
  predicate Reads(g: Graph, env: Env, n: nat)
    requires n < |g|
  {
    !IsNop(g[n]) && !(g[n].kind.ReadValueNode? && env.state(n).Some?)
  }

  predicate PointersKnown(plan: Plan, c: Ctx, n: nat)
    requires Ready(plan) && n < |plan.g|
  {
    forall k :: 0 <= k < |plan.g[n].inputs| ==>
      plan.g[n].inputs[k] in plan.st.tensorNames && Pointer(plan, c, n, plan.g[n].inputs[k]).Some?
  }

  /** The inputs a node works on; pointers are resolved even where nothing is read. */
  function Gather(plan: Plan, env: Env, c: Ctx, n: nat): (r: Option<seq<TensorValue>>)
    requires Ready(plan) && n < |plan.g|
    ensures r.Some? && Reads(plan.g, env, n) ==> |r.value| == |plan.g[n].inputs|
  {
    if Reads(plan.g, env, n) then ReadInputs(plan, env, c, n, |plan.g[n].inputs|)
    else if PointersKnown(plan, c, n) then Some([])
    else None
  }

  /** A dynamic node sees one pointer for all tensors of a registered buffer, a static node each at its own offset. */
  lemma {:induction false} PointersShared(plan: Plan, c: Ctx, n: nat, s: TensorName, t: TensorName)
    requires Ready(plan) && n < |plan.g| && RootOf(plan.st, s) == RootOf(plan.st, t)
    requires RootOf(plan.st, t) in c.allocations
    ensures var whole := c.allocations[RootOf(plan.st, t)];
            && (plan.g[n].dynamic ==> Pointer(plan, c, n, s) == Pointer(plan, c, n, t) == Some(whole))
            && (!plan.g[n].dynamic && Offset(plan.st.links, IdOf(plan.st, t)) <= |whole| ==>
                  && Pointer(plan, c, n, t).Some?
                  && whole == whole[..Offset(plan.st.links, IdOf(plan.st, t))] + Pointer(plan, c, n, t).value)
  {
    hide RootOf, Offset, IdOf;
  }

  /** The allocation of output `p` after executeCachedOperation. */
  function CachedOutput(g: Graph, env: Env, n: nat, inputs: seq<TensorValue>, first: seq<Byte>, v: Variant, p: nat): seq<Byte>
    requires n < |g| && p < |v.sizes|
  {
    var raw := Malloc(env, n, p, v.sizes[p]);
    if g[n].kind.ReshapeNode? then (if p == 0 then Store(raw, Transfer(env, n, first, v.sizes[0])) else raw)
    else if v.noop then raw
    else Store(raw, OutputOf(env.op(n, inputs), p).data)
  }

  function OutputRoot(plan: Plan, n: nat, p: nat): BufferID
    requires Ready(plan)
  {
    RootOf(plan.st, TensorName(n, p))
  }

  function RegisterOutputs(plan: Plan, env: Env, c: Ctx, n: nat, inputs: seq<TensorValue>, first: seq<Byte>, v: Variant,
                           ports: nat): Ctx
    requires Ready(plan) && n < |plan.g| && ports <= |v.sizes| == |v.shapes|
  {
    if ports == 0 then c
    else
      var p := ports - 1;
      Register(RegisterOutputs(plan, env, c, n, inputs, first, v, p), OutputRoot(plan, n, p),
               CachedOutput(plan.g, env, n, inputs, first, v, p), v.shapes[p])
  }

  function FirstPointer(plan: Plan, c: Ctx, n: nat): seq<Byte>
    requires Ready(plan) && n < |plan.g|
  {
    if |plan.g[n].inputs| > 0 then Pointer(plan, c, n, plan.g[n].inputs[0]).GetOr([]) else []
  }

  /** One value in a buffer of its exact size. */
  function RegisterValue(plan: Plan, env: Env, c: Ctx, n: nat, v: TensorValue): Ctx
    requires Ready(plan)
  {
    Register(c, OutputRoot(plan, n, 0), Store(Malloc(env, n, 0, |v.data|), v.data), v.shape)
  }

  /** DynamicOperation::Execute. */
  function RunDynamic(plan: Plan, env: Env, c: Ctx, n: nat): Option<Ctx>
    requires Ready(plan) && n < |plan.g|
  {
    var read := Gather(plan, env, c, n);
    if read.None? then None
    else
      var node, inputs := plan.g[n], read.value;
      match node.kind
      case ParameterNode => Some(RegisterValue(plan, env, c, n, env.parameter(n)))
      case ResultNode => Some(c)
      case AssignNode => Some(ReleaseAll(c, ReleaseSet(plan.buffers, n)))
      case ReadValueNode => Some(RegisterValue(plan, env, c, n, StateValue(plan.g, env, n, inputs)))
      case _ =>
        if |inputs| != |node.inputs| then None
        else
          var v := CreateVariant(plan.g, env, n, MakeKey(plan.g, env, n, inputs), inputs);
          if |v.shapes| < |node.outputs| || (node.kind.ReshapeNode? && |inputs| == 0) then None
          else
            Some(ReleaseAll(RegisterOutputs(plan, env, c, n, inputs, FirstPointer(plan, c, n), v, |node.outputs|),
                            ReleaseSet(plan.buffers, n)))
  }

  /** The memory manager sends a static node's output to a registered allocation too, if its buffer has one; None where
      the output does not fit there. */
  function WriteOutput(plan: Plan, c: Ctx, t: TensorName, data: seq<Byte>): Option<Ctx>
    requires Ready(plan)
  {
    var root, id := RootOf(plan.st, t), IdOf(plan.st, t);
    if root in c.allocations then
      var o := Offset(plan.st.links, id);
      if o + |data| <= |c.allocations[root]| then
        Some(c.(allocations := c.allocations[root := Write(c.allocations[root], o, data)]))
      else None
    else if root in plan.place && Address(plan, id) + |data| <= |c.block| then
      Some(c.(block := Write(c.block, Address(plan, id), data)))
    else None
  }

  function WriteOutputs(plan: Plan, c: Ctx, n: nat, values: seq<TensorValue>, ports: nat): Option<Ctx>
    requires Ready(plan)
  {
    if ports == 0 then Some(c)
    else
      var before := WriteOutputs(plan, c, n, values, ports - 1);
      if before.None? then None
      else WriteOutput(plan, before.value, TensorName(n, ports - 1), OutputOf(values, ports - 1).data)
  }

  /** What node `n` finds: a static node's workbuffers may already be dirty by then. */
  function Seen(plan: Plan, env: Env, c: Ctx, n: nat): Ctx
    requires Ready(plan) && n < |plan.g|
  {
    if plan.g[n].dynamic || IsNop(plan.g[n]) then c else c.(block := Scribble(plan, env, c.block, n))
  }

  /** A statically shaped node: NopOps are skipped, aliases write nothing, every other op stores its outputs. */
  function RunStatic(plan: Plan, env: Env, c: Ctx, n: nat): Option<Ctx>
    requires Ready(plan) && n < |plan.g|
  {
    if IsNop(plan.g[n]) then Some(c)
    else
      var seen := Seen(plan, env, c, n);
      var read := Gather(plan, env, seen, n);
      if read.None? then None
      else if IsAlias(plan.g[n]) then Some(seen)
      else
        var after := WriteOutputs(plan, seen, n, Evaluate(plan.g, env, n, read.value), |plan.g[n].outputs|);
        if after.None? then None
        else Some(after.value.(block := Scribble(plan, env, after.value.block, n)))
  }

  /** The context after the first `n` nodes, from a block with arbitrary contents. */
  function Run(plan: Plan, env: Env, block: Memory, n: nat): Option<Ctx>
    requires Ready(plan) && n <= |plan.g|
  {
    if n == 0 then Some(Ctx(map[], map[], block))
    else
      var c := Run(plan, env, block, n - 1);
      if c.None? then None
      else if plan.g[n - 1].dynamic then RunDynamic(plan, env, c.value, n - 1)
      else RunStatic(plan, env, c.value, n - 1)
  }

  // ----- variable reads

  /** A dynamic variable that has a state is read whatever its initial value, as long as the pointers to it are known. */
  lemma {:induction false} StateRead(plan: Plan, env: Env, c: Ctx, n: nat)
    requires Ready(plan) && n < |plan.g| && plan.g[n].kind.ReadValueNode? && env.state(n).Some?
    ensures RunDynamic(plan, env, c, n)
            == if PointersKnown(plan, c, n) then Some(RegisterValue(plan, env, c, n, env.state(n).value)) else None
  {
    hide Pointer, RegisterValue;
  }

  lemma {:induction false} FirstRead(plan: Plan, env: Env, c: Ctx, n: nat, k: nat)
    requires Ready(plan) && n < |plan.g| && 0 < k <= |plan.g[n].inputs| && ReadInputs(plan, env, c, n, k).Some?
    ensures ReadInput(plan, env, c, n, 0) == Some(ReadInputs(plan, env, c, n, k).value[0])
  {
    hide ReadInput;
    if k > 1 { FirstRead(plan, env, c, n, k - 1); }
  }

  /** One that was reset yields its initial value as it reads it, or, without one, zeros at the initial shape. */
  lemma {:induction false} ResetRead(plan: Plan, env: Env, c: Ctx, n: nat)
    requires Ready(plan) && n < |plan.g| && plan.g[n].kind.ReadValueNode? && env.state(n).None?
    requires RunDynamic(plan, env, c, n).Some?
    ensures RunDynamic(plan, env, c, n).value
            == RegisterValue(plan, env, c, n,
                 if |plan.g[n].inputs| > 0 then ReadInput(plan, env, c, n, 0).GetOr(TensorValue([], []))
                 else TensorValue(env.initialShape(n), Zeros(DataBytes(plan.g, TensorName(n, 0), env.initialShape(n)))))
    ensures |plan.g[n].inputs| > 0 ==> ReadInput(plan, env, c, n, 0).Some?
  {
    hide ReadInput, RegisterValue;
    if |plan.g[n].inputs| > 0 { FirstRead(plan, env, c, n, |plan.g[n].inputs|); }
  }
}
