/** A run never misses a buffer or a shape, never reads past a release or into a reused place, and computes the reference
    values, if concats and renames keep dynamic outputs apart and nobody reads one that was left unwritten. */
module DynamicTheorems {
  import opened Options
  import opened Graphs
  import opened BufferSpec
  import opened BufferInvariant
  import opened BufferRuns
  import opened BufferTheorems
  import opened BufferLayout
  import opened TensorValues
  import opened SharedMemory
  import opened DynamicRegions
  import opened SharedBlock
  import opened DynamicRun

  // ----- what the operations provide

  predicate IsCached(node: Node) {
    node.dynamic && (node.kind.ComputeNode? || node.kind.ReshapeNode?)
  }

  function ShapesOf(values: seq<TensorValue>): (shapes: seq<Shape>)
    ensures |shapes| == |values| && forall p :: 0 <= p < |values| ==> shapes[p] == values[p].shape
  {
    seq(|values|, p requires 0 <= p < |values| => values[p].shape)
  }

  function ReferenceVariant(g: Graph, env: Env, n: nat): Variant
    requires Topological(g) && n < |g|
  {
    CreateVariant(g, env, n, MakeKey(g, env, n, References(g, env, n)), References(g, env, n))
  }

  /** Shape inference on the key gives the true shapes, and a reshape keeps the bytes. */
  ghost predicate VariantsFit(g: Graph, env: Env)
    requires Topological(g)
  {
    && (forall n :: 0 <= n < |g| && IsCached(g[n]) ==>
          ReferenceVariant(g, env, n).shapes == ShapesOf(ReferenceOutputs(g, env, n)))
    && (forall n :: 0 <= n < |g| && IsCached(g[n]) && g[n].kind.ReshapeNode? && |g[n].inputs| > 0 ==>
          Reference(g, env, TensorName(n, 0)).data == Reference(g, env, g[n].inputs[0]).data)
  }

  /** Node `n` would compute both empty and non-empty outputs. */
  predicate Mixed(shapes: seq<Shape>) {
    HasEmpty(shapes) && exists p :: 0 <= p < |shapes| && Elements(shapes[p]) != 0
  }

  /** A node with an empty output becomes a null operation, which leaves its non-empty outputs as they were allocated. */
  ghost predicate Unwritten(g: Graph, env: Env, d: TensorName)
    requires Topological(g)
  {
    && d.node < |g| && IsCached(g[d.node]) && g[d.node].kind.ComputeNode?
    && HasEmpty(ShapesOf(ReferenceOutputs(g, env, d.node))) && Reference(g, env, d).data != []
  }

  /** No node reads such an output, under whatever name. */
  ghost predicate ReadsWritten(g: Graph, env: Env)
    requires Topological(g)
  {
    forall n, k :: 0 <= n < |g| && 0 <= k < |g[n].inputs| && Reads(g, env, n) ==>
      !Unwritten(g, env, Origin(g, g[n].inputs[k]))
  }

  // ----- the invariant

  predicate Fits(allocation: seq<Byte>, data: seq<Byte>) {
    |data| <= |allocation| && allocation[..|data|] == data
  }

  /** What the buffer of a dynamic node's output holds: its bytes, or what fresh memory contained. */
  ghost predicate Left(g: Graph, env: Env, d: TensorName, bytes: seq<Byte>)
    requires Topological(g)
  {
    if Unwritten(g, env, d) then bytes != [] && bytes[0] == env.garbage(d.node, d.port, 0)
    else Fits(bytes, Reference(g, env, d).data)
  }

  /** Buffer `r` has not been released before node `n` runs. */
  predicate Unreleased(st: State, r: BufferID, n: nat) {
    r in st.mutableBuffers && (st.mutableBuffers[r].size == 0 ==> n <= st.mutableBuffers[r].end)
  }

  /** The context knows the tensor's shape and, until the buffer is released, its bytes. */
  ghost predicate HeldAt(g: Graph, st: State, env: Env, c: Ctx, n: nat, t: TensorName)
    requires Topological(g) && Upward(st.links)
  {
    var r := RootOf(st, t);
    && r in c.shapes && c.shapes[r] == Reference(g, env, t).shape
    && (Unreleased(st, r, n) ==> r in c.allocations && Left(g, env, t, c.allocations[r]))
  }

  ghost predicate DynamicHeld(g: Graph, st: State, env: Env, c: Ctx, n: nat)
    requires Topological(g) && Upward(st.links)
  {
    forall t :: Own(g, t) && g[t.node].dynamic && t.node < n && t in st.tensorNames ==> HeldAt(g, st, env, c, n, t)
  }

  /** Buffer `r` was registered by the dynamic node that produced some tensor living there. */
  ghost predicate RegisteredBy(g: Graph, st: State, t: TensorName, r: BufferID)
    requires Upward(st.links)
  {
    Own(g, t) && g[t.node].dynamic && t in st.tensorNames && RootOf(st, t) == r
  }

  ghost predicate OnlyDynamic(g: Graph, st: State, c: Ctx)
    requires Upward(st.links)
  {
    forall id :: id in c.allocations || id in c.shapes ==> exists t :: RegisteredBy(g, st, t, id)
  }

  ghost predicate RunInv(plan: Plan, env: Env, c: Ctx, n: nat)
    requires Topological(plan.g) && Upward(plan.st.links)
  {
    && DynamicHeld(plan.g, plan.st, env, c, n) && OnlyDynamic(plan.g, plan.st, c)
    && BlockHeld(plan, env, c.block, n)
  }

  /** The extractor's plan together with everything assumed of the graph. */
  ghost predicate Setting(plan: Plan, env: Env, block: nat) {
    KeptApart(plan, env, block) && VariantsFit(plan.g, env)
  }

  lemma {:induction false} SettingFacts(plan: Plan, env: Env, block: nat)
    requires Setting(plan, env, block)
    ensures Regions(plan.g, plan.st) && ConcatsApart(plan.g) && Final(plan.g, plan.st) && Ready(plan)
    ensures Topological(plan.g) && GoodGraph(plan.g) && ValuesFit(plan.g, env)
    ensures VariantsFit(plan.g, env) && WorkAdded(plan) && KeptApart(plan, env, block)
  {
    hide ConcatsApart, Placement, ValuesFit, VariantsFit, Final, GoodGraph, WorkAdded, Regions;
    KeptRegions(plan, env, block);
    KeptGood(plan, env, block);
  }

  lemma {:induction false} KeptGood(plan: Plan, env: Env, block: nat)
    requires KeptApart(plan, env, block)
    ensures GoodGraph(plan.g) && ValuesFit(plan.g, env) && WorkAdded(plan)
  {
    hide ConcatsApart, Placement, ValuesFit, GoodGraph, WorkAdded, Extracted;
  }

  // ----- the bytes behind a pointer

  lemma {:induction false} DynamicUnreleased(g: Graph, st: State, d: TensorName, n: nat, k: nat)
    requires Regions(g, st) && Upward(st.links) && n < |g| && k < |g[n].inputs| && d in st.tensorNames && Own(g, d)
    requires g[d.node].dynamic && RootOf(st, d) == RootOf(st, g[n].inputs[k])
    ensures Unreleased(st, RootOf(st, d), n)
  {
    hide Regions, Final;
    RegionsFinal(g, st);
    RegionsGood(g, st);
    NotConstant(g, st, d);
    RootKnown(g, st, d);
    ConsumerInLife(g, st, n, k);
  }

  lemma {:induction false} NotConstant(g: Graph, st: State, d: TensorName)
    requires Final(g, st) && GoodGraph(g) && d in st.tensorNames && Own(g, d) && g[d.node].dynamic
    ensures st.tensorNames[d] !in st.immutableBuffers
  {
    hide Named, AliasesFollow, Ordered, ParentsKnown, Placed, Sized, OnlyConcatsContain, Packed, BuffersSized,
      Classified, Rooted, WellFormed, BytesKept;
  }

  /** Bytes of a dynamic node, under whatever name, are still allocated when they are read. */
  lemma {:induction false} DynamicPointer(plan: Plan, env: Env, block: nat, c: Ctx, n: nat, k: nat)
    requires Setting(plan, env, block) && Ready(plan) && Topological(plan.g) && n < |plan.g| && k < |plan.g[n].inputs|
    requires RunInv(plan, env, c, n) && ProducedDynamically(plan.g, Origin(plan.g, plan.g[n].inputs[k]))
    ensures var t := plan.g[n].inputs[k];
            && t in plan.st.tensorNames && RootOf(plan.st, t) in c.shapes
            && c.shapes[RootOf(plan.st, t)] == Reference(plan.g, env, Origin(plan.g, t)).shape
            && RootOf(plan.st, t) in c.allocations
            && Pointer(plan, c, n, t).Some? && Left(plan.g, env, Origin(plan.g, t), Pointer(plan, c, n, t).value)
            && Reference(plan.g, env, t).data == Reference(plan.g, env, Origin(plan.g, t)).data
  {
    hide Setting, BlockHeld, OnlyDynamic, Regions, Reference, Unreleased, Final, Left;
    SettingFacts(plan, env, block);
    var t := plan.g[n].inputs[k];
    KnownInput(plan.g, plan.st, n, k);
    OriginFacts(plan.g, plan.st, env, t);
    var d := Origin(plan.g, t);
    DynamicUnreleased(plan.g, plan.st, d, n, k);
    OriginTwice(plan.g, t);
    NoOffset(plan.g, plan.st, d);
    assert IdOf(plan.st, t) == plan.st.tensorNames[t];
    FromStart(c.allocations[RootOf(plan.st, d)]);
  }

  lemma {:induction false} FromStart(storage: seq<Byte>)
    ensures From(storage, 0) == storage
  {}

  /** No registered buffer holds a tensor whose bytes come from a static node. */
  lemma {:induction false} StaticUnregistered(g: Graph, st: State, env: Env, c: Ctx, t: TensorName)
    requires Regions(g, st) && ConcatsApart(g) && Upward(st.links) && OnlyDynamic(g, st, c) && t in st.tensorNames
    requires !ProducedDynamically(g, Origin(g, t))
    ensures RootOf(st, t) !in c.allocations && RootOf(st, t) !in c.shapes
  {
    hide Regions;
    if RootOf(st, t) in c.allocations || RootOf(st, t) in c.shapes {
      var d :| RegisteredBy(g, st, d, RootOf(st, t));
      RootUnique(g, st, env, d, t);
    }
  }

  /** Bytes of a static node are found in the block or among the constants. */
  lemma {:induction false} StaticPointer(plan: Plan, env: Env, c: Ctx, n: nat, k: nat)
    requires Setting(plan, env, |c.block|) && Ready(plan) && Topological(plan.g) && n < |plan.g| && k < |plan.g[n].inputs|
    requires RunInv(plan, env, c, n) && !ProducedDynamically(plan.g, Origin(plan.g, plan.g[n].inputs[k]))
    ensures var t, seen := plan.g[n].inputs[k], Seen(plan, env, c, n);
            && t in plan.st.tensorNames && RootOf(plan.st, t) !in c.shapes && Type(plan.g, t).elements.Some?
            && Pointer(plan, seen, n, t).Some? && Fits(Pointer(plan, seen, n, t).value, Reference(plan.g, env, t).data)
  {
    hide Setting, DynamicHeld, Regions, Reference, Final, BlockHeld, HoldsAt, KeptApart, ConcatsApart, GoodGraph, ValuesFit,
      VariantsFit, WorkAdded;
    SettingFacts(plan, env, |c.block|);
    var t := plan.g[n].inputs[k];
    KnownInput(plan.g, plan.st, n, k);
    StaticUnregistered(plan.g, plan.st, env, c, t);
    StaticType(plan.g, plan.st, t);
    if plan.st.tensorNames[t] in plan.st.immutableBuffers {
      ConstantBytes(plan.g, plan.st, env, t);
    } else {
      BlockPointer(plan, env, c, n, k);
    }
  }

  lemma {:induction false} StaticType(g: Graph, st: State, t: TensorName)
    requires Regions(g, st) && t in st.tensorNames && !ProducedDynamically(g, Origin(g, t))
    ensures Type(g, t).elements.Some?
  {
    hide Regions, Final;
    RegionsFinal(g, st);
    RegionsGood(g, st);
    AliasBytes(g, st, t);
    SourceFacts(g, st, t);
    SourceStatic(g, st, t);
    StaticBytes(g, Source(g, t));
  }

  lemma {:induction false} BlockPointer(plan: Plan, env: Env, c: Ctx, n: nat, k: nat)
    requires KeptApart(plan, env, |c.block|) && Ready(plan) && Topological(plan.g) && n < |plan.g| && k < |plan.g[n].inputs|
    requires BlockHeld(plan, env, c.block, n) && Stored(plan.g, plan.st, plan.g[n].inputs[k])
    requires RootOf(plan.st, plan.g[n].inputs[k]) !in c.allocations
    ensures var t, seen := plan.g[n].inputs[k], Seen(plan, env, c, n);
            Pointer(plan, seen, n, t).Some? && Fits(Pointer(plan, seen, n, t).value, Reference(plan.g, env, t).data)
  {
    hide KeptApart, Regions, Reference, Final, Scribble;
    KeptRegions(plan, env, |c.block|);
    var t := plan.g[n].inputs[k];
    InputLive(plan.g, plan.st, n, k);
    assert HoldsAt(plan, env, c.block, t);
    StoredInside(plan, env, |c.block|, t);
    if !plan.g[n].dynamic && !IsNop(plan.g[n]) { ScribbleKeeps(plan, env, c.block, n, t); }
    FromHolds(Seen(plan, env, c, n).block, Address(plan, IdOf(plan.st, t)), Reference(plan.g, env, t).data);
  }

  lemma {:induction false} FromHolds(mem: Memory, a: nat, data: seq<Byte>)
    requires HoldsBytes(mem, a, data)
    ensures Fits(From(mem, a), data)
  {}

  /** Whatever produced it, the bytes behind the pointer of an input begin with its reference bytes, if they were written. */
  lemma {:induction false} PointerFits(plan: Plan, env: Env, c: Ctx, n: nat, k: nat)
    requires Setting(plan, env, |c.block|) && Ready(plan) && Topological(plan.g) && n < |plan.g| && k < |plan.g[n].inputs|
    requires RunInv(plan, env, c, n)
    ensures var t, seen := plan.g[n].inputs[k], Seen(plan, env, c, n);
            && t in plan.st.tensorNames
            && Pointer(plan, seen, n, t).Some?
            && (Unwritten(plan.g, env, Origin(plan.g, t))
                || Fits(Pointer(plan, seen, n, t).value, Reference(plan.g, env, t).data))
  {
    hide Setting, DynamicHeld, OnlyDynamic, Reference, BlockHeld, Fits, Pointer, Scribble, Unwritten;
    if ProducedDynamically(plan.g, Origin(plan.g, plan.g[n].inputs[k])) {
      DynamicPointer(plan, env, |c.block|, c, n, k);
      PointerSeen(plan, env, c, n, plan.g[n].inputs[k]);
    } else {
      StaticPointer(plan, env, c, n, k);
    }
  }

  /** Dirty workbuffers do not matter to a pointer into an allocation. */
  lemma {:induction false} PointerSeen(plan: Plan, env: Env, c: Ctx, n: nat, t: TensorName)
    requires Ready(plan) && n < |plan.g| && RootOf(plan.st, t) in c.allocations
    ensures Pointer(plan, Seen(plan, env, c, n), n, t) == Pointer(plan, c, n, t)
  {
    hide Scribble;
  }

  // ----- reading: exactly when the shape is right

  /** What a dynamic node sees of input (n, k) is the shape its bytes were registered with: `t` shows no other. */
  predicate ShapeKept(g: Graph, env: Env, t: TensorName) {
    || Label(g, t) == Origin(g, t)
    || env.staticShape(Label(g, t)) == env.staticShape(Origin(g, t))
  }

  /** No dynamic node reads a dynamic node's bytes through a rename that changes the shape. */
  predicate RenamesKept(g: Graph, env: Env) {
    forall n, k :: 0 <= n < |g| && 0 <= k < |g[n].inputs| && g[n].dynamic && Reads(g, env, n)
                   && ProducedDynamically(g, Origin(g, g[n].inputs[k])) ==>
      ShapeKept(g, env, g[n].inputs[k])
  }

  lemma {:induction false} ConcatInputTyped(g: Graph, m: nat, k: nat)
    requires GoodGraph(g) && m < |g| && g[m].kind.ConcatNode? && k < |g[m].inputs|
    ensures Type(g, g[m].inputs[k]).elements.Some?
  {
    hide WellFormed, Topological, BytesKept;
  }

  /** What a static node reads, and what it is made of through any renames, is statically typed. */
  lemma {:induction false} OriginTyped(g: Graph, st: State, t: TensorName)
    requires Regions(g, st) && t in st.tensorNames && Type(g, t).elements.Some?
    ensures Type(g, Origin(g, t)).elements.Some?
    decreases t.node
  {
    hide Regions, Final, GoodGraph;
    RegionsFinal(g, st);
    NameExists(g, st, t);
    if IsAlias(g[t.node]) {
      SourceFacts(g, st, t);
      AliasKnown(g, st, t);
      OriginOfSource(g, t);
      OriginOfSource(g, g[t.node].inputs[0]);
      OriginTyped(g, st, g[t.node].inputs[0]);
    } else if IsSingle(g[t.node]) {
      KnownInput(g, st, t.node, 0);
      RegionsGood(g, st);
      ConcatInputTyped(g, t.node, 0);
      OriginTyped(g, st, g[t.node].inputs[0]);
    }
  }

  /** An alias shows its first input. */
  lemma {:induction false} AliasKnown(g: Graph, st: State, t: TensorName)
    requires Regions(g, st) && t in st.tensorNames && Exists(g, t) && IsAlias(g[t.node])
    ensures |g[t.node].inputs| > 0 && g[t.node].inputs[0] in st.tensorNames && g[t.node].inputs[0].node < t.node
    ensures Source(g, t) == Source(g, g[t.node].inputs[0])
    ensures Type(g, t).elements.Some? ==> Type(g, g[t.node].inputs[0]).elements.Some?
  {
    hide Tiled, Covered, LinkedByConcat, BytesKept, WellFormed, Named, Ordered, ParentsKnown, Placed, Sized,
      OnlyConcatsContain, ConstantsKept, Packed, BuffersSized, Classified, Rooted;
  }

  /** The label of a tensor has its shape; unless the tensor is shown as it was produced, it is a static rename. */
  lemma {:induction false} LabelFacts(g: Graph, st: State, env: Env, t: TensorName)
    requires Regions(g, st) && Topological(g) && t in st.tensorNames
    ensures var l := Label(g, t);
            && l in st.tensorNames && Reference(g, env, l).shape == Reference(g, env, t).shape
            && Origin(g, l) == Origin(g, t)
            && (l == Origin(g, t) || Type(g, l).elements.Some?)
    decreases t.node
  {
    hide Regions, Final, GoodGraph, BytesKept, Reference, Topological;
    RegionsFinal(g, st);
    RegionsGood(g, st);
    GoodTopological(g);
    NameExists(g, st, t);
    if IsAlias(g[t.node]) && !g[t.node].kind.ReshapeNode? {
      AliasKnown(g, st, t);
      OriginOfSource(g, t);
      OriginOfSource(g, g[t.node].inputs[0]);
      LabelFacts(g, st, env, g[t.node].inputs[0]);
      ShownAs(g, env, t);
    } else {
      DeclaredOrProduced(g, t);
    }
  }

  /** A tensor no sink or parameter renames is shown as it was produced, or its node is static. */
  lemma {:induction false} DeclaredOrProduced(g: Graph, t: TensorName)
    requires GoodGraph(g) && Exists(g, t) && (IsAlias(g[t.node]) ==> g[t.node].kind.ReshapeNode?)
    ensures Origin(g, t) == t || Type(g, t).elements.Some?
  {
    hide Topological, BytesKept;
    assert WellFormedNode(g[t.node]);
  }

  lemma {:induction false} ShownAs(g: Graph, env: Env, t: TensorName)
    requires Topological(g) && Exists(g, t) && IsAlias(g[t.node]) && !g[t.node].kind.ReshapeNode? && |g[t.node].inputs| > 0
    ensures Reference(g, env, t) == Reference(g, env, g[t.node].inputs[0])
  {}

  /** Whether a rename of a dynamic node's bytes shows them in their own shape can be read off the declared shapes. */
  lemma {:induction false} KeptIff(g: Graph, st: State, env: Env, t: TensorName)
    requires Regions(g, st) && Topological(g) && ValuesFit(g, env) && t in st.tensorNames
    ensures ShapeKept(g, env, t) <==> Reference(g, env, t).shape == Reference(g, env, Origin(g, t)).shape
  {
    hide Regions, Reference, Elements, Final;
    RegionsFinal(g, st);
    LabelFacts(g, st, env, t);
    var l, o := Label(g, t), Origin(g, t);
    if l != o {
      OriginTyped(g, st, l);
      NameExists(g, st, l);
      assert Exists(g, o);
      assert Typed(g, env, l, Reference(g, env, l)) && Typed(g, env, o, Reference(g, env, o));
    }
  }

  /** The shape node `n` works with. */
  lemma {:induction false} ShapeRead(plan: Plan, env: Env, c: Ctx, n: nat, k: nat)
    requires Setting(plan, env, |c.block|) && Ready(plan) && Topological(plan.g) && n < |plan.g| && k < |plan.g[n].inputs|
    requires RunInv(plan, env, c, n)
    ensures var t := plan.g[n].inputs[k];
            InputShape(plan, env, Seen(plan, env, c, n), n, t)
            == Some(Reference(plan.g, env, if plan.g[n].dynamic && ProducedDynamically(plan.g, Origin(plan.g, t))
                                           then Origin(plan.g, t) else t).shape)
  {
    hide Setting, DynamicHeld, OnlyDynamic, Reference, BlockHeld, Pointer, Scribble, Regions, Final, Elements;
    SettingFacts(plan, env, |c.block|);
    var t := plan.g[n].inputs[k];
    KnownInput(plan.g, plan.st, n, k);
    assert Typed(plan.g, env, t, Reference(plan.g, env, t));
    if ProducedDynamically(plan.g, Origin(plan.g, t)) {
      DynamicPointer(plan, env, |c.block|, c, n, k);
    } else {
      StaticPointer(plan, env, c, n, k);
    }
  }

  /** What was written is read with its reference shape and bytes, unless a dynamic node sees renamed bytes in their old
      shape. */
  lemma {:induction false} ReadIff(plan: Plan, env: Env, c: Ctx, n: nat, k: nat)
    requires Setting(plan, env, |c.block|) && Ready(plan) && Topological(plan.g) && n < |plan.g| && k < |plan.g[n].inputs|
    requires RunInv(plan, env, c, n)
    ensures var t := plan.g[n].inputs[k];
            var right := ReadInput(plan, env, Seen(plan, env, c, n), n, k) == Some(Reference(plan.g, env, t));
            var kept := plan.g[n].dynamic && ProducedDynamically(plan.g, Origin(plan.g, t)) ==> ShapeKept(plan.g, env, t);
            (right ==> kept) && (!Unwritten(plan.g, env, Origin(plan.g, t)) ==> (right <==> kept))
  {
    hide Setting, RunInv, Reference, Pointer, InputShape, Regions, Final, Elements, ShapeKept, Seen, VariantsFit,
      WorkAdded, KeptApart, ConcatsApart;
    SettingFacts(plan, env, |c.block|);
    var t := plan.g[n].inputs[k];
    PointerFits(plan, env, c, n, k);
    ShapeRead(plan, env, c, n, k);
    KeptIff(plan.g, plan.st, env, t);
    assert Exists(plan.g, t) by { KnownInput(plan.g, plan.st, n, k); }
    assert Typed(plan.g, env, t, Reference(plan.g, env, t));
  }

  /** All inputs of node `n` are read as the reference has them. */
  ghost predicate ReadsRight(plan: Plan, env: Env, c: Ctx, n: nat)
    requires Ready(plan) && Topological(plan.g) && n < |plan.g|
  {
    forall k :: 0 <= k < |plan.g[n].inputs| ==>
      ReadInput(plan, env, Seen(plan, env, c, n), n, k) == Some(Reference(plan.g, env, plan.g[n].inputs[k]))
  }

  lemma {:induction false} ReadsReferences(plan: Plan, env: Env, c: Ctx, n: nat, k: nat)
    requires Ready(plan) && Topological(plan.g) && n < |plan.g| && k <= |plan.g[n].inputs| && ReadsRight(plan, env, c, n)
    ensures ReadInputs(plan, env, Seen(plan, env, c, n), n, k) == Some(References(plan.g, env, n)[..k])
  {
    hide Reference, ReadInput, Seen;
    var refs := References(plan.g, env, n);
    if k == 0 {
      assert refs[..0] == [];
    } else {
      ReadsReferences(plan, env, c, n, k - 1);
      assert refs[..k] == refs[..k - 1] + [refs[k - 1]];
    }
  }

  /** What a node works on: its reference inputs, or nothing where it reads nothing. */
  lemma {:induction false} Gathers(plan: Plan, env: Env, c: Ctx, n: nat)
    requires Setting(plan, env, |c.block|) && Ready(plan) && Topological(plan.g) && n < |plan.g|
    requires RunInv(plan, env, c, n) && (Reads(plan.g, env, n) ==> ReadsRight(plan, env, c, n))
    ensures Gather(plan, env, Seen(plan, env, c, n), n)
            == Some(if Reads(plan.g, env, n) then References(plan.g, env, n) else [])
  {
    hide Setting, RunInv, Reference, ReadInput, Pointer, Seen, ReadsRight;
    var refs := References(plan.g, env, n);
    if Reads(plan.g, env, n) {
      ReadsReferences(plan, env, c, n, |plan.g[n].inputs|);
      assert refs[..|plan.g[n].inputs|] == refs;
    } else {
      forall k | 0 <= k < |plan.g[n].inputs|
        ensures plan.g[n].inputs[k] in plan.st.tensorNames
                && Pointer(plan, Seen(plan, env, c, n), n, plan.g[n].inputs[k]).Some?
      {
        PointerFits(plan, env, c, n, k);
      }
    }
  }

  /** A node that reads nothing computes the same from nothing. */
  lemma {:induction false} EvaluatesSame(g: Graph, env: Env, n: nat)
    requires Topological(g) && n < |g| && !IsNop(g[n]) && !Reads(g, env, n)
    ensures Evaluate(g, env, n, []) == ReferenceOutputs(g, env, n)
  {}

  // ----- registering outputs

  /** A node's dynamic outputs are rooted apart from each other and from everything registered earlier. */
  lemma {:induction false} OutputKnown(plan: Plan, env: Env, block: nat, n: nat, p: nat)
    requires Setting(plan, env, block) && Ready(plan) && n < |plan.g| && plan.g[n].dynamic && !IsAlias(plan.g[n])
    requires p < |plan.g[n].outputs|
    ensures RegisteredBy(plan.g, plan.st, TensorName(n, p), OutputRoot(plan, n, p))
  {
    hide Setting, Regions, Final;
    SettingFacts(plan, env, block);
    NameExists(plan.g, plan.st, TensorName(n, p));
  }

  lemma {:induction false} RootsDiffer(g: Graph, st: State, env: Env, s: TensorName, t: TensorName)
    requires Regions(g, st) && ConcatsApart(g) && Upward(st.links)
    requires RegisteredBy(g, st, s, RootOf(st, s)) && RegisteredBy(g, st, t, RootOf(st, t)) && s != t
    ensures RootOf(st, s) != RootOf(st, t)
  {
    hide Regions;
    if RootOf(st, s) == RootOf(st, t) {
      RootUnique(g, st, env, s, t);
      DynamicIsOrigin(g, st, t);
      assert false;
    }
  }

  lemma {:induction false} OutputsApart(plan: Plan, env: Env, block: nat, n: nat)
    requires Setting(plan, env, block) && Ready(plan) && n < |plan.g| && plan.g[n].dynamic && !IsAlias(plan.g[n])
    ensures forall p, q :: 0 <= p < q < |plan.g[n].outputs| ==> OutputRoot(plan, n, p) != OutputRoot(plan, n, q)
  {
    hide Setting, Regions, Final;
    SettingFacts(plan, env, block);
    forall p, q | 0 <= p < q < |plan.g[n].outputs| ensures OutputRoot(plan, n, p) != OutputRoot(plan, n, q) {
      OutputKnown(plan, env, block, n, p);
      OutputKnown(plan, env, block, n, q);
      RootsDiffer(plan.g, plan.st, env, TensorName(n, p), TensorName(n, q));
    }
  }

  /** `c'` differs from `c` only by the first `ports` outputs of `n`, each registered with the given bytes and shape. */
  ghost predicate Registered(plan: Plan, c: Ctx, c': Ctx, n: nat, data: seq<seq<Byte>>, shapes: seq<Shape>, ports: nat)
    requires Ready(plan) && ports <= |data| && ports <= |shapes|
  {
    && c'.block == c.block
    && (forall p :: 0 <= p < ports ==>
          var id := OutputRoot(plan, n, p);
          && id in c'.allocations && c'.allocations[id] == data[p] && id in c'.shapes && c'.shapes[id] == shapes[p])
    && (forall id :: (forall p: nat :: p < ports ==> id != OutputRoot(plan, n, p)) ==>
          && (id in c'.allocations <==> id in c.allocations) && (id in c.allocations ==> c'.allocations[id] == c.allocations[id])
          && (id in c'.shapes <==> id in c.shapes) && (id in c.shapes ==> c'.shapes[id] == c.shapes[id]))
  }

  function CachedOutputs(g: Graph, env: Env, n: nat, inputs: seq<TensorValue>, first: seq<Byte>, v: Variant): (s: seq<seq<Byte>>)
    requires n < |g|
    ensures |s| == |v.sizes| && forall p :: 0 <= p < |s| ==> s[p] == CachedOutput(g, env, n, inputs, first, v, p)
  {
    seq(|v.sizes|, p requires 0 <= p < |v.sizes| => CachedOutput(g, env, n, inputs, first, v, p))
  }

  lemma {:induction false} RegisteredNone(plan: Plan, c: Ctx, n: nat, data: seq<seq<Byte>>, shapes: seq<Shape>)
    requires Ready(plan)
    ensures Registered(plan, c, c, n, data, shapes, 0)
  {}

  lemma {:induction false} RegisterNext(plan: Plan, c: Ctx, mid: Ctx, n: nat, data: seq<seq<Byte>>, shapes: seq<Shape>,
                                        ports: nat)
    requires Ready(plan) && 0 < ports <= |data| && ports <= |shapes| && Registered(plan, c, mid, n, data, shapes, ports - 1)
    requires forall q :: 0 <= q < ports - 1 ==> OutputRoot(plan, n, q) != OutputRoot(plan, n, ports - 1)
    ensures Registered(plan, c, Register(mid, OutputRoot(plan, n, ports - 1), data[ports - 1], shapes[ports - 1]), n, data,
                       shapes, ports)
  {
    hide OutputRoot;
  }

  lemma {:induction false} RegistersOutputs(plan: Plan, env: Env, c: Ctx, n: nat, inputs: seq<TensorValue>,
                                            first: seq<Byte>, v: Variant, ports: nat)
    requires Ready(plan) && n < |plan.g| && ports <= |v.sizes| == |v.shapes|
    requires forall p, q :: 0 <= p < q < ports ==> OutputRoot(plan, n, p) != OutputRoot(plan, n, q)
    ensures Registered(plan, c, RegisterOutputs(plan, env, c, n, inputs, first, v, ports), n,
                       CachedOutputs(plan.g, env, n, inputs, first, v), v.shapes, ports)
  {
    hide CachedOutput, Registered, OutputRoot, CachedOutputs;
    var data := CachedOutputs(plan.g, env, n, inputs, first, v);
    if ports == 0 {
      RegisteredNone(plan, c, n, data, v.shapes);
    } else {
      RegistersOutputs(plan, env, c, n, inputs, first, v, ports - 1);
      RegisterNext(plan, c, RegisterOutputs(plan, env, c, n, inputs, first, v, ports - 1), n, data, v.shapes, ports);
    }
  }

  // ----- the bytes of an output

  lemma {:induction false} StoreFits(allocation: seq<Byte>, data: seq<Byte>)
    requires |data| <= |allocation|
    ensures Fits(Store(allocation, data), data)
  {}

  /** A transfer of at least `data`'s bytes from storage that begins with `data` begins with `data`. */
  lemma {:induction false} TransferFits(env: Env, n: nat, source: seq<Byte>, data: seq<Byte>, count: nat, raw: seq<Byte>)
    requires Fits(source, data) && |data| <= count <= |raw|
    ensures Fits(Store(raw, Transfer(env, n, source, count)), data)
  {
    var moved := Transfer(env, n, source, count);
    forall i | 0 <= i < |data| ensures moved[i] == data[i] {
      assert source[..|data|][i] == data[i];
    }
  }

  // ----- one dynamic node

  function OwnPorts(node: Node): nat {
    if IsAlias(node) then 0 else |node.outputs|
  }

  ghost predicate OutputsFit(g: Graph, env: Env, n: nat, data: seq<seq<Byte>>, shapes: seq<Shape>)
    requires Topological(g) && n < |g|
  {
    && |data| >= OwnPorts(g[n]) && |shapes| >= OwnPorts(g[n])
    && forall p :: 0 <= p < OwnPorts(g[n]) ==>
         Left(g, env, TensorName(n, p), data[p]) && shapes[p] == Reference(g, env, TensorName(n, p)).shape
  }

  /** An earlier dynamic output is rooted apart from those of node `n`. */
  lemma {:induction false} EarlierDiffers(plan: Plan, env: Env, block: nat, n: nat, t: TensorName)
    requires Setting(plan, env, block) && Ready(plan) && n < |plan.g| && plan.g[n].dynamic
    requires RegisteredBy(plan.g, plan.st, t, RootOf(plan.st, t)) && t.node < n
    ensures forall p: nat :: p < OwnPorts(plan.g[n]) ==> RootOf(plan.st, t) != OutputRoot(plan, n, p)
  {
    hide Setting, Regions, Final, OutputRoot;
    SettingFacts(plan, env, block);
    forall p: nat | p < OwnPorts(plan.g[n]) ensures RootOf(plan.st, t) != OutputRoot(plan, n, p) {
      OutputKnown(plan, env, block, n, p);
      OutputRootIs(plan, n, p);
      RootsDiffer(plan.g, plan.st, env, t, TensorName(n, p));
    }
  }

  lemma {:induction false} OutputRootIs(plan: Plan, n: nat, p: nat)
    requires Ready(plan)
    ensures OutputRoot(plan, n, p) == RootOf(plan.st, TensorName(n, p))
  {}

  lemma {:induction false} DynamicNext(plan: Plan, env: Env, block: nat, c: Ctx, mid: Ctx, n: nat, data: seq<seq<Byte>>,
                                       shapes: seq<Shape>, released: set<BufferID>)
    requires Setting(plan, env, block) && Ready(plan) && Topological(plan.g) && n < |plan.g| && plan.g[n].dynamic
    requires DynamicHeld(plan.g, plan.st, env, c, n) && OutputsFit(plan.g, env, n, data, shapes)
    requires Registered(plan, c, mid, n, data, shapes, OwnPorts(plan.g[n])) && released <= ReleaseSet(plan.buffers, n)
    ensures DynamicHeld(plan.g, plan.st, env, ReleaseAll(mid, released), n + 1)
  {
    hide Setting, Regions, Final, Reference, Fits, RootOf, KeptApart, ConcatsApart, GoodGraph, ValuesFit, VariantsFit,
      Registered, OutputsFit, ReleaseSet, HeldAt, ReleaseAll;
    SettingFacts(plan, env, block);
    OutputsCount(plan.g, env, n, data, shapes);
    var g, st := plan.g, plan.st;
    forall t | Own(g, t) && g[t.node].dynamic && t.node < n + 1 && t in st.tensorNames
      ensures HeldAt(g, st, env, ReleaseAll(mid, released), n + 1, t)
    {
      if t.node == n {
        assert t == TensorName(n, t.port);
        OutputRootIs(plan, n, t.port);
        OutputHeld(plan, env, c, mid, n, t.port, data, shapes);
      } else {
        EarlierDiffers(plan, env, block, n, t);
        EarlierHeld(plan, env, c, mid, n, t, data, shapes);
      }
      KnownRoot(plan, env, block, t);
      ReleaseHeld(plan, env, mid, n, t, released);
    }
  }

  /** The root of a dynamic node's output is a buffer of the extractor. */
  lemma {:induction false} KnownRoot(plan: Plan, env: Env, block: nat, t: TensorName)
    requires Setting(plan, env, block) && Ready(plan) && t in plan.st.tensorNames
    requires Own(plan.g, t) && plan.g[t.node].dynamic
    ensures RootOf(plan.st, t) in plan.st.mutableBuffers
  {
    hide Setting, Regions, Final, GoodGraph;
    SettingFacts(plan, env, block);
    NotConstant(plan.g, plan.st, t);
    RootKnown(plan.g, plan.st, t);
  }

  /** An output just registered is held. */
  lemma {:induction false} OutputHeld(plan: Plan, env: Env, c: Ctx, mid: Ctx, n: nat, p: nat, data: seq<seq<Byte>>,
                                      shapes: seq<Shape>)
    requires Ready(plan) && Topological(plan.g) && n < |plan.g| && p < OwnPorts(plan.g[n])
    requires OutputsFit(plan.g, env, n, data, shapes) && Registered(plan, c, mid, n, data, shapes, OwnPorts(plan.g[n]))
    requires OutputRoot(plan, n, p) == RootOf(plan.st, TensorName(n, p))
    ensures HeldAt(plan.g, plan.st, env, mid, n, TensorName(n, p))
  {
    hide Reference, Fits, RootOf, OutputRoot;
  }

  /** Registering the outputs of a later node elsewhere leaves a tensor held. */
  lemma {:induction false} EarlierHeld(plan: Plan, env: Env, c: Ctx, mid: Ctx, n: nat, t: TensorName,
                                       data: seq<seq<Byte>>, shapes: seq<Shape>)
    requires Ready(plan) && Topological(plan.g) && n < |plan.g| && DynamicHeld(plan.g, plan.st, env, c, n)
    requires Own(plan.g, t) && plan.g[t.node].dynamic && t.node < n && t in plan.st.tensorNames
    requires OwnPorts(plan.g[n]) <= |data| && OwnPorts(plan.g[n]) <= |shapes|
    requires Registered(plan, c, mid, n, data, shapes, OwnPorts(plan.g[n]))
    requires forall p: nat :: p < OwnPorts(plan.g[n]) ==> RootOf(plan.st, t) != OutputRoot(plan, n, p)
    ensures HeldAt(plan.g, plan.st, env, mid, n, t)
  {
    hide Reference, Fits, RootOf, OutputRoot;
  }

  /** Only buffers whose life ends at this node are released. */
  lemma {:induction false} ReleaseHeld(plan: Plan, env: Env, mid: Ctx, n: nat, t: TensorName, released: set<BufferID>)
    requires Ready(plan) && Topological(plan.g) && WorkAdded(plan) && RootOf(plan.st, t) in plan.st.mutableBuffers
    requires released <= ReleaseSet(plan.buffers, n) && HeldAt(plan.g, plan.st, env, mid, n, t)
    ensures HeldAt(plan.g, plan.st, env, ReleaseAll(mid, released), n + 1, t)
  {
    hide Reference, Fits, RootOf;
  }

  lemma {:induction false} OnlyDynamicNext(plan: Plan, env: Env, block: nat, c: Ctx, mid: Ctx, n: nat, data: seq<seq<Byte>>,
                                           shapes: seq<Shape>, released: set<BufferID>)
    requires Setting(plan, env, block) && Ready(plan) && n < |plan.g| && plan.g[n].dynamic
    requires OnlyDynamic(plan.g, plan.st, c) && OwnPorts(plan.g[n]) <= |data| && OwnPorts(plan.g[n]) <= |shapes|
    requires Registered(plan, c, mid, n, data, shapes, OwnPorts(plan.g[n]))
    ensures OnlyDynamic(plan.g, plan.st, ReleaseAll(mid, released))
  {
    hide Setting, RegisteredBy, OutputRoot;
    var c' := ReleaseAll(mid, released);
    forall id | id in c'.allocations || id in c'.shapes ensures exists t :: RegisteredBy(plan.g, plan.st, t, id) {
      if exists p: nat :: p < OwnPorts(plan.g[n]) && id == OutputRoot(plan, n, p) {
        var p: nat :| p < OwnPorts(plan.g[n]) && id == OutputRoot(plan, n, p);
        OutputKnown(plan, env, block, n, p);
      }
    }
  }

  lemma {:induction false} AfterDynamic(plan: Plan, env: Env, c: Ctx, mid: Ctx, n: nat, data: seq<seq<Byte>>,
                                        shapes: seq<Shape>, released: set<BufferID>)
    requires Setting(plan, env, |c.block|) && Ready(plan) && Topological(plan.g) && n < |plan.g| && plan.g[n].dynamic
    requires RunInv(plan, env, c, n) && OutputsFit(plan.g, env, n, data, shapes) && released <= ReleaseSet(plan.buffers, n)
    requires Registered(plan, c, mid, n, data, shapes, OwnPorts(plan.g[n]))
    ensures RunInv(plan, env, ReleaseAll(mid, released), n + 1) && ReleaseAll(mid, released).block == c.block
  {
    hide DynamicHeld, OnlyDynamic, BlockHeld, Setting, Reference, ReleaseSet, OutputsFit;
    SettingFacts(plan, env, |c.block|);
    assert mid.block == c.block;
    assert OwnPorts(plan.g[n]) <= |data| && OwnPorts(plan.g[n]) <= |shapes| by { OutputsCount(plan.g, env, n, data, shapes); }
    DynamicNext(plan, env, |c.block|, c, mid, n, data, shapes, released);
    OnlyDynamicNext(plan, env, |c.block|, c, mid, n, data, shapes, released);
    DynamicKeeps(plan, env, c.block, n);
  }

  lemma {:induction false} OutputsCount(g: Graph, env: Env, n: nat, data: seq<seq<Byte>>, shapes: seq<Shape>)
    requires Topological(g) && n < |g| && OutputsFit(g, env, n, data, shapes)
    ensures OwnPorts(g[n]) <= |data| && OwnPorts(g[n]) <= |shapes|
  {
    hide Reference;
  }

  // ----- the cached path

  lemma {:induction false} CachedVariant(g: Graph, env: Env, n: nat, p: nat)
    requires Topological(g) && n < |g| && p < |g[n].outputs| && IsCached(g[n]) && ValuesFit(g, env) && VariantsFit(g, env)
    ensures var v, o := ReferenceVariant(g, env, n), Reference(g, env, TensorName(n, p));
            && |v.shapes| == |v.sizes| == |g[n].outputs| && v.shapes[p] == o.shape
            && |o.data| <= v.sizes[p] && v.noop == HasEmpty(ShapesOf(ReferenceOutputs(g, env, n)))
  {
    hide Evaluate, Elements, Reference, Folded, MakeKey, HasEmpty, ValuesFit;
    ReferenceIsOutput(g, env, n, p);
    assert |ReferenceOutputs(g, env, n)| == |g[n].outputs| by { OutputCount(g, env, n); }
  }

  lemma {:induction false} OutputCount(g: Graph, env: Env, n: nat)
    requires Topological(g) && n < |g| && !IsAlias(g[n]) && ValuesFit(g, env)
    ensures |ReferenceOutputs(g, env, n)| == |g[n].outputs|
  {
    hide ReferenceOutputs, Reference, Typed;
  }

  /** A computed output holds its reference bytes: the kernel wrote them, or there are none to write; or it holds what it
      was allocated with. */
  lemma {:induction false} ComputedFits(g: Graph, env: Env, n: nat, p: nat, first: seq<Byte>)
    requires Topological(g) && n < |g| && p < |g[n].outputs| && IsCached(g[n])
    requires ValuesFit(g, env) && VariantsFit(g, env) && g[n].kind.ComputeNode?
    ensures |ReferenceVariant(g, env, n).sizes| == |g[n].outputs|
    ensures Left(g, env, TensorName(n, p),
                 CachedOutput(g, env, n, References(g, env, n), first, ReferenceVariant(g, env, n), p))
  {
    hide Elements, Reference, Folded, MakeKey, CreateVariant, ValuesFit, VariantsFit;
    CachedVariant(g, env, n, p);
    ReferenceIsOutput(g, env, n, p);
    var v, o := ReferenceVariant(g, env, n), Reference(g, env, TensorName(n, p));
    var raw := Malloc(env, n, p, v.sizes[p]);
    if v.noop {
      assert raw != [] && raw[0] == env.garbage(n, p, 0);
    } else {
      StoreFits(raw, o.data);
    }
  }

  /** A reshape's copy holds its reference bytes, even where it moves more bytes than the tensor has. */
  lemma {:induction false} ReshapedFits(g: Graph, env: Env, n: nat, first: seq<Byte>)
    requires Topological(g) && n < |g| && |g[n].outputs| == 1 && IsCached(g[n]) && ValuesFit(g, env) && VariantsFit(g, env)
    requires g[n].kind.ReshapeNode? && |g[n].inputs| > 0 && Fits(first, Reference(g, env, g[n].inputs[0]).data)
    ensures |ReferenceVariant(g, env, n).sizes| == |g[n].outputs|
    ensures Left(g, env, TensorName(n, 0),
                 CachedOutput(g, env, n, References(g, env, n), first, ReferenceVariant(g, env, n), 0))
  {
    hide Elements, Reference, Folded, MakeKey, CreateVariant, Fits, Transfer, Store, ValuesFit;
    CachedVariant(g, env, n, 0);
    var v := ReferenceVariant(g, env, n);
    TransferFits(env, n, first, Reference(g, env, TensorName(n, 0)).data, v.sizes[0], Malloc(env, n, 0, v.sizes[0]));
  }

  lemma {:induction false} ReshapePorts(g: Graph, n: nat)
    requires GoodGraph(g) && n < |g|
    ensures g[n].kind.ReshapeNode? ==> |g[n].outputs| == 1 && |g[n].inputs| > 0
    ensures g[n].dynamic && g[n].kind.ParameterNode? ==> g[n].inputs == []
    ensures g[n].dynamic ==> !g[n].kind.ConcatNode? && !g[n].kind.ConstantNode?
  {
    hide WellFormed, Topological, BytesKept;
  }

  lemma {:induction false} CachedOutputsFit(plan: Plan, env: Env, c: Ctx, n: nat)
    requires Setting(plan, env, |c.block|) && Ready(plan) && Topological(plan.g) && n < |plan.g| && IsCached(plan.g[n])
    requires ReadsRight(plan, env, c, n)
    ensures var v := ReferenceVariant(plan.g, env, n);
            && |v.sizes| == |v.shapes| == |plan.g[n].outputs|
            && OutputsFit(plan.g, env, n,
                          CachedOutputs(plan.g, env, n, References(plan.g, env, n), FirstPointer(plan, c, n), v), v.shapes)
  {
    hide Setting, Reference, Fits, Left, CachedOutput, Pointer, ReadsRight, CreateVariant, MakeKey, ReferenceVariant, ValuesFit,
      Regions, Final, KeptApart, ConcatsApart, GoodGraph, VariantsFit, WorkAdded;
    SettingFacts(plan, env, |c.block|);
    ReshapePorts(plan.g, n);
    var v, first := ReferenceVariant(plan.g, env, n), FirstPointer(plan, c, n);
    forall p | 0 <= p < OwnPorts(plan.g[n])
      ensures |v.sizes| == |v.shapes| == |plan.g[n].outputs|
      ensures v.shapes[p] == Reference(plan.g, env, TensorName(n, p)).shape
      ensures Left(plan.g, env, TensorName(n, p), CachedOutput(plan.g, env, n, References(plan.g, env, n), first, v, p))
    {
      CachedVariant(plan.g, env, n, p);
      if plan.g[n].kind.ReshapeNode? {
        FirstFits(plan, env, c, n);
        ReshapedFits(plan.g, env, n, first);
      } else {
        ComputedFits(plan.g, env, n, p, first);
      }
    }
    VariantCount(plan.g, env, n);
  }

  /** What is read right is behind the pointer. */
  lemma {:induction false} FirstFits(plan: Plan, env: Env, c: Ctx, n: nat)
    requires Ready(plan) && Topological(plan.g) && n < |plan.g| && plan.g[n].dynamic && |plan.g[n].inputs| > 0
    requires ReadsRight(plan, env, c, n)
    ensures Fits(FirstPointer(plan, c, n), Reference(plan.g, env, plan.g[n].inputs[0]).data)
  {
    hide Reference, Pointer, InputShape;
    assert ReadInput(plan, env, Seen(plan, env, c, n), n, 0) == Some(Reference(plan.g, env, plan.g[n].inputs[0]));
  }

  lemma {:induction false} VariantCount(g: Graph, env: Env, n: nat)
    requires Topological(g) && n < |g| && IsCached(g[n]) && ValuesFit(g, env) && VariantsFit(g, env)
    ensures |ReferenceVariant(g, env, n).shapes| == |ReferenceVariant(g, env, n).sizes| == |g[n].outputs|
  {
    hide Evaluate, Elements, Reference, Folded, MakeKey, HasEmpty, Typed;
    OutputCount(g, env, n);
  }

  // ----- every node keeps the invariant, once its inputs are right

  lemma {:induction false} CachedStep(plan: Plan, env: Env, c: Ctx, n: nat)
    requires Setting(plan, env, |c.block|) && Ready(plan) && Topological(plan.g) && n < |plan.g| && IsCached(plan.g[n])
    requires RunInv(plan, env, c, n) && ReadsRight(plan, env, c, n)
    ensures RunDynamic(plan, env, c, n).Some? && RunInv(plan, env, RunDynamic(plan, env, c, n).value, n + 1)
    ensures RunDynamic(plan, env, c, n).value.block == c.block
  {
    hide RunInv, Reference, CreateVariant, MakeKey, OutputsFit, Registered, Setting, CachedOutput, Pointer, Evaluate,
      ReadInputs, RegisterOutputs, ReleaseSet, FirstPointer, Gather, ReadsRight, Regions, Final, KeptApart, ConcatsApart,
      GoodGraph, ValuesFit, VariantsFit, WorkAdded;
    SettingFacts(plan, env, |c.block|);
    Gathers(plan, env, c, n);
    var inputs, v, first := References(plan.g, env, n), ReferenceVariant(plan.g, env, n), FirstPointer(plan, c, n);
    CachedOutputsFit(plan, env, c, n);
    OutputsApart(plan, env, |c.block|, n);
    RegistersOutputs(plan, env, c, n, inputs, first, v, |plan.g[n].outputs|);
    ReshapePorts(plan.g, n);
    var mid := RegisterOutputs(plan, env, c, n, inputs, first, v, |plan.g[n].outputs|);
    AfterDynamic(plan, env, c, mid, n, CachedOutputs(plan.g, env, n, inputs, first, v), v.shapes, ReleaseSet(plan.buffers, n));
  }

  /** Parameters and variable reads register one exactly sized buffer. */
  lemma {:induction false} BoundaryStep(plan: Plan, env: Env, c: Ctx, n: nat)
    requires Setting(plan, env, |c.block|) && Ready(plan) && Topological(plan.g) && n < |plan.g| && plan.g[n].dynamic
    requires RunInv(plan, env, c, n) && (Reads(plan.g, env, n) ==> ReadsRight(plan, env, c, n))
    requires plan.g[n].kind.ParameterNode? || plan.g[n].kind.ReadValueNode?
    ensures RunDynamic(plan, env, c, n).Some? && RunInv(plan, env, RunDynamic(plan, env, c, n).value, n + 1)
    ensures RunDynamic(plan, env, c, n).value.block == c.block
  {
    hide RunInv, Reference, OutputsFit, Registered, Setting, Gather, ReleaseSet, OutputRoot, StateValue, ReadsRight,
      Regions, Final, KeptApart, ConcatsApart, GoodGraph, ValuesFit, VariantsFit, WorkAdded;
    SettingFacts(plan, env, |c.block|);
    Gathers(plan, env, c, n);
    BoundaryOutput(plan.g, env, n);
    var v := ReferenceOutputs(plan.g, env, n)[0];
    var data := [Store(Malloc(env, n, 0, |v.data|), v.data)];
    var mid := RegisterValue(plan, env, c, n, v);
    RegisteredNone(plan, c, n, data, [v.shape]);
    RegisterNext(plan, c, c, n, data, [v.shape], 1);
    BoundaryFits(plan.g, env, n);
    AfterDynamic(plan, env, c, mid, n, data, [v.shape], {});
    assert ReleaseAll(mid, {}) == mid;
  }

  lemma {:induction false} BoundaryOutput(g: Graph, env: Env, n: nat)
    requires GoodGraph(g) && ValuesFit(g, env) && n < |g| && g[n].dynamic
    requires g[n].kind.ParameterNode? || g[n].kind.ReadValueNode?
    ensures |g[n].outputs| == 1 && !IsAlias(g[n]) && |ReferenceOutputs(g, env, n)| == 1
    ensures g[n].kind.ParameterNode? ==> ReferenceOutputs(g, env, n)[0] == env.parameter(n)
    ensures g[n].kind.ReadValueNode? ==>
      && ReferenceOutputs(g, env, n)[0] == StateValue(g, env, n, References(g, env, n))
      && (!Reads(g, env, n) ==> StateValue(g, env, n, []) == StateValue(g, env, n, References(g, env, n)))
  {
    hide Reference, WellFormed, BytesKept, Typed;
    ReshapePorts(g, n);
  }

  lemma {:induction false} BoundaryFits(g: Graph, env: Env, n: nat)
    requires GoodGraph(g) && ValuesFit(g, env) && n < |g| && g[n].dynamic
    requires g[n].kind.ParameterNode? || g[n].kind.ReadValueNode?
    ensures |ReferenceOutputs(g, env, n)| == 1
    ensures var v := ReferenceOutputs(g, env, n)[0];
            OutputsFit(g, env, n, [Store(Malloc(env, n, 0, |v.data|), v.data)], [v.shape])
  {
    hide Reference, ReferenceOutputs, WellFormed, BytesKept, DynamicFlags, ValuesFit, Store;
    BoundaryOutput(g, env, n);
    var v := ReferenceOutputs(g, env, n)[0];
    ReferenceIsOutput(g, env, n, 0);
    StoreFits(Malloc(env, n, 0, |v.data|), v.data);
  }

  /** Results and assigns register nothing; assigns release. */
  lemma {:induction false} SinkStep(plan: Plan, env: Env, c: Ctx, n: nat)
    requires Setting(plan, env, |c.block|) && Ready(plan) && Topological(plan.g) && n < |plan.g| && plan.g[n].dynamic
    requires RunInv(plan, env, c, n) && ReadsRight(plan, env, c, n)
    requires plan.g[n].kind.ResultNode? || plan.g[n].kind.AssignNode?
    ensures RunDynamic(plan, env, c, n).Some? && RunInv(plan, env, RunDynamic(plan, env, c, n).value, n + 1)
    ensures RunDynamic(plan, env, c, n).value.block == c.block
  {
    hide RunInv, Reference, Registered, Setting, Gather, ReleaseSet, ReadsRight, Regions, Final, KeptApart, ConcatsApart,
      GoodGraph, ValuesFit, VariantsFit, WorkAdded;
    SettingFacts(plan, env, |c.block|);
    Gathers(plan, env, c, n);
    RegisteredNone(plan, c, n, [], []);
    AfterDynamic(plan, env, c, c, n, [], [], if plan.g[n].kind.AssignNode? then ReleaseSet(plan.buffers, n) else {});
    assert ReleaseAll(c, {}) == c;
  }

  // ----- static nodes

  /** With no registered buffer under its roots, a static node's outputs go to the block. */
  lemma {:induction false} WritesToBlock(plan: Plan, env: Env, c: Ctx, n: nat, values: seq<TensorValue>, ports: nat)
    requires Setting(plan, env, |c.block|) && Ready(plan) && n < |plan.g| && !plan.g[n].dynamic
    requires !IsNop(plan.g[n]) && !IsAlias(plan.g[n]) && OnlyDynamic(plan.g, plan.st, c)
    requires ports <= |plan.g[n].outputs| && OutputsSized(plan.g, n, values)
    ensures WriteOutputs(plan, c, n, values, ports) == Some(c.(block := WriteBlock(plan, c.block, n, values, ports)))
  {
    hide Setting, Regions, Final, Write, OnlyDynamic, KeptApart, Stored, Address, ConcatsApart, GoodGraph, ValuesFit,
      VariantsFit, WorkAdded;
    if ports > 0 {
      WritesToBlock(plan, env, c, n, values, ports - 1);
      SettingFacts(plan, env, |c.block|);
      OutputInside(plan, env, |c.block|, n, ports - 1);
      OutputUnregistered(plan.g, plan.st, env, c, TensorName(n, ports - 1));
    }
  }

  lemma {:induction false} OutputUnregistered(g: Graph, st: State, env: Env, c: Ctx, t: TensorName)
    requires Regions(g, st) && ConcatsApart(g) && Upward(st.links) && OnlyDynamic(g, st, c) && Stored(g, st, t)
    ensures RootOf(st, t) !in c.allocations
  {
    hide Regions, ConcatsApart;
    StaticUnregistered(g, st, env, c, t);
  }

  lemma {:induction false} StaticKeepsDynamic(plan: Plan, env: Env, c: Ctx, c': Ctx, n: nat)
    requires Ready(plan) && Topological(plan.g) && n < |plan.g| && !plan.g[n].dynamic
    requires c'.allocations == c.allocations && c'.shapes == c.shapes
    requires DynamicHeld(plan.g, plan.st, env, c, n) && OnlyDynamic(plan.g, plan.st, c)
    ensures DynamicHeld(plan.g, plan.st, env, c', n + 1) && OnlyDynamic(plan.g, plan.st, c')
  {
    hide Reference, Fits, RootOf;
    forall id | Unreleased(plan.st, id, n + 1) ensures Unreleased(plan.st, id, n) {}
  }

  lemma {:induction false} StaticStep(plan: Plan, env: Env, c: Ctx, n: nat)
    requires Setting(plan, env, |c.block|) && Ready(plan) && Topological(plan.g) && n < |plan.g| && !plan.g[n].dynamic
    requires RunInv(plan, env, c, n) && (Reads(plan.g, env, n) ==> ReadsRight(plan, env, c, n))
    ensures RunStatic(plan, env, c, n).Some? && RunInv(plan, env, RunStatic(plan, env, c, n).value, n + 1)
    ensures |RunStatic(plan, env, c, n).value.block| == |c.block|
  {
    hide Setting, DynamicHeld, OnlyDynamic, BlockHeld, Evaluate, WriteBlock, Scribble, Gather, ReadsRight, KeptApart,
      Regions, Final, GoodGraph, ConcatsApart, ValuesFit, VariantsFit, WorkAdded;
    SettingFacts(plan, env, |c.block|);
    var values := ReferenceOutputs(plan.g, env, n);
    StaticKeeps(plan, env, c.block, n);
    var c' := c.(block := NextBlock(plan, env, c.block, n, values));
    StaticKeepsDynamic(plan, env, c, c', n);
    if !IsNop(plan.g[n]) {
      Gathers(plan, env, c, n);
      if !IsAlias(plan.g[n]) {
        if !Reads(plan.g, env, n) { EvaluatesSame(plan.g, env, n); }
        StaticWrites(plan, env, c, n);
      }
    }
  }

  lemma {:induction false} StaticWrites(plan: Plan, env: Env, c: Ctx, n: nat)
    requires Setting(plan, env, |c.block|) && Ready(plan) && Topological(plan.g) && n < |plan.g| && !plan.g[n].dynamic
    requires !IsNop(plan.g[n]) && !IsAlias(plan.g[n]) && OnlyDynamic(plan.g, plan.st, c)
    ensures var seen, values := Seen(plan, env, c, n), ReferenceOutputs(plan.g, env, n);
            WriteOutputs(plan, seen, n, values, |plan.g[n].outputs|)
            == Some(seen.(block := WriteBlock(plan, seen.block, n, values, |plan.g[n].outputs|)))
  {
    hide Setting, Regions, Final, ReferenceOutputs, WriteBlock, Scribble, KeptApart, OutputsSized, WriteOutputs, Reference;
    SettingFacts(plan, env, |c.block|);
    ReferencesSized(plan, env, |c.block|, n);
    WritesToBlock(plan, env, Seen(plan, env, c, n), n, ReferenceOutputs(plan.g, env, n), |plan.g[n].outputs|);
  }

  // ----- the whole run

  /** One node. */
  function RunNode(plan: Plan, env: Env, c: Ctx, n: nat): Option<Ctx>
    requires Ready(plan) && n < |plan.g|
  {
    if plan.g[n].dynamic then RunDynamic(plan, env, c, n) else RunStatic(plan, env, c, n)
  }

  lemma {:induction false} NodeStep(plan: Plan, env: Env, c: Ctx, n: nat)
    requires Setting(plan, env, |c.block|) && Ready(plan) && Topological(plan.g) && n < |plan.g|
    requires RunInv(plan, env, c, n) && (Reads(plan.g, env, n) ==> ReadsRight(plan, env, c, n))
    ensures RunNode(plan, env, c, n).Some? && RunInv(plan, env, RunNode(plan, env, c, n).value, n + 1)
    ensures |RunNode(plan, env, c, n).value.block| == |c.block|
  {
    hide Setting, RunInv, RunDynamic, RunStatic, ReadsRight, Final, Regions;
    SettingFacts(plan, env, |c.block|);
    ReshapePorts(plan.g, n);
    if !plan.g[n].dynamic {
      StaticStep(plan, env, c, n);
    } else if plan.g[n].kind.ParameterNode? || plan.g[n].kind.ReadValueNode? {
      BoundaryStep(plan, env, c, n);
    } else if plan.g[n].kind.ResultNode? || plan.g[n].kind.AssignNode? {
      SinkStep(plan, env, c, n);
    } else {
      CachedStep(plan, env, c, n);
    }
  }

  lemma {:induction false} EmptyRunInv(plan: Plan, env: Env, block: Memory)
    requires Topological(plan.g) && Ready(plan)
    ensures RunInv(plan, env, Ctx(map[], map[], block), 0)
  {
    hide Reference;
  }

  /** Node `m` of the run has been reached and reads what the reference has. */
  ghost predicate Right(plan: Plan, env: Env, block: Memory, m: nat)
    requires Ready(plan) && Topological(plan.g) && m < |plan.g|
  {
    && Run(plan, env, block, m).Some?
    && (Reads(plan.g, env, m) ==> ReadsRight(plan, env, Run(plan, env, block, m).value, m))
  }

  /** As long as every node has read what the reference has, the invariant stands. */
  lemma {:induction false} RunKeepsInv(plan: Plan, env: Env, block: Memory, n: nat)
    requires Setting(plan, env, |block|) && Ready(plan) && Topological(plan.g) && n <= |plan.g|
    requires forall m :: 0 <= m < n ==> Right(plan, env, block, m)
    ensures Run(plan, env, block, n).Some? && RunInv(plan, env, Run(plan, env, block, n).value, n)
    ensures |Run(plan, env, block, n).value.block| == |block|
  {
    hide Setting, RunInv, RunDynamic, RunStatic, ReadsRight;
    if n == 0 {
      EmptyRunInv(plan, env, block);
    } else {
      RunKeepsInv(plan, env, block, n - 1);
      assert Right(plan, env, block, n - 1);
      NodeStep(plan, env, Run(plan, env, block, n - 1).value, n - 1);
    }
  }

  lemma {:induction false} NodeRight(plan: Plan, env: Env, block: Memory, n: nat)
    requires Setting(plan, env, |block|) && Ready(plan) && Topological(plan.g) && n < |plan.g|
    requires RenamesKept(plan.g, env) && ReadsWritten(plan.g, env) && Run(plan, env, block, n).Some?
    requires RunInv(plan, env, Run(plan, env, block, n).value, n) && |Run(plan, env, block, n).value.block| == |block|
    ensures Right(plan, env, block, n)
  {
    hide Setting, RunInv, Run, ReadInput, ShapeKept, Reference, Unwritten;
    if Reads(plan.g, env, n) {
      forall k | 0 <= k < |plan.g[n].inputs|
        ensures ReadInput(plan, env, Seen(plan, env, Run(plan, env, block, n).value, n), n, k)
                == Some(Reference(plan.g, env, plan.g[n].inputs[k]))
      {
        ReadIff(plan, env, Run(plan, env, block, n).value, n, k);
      }
    }
  }

  lemma {:induction false} AllRight(plan: Plan, env: Env, block: Memory, n: nat)
    requires Setting(plan, env, |block|) && Ready(plan) && Topological(plan.g) && n <= |plan.g|
    requires RenamesKept(plan.g, env) && ReadsWritten(plan.g, env)
    ensures forall m :: 0 <= m < n ==> Right(plan, env, block, m)
  {
    hide Setting, RunInv, Right, RenamesKept, ReadsWritten;
    if n > 0 {
      AllRight(plan, env, block, n - 1);
      RunKeepsInv(plan, env, block, n - 1);
      NodeRight(plan, env, block, n - 1);
    }
  }

  // ----- the main theorem

  /** What the graph, its operations and the memory solver provide. */
  ghost predicate Runnable(g: Graph, env: Env) {
    GoodGraph(g) && DistinctConcats(g) && ValuesFit(g, env) && VariantsFit(g, env)
  }

  lemma {:induction false} PlanSetting(g: Graph, stable: Stability, env: Env, requests: seq<Request>,
                                       place: map<BufferID, nat>, block: nat)
    requires Runnable(g, env) && ConcatsApart(g) && Extract(g, stable).Ok? && |requests| == |g|
    requires Placement(MakePlan(g, Extract(g, stable).value, requests, place), block)
    ensures var plan := MakePlan(g, Extract(g, stable).value, requests, place); Setting(plan, env, block) && Ready(plan)
  {
    hide Extract, Placement, DistinctConcats, ConcatsApart, ValuesFit, VariantsFit, DynamicFlags, BytesKept,
      Sound, WorkIds, AddRequests;
    PlanSound(g, stable, env, requests, place, block);
    SettingFacts(MakePlan(g, Extract(g, stable).value, requests, place), env, block);
  }

  /** A run of static and dynamic nodes refines the reference: from any block contents, with any workbuffer garbage and
      any placement that keeps overlapping lifespans apart, every node is reached, and every input it reads has the shape
      and the bytes of evaluating each node on its own. */
  lemma {:induction false} DynamicRunRefines(g: Graph, stable: Stability, env: Env, requests: seq<Request>,
                                             place: map<BufferID, nat>, block: Memory, n: nat)
    requires Runnable(g, env) && ConcatsApart(g) && RenamesKept(g, env) && ReadsWritten(g, env) && Extract(g, stable).Ok?
    requires |requests| == |g| && n < |g|
    requires Placement(MakePlan(g, Extract(g, stable).value, requests, place), |block|)
    ensures var plan := MakePlan(g, Extract(g, stable).value, requests, place);
            && Ready(plan) && Run(plan, env, block, n).Some?
            && (Reads(g, env, n) ==> ReadsRight(plan, env, Run(plan, env, block, n).value, n))
  {
    hide Extract, Placement, RenamesKept, ConcatsApart, Setting, Run, ReadsRight, WorkIds, AddRequests, DistinctConcats,
      ValuesFit, VariantsFit, ReadsWritten, DynamicFlags, BytesKept;
    PlanSetting(g, stable, env, requests, place, |block|);
    var plan := MakePlan(g, Extract(g, stable).value, requests, place);
    SettingFacts(plan, env, |block|);
    AllRight(plan, env, block, |g|);
    assert Right(plan, env, block, n);
  }

  /** The case without dynamic nodes: sharing memory preserves meaning. */
  lemma {:induction false} SharingPreservesMeaning(g: Graph, stable: Stability, env: Env, requests: seq<Request>,
                                                   place: map<BufferID, nat>, block: Memory, n: nat)
    requires GoodGraph(g) && DistinctConcats(g) && ValuesFit(g, env) && forall m :: 0 <= m < |g| ==> !g[m].dynamic
    requires Extract(g, stable).Ok? && |requests| == |g| && n < |g|
    requires Placement(MakePlan(g, Extract(g, stable).value, requests, place), |block|)
    ensures var plan := MakePlan(g, Extract(g, stable).value, requests, place);
            && Ready(plan) && Run(plan, env, block, n).Some?
            && (Reads(g, env, n) ==> ReadsRight(plan, env, Run(plan, env, block, n).value, n))
  {
    hide Extract, Placement, DistinctConcats, ValuesFit, GoodGraph, Run, ReadsRight, Reads, ReferenceVariant,
      ReferenceOutputs, Reference, WorkIds, AddRequests;
    assert Topological(g) by { GoodTopological(g); }
    DynamicRunRefines(g, stable, env, requests, place, block, n);
  }

  // ----- exactly when the cached path is faithful

  /** Whatever the fresh allocations contain, every output of a computing node holds the kernel's bytes: if and only if
      the node does not mix empty and non-empty outputs. */
  lemma {:induction false} FaithfulIffNotMixed(g: Graph, env: Env, n: nat, inputs: seq<TensorValue>, first: seq<Byte>,
                                               v: Variant)
    requires n < |g| && g[n].kind.ComputeNode? && |v.shapes| == |v.sizes| == |env.op(n, inputs)|
    requires v.shapes == ShapesOf(env.op(n, inputs)) && v.noop == HasEmpty(v.shapes)
    requires forall p :: 0 <= p < |v.shapes| ==>
      var t := TensorName(n, p);
      && Type(g, t).elementSize > 0 && v.sizes[p] == AllocBytes(g, t, v.shapes[p])
      && |env.op(n, inputs)[p].data| == DataBytes(g, t, v.shapes[p])
    ensures (forall contents: (nat, nat, nat) -> Byte, p :: 0 <= p < |v.sizes| ==>
              Fits(CachedOutput(g, env.(garbage := contents), n, inputs, first, v, p), env.op(n, inputs)[p].data))
            <==> !Mixed(v.shapes)
  {
    hide Elements, HasEmpty;
    if Mixed(v.shapes) {
      var p :| 0 <= p < |v.shapes| && Elements(v.shapes[p]) != 0;
      var data := env.op(n, inputs)[p].data;
      assert |data| > 0;
      var wrong: Byte := if data[0] == 0 then 1 else 0;
      var contents := (a: nat, b: nat, i: nat) => wrong;
      assert !Fits(CachedOutput(g, env.(garbage := contents), n, inputs, first, v, p), data);
    } else {
      forall contents: (nat, nat, nat) -> Byte, p | 0 <= p < |v.sizes|
        ensures Fits(CachedOutput(g, env.(garbage := contents), n, inputs, first, v, p), env.op(n, inputs)[p].data)
      {
        if v.noop {
          assert Elements(v.shapes[p]) == 0;
        }
      }
    }
  }
}
