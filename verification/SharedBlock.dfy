/** Every node, static or dynamic, leaves the live static tensors of the block as the reference has them. */
module SharedBlock {
  import opened Graphs
  import opened BufferSpec
  import opened BufferInvariant
  import opened BufferTheorems
  import opened BufferLayout
  import opened TensorValues
  import opened SharedMemory
  import opened DynamicRegions

  /** The bytes `t` shows come from a static node that is no constant: they live in the block. */
  ghost predicate Stored(g: Graph, st: State, t: TensorName) {
    t in st.tensorNames && st.tensorNames[t] !in st.immutableBuffers && !ProducedDynamically(g, Origin(g, t))
  }

  /** `t` has been produced and its buffer outlives the nodes before `n`. */
  ghost predicate Live(g: Graph, st: State, t: TensorName, n: nat)
    requires Upward(st.links)
  {
    && Stored(g, st, t) && t.node < n
    && RootOf(st, t) in st.mutableBuffers && n <= st.mutableBuffers[RootOf(st, t)].end
  }

  ghost predicate HoldsAt(plan: Plan, env: Env, mem: Memory, t: TensorName)
    requires Upward(plan.st.links) && Topological(plan.g)
  {
    HoldsBytes(mem, Address(plan, IdOf(plan.st, t)), Reference(plan.g, env, t).data)
  }

  /** Every live tensor still holds its value. */
  ghost predicate BlockHeld(plan: Plan, env: Env, mem: Memory, n: nat)
    requires Upward(plan.st.links) && Topological(plan.g)
  {
    forall t :: Live(plan.g, plan.st, t, n) ==> HoldsAt(plan, env, mem, t)
  }

  ghost predicate KeptApart(plan: Plan, env: Env, block: nat) {
    Sound(plan, env, block) && ConcatsApart(plan.g)
  }

  lemma {:induction false} KeptRegions(plan: Plan, env: Env, block: nat)
    requires KeptApart(plan, env, block)
    ensures Regions(plan.g, plan.st) && ConcatsApart(plan.g) && Final(plan.g, plan.st) && Upward(plan.st.links)
    ensures Topological(plan.g) && |plan.work| == |plan.g|
  {
    hide ConcatsApart, Placement, ValuesFit, Tiled, Covered, LinkedByConcat, DynamicFlags, BytesKept, WellFormed, Named,
      AliasesFollow, Ordered, ParentsKnown, Placed, Sized, OnlyConcatsContain, ConstantsKept, Packed, BuffersSized,
      Classified, Rooted;
  }

  // ----- sizes and lifespan of a stored tensor

  lemma {:induction false} AliasBytes(g: Graph, st: State, t: TensorName)
    requires Regions(g, st) && t in st.tensorNames
    ensures Exists(g, t) && Exists(g, Source(g, t)) && TensorBytes(g, t) == TensorBytes(g, Source(g, t))
    decreases t.node
  {
    hide Extracted, WellFormed, DynamicFlags;
    RegionsFinal(g, st);
    NameExists(g, st, t);
    SourceFacts(g, st, t);
    if IsAlias(g[t.node]) && |g[t.node].inputs| > 0 {
      KnownInput(g, st, t.node, 0);
      AliasBytes(g, st, g[t.node].inputs[0]);
    }
  }

  /** A tensor owned by a static node has a size. */
  lemma {:induction false} StaticBytes(g: Graph, s: TensorName)
    requires GoodGraph(g) && Exists(g, s) && !g[s.node].dynamic
    ensures Type(g, s).elements.Some? && TensorBytes(g, s) > 0
  {
    hide Topological, DynamicFlags;
    assert WellFormedNode(g[s.node]);
    assert Type(g, s).elementSize > 0;
  }

  lemma {:induction false} OwnerSized(g: Graph, st: State, s: TensorName)
    requires Final(g, st) && s in st.tensorNames && Own(g, s) && TensorBytes(g, s) > 0
    requires st.tensorNames[s] in st.tensorSizes
    ensures st.tensorSizes[st.tensorNames[s]] == TensorBytes(g, s)
    ensures st.tensorNames[s] in st.mutableBuffers ==> st.mutableBuffers[st.tensorNames[s]].size == TensorBytes(g, s)
  {
    hide Named, AliasesFollow, Ordered, ParentsKnown, Placed, OnlyConcatsContain, ConstantsKept, Packed, Classified, Rooted;
  }

  /** The root buffer of a statically produced tensor has the size of its region tree. */
  lemma {:induction false} StaticInBlock(g: Graph, st: State, s: TensorName)
    requires Regions(g, st) && Upward(st.links) && s in st.tensorNames && Own(g, s) && !g[s.node].dynamic
    requires st.tensorNames[s] !in st.immutableBuffers
    ensures InBlock(st, st.tensorNames[s]) && st.tensorSizes[st.tensorNames[s]] == TensorBytes(g, s)
  {
    hide Regions, Final;
    RegionsFinal(g, st);
    var id := st.tensorNames[s];
    var r := Root(st.links, id);
    RootKnown(g, st, s);
    assert GoodGraph(g) by { RegionsGood(g, st); }
    StaticBytes(g, s);
    OwnerSized(g, st, s);
    if id in st.links {
      var c := RootIsParent(st.links, id);
      var m, k := ParentInput(g, st, c);
      ConcatTensor(g, st, m);
      OwnerSized(g, st, TensorName(m, 0));
    }
  }

  lemma {:induction false} ParentInput(g: Graph, st: State, c: BufferID) returns (m: nat, k: nat)
    requires Regions(g, st) && c in st.links
    ensures ConcatInput(g, st.tensorNames, st.links, m, k, c)
  {
    hide Final, Tiled, Covered, GoodGraph;
    m, k := ParentIsConcat(g, st.tensorNames, st.links, c);
  }

  lemma {:induction false} RootKnown(g: Graph, st: State, t: TensorName)
    requires Regions(g, st) && Upward(st.links) && t in st.tensorNames && st.tensorNames[t] !in st.immutableBuffers
    ensures var id := st.tensorNames[t];
            && id in st.tensorSizes && Root(st.links, id) in st.mutableBuffers && Root(st.links, id) in st.tensorSizes
  {
    hide Named, AliasesFollow, Ordered, ParentsKnown, Sized, OnlyConcatsContain, ConstantsKept, Packed, BuffersSized,
      Tiled, Covered, LinkedByConcat, GoodGraph;
  }

  /** The node that names a tensor touches its buffer. */
  lemma {:induction false} NodeInside(g: Graph, st: State, t: TensorName)
    requires Regions(g, st) && Upward(st.links) && t in st.tensorNames && RootOf(st, t) in st.mutableBuffers
    ensures st.mutableBuffers[RootOf(st, t)].start <= t.node <= st.mutableBuffers[RootOf(st, t)].end
  {
    hide Final, Tiled, LinkedByConcat, GoodGraph;
    var r := RootOf(st, t);
    assert RootedAt(st.tensorNames, st.links, TensorName(t.node, t.port), r);
    assert Touches(g, st, t.node, r);
  }

  /** A tensor's consumers come before the end of its buffer's lifespan. */
  lemma {:induction false} ConsumerInLife(g: Graph, st: State, n: nat, k: nat)
    requires Regions(g, st) && Upward(st.links) && n < |g| && k < |g[n].inputs|
    requires RootOf(st, g[n].inputs[k]) in st.mutableBuffers
    ensures g[n].inputs[k] in st.tensorNames && n <= st.mutableBuffers[RootOf(st, g[n].inputs[k])].end
  {
    hide Final, Tiled, LinkedByConcat, GoodGraph;
    var r := RootOf(st, g[n].inputs[k]);
    assert Consumes(g, st, n, k, r);
    assert Touches(g, st, n, r);
  }

  lemma {:induction false} StoredFacts(g: Graph, st: State, t: TensorName)
    requires Regions(g, st) && Upward(st.links) && Stored(g, st, t)
    ensures t in st.tensorNames
    ensures var id := st.tensorNames[t];
            && Exists(g, t) && InBlock(st, id) && st.tensorSizes[id] == TensorBytes(g, t) > 0 && IdOf(st, t) == id
            && st.mutableBuffers[RootOf(st, t)].start <= t.node <= st.mutableBuffers[RootOf(st, t)].end
            && !ProducedDynamically(g, Source(g, t))
  {
    hide Regions, Final;
    RegionsFinal(g, st);
    AliasBytes(g, st, t);
    SourceFacts(g, st, t);
    SourceStatic(g, st, t);
    StaticInBlock(g, st, Source(g, t));
    NodeInside(g, st, t);
  }

  lemma {:induction false} SourceStatic(g: Graph, st: State, t: TensorName)
    requires Regions(g, st) && t in st.tensorNames && !ProducedDynamically(g, Origin(g, t))
    ensures !ProducedDynamically(g, Source(g, t))
  {
    hide Extracted, WellFormed, BytesKept;
    RegionsFinal(g, st);
    SourceFacts(g, st, t);
    OriginOfSource(g, t);
  }

  /** A value never exceeds its tensor's bytes. */
  lemma {:induction false} ValueFits(plan: Plan, env: Env, block: nat, t: TensorName)
    requires KeptApart(plan, env, block) && Stored(plan.g, plan.st, t)
    ensures Topological(plan.g) && Exists(plan.g, t) && |Reference(plan.g, env, t).data| <= TensorBytes(plan.g, t)
  {
    hide Regions, Extracted, Placement, Reference, Elements, GoodGraph, Typed, ConcatsApart, WorkAdded, Final, Stored;
    KeptRegions(plan, env, block);
    StoredFacts(plan.g, plan.st, t);
    TypedFits(plan.g, env, t, Reference(plan.g, env, t));
  }

  lemma {:induction false} TypedFits(g: Graph, env: Env, t: TensorName, v: TensorValue)
    requires Exists(g, t) && TensorBytes(g, t) > 0 && Typed(g, env, t, v)
    ensures |v.data| <= TensorBytes(g, t)
  {
    hide Elements;
  }

  // ----- reading

  /** A tensor that `n` consumes is live at `n`. */
  lemma {:induction false} InputLive(g: Graph, st: State, n: nat, k: nat)
    requires Regions(g, st) && Upward(st.links) && n < |g| && k < |g[n].inputs| && Stored(g, st, g[n].inputs[k])
    ensures Live(g, st, g[n].inputs[k], n)
  {
    hide Regions, InBlock;
    KnownInput(g, st, n, k);
    RootKnown(g, st, g[n].inputs[k]);
    ConsumerInLife(g, st, n, k);
  }

  /** A node's workbuffers leave live tensors alone. */
  lemma {:induction false} ScribbleKeeps(plan: Plan, env: Env, mem: Memory, n: nat, t: TensorName)
    requires KeptApart(plan, env, |mem|) && Upward(plan.st.links) && Topological(plan.g) && n < |plan.g| && n < |plan.work|
    requires Stored(plan.g, plan.st, t) && t.node <= n
    requires RootOf(plan.st, t) in plan.st.mutableBuffers && n <= plan.st.mutableBuffers[RootOf(plan.st, t)].end
    requires HoldsAt(plan, env, mem, t)
    ensures HoldsAt(plan, env, Scribble(plan, env, mem, n), t)
  {
    hide Regions, Extracted, Reference, InWorkbuffer, Scribble, Placement, GoodGraph, ValuesFit, ConcatsApart, Stored,
      Final, Address, HoldsBytes, WorkAdded;
    KeptRegions(plan, env, |mem|);
    StoredFacts(plan.g, plan.st, t);
    ValueFits(plan, env, |mem|, t);
    var id := plan.st.tensorNames[t];
    var a, data := Address(plan, id), Reference(plan.g, env, t).data;
    forall i | a <= i < a + |data| ensures !InWorkbuffer(plan, n, i) {
      WorkApart(plan, |mem|, n, id, i);
    }
    ScribbleElsewhere(plan, env, mem, n, a, data);
  }

  lemma {:induction false} ScribbleElsewhere(plan: Plan, env: Env, mem: Memory, n: nat, a: nat, data: seq<Byte>)
    requires n < |plan.work| && HoldsBytes(mem, a, data)
    requires forall i :: a <= i < a + |data| ==> !InWorkbuffer(plan, n, i)
    ensures HoldsBytes(Scribble(plan, env, mem, n), a, data)
  {
    hide InWorkbuffer, Scribble;
    assert Scribble(plan, env, mem, n)[a..a + |data|] == mem[a..a + |data|];
  }

  /** A constant's bytes begin with its value. */
  lemma {:induction false} ConstantBytes(g: Graph, st: State, env: Env, t: TensorName)
    requires Regions(g, st) && t in st.tensorNames && st.tensorNames[t] in st.immutableBuffers && ValuesFit(g, env)
    ensures var data := Reference(g, env, t).data;
            |data| <= |st.immutableBuffers[st.tensorNames[t]]| && st.immutableBuffers[st.tensorNames[t]][..|data|] == data
  {
    hide Regions, Named, AliasesFollow, Ordered, ParentsKnown, Placed, Sized, OnlyConcatsContain, Packed, BuffersSized,
      Classified, Rooted;
    RegionsFinal(g, st);
    RegionsGood(g, st);
    SourceFacts(g, st, t);
    AliasData(g, st, env, t);
    ConstantReference(g, env, Source(g, t));
  }

  lemma {:induction false} ConstantReference(g: Graph, env: Env, s: TensorName)
    requires WellFormed(g) && Topological(g) && Exists(g, s) && g[s.node].kind.ConstantNode?
    ensures var data := Reference(g, env, s).data;
            |data| <= |g[s.node].kind.data| && g[s.node].kind.data[..|data|] == data
  {
    assert WellFormedNode(g[s.node]);
    assert s == TensorName(s.node, 0);
    var data := g[s.node].kind.data;
    assert data[..|data|] == data;
  }

  // ----- writing

  lemma {:induction false} WriteElsewhere(mem: Memory, a: nat, data: seq<Byte>, b: nat, other: seq<Byte>)
    requires a + |data| <= b || b + |other| <= a
    requires HoldsBytes(mem, a, data)
    ensures HoldsBytes(Write(mem, b, other), a, data)
  {
    assert Write(mem, b, other)[a..a + |data|] == mem[a..a + |data|];
  }

  /** An output that node `n` computes and a tensor alive across `n` never contain each other. */
  lemma {:induction false} OutputUnrelated(g: Graph, st: State, o: TensorName, t: TensorName)
    requires Final(g, st) && o in st.tensorNames && Own(g, o) && !g[o.node].kind.ConcatNode? && !g[o.node].kind.ConstantNode?
    requires t in st.tensorNames && st.tensorNames[t] in st.tensorSizes && st.tensorNames[o] in st.tensorSizes
    requires t.node < o.node || (t.node == o.node && Own(g, t) && t != o)
    ensures !Contains(st.links, st.tensorNames[t], st.tensorNames[o])
    ensures !Contains(st.links, st.tensorNames[o], st.tensorNames[t])
  {
    hide ParentsKnown, BuffersSized, Sized, Rooted, ConstantsKept, Placed, Classified, Named, AliasesFollow;
    var a, b := st.tensorNames[t], st.tensorNames[o];
    SourceFacts(g, st, t);
    var s := Source(g, t);
    assert Before(s, o) || (Before(o, s) && s == t);
    if Contains(st.links, b, a) {
      var c := ChildTowards(st.links, b, a);
    }
    if Contains(st.links, a, b) {
      ContainedInside(st.links, st.tensorSizes, a, b);
      var c := ChildTowards(st.links, a, b);
    }
  }

  /** An output of a static computing node is stored, and still alive right after its node. */
  lemma {:induction false} OutputStored(g: Graph, st: State, n: nat, p: nat)
    requires Regions(g, st) && Upward(st.links) && n < |g| && p < |g[n].outputs| && !IsNop(g[n]) && !IsAlias(g[n])
    requires !g[n].dynamic
    ensures var o := TensorName(n, p);
            && Stored(g, st, o) && Own(g, o) && RootOf(st, o) in st.mutableBuffers
            && n <= st.mutableBuffers[RootOf(st, o)].end
  {
    hide Regions, Named, AliasesFollow, Ordered, ParentsKnown, Placed, Sized, OnlyConcatsContain, Packed, BuffersSized,
      Classified, Rooted;
    var o := TensorName(n, p);
    RegionsFinal(g, st);
    NameExists(g, st, o);
    OwnSource(g, o);
    assert st.tensorNames[o] !in st.immutableBuffers;
    RootKnown(g, st, o);
    NodeInside(g, st, o);
  }

  /** Output `p` of static node `n` does not share bytes with any tensor alive across `n`, nor with its siblings. */
  lemma {:induction false} OutputApart(plan: Plan, env: Env, block: nat, n: nat, p: nat, t: TensorName)
    requires KeptApart(plan, env, block) && Upward(plan.st.links) && n < |plan.g| && p < |plan.g[n].outputs|
    requires !IsNop(plan.g[n]) && !IsAlias(plan.g[n]) && !plan.g[n].dynamic
    requires Stored(plan.g, plan.st, t) && t != TensorName(n, p) && t.node <= n
    requires RootOf(plan.st, t) in plan.st.mutableBuffers && n <= plan.st.mutableBuffers[RootOf(plan.st, t)].end
    ensures var o := TensorName(n, p);
            && plan.st.tensorNames[t] in plan.st.tensorSizes && o in plan.st.tensorNames
            && plan.st.tensorNames[o] in plan.st.tensorSizes
            && AddressesApart(plan, plan.st.tensorNames[t], plan.st.tensorNames[o])
  {
    hide Regions, Extracted, Placement, GoodGraph, ValuesFit, ConcatsApart, Final, Stored;
    var o := TensorName(n, p);
    KeptRegions(plan, env, block);
    OutputStored(plan.g, plan.st, n, p);
    StoredFacts(plan.g, plan.st, o);
    StoredFacts(plan.g, plan.st, t);
    if t.node == n { assert Own(plan.g, t); }
    OutputUnrelated(plan.g, plan.st, o, t);
    LiveApart(plan, block, plan.st.tensorNames[t], plan.st.tensorNames[o]);
  }

  /** Values that fit their tensors. */
  ghost predicate OutputsSized(g: Graph, n: nat, values: seq<TensorValue>)
    requires n < |g|
  {
    forall p: nat :: p < |g[n].outputs| ==> |OutputOf(values, p).data| <= TensorBytes(g, TensorName(n, p))
  }

  lemma {:induction false} WriteApart(plan: Plan, env: Env, mem: Memory, n: nat, p: nat, value: seq<Byte>, t: TensorName)
    requires KeptApart(plan, env, |mem|) && Upward(plan.st.links) && Topological(plan.g)
    requires n < |plan.g| && p < |plan.g[n].outputs|
    requires !IsNop(plan.g[n]) && !IsAlias(plan.g[n]) && !plan.g[n].dynamic
    requires |value| <= TensorBytes(plan.g, TensorName(n, p))
    requires Stored(plan.g, plan.st, t) && t != TensorName(n, p) && t.node <= n && HoldsAt(plan, env, mem, t)
    requires RootOf(plan.st, t) in plan.st.mutableBuffers && n <= plan.st.mutableBuffers[RootOf(plan.st, t)].end
    ensures HoldsAt(plan, env, Write(mem, Address(plan, IdOf(plan.st, TensorName(n, p))), value), t)
  {
    hide Regions, Extracted, Placement, GoodGraph, ValuesFit, ConcatsApart, Final, Stored, Reference, Write;
    KeptRegions(plan, env, |mem|);
    OutputApart(plan, env, |mem|, n, p, t);
    OutputStored(plan.g, plan.st, n, p);
    StoredFacts(plan.g, plan.st, TensorName(n, p));
    StoredFacts(plan.g, plan.st, t);
    ValueFits(plan, env, |mem|, t);
    WriteElsewhere(mem, Address(plan, plan.st.tensorNames[t]), Reference(plan.g, env, t).data,
                   Address(plan, plan.st.tensorNames[TensorName(n, p)]), value);
  }

  /** Writing the outputs of `n` leaves a live tensor alone. */
  lemma {:induction false} WritesKeep(plan: Plan, env: Env, mem: Memory, n: nat, values: seq<TensorValue>, ports: nat,
                                      t: TensorName)
    requires KeptApart(plan, env, |mem|) && Upward(plan.st.links) && Topological(plan.g) && n < |plan.g|
    requires !IsNop(plan.g[n]) && !IsAlias(plan.g[n]) && !plan.g[n].dynamic
    requires ports <= |plan.g[n].outputs| && OutputsSized(plan.g, n, values)
    requires Live(plan.g, plan.st, t, n) && HoldsAt(plan, env, mem, t)
    ensures HoldsAt(plan, env, WriteBlock(plan, mem, n, values, ports), t)
  {
    hide KeptApart, Stored, HoldsAt, Write;
    if ports > 0 {
      WritesKeep(plan, env, mem, n, values, ports - 1, t);
      WriteApart(plan, env, WriteBlock(plan, mem, n, values, ports - 1), n, ports - 1, OutputOf(values, ports - 1).data, t);
    }
  }

  /** After writing the first `ports` outputs each of them can be read back. */
  lemma {:induction false} WritesLand(plan: Plan, env: Env, mem: Memory, n: nat, values: seq<TensorValue>, ports: nat,
                                      p: nat)
    requires KeptApart(plan, env, |mem|) && Upward(plan.st.links) && Topological(plan.g) && n < |plan.g|
    requires !IsNop(plan.g[n]) && !IsAlias(plan.g[n]) && !plan.g[n].dynamic
    requires p < ports <= |plan.g[n].outputs| && OutputsSized(plan.g, n, values)
    requires OutputOf(values, p) == Reference(plan.g, env, TensorName(n, p))
    ensures HoldsAt(plan, env, WriteBlock(plan, mem, n, values, ports), TensorName(n, p))
  {
    hide KeptApart, Stored, Write, HoldsAt, Regions, Final, Reference;
    KeptRegions(plan, env, |mem|);
    OutputStored(plan.g, plan.st, n, p);
    if p < ports - 1 {
      WritesLand(plan, env, mem, n, values, ports - 1, p);
      WriteApart(plan, env, WriteBlock(plan, mem, n, values, ports - 1), n, ports - 1, OutputOf(values, ports - 1).data,
                 TensorName(n, p));
    } else {
      LastWriteLands(plan, env, WriteBlock(plan, mem, n, values, p), n, p);
    }
  }

  lemma {:induction false} LastWriteLands(plan: Plan, env: Env, mem: Memory, n: nat, p: nat)
    requires KeptApart(plan, env, |mem|) && Upward(plan.st.links) && Topological(plan.g)
    requires n < |plan.g| && p < |plan.g[n].outputs|
    requires !IsNop(plan.g[n]) && !IsAlias(plan.g[n]) && !plan.g[n].dynamic
    ensures var o := TensorName(n, p);
            HoldsAt(plan, env, Write(mem, Address(plan, IdOf(plan.st, o)), Reference(plan.g, env, o).data), o)
  {
    hide KeptApart, Stored, Write, Reference, HoldsBytes, Address;
    OutputInside(plan, env, |mem|, n, p);
    ValueFits(plan, env, |mem|, TensorName(n, p));
  }

  /** The region of an output ends inside the block, in a buffer that has a place. */
  lemma {:induction false} OutputInside(plan: Plan, env: Env, block: nat, n: nat, p: nat)
    requires KeptApart(plan, env, block) && Upward(plan.st.links) && n < |plan.g| && p < |plan.g[n].outputs|
    requires !IsNop(plan.g[n]) && !IsAlias(plan.g[n]) && !plan.g[n].dynamic
    ensures var o := TensorName(n, p);
            && Exists(plan.g, o) && Stored(plan.g, plan.st, o)
            && Address(plan, IdOf(plan.st, o)) + TensorBytes(plan.g, o) <= block && RootOf(plan.st, o) in plan.place
  {
    hide Regions, Extracted, GoodGraph, ValuesFit, ConcatsApart, Final, Stored;
    KeptRegions(plan, env, block);
    OutputStored(plan.g, plan.st, n, p);
    StoredInside(plan, env, block, TensorName(n, p));
  }

  lemma {:induction false} StoredInside(plan: Plan, env: Env, block: nat, t: TensorName)
    requires KeptApart(plan, env, block) && Upward(plan.st.links) && Stored(plan.g, plan.st, t)
    ensures Exists(plan.g, t) && Address(plan, IdOf(plan.st, t)) + TensorBytes(plan.g, t) <= block
    ensures RootOf(plan.st, t) in plan.place
  {
    hide Regions, Extracted, GoodGraph, ValuesFit, ConcatsApart, Final, Stored;
    KeptRegions(plan, env, block);
    StoredFacts(plan.g, plan.st, t);
    InsideRoot(plan.g, plan.st, plan.st.tensorNames[t]);
  }

  // ----- concat: a no-op whose output is already in place

  lemma {:induction false} ChildAddress(plan: Plan, env: Env, block: nat, n: nat, k: nat)
    requires KeptApart(plan, env, block) && Upward(plan.st.links) && n < |plan.g| && plan.g[n].kind.ConcatNode?
    requires k < |plan.g[n].inputs|
    ensures var t, ids := plan.g[n].inputs[k], InputIds(plan.g, plan.st, n);
            && t in plan.st.tensorNames && Exists(plan.g, t) && IdOf(plan.st, t) == ids[k]
            && Address(plan, ids[k])
               == Address(plan, IdOf(plan.st, TensorName(n, 0))) + PrefixSize(plan.st.tensorSizes, ids, k)
  {
    hide Regions, GoodGraph, ValuesFit, ConcatsApart, Final, PrefixSize, Placement, Covered, LinkedByConcat;
    KeptRegions(plan, env, block);
    KnownInput(plan.g, plan.st, n, k);
    var ids := InputIds(plan.g, plan.st, n);
    assert ids[k] in plan.st.links;
  }

  lemma {:induction false} ReadSplit(mem: Memory, a: nat, one: seq<Byte>, two: seq<Byte>)
    requires HoldsBytes(mem, a, one) && HoldsBytes(mem, a + |one|, two)
    ensures HoldsBytes(mem, a, one + two)
  {
    assert mem[a..a + |one + two|] == mem[a..a + |one|] + mem[a + |one|..a + |one| + |two|];
  }

  /** Parts that never exceed their slots fill them all as soon as their total does. */
  lemma {:induction false} PartsFill(parts: seq<TensorValue>, sizes: Sizes, ids: seq<BufferID>, k: nat)
    requires k <= |parts| == |ids| && forall j :: 0 <= j < k ==> |parts[j].data| <= SizeOf(sizes, ids[j])
    ensures |Flatten(parts, k)| <= PrefixSize(sizes, ids, k)
    ensures |Flatten(parts, k)| == PrefixSize(sizes, ids, k) ==>
      forall j :: 0 <= j < k ==> |parts[j].data| == SizeOf(sizes, ids[j])
  {
    hide SizeOf;
    if k > 0 { PartsFill(parts, sizes, ids, k - 1); }
  }

  lemma {:induction false} FlattenSizes(parts: seq<TensorValue>, sizes: Sizes, ids: seq<BufferID>, k: nat)
    requires k <= |parts| == |ids| && forall j :: 0 <= j < k ==> |parts[j].data| == SizeOf(sizes, ids[j])
    ensures |Flatten(parts, k)| == PrefixSize(sizes, ids, k)
  {
    hide SizeOf;
    if k > 0 { FlattenSizes(parts, sizes, ids, k - 1); }
  }

  /** The parts of a concat are stored, live, and no larger than their slots. */
  lemma {:induction false} PartFacts(plan: Plan, env: Env, block: nat, n: nat, k: nat)
    requires KeptApart(plan, env, block) && Upward(plan.st.links) && Topological(plan.g) && n < |plan.g|
    requires plan.g[n].kind.ConcatNode? && k < |plan.g[n].inputs| && Stored(plan.g, plan.st, TensorName(n, 0))
    ensures var t := plan.g[n].inputs[k];
            && Live(plan.g, plan.st, t, n) && IdOf(plan.st, t) == InputIds(plan.g, plan.st, n)[k]
            && |Reference(plan.g, env, t).data| <= SizeOf(plan.st.tensorSizes, IdOf(plan.st, t))
  {
    hide Regions, GoodGraph, ValuesFit, Final, PrefixSize, Placement, Extracted, Reference;
    KeptRegions(plan, env, block);
    var t := plan.g[n].inputs[k];
    KnownInput(plan.g, plan.st, n, k);
    PartStored(plan.g, plan.st, n, k);
    InputLive(plan.g, plan.st, n, k);
    StoredFacts(plan.g, plan.st, t);
    ValueFits(plan, env, block, t);
  }

  lemma {:induction false} PartStored(g: Graph, st: State, n: nat, k: nat)
    requires Regions(g, st) && ConcatsApart(g) && Upward(st.links) && n < |g| && g[n].kind.ConcatNode?
    requires k < |g[n].inputs| && Stored(g, st, TensorName(n, 0))
    ensures Stored(g, st, g[n].inputs[k])
  {
    hide GoodGraph, Covered, LinkedByConcat, PrefixSize, Named, AliasesFollow, Ordered, Placed, Sized,
      OnlyConcatsContain, ConstantsKept, Packed, BuffersSized, Rooted;
    KnownInput(g, st, n, k);
    ConcatTensor(g, st, n);
    if IsSingle(g[n]) { SingleLink(g, st, n); }
    var ids := InputIds(g, st, n);
    assert ids[k] in st.links && ids[k] == st.tensorNames[g[n].inputs[k]];
  }

  lemma {:induction false} ConcatPrefix(plan: Plan, env: Env, mem: Memory, n: nat, k: nat)
    requires KeptApart(plan, env, |mem|) && Upward(plan.st.links) && Topological(plan.g) && n < |plan.g|
    requires plan.g[n].kind.ConcatNode? && k <= |plan.g[n].inputs| && Stored(plan.g, plan.st, TensorName(n, 0))
    requires BlockHeld(plan, env, mem, n)
    requires forall j :: 0 <= j < k ==>
      |References(plan.g, env, n)[j].data| == SizeOf(plan.st.tensorSizes, InputIds(plan.g, plan.st, n)[j])
    requires Address(plan, IdOf(plan.st, TensorName(n, 0))) <= |mem|
    ensures HoldsBytes(mem, Address(plan, IdOf(plan.st, TensorName(n, 0))), Flatten(References(plan.g, env, n), k))
  {
    hide KeptApart, InputIds, Address, SizeOf, Reference, IdOf, HoldsBytes, Live, Stored;
    var parts, a := References(plan.g, env, n), Address(plan, IdOf(plan.st, TensorName(n, 0)));
    if k == 0 {
      HoldsNothing(mem, a);
    } else {
      ConcatPrefix(plan, env, mem, n, k - 1);
      PartFacts(plan, env, |mem|, n, k - 1);
      ChildAddress(plan, env, |mem|, n, k - 1);
      FlattenSizes(parts, plan.st.tensorSizes, InputIds(plan.g, plan.st, n), k - 1);
      assert HoldsAt(plan, env, mem, plan.g[n].inputs[k - 1]);
      ReadSplit(mem, a, Flatten(parts, k - 1), parts[k - 1].data);
    }
  }

  lemma {:induction false} HoldsNothing(mem: Memory, a: nat)
    requires a <= |mem|
    ensures HoldsBytes(mem, a, [])
  {}

  lemma {:induction false} ConcatReference(g: Graph, env: Env, n: nat)
    requires Topological(g) && WellFormed(g) && ValuesFit(g, env) && n < |g| && g[n].kind.ConcatNode?
    requires Type(g, TensorName(n, 0)).elements.Some?
    ensures var v, t := Reference(g, env, TensorName(n, 0)), TensorName(n, 0);
            && Exists(g, t) && v.data == Flatten(References(g, env, n), |g[n].inputs|)
            && (v.data == [] || |v.data| == TensorBytes(g, t))
  {
    hide Elements, Flatten;
    assert WellFormedNode(g[n]);
    assert Exists(g, TensorName(n, 0));
    assert Typed(g, env, TensorName(n, 0), Reference(g, env, TensorName(n, 0)));
  }

  /** After the inputs of a concat have been produced its output is in place although nothing was executed. */
  lemma {:induction false} ConcatHolds(plan: Plan, env: Env, mem: Memory, n: nat)
    requires KeptApart(plan, env, |mem|) && Upward(plan.st.links) && Topological(plan.g) && n < |plan.g|
    requires plan.g[n].kind.ConcatNode? && Stored(plan.g, plan.st, TensorName(n, 0)) && BlockHeld(plan, env, mem, n)
    ensures HoldsAt(plan, env, mem, TensorName(n, 0))
  {
    hide Regions, BlockHeld, InputIds, Address, Tiled, PrefixSize, Flatten, Reference, SizeOf, Final, Placement,
      LinkedByConcat, Covered, Stored, ConcatsApart, ValuesFit, DynamicFlags, BytesKept;
    KeptRegions(plan, env, |mem|);
    ConcatTensor(plan.g, plan.st, n);
    ConcatReference(plan.g, env, n);
    StoredInside(plan, env, |mem|, TensorName(n, 0));
    if Reference(plan.g, env, TensorName(n, 0)).data == [] {
      HoldsNothing(mem, Address(plan, IdOf(plan.st, TensorName(n, 0))));
    } else {
      PartsExact(plan, env, |mem|, n);
      ConcatPrefix(plan, env, mem, n, |plan.g[n].inputs|);
    }
  }

  lemma {:induction false} PartsExact(plan: Plan, env: Env, block: nat, n: nat)
    requires KeptApart(plan, env, block) && Upward(plan.st.links) && Topological(plan.g) && n < |plan.g|
    requires plan.g[n].kind.ConcatNode? && Stored(plan.g, plan.st, TensorName(n, 0)) && Exists(plan.g, TensorName(n, 0))
    requires |Flatten(References(plan.g, env, n), |plan.g[n].inputs|)| == TensorBytes(plan.g, TensorName(n, 0))
    ensures forall j :: 0 <= j < |plan.g[n].inputs| ==>
      |References(plan.g, env, n)[j].data| == SizeOf(plan.st.tensorSizes, InputIds(plan.g, plan.st, n)[j])
  {
    hide Regions, PrefixSize, Flatten, Reference, Final, Placement, LinkedByConcat, Covered, Stored, ConcatsApart,
      ValuesFit, GoodGraph;
    KeptRegions(plan, env, block);
    var ids := InputIds(plan.g, plan.st, n);
    forall j | 0 <= j < |plan.g[n].inputs|
      ensures |References(plan.g, env, n)[j].data| <= SizeOf(plan.st.tensorSizes, ids[j])
    {
      PartFacts(plan, env, block, n, j);
    }
    StoredFacts(plan.g, plan.st, TensorName(n, 0));
    assert Tiled(plan.g, plan.st, n);
    PartsFill(References(plan.g, env, n), plan.st.tensorSizes, ids, |ids|);
  }

  // ----- one node

  lemma {:induction false} ReferenceIsOutput(g: Graph, env: Env, n: nat, p: nat)
    requires Topological(g) && n < |g| && p < |g[n].outputs| && !IsAlias(g[n]) && ValuesFit(g, env)
    ensures p < |ReferenceOutputs(g, env, n)| && Reference(g, env, TensorName(n, p)) == ReferenceOutputs(g, env, n)[p]
    ensures Typed(g, env, TensorName(n, p), Reference(g, env, TensorName(n, p)))
  {
    hide Evaluate, Elements, Typed;
    assert Exists(g, TensorName(n, p));
  }

  lemma {:induction false} ReferencesSized(plan: Plan, env: Env, block: nat, n: nat)
    requires KeptApart(plan, env, block) && Upward(plan.st.links) && Topological(plan.g) && n < |plan.g|
    requires !IsNop(plan.g[n]) && !IsAlias(plan.g[n]) && !plan.g[n].dynamic
    ensures OutputsSized(plan.g, n, ReferenceOutputs(plan.g, env, n))
  {
    hide Regions, Extracted, Placement, GoodGraph, ConcatsApart, Reference, Typed, Evaluate;
    KeptRegions(plan, env, block);
    forall p: nat | p < |plan.g[n].outputs|
      ensures |OutputOf(ReferenceOutputs(plan.g, env, n), p).data| <= TensorBytes(plan.g, TensorName(n, p))
    {
      OutputStored(plan.g, plan.st, n, p);
      ValueFits(plan, env, block, TensorName(n, p));
      ReferenceIsOutput(plan.g, env, n, p);
    }
  }

  lemma {:induction false} EarlierHolds(plan: Plan, env: Env, mem: Memory, n: nat, t: TensorName)
    requires KeptApart(plan, env, |mem|) && Upward(plan.st.links) && Topological(plan.g) && n < |plan.g| && n < |plan.work|
    requires BlockHeld(plan, env, mem, n) && Live(plan.g, plan.st, t, n + 1) && t.node < n && !plan.g[n].dynamic
    ensures HoldsAt(plan, env, NextBlock(plan, env, mem, n, ReferenceOutputs(plan.g, env, n)), t)
  {
    hide KeptApart, Stored, HoldsAt, Scribble, WriteBlock, ReferenceOutputs, OutputsSized;
    assert Live(plan.g, plan.st, t, n);
    if !IsNop(plan.g[n]) {
      ScribbleKeeps(plan, env, mem, n, t);
      if !IsAlias(plan.g[n]) {
        var dirty, values := Scribble(plan, env, mem, n), ReferenceOutputs(plan.g, env, n);
        ReferencesSized(plan, env, |mem|, n);
        WritesKeep(plan, env, dirty, n, values, |plan.g[n].outputs|, t);
        ScribbleKeeps(plan, env, WriteBlock(plan, dirty, n, values, |plan.g[n].outputs|), n, t);
      }
    }
  }

  /** An output just written can be read back. */
  lemma {:induction false} ComputedHolds(plan: Plan, env: Env, mem: Memory, n: nat, p: nat)
    requires KeptApart(plan, env, |mem|) && Upward(plan.st.links) && Topological(plan.g) && n < |plan.g| && n < |plan.work|
    requires !IsNop(plan.g[n]) && !IsAlias(plan.g[n]) && !plan.g[n].dynamic && p < |plan.g[n].outputs|
    ensures HoldsAt(plan, env, NextBlock(plan, env, mem, n, ReferenceOutputs(plan.g, env, n)), TensorName(n, p))
  {
    hide Regions, Extracted, Placement, GoodGraph, ConcatsApart, Reference, Typed, Evaluate, Stored, HoldsAt, Scribble,
      WriteBlock, ReferenceOutputs, OutputsSized, Final;
    KeptRegions(plan, env, |mem|);
    var dirty, values := Scribble(plan, env, mem, n), ReferenceOutputs(plan.g, env, n);
    ReferencesSized(plan, env, |mem|, n);
    ReferenceIsOutput(plan.g, env, n, p);
    WritesLand(plan, env, dirty, n, values, |plan.g[n].outputs|, p);
    OutputStored(plan.g, plan.st, n, p);
    ScribbleKeeps(plan, env, WriteBlock(plan, dirty, n, values, |plan.g[n].outputs|), n, TensorName(n, p));
  }

  /** An alias of a live tensor renames a live tensor that shows the same bytes at the same address. */
  lemma {:induction false} AliasLive(g: Graph, st: State, env: Env, t: TensorName, n: nat)
    requires Regions(g, st) && Upward(st.links) && Topological(g) && Live(g, st, t, n) && Exists(g, t) && IsAlias(g[t.node])
    ensures |g[t.node].inputs| > 0
    ensures var s := g[t.node].inputs[0];
            && s.node < t.node && Live(g, st, s, n) && IdOf(st, s) == IdOf(st, t)
            && Reference(g, env, s).data == Reference(g, env, t).data
  {
    hide GoodGraph, Tiled, Covered, LinkedByConcat, Named, Ordered, ParentsKnown, Placed, Sized, OnlyConcatsContain,
      ConstantsKept, Packed, BuffersSized, Classified, Rooted;
    RegionsFinal(g, st);
  }

  lemma {:induction false} StaticKeeps(plan: Plan, env: Env, mem: Memory, n: nat)
    requires KeptApart(plan, env, |mem|) && Upward(plan.st.links) && Topological(plan.g) && n < |plan.g| && n < |plan.work|
    requires BlockHeld(plan, env, mem, n) && !plan.g[n].dynamic
    ensures BlockHeld(plan, env, NextBlock(plan, env, mem, n, ReferenceOutputs(plan.g, env, n)), n + 1)
  {
    hide KeptApart, Reference, ReferenceOutputs, NextBlock, BlockHeld, Regions, Final;
    KeptRegions(plan, env, |mem|);
    var mem' := NextBlock(plan, env, mem, n, ReferenceOutputs(plan.g, env, n));
    forall t | Live(plan.g, plan.st, t, n + 1) ensures HoldsAt(plan, env, mem', t) {
      NameExists(plan.g, plan.st, t);
      if t.node < n {
        EarlierHolds(plan, env, mem, n, t);
      } else {
        NewHolds(plan, env, mem, n, t);
      }
    }
    assert BlockHeld(plan, env, mem', n + 1) by { HeldFrom(plan, env, mem', n + 1); }
  }

  lemma {:induction false} HeldFrom(plan: Plan, env: Env, mem: Memory, n: nat)
    requires Upward(plan.st.links) && Topological(plan.g)
    requires forall t :: Live(plan.g, plan.st, t, n) ==> HoldsAt(plan, env, mem, t)
    ensures BlockHeld(plan, env, mem, n)
  {
    hide HoldsAt, Live;
  }

  lemma {:induction false} NewHolds(plan: Plan, env: Env, mem: Memory, n: nat, t: TensorName)
    requires KeptApart(plan, env, |mem|) && Upward(plan.st.links) && Topological(plan.g) && n < |plan.g| && n < |plan.work|
    requires BlockHeld(plan, env, mem, n) && !plan.g[n].dynamic && Live(plan.g, plan.st, t, n + 1) && t.node == n
    requires Exists(plan.g, t)
    ensures HoldsAt(plan, env, NextBlock(plan, env, mem, n, ReferenceOutputs(plan.g, env, n)), t)
  {
    hide KeptApart, Reference, ReferenceOutputs, NextBlock, BlockHeld, Regions;
    KeptRegions(plan, env, |mem|);
    if IsAlias(plan.g[n]) {
      AliasLive(plan.g, plan.st, env, t, n + 1);
      EarlierHolds(plan, env, mem, n, plan.g[n].inputs[0]);
    } else if plan.g[n].kind.ConcatNode? {
      ConcatOutput(plan, env, |mem|, t);
      ConcatHolds(plan, env, mem, n);
      NopIdle(plan, env, mem, n);
    } else {
      NoConstant(plan.g, plan.st, t);
      ComputedHolds(plan, env, mem, n, t.port);
    }
  }

  lemma {:induction false} ConcatOutput(plan: Plan, env: Env, block: nat, t: TensorName)
    requires KeptApart(plan, env, block) && Exists(plan.g, t) && plan.g[t.node].kind.ConcatNode?
    ensures t == TensorName(t.node, 0)
  {
    hide Extracted, Placement, ValuesFit, ConcatsApart, WorkAdded, DynamicFlags, BytesKept, Topological;
    SingleOutput(plan.g, t);
  }

  lemma {:induction false} NopIdle(plan: Plan, env: Env, mem: Memory, n: nat)
    requires Upward(plan.st.links) && Topological(plan.g) && n < |plan.g| && n < |plan.work| && IsNop(plan.g[n])
    ensures NextBlock(plan, env, mem, n, ReferenceOutputs(plan.g, env, n)) == mem
  {
    hide ReferenceOutputs;
  }

  lemma {:induction false} NoConstant(g: Graph, st: State, t: TensorName)
    requires Final(g, st) && Stored(g, st, t) && Own(g, t)
    ensures !g[t.node].kind.ConstantNode?
  {
    hide Named, AliasesFollow, Ordered, ParentsKnown, Placed, Sized, OnlyConcatsContain, Packed, BuffersSized,
      Classified, Rooted;
  }

  /** Dynamic nodes keep out of the block. */
  lemma {:induction false} DynamicKeeps(plan: Plan, env: Env, mem: Memory, n: nat)
    requires KeptApart(plan, env, |mem|) && Upward(plan.st.links) && Topological(plan.g) && n < |plan.g|
    requires BlockHeld(plan, env, mem, n) && plan.g[n].dynamic
    ensures BlockHeld(plan, env, mem, n + 1)
  {
    hide KeptApart, Reference, Regions, Final, HoldsAt;
    KeptRegions(plan, env, |mem|);
    forall t | Live(plan.g, plan.st, t, n + 1) ensures HoldsAt(plan, env, mem, t) {
      NameExists(plan.g, plan.st, t);
      if t.node < n {
        assert Live(plan.g, plan.st, t, n);
      } else if IsAlias(plan.g[n]) {
        AliasLive(plan.g, plan.st, env, t, n + 1);
        SameHolds(plan, env, mem, plan.g[n].inputs[0], t, n);
      } else {
        StoredIsStatic(plan.g, plan.st, t);
        assert false;
      }
    }
  }

  lemma {:induction false} StoredIsStatic(g: Graph, st: State, t: TensorName)
    requires Regions(g, st) && Stored(g, st, t) && Own(g, t)
    ensures !g[t.node].dynamic
  {
    hide Regions;
    SourceStatic(g, st, t);
    OwnSource(g, t);
  }

  lemma {:induction false} SameHolds(plan: Plan, env: Env, mem: Memory, s: TensorName, t: TensorName, n: nat)
    requires Upward(plan.st.links) && Topological(plan.g) && BlockHeld(plan, env, mem, n)
    requires Live(plan.g, plan.st, s, n + 1) && s.node < n && IdOf(plan.st, s) == IdOf(plan.st, t)
    requires Reference(plan.g, env, s).data == Reference(plan.g, env, t).data
    ensures HoldsAt(plan, env, mem, t)
  {
    hide Reference, HoldsBytes;
    assert Live(plan.g, plan.st, s, n);
  }
}
