/** Which buffers dynamic nodes register, and which tensors live there. */
module DynamicRegions {
  import opened Graphs
  import opened BufferSpec
  import opened BufferInvariant
  import opened BufferRuns
  import opened BufferTheorems
  import opened BufferLayout
  import opened TensorValues
  import opened SharedMemory

  /** No concat of several tensors has an input whose bytes come from a dynamic node. */
  predicate ConcatsApart(g: Graph) {
    forall m, k :: 0 <= m < |g| && g[m].kind.ConcatNode? && |g[m].inputs| > 1 && 0 <= k < |g[m].inputs| ==>
      !ProducedDynamically(g, Origin(g, g[m].inputs[k]))
  }

  ghost predicate Regions(g: Graph, st: State) {
    GoodGraph(g) && Extracted(g, st)
  }

  // ----- from the state's many facts to one at a time

  lemma {:induction false} RegionsFinal(g: Graph, st: State)
    requires Regions(g, st)
    ensures Final(g, st) && Upward(st.links) && Packed(st.links, st.tensorSizes)
  {
    hide Named, AliasesFollow, Ordered, ParentsKnown, Placed, Sized, OnlyConcatsContain, ConstantsKept, Packed,
      BuffersSized, Classified, Rooted, Tiled, Covered, LinkedByConcat, GoodGraph;
  }

  lemma {:induction false} RegionsGood(g: Graph, st: State)
    requires Regions(g, st)
    ensures GoodGraph(g)
  {
    hide Extracted, GoodGraph;
  }

  lemma {:induction false} GoodTopological(g: Graph)
    requires GoodGraph(g)
    ensures Topological(g) && WellFormed(g)
  {
    hide Topological, WellFormed, DynamicFlags, BytesKept;
  }

  lemma {:induction false} NameExists(g: Graph, st: State, t: TensorName)
    requires Final(g, st)
    ensures t in st.tensorNames <==> Exists(g, t)
  {
    hide AliasesFollow, Ordered, ParentsKnown, Placed, Sized, OnlyConcatsContain, ConstantsKept, Packed,
      BuffersSized, Classified, Rooted;
    assert Exists(g, t) ==> Done(g, |g|, 0, t);
  }

  lemma {:induction false} OwnIdsDiffer(g: Graph, st: State, s: TensorName, t: TensorName)
    requires Final(g, st) && s in st.tensorNames && t in st.tensorNames && Own(g, s) && Own(g, t) && s != t
    ensures st.tensorNames[s] != st.tensorNames[t]
  {
    hide ParentsKnown, Packed, BuffersSized, Sized, AliasesFollow, OnlyConcatsContain, Rooted, Classified, Named,
      ConstantsKept, Placed;
    assert Before(s, t) || Before(t, s);
  }

  lemma {:induction false} SourceFacts(g: Graph, st: State, t: TensorName)
    requires Final(g, st) && t in st.tensorNames
    ensures Source(g, t) in st.tensorNames && Own(g, Source(g, t)) && st.tensorNames[Source(g, t)] == st.tensorNames[t]
  {
    hide ParentsKnown, Packed, BuffersSized, Sized, OnlyConcatsContain, Rooted, Classified, ConstantsKept, Placed, Ordered;
    forall s | s in st.tensorNames ensures Exists(g, s) {
      assert Done(g, |g|, 0, s);
    }
    SourceOwns(g, st, t);
  }

  /** The tensor that owns an id is unique. */
  lemma {:induction false} OwnerOf(g: Graph, st: State, s: TensorName, t: TensorName)
    requires Final(g, st) && s in st.tensorNames && t in st.tensorNames && Own(g, t)
    requires st.tensorNames[s] == st.tensorNames[t]
    ensures Source(g, s) == t && Origin(g, s) == Origin(g, t)
  {
    hide Final;
    SourceFacts(g, st, s);
    if Source(g, s) != t { OwnIdsDiffer(g, st, Source(g, s), t); }
    OriginOfSource(g, s);
  }

  lemma {:induction false} OwnSource(g: Graph, t: TensorName)
    requires !(t.node < |g| && IsAlias(g[t.node]))
    ensures Source(g, t) == t
  {}

  lemma {:induction false} KnownInput(g: Graph, st: State, n: nat, k: nat)
    requires Regions(g, st) && n < |g| && k < |g[n].inputs|
    ensures g[n].inputs[k] in st.tensorNames && g[n].inputs[k].node < n && Exists(g, g[n].inputs[k])
  {
    hide Tiled, Covered, LinkedByConcat, BytesKept, DynamicFlags, WellFormed;
    RegionsFinal(g, st);
    NameExists(g, st, g[n].inputs[k]);
  }

  // ----- the concat above a region

  lemma {:induction false} ConcatTensor(g: Graph, st: State, m: nat)
    requires Regions(g, st) && m < |g| && g[m].kind.ConcatNode?
    ensures var o := TensorName(m, 0);
            && Exists(g, o) && Own(g, o) && o in st.tensorNames && !g[m].dynamic && Type(g, o).elements.Some?
            && TensorBytes(g, o) > 0 && Source(g, o) == o
  {
    hide GoodGraph, Extracted;
    ConcatType(g, m);
    RegionsFinal(g, st);
    NameExists(g, st, TensorName(m, 0));
  }

  lemma {:induction false} ConcatType(g: Graph, m: nat)
    requires GoodGraph(g) && m < |g| && g[m].kind.ConcatNode?
    ensures var o := TensorName(m, 0);
            Exists(g, o) && Own(g, o) && !g[m].dynamic && Type(g, o).elements.Some? && TensorBytes(g, o) > 0 && Source(g, o) == o
  {
    hide Topological;
    assert WellFormedNode(g[m]);
    assert Type(g, TensorName(m, 0)).elementSize > 0;
  }

  /** One step up: the concat that contains the region of tensor `s`, and which input it is. */
  lemma {:induction false} StepUp(g: Graph, st: State, s: TensorName) returns (m: nat, k: nat)
    requires Regions(g, st) && s in st.tensorNames && Own(g, s) && st.tensorNames[s] in st.links
    ensures m < |g| && g[m].kind.ConcatNode? && k < |g[m].inputs| && TensorName(m, 0) in st.tensorNames
    ensures g[m].inputs[k] in st.tensorNames && st.tensorNames[g[m].inputs[k]] == st.tensorNames[s]
    ensures s.node < m && Source(g, g[m].inputs[k]) == s && Origin(g, g[m].inputs[k]) == Origin(g, s)
    ensures st.links[st.tensorNames[s]].parent == st.tensorNames[TensorName(m, 0)]
  {
    hide Tiled, Covered, GoodGraph, Final;
    RegionsFinal(g, st);
    m, k := ParentIsConcat(g, st.tensorNames, st.links, st.tensorNames[s]);
    OwnerOf(g, st, g[m].inputs[k], s);
    KnownInput(g, st, m, k);
  }

  /** The only input of a single concat sits at offset zero of its output. */
  lemma {:induction false} SingleLink(g: Graph, st: State, m: nat)
    requires Regions(g, st) && m < |g| && IsSingle(g[m])
    ensures var t, o := g[m].inputs[0], TensorName(m, 0);
            && t in st.tensorNames && t.node < m && o in st.tensorNames && st.tensorNames[t] in st.links
            && st.links[st.tensorNames[t]] == Link(st.tensorNames[o], 0)
    ensures Origin(g, TensorName(m, 0)) == Origin(g, g[m].inputs[0])
  {
    hide Covered, LinkedByConcat, Final, GoodGraph;
    KnownInput(g, st, m, 0);
    ConcatTensor(g, st, m);
    var ids := InputIds(g, st, m);
    assert PrefixSize(st.tensorSizes, ids, 0) == 0;
    assert ids[0] == st.tensorNames[g[m].inputs[0]];
  }

  // ----- renames keep the place and the bytes

  lemma {:induction false} AliasData(g: Graph, st: State, env: Env, t: TensorName)
    requires Topological(g) && Final(g, st) && t in st.tensorNames
    ensures Reference(g, env, t).data == Reference(g, env, Source(g, t)).data
    decreases t.node
  {
    hide Ordered, ParentsKnown, OnlyConcatsContain, Packed, BuffersSized, Classified, Sized, Rooted, ConstantsKept, Placed;
    assert Done(g, |g|, 0, t);
    if IsAlias(g[t.node]) {
      AliasData(g, st, env, g[t.node].inputs[0]);
    }
  }

  lemma {:induction false} SingleData(g: Graph, env: Env, m: nat)
    requires Topological(g) && m < |g| && IsSingle(g[m]) && |g[m].outputs| > 0
    ensures Reference(g, env, TensorName(m, 0)).data == Reference(g, env, g[m].inputs[0]).data
  {
    var parts := References(g, env, m);
    assert Flatten(parts, 1) == Flatten(parts, 0) + parts[0].data;
  }

  lemma {:induction false} OriginFacts(g: Graph, st: State, env: Env, t: TensorName)
    requires Regions(g, st) && t in st.tensorNames && Upward(st.links)
    ensures var o := Origin(g, t);
            && o in st.tensorNames && Own(g, o) && !IsSingle(g[o.node]) && RootOf(st, o) == RootOf(st, t)
            && Offset(st.links, st.tensorNames[o]) == Offset(st.links, st.tensorNames[t])
            && Reference(g, env, o).data == Reference(g, env, t).data
    decreases t.node
  {
    hide Extracted, Reference, GoodGraph, Regions, Final, Topological, WellFormed;
    RegionsFinal(g, st);
    RegionsGood(g, st);
    GoodTopological(g);
    SourceFacts(g, st, t);
    AliasData(g, st, env, t);
    var s := Source(g, t);
    if IsSingle(g[s.node]) {
      SingleLink(g, st, s.node);
      ConcatTensor(g, st, s.node);
      SingleOutput(g, s);
      SingleData(g, env, s.node);
      OriginFacts(g, st, env, g[s.node].inputs[0]);
    }
  }

  lemma {:induction false} SingleOutput(g: Graph, s: TensorName)
    requires WellFormed(g) && Exists(g, s) && g[s.node].kind.ConcatNode?
    ensures s == TensorName(s.node, 0)
  {
    assert WellFormedNode(g[s.node]);
  }

  // ----- one dynamic tensor per registered buffer

  /** Everything that contains the region of a dynamically produced tensor renames it. */
  lemma {:induction false} Climb(g: Graph, st: State, s: TensorName, a: BufferID) returns (r: TensorName)
    requires Regions(g, st) && ConcatsApart(g) && Upward(st.links) && s in st.tensorNames && Own(g, s)
    requires ProducedDynamically(g, Origin(g, s)) && Contains(st.links, a, st.tensorNames[s])
    ensures r in st.tensorNames && Own(g, r) && st.tensorNames[r] == a && Origin(g, r) == Origin(g, s)
    decreases Above(st.links, st.tensorNames[s])
  {
    hide Regions;
    var id := st.tensorNames[s];
    if a == id {
      r := s;
    } else {
      ParentClimbs(st.links, id);
      var m, k := StepUp(g, st, s);
      SingleLink(g, st, m);
      ConcatTensor(g, st, m);
      r := Climb(g, st, TensorName(m, 0), a);
    }
  }

  /** Such a tensor sits at offset zero of its buffer. */
  lemma {:induction false} NoOffset(g: Graph, st: State, s: TensorName)
    requires Regions(g, st) && ConcatsApart(g) && Upward(st.links) && s in st.tensorNames && Own(g, s)
    requires ProducedDynamically(g, Origin(g, s))
    ensures Offset(st.links, st.tensorNames[s]) == 0
    decreases Above(st.links, st.tensorNames[s])
  {
    hide Regions;
    var id := st.tensorNames[s];
    if id in st.links {
      ParentClimbs(st.links, id);
      var m, k := StepUp(g, st, s);
      SingleLink(g, st, m);
      ConcatTensor(g, st, m);
      NoOffset(g, st, TensorName(m, 0));
    }
  }

  /** Everything inside the region of a rename of a dynamically produced tensor renames the same tensor. */
  lemma {:induction false} UniqueBelow(g: Graph, st: State, r: TensorName, s: TensorName)
    requires Regions(g, st) && Upward(st.links) && r in st.tensorNames && Own(g, r) && s in st.tensorNames
    requires ProducedDynamically(g, Origin(g, r)) && Contains(st.links, st.tensorNames[r], st.tensorNames[s])
    ensures Origin(g, s) == Origin(g, r)
    decreases r.node
  {
    hide Regions;
    RegionsFinal(g, st);
    if st.tensorNames[r] == st.tensorNames[s] {
      OwnerOf(g, st, s, r);
    } else {
      var c := ChildTowards(st.links, st.tensorNames[r], st.tensorNames[s]);
      var m, k := ChildInput(g, st, r, c);
      SourceFacts(g, st, g[m].inputs[0]);
      OriginOfSource(g, g[m].inputs[0]);
      UniqueBelow(g, st, Source(g, g[m].inputs[0]), s);
    }
  }

  /** A tensor with a region inside it is a concat's output; one that shows a dynamic tensor's bytes has no other input. */
  lemma {:induction false} ChildInput(g: Graph, st: State, r: TensorName, c: BufferID) returns (m: nat, k: nat)
    requires Regions(g, st) && r in st.tensorNames && Own(g, r) && ProducedDynamically(g, Origin(g, r))
    requires c in st.links && st.links[c].parent == st.tensorNames[r]
    ensures r == TensorName(m, 0) && m < |g| && IsSingle(g[m]) && k == 0 && g[m].inputs[0] in st.tensorNames
    ensures g[m].inputs[0].node < m && st.tensorNames[g[m].inputs[0]] == c && Origin(g, g[m].inputs[0]) == Origin(g, r)
  {
    hide Tiled, Covered, GoodGraph, Final;
    RegionsFinal(g, st);
    m, k := ParentIsConcat(g, st.tensorNames, st.links, c);
    ConcatTensor(g, st, m);
    OwnerOf(g, st, TensorName(m, 0), r);
    if IsSingle(g[m]) {
      SingleLink(g, st, m);
    }
  }

  /** If a tensor shares its buffer with a dynamic node's output then it renames that output. */
  lemma {:induction false} RootUnique(g: Graph, st: State, env: Env, d: TensorName, s: TensorName)
    requires Regions(g, st) && ConcatsApart(g) && Upward(st.links) && d in st.tensorNames && Own(g, d) && g[d.node].dynamic
    requires s in st.tensorNames && RootOf(st, s) == RootOf(st, d)
    ensures Origin(g, s) == d && Origin(g, d) == d
  {
    hide Regions;
    DynamicIsOrigin(g, st, d);
    RootContains(st.links, st.tensorNames[d]);
    RootContains(st.links, st.tensorNames[s]);
    var r := Climb(g, st, d, RootOf(st, d));
    UniqueBelow(g, st, r, s);
  }

  lemma {:induction false} DynamicIsOrigin(g: Graph, st: State, d: TensorName)
    requires Regions(g, st) && Own(g, d) && g[d.node].dynamic
    ensures Origin(g, d) == d
  {
    hide Extracted, BytesKept, WellFormed;
  }
}
