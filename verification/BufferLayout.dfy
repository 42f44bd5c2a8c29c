/** The region forest: concat inputs tile their parent, and regions that do not contain each other never overlap. */
module BufferLayout {
  import opened Options
  import opened Graphs
  import opened BufferSpec
  import opened BufferInvariant
  import opened BufferRuns

  // ----- regions under one root

  /** `a` is `x` or a tensor that (transitively) contains it. */
  ghost predicate Contains(links: Links, a: BufferID, x: BufferID)
    requires Upward(links)
    decreases Above(links, x)
  {
    a == x || (x in links && (ParentClimbs(links, x); Contains(links, a, links[x].parent)))
  }

  /** A contained region lies inside the containing one and shares its root. */
  lemma {:induction false} ContainedInside(links: Links, sizes: Sizes, a: BufferID, x: BufferID)
    requires Upward(links) && Packed(links, sizes) && Contains(links, a, x) && x in sizes
    ensures x <= a && a in sizes && Root(links, a) == Root(links, x)
    ensures Offset(links, a) <= Offset(links, x)
    ensures Offset(links, x) + sizes[x] <= Offset(links, a) + sizes[a]
    decreases Above(links, x)
  {
    if a != x {
      ParentClimbs(links, x);
      ContainedInside(links, sizes, a, links[x].parent);
    }
  }

  lemma {:induction false} RootContains(links: Links, x: BufferID)
    requires Upward(links)
    ensures Contains(links, Root(links, x), x)
    decreases Above(links, x)
  {
    if x in links {
      ParentClimbs(links, x);
      RootContains(links, links[x].parent);
    }
  }

  /** Between `x` and a region properly containing it there is a direct child of the latter. */
  lemma {:induction false} ChildTowards(links: Links, a: BufferID, x: BufferID) returns (c: BufferID)
    requires Upward(links) && Contains(links, a, x) && a != x
    ensures c in links && links[c].parent == a && Contains(links, c, x)
    decreases Above(links, x)
  {
    ParentClimbs(links, x);
    if links[x].parent == a {
      c := x;
    } else {
      c := ChildTowards(links, a, links[x].parent);
    }
  }

  ghost predicate Apart(links: Links, sizes: Sizes, a: BufferID, b: BufferID)
    requires Upward(links) && a in sizes && b in sizes
  {
    || Offset(links, a) + sizes[a] <= Offset(links, b)
    || Offset(links, b) + sizes[b] <= Offset(links, a)
  }

  /** Regions of one buffer that do not contain each other have disjoint byte ranges. */
  lemma {:induction false} RegionsApart(links: Links, sizes: Sizes, a: BufferID, b: BufferID)
    requires Upward(links) && Packed(links, sizes) && a in sizes && b in sizes
    requires Root(links, a) == Root(links, b) && !Contains(links, a, b) && !Contains(links, b, a)
    ensures Apart(links, sizes, a, b)
    decreases Above(links, a), Above(links, b)
  {
    if a !in links {
      RootContains(links, b);
    } else {
      var p := links[a].parent;
      ParentClimbs(links, a);
      if Contains(links, p, b) {
        var c := ChildTowards(links, p, b);
        ContainedInside(links, sizes, c, b);
      } else {
        RegionsApart(links, sizes, p, b);
      }
    }
  }

  // ----- what later steps leave alone

  /** Names, sizes and parent links, once given, stay. */
  ghost predicate Grows(a: State, b: State) {
    && (forall t :: t in a.tensorNames ==> t in b.tensorNames && b.tensorNames[t] == a.tensorNames[t])
    && (forall id :: id in a.tensorSizes ==> id in b.tensorSizes && b.tensorSizes[id] == a.tensorSizes[id])
    && (forall c :: c in a.links ==> c in b.links && b.links[c] == a.links[c])
  }

  ghost predicate NodesBelow(st: State, n: nat) {
    forall t :: t in st.tensorNames ==> t.node < n
  }

  lemma {:induction false} FreshOneGrows(g: Graph, a: State, b: State, t: TensorName, last: nat)
    requires Exists(g, t) && Basic(b) && Grows(a, b) && NodesBelow(a, t.node) && NodesBelow(b, t.node + 1)
    requires t !in a.tensorNames
    ensures Grows(a, FreshOutput(g, b, t, last)) && NodesBelow(FreshOutput(g, b, t, last), t.node + 1)
  {
    hide Upward;
  }

  lemma {:induction false} FreshGrows(g: Graph, st: State, n: nat, ports: nat, last: nat)
    requires n < |g| && ports <= |g[n].outputs| && Basic(st) && NodesBelow(st, n)
    ensures var st' := FreshOutputs(g, st, n, ports, last); Grows(st, st') && NodesBelow(st', n + 1)
  {
    hide Grows, Basic;
    if ports > 0 {
      FreshGrows(g, st, n, ports - 1, last);
      FreshOneGrows(g, st, FreshOutputs(g, st, n, ports - 1, last), TensorName(n, ports - 1), last);
    } else {
      GrowsRefl(st);
    }
  }

  lemma {:induction false} GrowsRefl(st: State)
    ensures Grows(st, st)
  {}

  lemma {:induction false} LinksGrow(links: Links, sizes: Sizes, ids: seq<BufferID>, parent: BufferID, k: nat)
    requires k <= |ids| && forall j :: 0 <= j < |ids| ==> ids[j] !in links
    ensures var links' := LinkChildren(links, sizes, ids, parent, k);
            forall c :: c in links ==> c in links' && links'[c] == links[c]
  {
    if k > 0 { LinksGrow(links, sizes, ids, parent, k - 1); }
  }

  lemma {:induction false} ConcatGrows(g: Graph, st: State, n: nat)
    requires n < |g| && |g[n].outputs| > 0 && Basic(st) && NodesBelow(st, n) && ConcatStep(g, st, n).Ok?
    ensures Grows(st, ConcatStep(g, st, n).value) && NodesBelow(ConcatStep(g, st, n).value, n + 1)
  {
    hide PrefixSize, LinkChildren, Merged, MinStart;
    var ids := ConcatIds(g, st, n, |g[n].inputs|).value;
    LinksGrow(st.links, st.tensorSizes, ids, st.next, |ids|);
  }

  lemma {:induction false} AliasGrows(st: State, n: nat, ports: nat, id: BufferID)
    requires NodesBelow(st, n)
    ensures Grows(st, AliasOutputs(st, n, ports, id)) && NodesBelow(AliasOutputs(st, n, ports, id), n + 1)
  {}

  lemma {:induction false} ResultGrows(g: Graph, stable: Stability, st: State, n: nat)
    requires n < |g| && |g[n].inputs| > 0 && NodesBelow(st, n) && ResultStep(g, stable, st, n).Ok?
    ensures Grows(st, ResultStep(g, stable, st, n).value) && NodesBelow(ResultStep(g, stable, st, n).value, n + 1)
  {
    AliasGrows(st, n, |g[n].outputs|, IdOf(st, g[n].inputs[0]));
  }

  lemma {:induction false} ConstantGrows(g: Graph, st: State, n: nat)
    requires n < |g| && g[n].kind.ConstantNode? && Basic(st) && NodesBelow(st, n)
    ensures Grows(st, ConstantStep(g, st, n)) && NodesBelow(ConstantStep(g, st, n), n + 1)
  {}

  lemma {:induction false} StepGrows(g: Graph, stable: Stability, st: State, n: nat)
    requires WellFormed(g) && n < |g| && Basic(st) && NodesBelow(st, n) && Step(g, stable, st, n).Ok?
    ensures Grows(st, Step(g, stable, st, n).value) && NodesBelow(Step(g, stable, st, n).value, n + 1)
  {
    hide ConcatStep, ResultStep, ConstantStep, FreshOutputs, Grows, NodesBelow, Basic;
    assert WellFormedNode(g[n]);
    match g[n].kind {
      case ParameterNode =>
        if |g[n].inputs| > 0 { AliasGrows(st, n, |g[n].outputs|, st.tensorNames[g[n].inputs[0]]); }
        else { FreshGrows(g, st, n, |g[n].outputs|, if stable.params then |g| else n); }
      case ResultNode => ResultGrows(g, stable, st, n);
      case AssignNode => ResultGrows(g, stable, st, n);
      case ConstantNode(_) => ConstantGrows(g, st, n);
      case ConcatNode => ConcatGrows(g, st, n);
      case ReshapeNode =>
        if g[n].dynamic { FreshGrows(g, st, n, |g[n].outputs|, n); }
        else { AliasGrows(st, n, 1, st.tensorNames[g[n].inputs[0]]); }
      case ReadValueNode => FreshGrows(g, st, n, |g[n].outputs|, n);
      case ComputeNode => FreshGrows(g, st, n, |g[n].outputs|, n);
    }
  }

  lemma {:induction false} AssignGrows(g: Graph, stable: Stability, m: nat, n: nat)
    requires WellFormed(g) && m <= n <= |g| && Assign(g, stable, n).Ok?
    ensures Assign(g, stable, m).Ok? && Grows(Assign(g, stable, m).value, Assign(g, stable, n).value)
    ensures NodesBelow(Assign(g, stable, n).value, n)
    decreases n
  {
    hide Step;
    if n > 0 {
      AssignGrows(g, stable, if m < n then m else n - 1, n - 1);
      StepGrows(g, stable, Assign(g, stable, n - 1).value, n - 1);
    }
  }

  // ----- tiling

  function IdOf(st: State, t: TensorName): BufferID {
    if t in st.tensorNames then st.tensorNames[t] else 0
  }

  function InputIds(g: Graph, st: State, n: nat): (ids: seq<BufferID>)
    requires n < |g|
    ensures |ids| == |g[n].inputs| && forall k :: 0 <= k < |ids| ==> ids[k] == IdOf(st, g[n].inputs[k])
  {
    seq(|g[n].inputs|, k requires 0 <= k < |g[n].inputs| => IdOf(st, g[n].inputs[k]))
  }

  /** The inputs of concat `n` fill its output exactly, back to back, in input order. */
  ghost predicate Tiled(g: Graph, st: State, n: nat)
    requires n < |g|
  {
    var ids, parent := InputIds(g, st, n), IdOf(st, TensorName(n, 0));
    && SizeOf(st.tensorSizes, parent) == PrefixSize(st.tensorSizes, ids, |ids|)
    && forall k :: 0 <= k < |ids| ==>
         ids[k] in st.links && st.links[ids[k]] == Link(parent, PrefixSize(st.tensorSizes, ids, k))
  }

  lemma {:induction false} PrefixSame(a: Sizes, b: Sizes, ids: seq<BufferID>, k: nat)
    requires k <= |ids| && forall j :: 0 <= j < |ids| ==> SizeOf(a, ids[j]) == SizeOf(b, ids[j])
    ensures PrefixSize(a, ids, k) == PrefixSize(b, ids, k)
  {
    if k > 0 { PrefixSame(a, b, ids, k - 1); }
  }

  lemma {:induction false} TiledStays(g: Graph, a: State, b: State, n: nat)
    requires n < |g| && Tiled(g, a, n) && Grows(a, b)
    requires forall k :: 0 <= k < |g[n].inputs| ==> g[n].inputs[k] in a.tensorNames && IdOf(a, g[n].inputs[k]) in a.tensorSizes
    requires TensorName(n, 0) in a.tensorNames && IdOf(a, TensorName(n, 0)) in a.tensorSizes
    ensures Tiled(g, b, n)
  {
    hide PrefixSize;
    var ids := InputIds(g, a, n);
    assert InputIds(g, b, n) == ids;
    forall k | 0 <= k <= |ids| ensures PrefixSize(a.tensorSizes, ids, k) == PrefixSize(b.tensorSizes, ids, k) {
      PrefixSame(a.tensorSizes, b.tensorSizes, ids, k);
    }
  }

  /** A merge of distinct tensors tiles its output. */
  lemma {:induction false} ConcatTiles(g: Graph, st: State, n: nat)
    requires n < |g| && |g[n].outputs| == 1 && g[n].kind.ConcatNode? && Inv(g, st, n, 0) && ConcatStep(g, st, n).Ok?
    requires ConcatIds(g, st, n, |g[n].inputs|).Ok? && DistinctInputs(g, n)
    ensures Tiled(g, ConcatStep(g, st, n).value, n)
  {
    hide PrefixSize, LinkChildren, Merged, MinStart, Inv, ConcatStep, ConcatIds, DistinctInputs, Merges, LaidOut, Distinct;
    var ids := ConcatIds(g, st, n, |g[n].inputs|).value;
    DistinctIds(g, st, n);
    ConcatSetup(g, st, n);
    ChildLinks(st.links, st.tensorSizes, ids, st.next, |ids|);
    var st' := ConcatStep(g, st, n).value;
    assert st'.tensorNames == st.tensorNames[TensorName(n, 0) := st.next];
    MergedIds(g, st, st', n);
    assert InputIds(g, st', n) == ids;
    LaidLinks(st.links, st'.links, st.tensorSizes, ids, st.next);
    MergesNew(st.links, st.tensorSizes, ids, st.next);
    forall k | 0 <= k <= |ids|
      ensures PrefixSize(st'.tensorSizes, ids, k) == PrefixSize(st.tensorSizes, ids, k)
    {
      PrefixSame(st'.tensorSizes, st.tensorSizes, ids, k);
    }
  }

  /** Naming the output renames none of the inputs. */
  lemma {:induction false} MergedIds(g: Graph, st: State, st': State, n: nat)
    requires n < |g| && Inv(g, st, n, 0) && ConcatIds(g, st, n, |g[n].inputs|).Ok?
    requires st'.tensorNames == st.tensorNames[TensorName(n, 0) := st.next]
    ensures InputIds(g, st', n) == ConcatIds(g, st, n, |g[n].inputs|).value
  {
    hide ConcatIds, Named, Classified, AliasesFollow, Ordered, BuffersSized, Rooted, Spanned, Tight, Sized,
      OnlyConcatsContain, Packed, Placed, ParentsKnown, ConstantsKept, Upward;
    ConcatIdsAre(g, st, n);
    NodeUnnamed(g, st, n);
  }

  lemma {:induction false} LaidLinks(links: Links, links': Links, sizes: Sizes, ids: seq<BufferID>, parent: BufferID)
    requires LaidOut(links, links', sizes, ids, parent, |ids|)
    ensures forall k :: 0 <= k < |ids| ==> ids[k] in links' && links'[ids[k]] == Link(parent, PrefixSize(sizes, ids, k))
  {
    hide PrefixSize;
  }

  lemma {:induction false} MergesNew(links: Links, sizes: Sizes, ids: seq<BufferID>, parent: BufferID)
    requires Merges(links, sizes, ids, parent)
    ensures parent !in ids
  {}

  lemma {:induction false} ExtractFrom(g: Graph, stable: Stability, n: nat)
    requires WellFormed(g) && n <= |g| && Extract(g, stable).Ok?
    ensures Assign(g, stable, n).Ok? && Grows(Assign(g, stable, n).value, Extract(g, stable).value)
  {
    hide Assign, Extend;
    AssignGrows(g, stable, n, |g|);
  }

  lemma {:induction false} DistinctTiles(g: Graph, stable: Stability, n: nat)
    requires WellFormed(g) && Extract(g, stable).Ok? && n < |g| && g[n].kind.ConcatNode? && DistinctBefore(g, n + 1)
    ensures Tiled(g, Extract(g, stable).value, n)
  {
    hide Inv, Tiled, Extract, ConcatStep, DistinctInputs, Grows, Assign, ConcatIds;
    ExtractFrom(g, stable, n + 1);
    ExtractFrom(g, stable, n);
    ConcatSucceeded(g, stable, n);
    var before, after := Assign(g, stable, n).value, Assign(g, stable, n + 1).value;
    AssignInv(g, stable, n);
    AssignInv(g, stable, n + 1);
    ConcatOk(g, before, n);
    ConcatTiles(g, before, n);
    InputsNamed(g, before, after, n);
    TiledStays(g, after, Extract(g, stable).value, n);
  }

  lemma {:induction false} InputsNamed(g: Graph, before: State, st: State, n: nat)
    requires n < |g| && |g[n].outputs| == 1 && Inv(g, st, n + 1, 0) && Tiled(g, st, n)
    requires ConcatStep(g, before, n).Ok? && st == ConcatStep(g, before, n).value
    ensures forall k :: 0 <= k < |g[n].inputs| ==> g[n].inputs[k] in st.tensorNames && IdOf(st, g[n].inputs[k]) in st.tensorSizes
    ensures TensorName(n, 0) in st.tensorNames && IdOf(st, TensorName(n, 0)) in st.tensorSizes
  {
    hide AliasesFollow, Ordered, Packed, Sized, BuffersSized, OnlyConcatsContain, Spanned, Tight, Rooted, PrefixSize,
      LinkChildren, Merged, MinStart, ParentsKnown, Placed, Upward;
  }

  // ----- every region is an input of the concat that owns its parent

  predicate ConcatInput(g: Graph, names: Names, links: Links, m: nat, k: nat, c: BufferID) {
    && m < |g| && g[m].kind.ConcatNode? && k < |g[m].inputs| && c in links
    && g[m].inputs[k] in names && names[g[m].inputs[k]] == c
    && TensorName(m, 0) in names && names[TensorName(m, 0)] == links[c].parent
  }

  ghost predicate LinkedByConcat(g: Graph, names: Names, links: Links) {
    forall c :: c in links ==> exists m, k :: ConcatInput(g, names, links, m, k, c)
  }

  lemma {:induction false} LinksAreChildren(links: Links, sizes: Sizes, ids: seq<BufferID>, parent: BufferID, k: nat)
    requires k <= |ids|
    ensures var links' := LinkChildren(links, sizes, ids, parent, k);
            && (forall j :: 0 <= j < k ==> ids[j] in links' && links'[ids[j]].parent == parent)
            && (forall c {:trigger links'[c]} :: c in links' ==> c in ids || (c in links && links'[c] == links[c]))
  {
    hide PrefixSize;
    if k > 0 { LinksAreChildren(links, sizes, ids, parent, k - 1); }
  }

  lemma {:induction false} LinksKept(g: Graph, st: State, st': State)
    requires LinkedByConcat(g, st.tensorNames, st.links) && Grows(st, st') && st'.links == st.links
    ensures LinkedByConcat(g, st'.tensorNames, st'.links)
  {
    forall c | c in st'.links ensures exists m, k :: ConcatInput(g, st'.tensorNames, st'.links, m, k, c) {
      var m, k :| ConcatInput(g, st.tensorNames, st.links, m, k, c);
      assert ConcatInput(g, st'.tensorNames, st'.links, m, k, c);
    }
  }

  lemma {:induction false} ConcatLinks(g: Graph, st: State, n: nat)
    requires n < |g| && g[n].kind.ConcatNode? && |g[n].outputs| > 0 && Basic(st) && NodesBelow(st, n)
    requires ConcatStep(g, st, n).Ok? && LinkedByConcat(g, st.tensorNames, st.links)
    ensures var st' := ConcatStep(g, st, n).value; LinkedByConcat(g, st'.tensorNames, st'.links)
  {
    hide PrefixSize, LinkChildren, Merged, MinStart, Upward, NodesBelow, ConcatIds, Grows;
    ConcatGrows(g, st, n);
    ConcatOk(g, st, n);
    ConcatIdsAre(g, st, n);
    var st' := ConcatStep(g, st, n).value;
    var ids := ConcatIds(g, st, n, |g[n].inputs|).value;
    LinksAreChildren(st.links, st.tensorSizes, ids, st.next, |ids|);
    forall c | c in st'.links ensures exists m, k :: ConcatInput(g, st'.tensorNames, st'.links, m, k, c) {
      if c in ids {
        var k :| 0 <= k < |ids| && ids[k] == c;
        NewLink(g, st, st', n, k, c);
      } else {
        var m, k :| ConcatInput(g, st.tensorNames, st.links, m, k, c);
        OldLink(g, st, st', m, k, c);
      }
    }
  }

  lemma {:induction false} NewLink(g: Graph, st: State, st': State, n: nat, k: nat, c: BufferID)
    requires Grows(st, st') && n < |g| && g[n].kind.ConcatNode? && k < |g[n].inputs| && c in st'.links
    requires g[n].inputs[k] in st.tensorNames && st.tensorNames[g[n].inputs[k]] == c
    requires TensorName(n, 0) in st'.tensorNames && st'.tensorNames[TensorName(n, 0)] == st'.links[c].parent
    ensures ConcatInput(g, st'.tensorNames, st'.links, n, k, c)
  {}

  lemma {:induction false} OldLink(g: Graph, st: State, st': State, m: nat, k: nat, c: BufferID)
    requires Grows(st, st') && ConcatInput(g, st.tensorNames, st.links, m, k, c)
    ensures ConcatInput(g, st'.tensorNames, st'.links, m, k, c)
  {}

  lemma {:induction false} FreshLinks(g: Graph, st: State, n: nat, ports: nat, last: nat)
    requires n < |g| && ports <= |g[n].outputs|
    ensures FreshOutputs(g, st, n, ports, last).links == st.links
  {
    hide Basic;
    if ports > 0 { FreshLinks(g, st, n, ports - 1, last); }
  }

  lemma {:induction false} SameLinksStep(g: Graph, stable: Stability, st: State, n: nat)
    requires WellFormed(g) && n < |g| && Step(g, stable, st, n).Ok? && !g[n].kind.ConcatNode?
    ensures Step(g, stable, st, n).value.links == st.links
  {
    hide ConcatStep, ResultStep, FreshOutputs, AliasOutputs, Basic;
    assert WellFormedNode(g[n]);
    FreshLinks(g, st, n, |g[n].outputs|, n);
    FreshLinks(g, st, n, |g[n].outputs|, |g|);
    if g[n].kind.ResultNode? || g[n].kind.AssignNode? { ResultLinks(g, stable, st, n); }
  }

  lemma {:induction false} ResultLinks(g: Graph, stable: Stability, st: State, n: nat)
    requires n < |g| && |g[n].inputs| > 0 && ResultStep(g, stable, st, n).Ok?
    ensures ResultStep(g, stable, st, n).value.links == st.links
  {
    hide AliasOutputs, Basic;
  }

  lemma {:induction false} StepLinks(g: Graph, stable: Stability, st: State, n: nat)
    requires WellFormed(g) && n < |g| && Basic(st) && NodesBelow(st, n) && Step(g, stable, st, n).Ok?
    requires LinkedByConcat(g, st.tensorNames, st.links)
    ensures var st' := Step(g, stable, st, n).value; LinkedByConcat(g, st'.tensorNames, st'.links)
  {
    hide ConcatStep, ResultStep, FreshOutputs, AliasOutputs, Basic, NodesBelow, LinkedByConcat, Grows;
    assert WellFormedNode(g[n]);
    if g[n].kind.ConcatNode? {
      ConcatLinks(g, st, n);
    } else {
      StepGrows(g, stable, st, n);
      SameLinksStep(g, stable, st, n);
      LinksKept(g, st, Step(g, stable, st, n).value);
    }
  }

  lemma {:induction false} AssignLinks(g: Graph, stable: Stability, n: nat)
    requires WellFormed(g) && n <= |g| && Assign(g, stable, n).Ok?
    ensures LinkedByConcat(g, Assign(g, stable, n).value.tensorNames, Assign(g, stable, n).value.links)
  {
    hide Step;
    if n > 0 {
      AssignGrows(g, stable, n - 1, n - 1);
      AssignLinks(g, stable, n - 1);
      StepLinks(g, stable, Assign(g, stable, n - 1).value, n - 1);
    }
  }

  /** A region's parent belongs to a concat that takes it as an input. */
  lemma {:induction false} ParentIsConcat(g: Graph, names: Names, links: Links, c: BufferID) returns (m: nat, k: nat)
    requires LinkedByConcat(g, names, links) && c in links
    ensures ConcatInput(g, names, links, m, k, c)
  {
    m, k :| ConcatInput(g, names, links, m, k, c);
  }

  /** The root of a region is the parent of some region. */
  lemma {:induction false} RootIsParent(links: Links, id: BufferID) returns (c: BufferID)
    requires Upward(links) && id in links
    ensures c in links && links[c].parent == Root(links, id) && Contains(links, c, id)
    decreases Above(links, id)
  {
    ParentClimbs(links, id);
    RootContains(links, id);
    c := ChildTowards(links, Root(links, id), id);
  }

  // ----- exactly when the layout is right

  /** Concat inputs have static shapes and non-empty elements. */
  predicate StaticConcats(g: Graph) {
    forall n, k :: (0 <= n < |g| && g[n].kind.ConcatNode? && 0 <= k < |g[n].inputs|
                    && Exists(g, Source(g, g[n].inputs[k]))) ==> TensorBytes(g, Source(g, g[n].inputs[k])) > 0
  }

  lemma {:induction false} FirstRepeat(g: Graph, n: nat) returns (m: nat)
    requires n <= |g| && !DistinctBefore(g, n)
    ensures m < n && g[m].kind.ConcatNode? && !DistinctInputs(g, m) && DistinctBefore(g, m)
  {
    hide DistinctInputs;
    if DistinctBefore(g, n - 1) { m := n - 1; } else { m := FirstRepeat(g, n - 1); }
  }

  lemma {:induction false} ConcatSucceeded(g: Graph, stable: Stability, n: nat)
    requires WellFormed(g) && n < |g| && g[n].kind.ConcatNode? && Assign(g, stable, n).Ok? && Assign(g, stable, n + 1).Ok?
    ensures |g[n].outputs| == 1 && ConcatStep(g, Assign(g, stable, n).value, n).Ok?
    ensures Assign(g, stable, n + 1).value == ConcatStep(g, Assign(g, stable, n).value, n).value
  {
    assert WellFormedNode(g[n]);
  }

  lemma {:induction false} RepeatNotTiled(g: Graph, stable: Stability, n: nat)
    requires WellFormed(g) && StaticConcats(g) && Extract(g, stable).Ok?
    requires n < |g| && g[n].kind.ConcatNode? && DistinctBefore(g, n) && !DistinctInputs(g, n)
    ensures !Tiled(g, Extract(g, stable).value, n)
  {
    hide Extract, Inv, PrefixSize, DistinctBefore, ConcatStep, ConcatIds, StaticConcats, WellFormed;
    var st := Extract(g, stable).value;
    ExtractFrom(g, stable, n);
    ExtractFrom(g, stable, n + 1);
    AssignInv(g, stable, n);
    var before := Assign(g, stable, n).value;
    ConcatSucceeded(g, stable, n);
    ConcatOk(g, before, n);
    ConcatIdsAre(g, before, n);
    var i, j :| 0 <= i < j < |g[n].inputs| && Source(g, g[n].inputs[i]) == Source(g, g[n].inputs[j]);
    SameIdIffSameSource(g, before, n, 0, g[n].inputs[i], g[n].inputs[j]);
    var ids := InputIds(g, st, n);
    PrefixGrows(st.tensorSizes, ids, i, j);
    SizePositive(g, before, n, i);
  }

  lemma {:induction false} SizePositive(g: Graph, st: State, n: nat, k: nat)
    requires StaticConcats(g) && n < |g| && g[n].kind.ConcatNode? && Inv(g, st, n, 0)
    requires |g[n].outputs| > 0 && ConcatStep(g, st, n).Ok? && k < |g[n].inputs| && g[n].inputs[k] in st.tensorNames
    ensures IdOf(st, g[n].inputs[k]) in st.tensorSizes && st.tensorSizes[IdOf(st, g[n].inputs[k])] > 0
  {
    hide Ordered, Packed, BuffersSized, OnlyConcatsContain, Spanned, Tight, Rooted, Classified;
    ConcatIdsAre(g, st, n);
    SourceOwns(g, st, g[n].inputs[k]);
    assert Exists(g, Source(g, g[n].inputs[k]));
  }

  /** Concat outputs are tiled by their inputs if and only if no concat merges a tensor with itself. */
  lemma {:induction false} TiledIffDistinct(g: Graph, stable: Stability)
    requires WellFormed(g) && StaticConcats(g) && Extract(g, stable).Ok?
    ensures (forall n :: 0 <= n < |g| && g[n].kind.ConcatNode? ==> Tiled(g, Extract(g, stable).value, n))
            <==> DistinctConcats(g)
  {
    hide Extract, Tiled, DistinctInputs;
    if DistinctConcats(g) {
      forall n | 0 <= n < |g| && g[n].kind.ConcatNode? ensures Tiled(g, Extract(g, stable).value, n) {
        DistinctTiles(g, stable, n);
      }
    } else {
      var n := FirstRepeat(g, |g|);
      RepeatNotTiled(g, stable, n);
    }
  }

  /** A four-byte parameter, a reshape of it, and the concat of the two. */
  function SelfConcat(): Graph {
    var four := TensorType(4, Some(1));
    [Node(ParameterNode, [], [four], false),
     Node(ReshapeNode, [TensorName(0, 0)], [four], false),
     Node(ConcatNode, [TensorName(0, 0), TensorName(1, 0)], [TensorType(4, Some(2))], false)]
  }

  const SelfConcatBefore := State(map[0 := Desc(0, 0, 4)], map[0 := 4], map[], map[],
                                  map[TensorName(0, 0) := 0, TensorName(1, 0) := 0], map[], 1)

  const SelfConcatAfter := State(map[1 := Desc(0, 2, 8)], map[0 := 4, 1 := 8], map[], map[],
                                 map[TensorName(0, 0) := 0, TensorName(1, 0) := 0, TensorName(2, 0) := 1],
                                 map[0 := Link(1, 4)], 2)

  lemma {:induction false} SelfConcatBegins(g: Graph, stable: Stability)
    requires g == SelfConcat() && stable == Stability(false, false) && WellFormed(g)
    ensures Assign(g, stable, 2) == Ok(SelfConcatBefore)
  {
    var s1 := State(map[0 := Desc(0, 0, 4)], map[0 := 4], map[], map[], map[TensorName(0, 0) := 0], map[], 1);
    assert FreshOutputs(g, Empty, 0, 0, 0) == Empty;
    assert Assign(g, stable, 0) == Ok(Empty);
    assert Assign(g, stable, 1) == Ok(s1);
    assert AliasOutputs(s1, 1, 0, 0) == s1;
  }

  lemma {:induction false} SelfConcatIds(g: Graph, st: State)
    requires g == SelfConcat() && st == SelfConcatBefore
    ensures ConcatIds(g, st, 2, 2) == Ok([0, 0])
  {
    assert g[2].inputs[0] == TensorName(0, 0) && g[2].inputs[1] == TensorName(1, 0);
    assert st.tensorNames[TensorName(0, 0)] == 0 && st.tensorNames[TensorName(1, 0)] == 0;
    assert ConcatIds(g, st, 2, 0) == Ok([]);
    assert ConcatIds(g, st, 2, 1).Ok? && ConcatIds(g, st, 2, 1).value == [0];
    assert ConcatIds(g, st, 2, 2).Ok? && ConcatIds(g, st, 2, 2).value == [0, 0];
  }

  lemma {:induction false} SelfConcatLinks(sizes: map<BufferID, nat>)
    requires sizes == map[0 := 4]
    ensures PrefixSize(sizes, [0, 0], 0) == 0 && PrefixSize(sizes, [0, 0], 2) == 8
    ensures LinkChildren(map[], sizes, [0, 0], 1, 2) == map[0 := Link(1, 4)]
  {
    var ids := [0, 0];
    assert PrefixSize(sizes, ids, 1) == 4;
    assert LinkChildren(map[], sizes, ids, 1, 0) == map[];
    assert LinkChildren(map[], sizes, ids, 1, 1) == map[0 := Link(1, 0)];
  }

  lemma {:induction false} SelfConcatMerges(g: Graph, st: State)
    requires g == SelfConcat() && st == SelfConcatBefore
    ensures ConcatStep(g, st, 2) == Ok(SelfConcatAfter)
    ensures PrefixSize(SelfConcatAfter.tensorSizes, [0, 0], 0) == 0
  {
    SelfConcatIds(g, st);
    SelfConcatLinks(st.tensorSizes);
    assert g[2].inputs == [TensorName(0, 0), TensorName(1, 0)];
    hide ConcatIds, LinkChildren;
    assert MinStart(st.mutableBuffers, [0, 0], 1) == 0;
    assert Merged(st.mutableBuffers, [0, 0], 1, Desc(0, 2, 8)) == map[1 := Desc(0, 2, 8)];
  }

  /** The extractor accepts it, yet its one tensor fills only the second half of the concat's eight bytes. */
  lemma {:induction false} SelfConcatIsNotTiled()
    ensures WellFormed(SelfConcat()) && Extract(SelfConcat(), Stability(false, false)).Ok?
    ensures var st := Extract(SelfConcat(), Stability(false, false)).value;
            && st.links == map[0 := Link(1, 4)] && st.tensorSizes[1] == 8
            && !Tiled(SelfConcat(), st, 2)
  {
    hide Assign, Extend, Extract, ConcatStep;
    SelfConcatExtracts(SelfConcat(), Stability(false, false));
    assert InputIds(SelfConcat(), SelfConcatAfter, 2) == [0, 0];
    SelfConcatMerges(SelfConcat(), SelfConcatBefore);
  }

  lemma {:induction false} SelfConcatExtracts(g: Graph, stable: Stability)
    requires g == SelfConcat() && stable == Stability(false, false)
    ensures WellFormed(g) && Extract(g, stable) == Ok(SelfConcatAfter)
  {
    hide ConcatStep, Extend;
    SelfConcatBegins(g, stable);
    SelfConcatMerges(g, SelfConcatBefore);
    assert Assign(g, stable, 3) == Ok(SelfConcatAfter);
    SelfConcatExtends(g, SelfConcatAfter);
  }

  lemma {:induction false} SelfConcatExtends(g: Graph, st: State)
    requires g == SelfConcat() && st.mutableBuffers == map[1 := Desc(0, 2, 8)] && st.immutableBuffers == map[]
    requires st.links == map[0 := Link(1, 4)]
    requires st.tensorNames == map[TensorName(0, 0) := 0, TensorName(1, 0) := 0, TensorName(2, 0) := 1]
    ensures Extend(g, st, 3) == Ok(st)
  {
    assert Root(st.links, 1) == 1 && Root(st.links, 0) == 1;
    assert Extend(g, st, 0) == Ok(st);
    assert ExtendNode(g, st, 0, 0) == Ok(st);
    assert Extend(g, st, 1) == Ok(st);
    assert ExtendNode(g, st, 1, 0) == Ok(st);
    assert ExtendInput(g, st, 1, 0) == Ok(st);
    assert ExtendNode(g, st, 1, 1) == Ok(st);
    assert Extend(g, st, 2) == Ok(st);
    assert ExtendNode(g, st, 2, 0) == Ok(st);
    assert ExtendNode(g, st, 2, 1) == Ok(st);
    assert ExtendNode(g, st, 2, 2) == Ok(st);
  }
}
