/** What every step of the extraction keeps. */
module BufferInvariant {
  import opened Graphs
  import opened BufferSpec

  type Names = map<TensorName, BufferID>
  type Buffers = map<BufferID, Desc>
  type Sizes = map<BufferID, nat>
  type Links = map<BufferID, Link>
  type Constants = map<BufferID, seq<Byte>>

  /** All outputs listed before output (n, p). */
  predicate Done(g: Graph, n: nat, p: nat, t: TensorName) {
    Exists(g, t) && (t.node < n || (t.node == n && t.port < p))
  }

  predicate Before(s: TensorName, t: TensorName) {
    s.node < t.node || (s.node == t.node && s.port < t.port)
  }

  ghost predicate Named(g: Graph, names: Names, next: BufferID, n: nat, p: nat) {
    && (forall t :: t in names <==> Done(g, n, p, t))
    && (forall t :: t in names ==> names[t] < next)
  }

  /** An alias carries the id of the tensor it renames. */
  ghost predicate AliasesFollow(g: Graph, names: Names) {
    forall t :: t in names && t.node < |g| && IsAlias(g[t.node]) ==>
      var node := g[t.node];
      && |node.inputs| > 0 && node.inputs[0].node < t.node
      && node.inputs[0] in names && names[t] == names[node.inputs[0]]
  }

  /** Ids are handed out in the order of the tensors that own one. */
  ghost predicate Ordered(g: Graph, names: Names) {
    forall s, t :: (s in names && t in names && Own(g, s) && Own(g, t) && Before(s, t)) ==> names[s] < names[t]
  }

  /** Every id is a constant, a root buffer, or a region inside another tensor: exactly one of them. */
  ghost predicate Classified(buffers: Buffers, sizes: Sizes, constants: Constants, links: Links,
                             next: BufferID)
  {
    && (forall id :: id in sizes <==> id in buffers || id in links)
    && (forall id :: id in links ==> id !in buffers)
    && (forall id :: id in constants ==> id !in sizes && id < next)
    && (forall id :: id in sizes ==> id < next)
  }

  ghost predicate ParentsKnown(links: Links, sizes: Sizes) {
    forall c {:trigger links[c]} :: c in links ==> links[c].parent in sizes
  }

  ghost predicate Placed(names: Names, sizes: Sizes, constants: Constants) {
    forall t :: t in names ==> names[t] in sizes || names[t] in constants
  }

  /** Regions lie inside their parent, and siblings do not overlap. */
  ghost predicate Packed(links: Links, sizes: Sizes) {
    && (forall c {:trigger links[c]} :: c in links ==>
          c in sizes && links[c].parent in sizes && links[c].offset + sizes[c] <= sizes[links[c].parent])
    && (forall c, d :: (c in links && d in links && c != d && links[c].parent == links[d].parent) ==>
          links[c].offset + sizes[c] <= links[d].offset || links[d].offset + sizes[d] <= links[c].offset)
  }

  ghost predicate Sized(g: Graph, names: Names, sizes: Sizes) {
    forall t :: (t in names && Own(g, t) && names[t] in sizes && TensorBytes(g, t) != 0) ==>
      sizes[names[t]] == TensorBytes(g, t)
  }

  /** A buffer is allocated at the size of the tensor that owns it, zero where that shape is dynamic. */
  ghost predicate BuffersSized(g: Graph, names: Names, buffers: Buffers) {
    forall t :: t in names && Own(g, t) && names[t] in buffers ==> buffers[names[t]].size == TensorBytes(g, t)
  }

  /** Exactly the constants own immutable ids, and those hold the constants' data. */
  ghost predicate ConstantsKept(g: Graph, names: Names, constants: Constants) {
    forall t :: t in names && Own(g, t) ==>
      && (names[t] in constants <==> g[t.node].kind.ConstantNode?)
      && (g[t.node].kind.ConstantNode? ==> names[t] in constants && constants[names[t]] == g[t.node].kind.data)
  }

  /** Only concat outputs contain other tensors. */
  ghost predicate OnlyConcatsContain(g: Graph, names: Names, links: Links) {
    forall t, c :: (t in names && c in links && Own(g, t) && !g[t.node].kind.ConcatNode?) ==>
      links[c].parent != names[t]
  }

  /** Tensor `t` lives in buffer `r`. */
  ghost predicate RootedAt(names: Names, links: Links, t: TensorName, r: BufferID)
    requires Upward(links)
  {
    t in names && Root(links, names[t]) == r
  }

  ghost predicate Rooted(buffers: Buffers, sizes: Sizes, links: Links)
    requires Upward(links)
  {
    forall id :: id in sizes ==> Root(links, id) in buffers
  }

  ghost predicate Spanned(g: Graph, names: Names, buffers: Buffers, links: Links)
    requires Upward(links)
  {
    forall t, r :: r in buffers && RootedAt(names, links, t, r) ==>
      buffers[r].start <= t.node && (Own(g, t) ==> t.node <= buffers[r].end)
  }

  /** The start of a lifespan is attained, and so is its end unless it was stretched over the whole graph. */
  ghost predicate Tight(g: Graph, names: Names, buffers: Buffers, links: Links)
    requires Upward(links)
  {
    forall r :: r in buffers ==>
      && (exists t :: RootedAt(names, links, t, r) && t.node == buffers[r].start)
      && (buffers[r].end == |g| || exists t :: RootedAt(names, links, t, r) && t.node == buffers[r].end)
  }

  ghost predicate Inv(g: Graph, st: State, n: nat, p: nat) {
    && Named(g, st.tensorNames, st.next, n, p)
    && AliasesFollow(g, st.tensorNames)
    && Ordered(g, st.tensorNames)
    && Upward(st.links)
    && Classified(st.mutableBuffers, st.tensorSizes, st.immutableBuffers, st.links, st.next)
    && ParentsKnown(st.links, st.tensorSizes)
    && Placed(st.tensorNames, st.tensorSizes, st.immutableBuffers)
    && Packed(st.links, st.tensorSizes)
    && Sized(g, st.tensorNames, st.tensorSizes)
    && BuffersSized(g, st.tensorNames, st.mutableBuffers)
    && ConstantsKept(g, st.tensorNames, st.immutableBuffers)
    && OnlyConcatsContain(g, st.tensorNames, st.links)
    && Rooted(st.mutableBuffers, st.tensorSizes, st.links)
    && Spanned(g, st.tensorNames, st.mutableBuffers, st.links)
    && Tight(g, st.tensorNames, st.mutableBuffers, st.links)
  }

  // ----- a fresh id for output (n, p)

  lemma {:induction false} NameFresh(g: Graph, names: Names, next: BufferID, n: nat, p: nat)
    requires n < |g| && p < |g[n].outputs| && !IsAlias(g[n])
    requires Named(g, names, next, n, p) && AliasesFollow(g, names) && Ordered(g, names)
    ensures var names' := names[TensorName(n, p) := next];
            Named(g, names', next + 1, n, p + 1) && AliasesFollow(g, names') && Ordered(g, names')
  {
    var t := TensorName(n, p);
    assert !Done(g, n, p, t);
    forall s ensures Done(g, n, p + 1, s) <==> Done(g, n, p, s) || s == t {}
    forall s | s in names ensures Done(g, n, p, s) && s != t && !Before(t, s) {}
  }

  lemma {:induction false} FreshSpans(g: Graph, names: Names, buffers: Buffers, links: Links, t: TensorName, id: BufferID, d: Desc)
    requires Upward(links) && Spanned(g, names, buffers, links) && Tight(g, names, buffers, links)
    requires t !in names && id !in links && id !in buffers
    requires forall s :: s in names ==> Root(links, names[s]) != id
    requires d.start == t.node && (d.end == t.node || (d.end == |g| && t.node <= |g|))
    ensures Spanned(g, names[t := id], buffers[id := d], links)
    ensures Tight(g, names[t := id], buffers[id := d], links)
  {
    var names', buffers' := names[t := id], buffers[id := d];
    forall s, r | r in buffers' && RootedAt(names', links, s, r)
      ensures if s == t then r == id else r in buffers && RootedAt(names, links, s, r)
    {}
    assert RootedAt(names', links, t, id);
    forall s, r | RootedAt(names, links, s, r) ensures RootedAt(names', links, s, r) {}
  }

  /** Adding a root buffer `id` for tensor `t` disturbs no region. */
  lemma {:induction false} FreshRegions(g: Graph, names: Names, buffers: Buffers, sizes: Sizes, links: Links,
                                        t: TensorName, id: BufferID, d: Desc)
    requires Upward(links) && id !in links && id !in sizes && t !in names && Own(g, t)
    requires forall s :: s in names ==> names[s] != id
    requires ParentsKnown(links, sizes) && Sized(g, names, sizes) && BuffersSized(g, names, buffers)
    requires OnlyConcatsContain(g, names, links) && Rooted(buffers, sizes, links)
    requires d.size == TensorBytes(g, t)
    ensures Sized(g, names[t := id], sizes[id := d.size]) && OnlyConcatsContain(g, names[t := id], links)
    ensures BuffersSized(g, names[t := id], buffers[id := d])
    ensures Rooted(buffers[id := d], sizes[id := d.size], links)
  {}

  lemma {:induction false} FreshClass(buffers: Buffers, sizes: Sizes, constants: Constants, links: Links,
                                      next: BufferID, d: Desc)
    requires Classified(buffers, sizes, constants, links, next)
    ensures Classified(buffers[next := d], sizes[next := d.size], constants, links, next + 1)
  {}

  lemma {:induction false} FreshSize(links: Links, sizes: Sizes, id: BufferID, size: nat)
    requires id !in sizes && ParentsKnown(links, sizes) && Packed(links, sizes)
    ensures ParentsKnown(links, sizes[id := size]) && Packed(links, sizes[id := size])
  {}

  lemma {:induction false} FreshInv(g: Graph, st: State, n: nat, p: nat, last: nat)
    requires n < |g| && p < |g[n].outputs| && !IsAlias(g[n]) && !g[n].kind.ConstantNode?
    requires Inv(g, st, n, p) && (last == n || last == |g|)
    ensures Inv(g, FreshOutput(g, st, TensorName(n, p), last), n, p + 1)
  {
    hide Ordered, AliasesFollow, Packed, Sized, BuffersSized, OnlyConcatsContain, Spanned, Tight, ParentsKnown,
      ConstantsKept;
    var t := TensorName(n, p);
    var id, d := st.next, Desc(n, last, TensorBytes(g, t));
    assert !Done(g, n, p, t);
    NameFresh(g, st.tensorNames, id, n, p);
    FreshClass(st.mutableBuffers, st.tensorSizes, st.immutableBuffers, st.links, id, d);
    FreshSize(st.links, st.tensorSizes, id, d.size);
    NoFreshRoots(st);
    NameNoConstant(g, st.tensorNames, st.immutableBuffers, t, id);
    FreshSpans(g, st.tensorNames, st.mutableBuffers, st.links, t, id, d);
    FreshRegions(g, st.tensorNames, st.mutableBuffers, st.tensorSizes, st.links, t, id, d);
  }

  lemma {:induction false} NameNoConstant(g: Graph, names: Names, constants: Constants, t: TensorName, id: BufferID)
    requires ConstantsKept(g, names, constants) && id !in constants && Exists(g, t) && !g[t.node].kind.ConstantNode?
    ensures ConstantsKept(g, names[t := id], constants)
  {}

  lemma {:induction false} NoFreshRoots(st: State)
    requires Upward(st.links)
    requires Classified(st.mutableBuffers, st.tensorSizes, st.immutableBuffers, st.links, st.next)
    requires Rooted(st.mutableBuffers, st.tensorSizes, st.links)
    requires Placed(st.tensorNames, st.tensorSizes, st.immutableBuffers)
    ensures forall s :: s in st.tensorNames ==> Root(st.links, st.tensorNames[s]) != st.next
  {}

  // ----- alias outputs

  lemma {:induction false} NameAlias(g: Graph, st: State, n: nat, id: BufferID)
    requires n < |g| && IsAlias(g[n]) && |g[n].inputs| > 0 && g[n].inputs[0] in st.tensorNames
    requires Named(g, st.tensorNames, st.next, n, 0) && AliasesFollow(g, st.tensorNames)
    requires id == st.tensorNames[g[n].inputs[0]]
    ensures var names' := AliasOutputs(st, n, |g[n].outputs|, id).tensorNames;
            Named(g, names', st.next, n, |g[n].outputs|) && AliasesFollow(g, names')
  {
    assert Done(g, n, 0, g[n].inputs[0]);
  }

  lemma {:induction false} AliasSpans(g: Graph, st: State, n: nat, id: BufferID)
    requires n < |g| && IsAlias(g[n]) && id in st.tensorNames.Values
    requires Named(g, st.tensorNames, st.next, n, 0) && Upward(st.links)
    requires Spanned(g, st.tensorNames, st.mutableBuffers, st.links)
    requires Tight(g, st.tensorNames, st.mutableBuffers, st.links)
    ensures var names' := AliasOutputs(st, n, |g[n].outputs|, id).tensorNames;
            Spanned(g, names', st.mutableBuffers, st.links) && Tight(g, names', st.mutableBuffers, st.links)
  {
    var names, links := st.tensorNames, st.links;
    var names' := AliasOutputs(st, n, |g[n].outputs|, id).tensorNames;
    var source :| source in names && names[source] == id;
    assert Done(g, n, 0, source);
    forall s, r | RootedAt(names, links, s, r) ensures RootedAt(names', links, s, r) {
      assert Done(g, n, 0, s);
    }
    forall s, r | r in st.mutableBuffers && RootedAt(names', links, s, r)
      ensures st.mutableBuffers[r].start <= s.node && (Own(g, s) ==> s.node <= st.mutableBuffers[r].end)
    {
      if s.node == n && s.port < |g[n].outputs| {
        assert RootedAt(names, links, source, r);
      } else {
        assert RootedAt(names, links, s, r);
      }
    }
  }

  /** What is said of tensors that own an id survives the arrival of aliases. */
  lemma {:induction false} OwnersUnchanged(g: Graph, names: Names, names': Names, buffers: Buffers, sizes: Sizes,
                                           links: Links, constants: Constants)
    requires forall t :: t in names' && Own(g, t) ==> t in names && names'[t] == names[t]
    requires Ordered(g, names) && Sized(g, names, sizes) && OnlyConcatsContain(g, names, links)
    requires ConstantsKept(g, names, constants) && BuffersSized(g, names, buffers)
    ensures Ordered(g, names') && Sized(g, names', sizes) && OnlyConcatsContain(g, names', links)
    ensures ConstantsKept(g, names', constants) && BuffersSized(g, names', buffers)
  {}

  lemma {:induction false} AliasInv(g: Graph, st: State, n: nat)
    requires n < |g| && IsAlias(g[n]) && |g[n].inputs| > 0 && g[n].inputs[0] in st.tensorNames && Inv(g, st, n, 0)
    ensures Inv(g, AliasOutputs(st, n, |g[n].outputs|, st.tensorNames[g[n].inputs[0]]), n, |g[n].outputs|)
  {
    hide AliasesFollow, Packed, BuffersSized, Rooted, Spanned, Tight,
      Ordered, Sized, OnlyConcatsContain, Named, ConstantsKept;
    var id := st.tensorNames[g[n].inputs[0]];
    NameAlias(g, st, n, id);
    AliasSpans(g, st, n, id);
    OwnersUnchanged(g, st.tensorNames, AliasOutputs(st, n, |g[n].outputs|, id).tensorNames, st.mutableBuffers,
      st.tensorSizes, st.links, st.immutableBuffers);
  }

  // ----- constants, and results that stretch a lifespan

  lemma {:induction false} ConstantInv(g: Graph, st: State, n: nat)
    requires n < |g| && g[n].kind.ConstantNode? && |g[n].outputs| == 1 && Inv(g, st, n, 0)
    ensures Inv(g, ConstantStep(g, st, n), n, 1)
  {
    hide AliasesFollow, Ordered, Packed, BuffersSized, Rooted, Spanned, Tight, Sized, OnlyConcatsContain, ParentsKnown,
      ConstantsKept;
    var t := TensorName(n, 0);
    assert !Done(g, n, 0, t);
    NameFresh(g, st.tensorNames, st.next, n, 0);
    ConstantSpans(g, st, t);
    ConstantOwns(g, st.tensorNames, st.mutableBuffers, st.tensorSizes, st.links, st.immutableBuffers, t, st.next);
  }

  lemma {:induction false} ConstantOwns(g: Graph, names: Names, buffers: Buffers, sizes: Sizes, links: Links,
                                        constants: Constants, t: TensorName, id: BufferID)
    requires t !in names && id !in sizes && id !in buffers && ParentsKnown(links, sizes) && BuffersSized(g, names, buffers)
    requires Exists(g, t) && g[t.node].kind.ConstantNode? && ConstantsKept(g, names, constants)
    requires forall s :: s in names ==> names[s] != id
    ensures ConstantsKept(g, names[t := id], constants[id := g[t.node].kind.data])
    requires Sized(g, names, sizes) && OnlyConcatsContain(g, names, links)
    ensures Sized(g, names[t := id], sizes) && OnlyConcatsContain(g, names[t := id], links)
    ensures BuffersSized(g, names[t := id], buffers)
  {}

  lemma {:induction false} ConstantSpans(g: Graph, st: State, t: TensorName)
    requires Upward(st.links) && t !in st.tensorNames && st.next !in st.links && st.next !in st.mutableBuffers
    requires Spanned(g, st.tensorNames, st.mutableBuffers, st.links)
    requires Tight(g, st.tensorNames, st.mutableBuffers, st.links)
    ensures Spanned(g, st.tensorNames[t := st.next], st.mutableBuffers, st.links)
    ensures Tight(g, st.tensorNames[t := st.next], st.mutableBuffers, st.links)
  {
    var names, links := st.tensorNames, st.links;
    var names' := names[t := st.next];
    forall s, r | r in st.mutableBuffers ensures RootedAt(names', links, s, r) <==> RootedAt(names, links, s, r) {}
  }

  lemma {:induction false} StretchSpans(g: Graph, names: Names, buffers: Buffers, sizes: Sizes, links: Links,
                                        id: BufferID, end: nat)
    requires Upward(links) && id in buffers && buffers[id].end <= end
    requires end == |g| || exists t :: RootedAt(names, links, t, id) && t.node == end
    requires BuffersSized(g, names, buffers) && Rooted(buffers, sizes, links)
    requires Spanned(g, names, buffers, links) && Tight(g, names, buffers, links)
    ensures var buffers' := buffers[id := buffers[id].(end := end)];
            && BuffersSized(g, names, buffers') && Rooted(buffers', sizes, links)
            && Spanned(g, names, buffers', links) && Tight(g, names, buffers', links)
  {}

  /** No lifespan reaches past the end of the graph. */
  lemma {:induction false} EndsInside(g: Graph, st: State, n: nat, p: nat, r: BufferID)
    requires Inv(g, st, n, p) && r in st.mutableBuffers
    ensures st.mutableBuffers[r].end <= |g|
  {
    hide AliasesFollow, Ordered, Packed, Sized, BuffersSized, OnlyConcatsContain, Rooted, Spanned, ConstantsKept;
  }

  lemma {:induction false} StretchInv(g: Graph, st: State, id: BufferID, n: nat, p: nat)
    requires Inv(g, st, n, p) && id in st.mutableBuffers
    ensures Inv(g, st.(mutableBuffers := st.mutableBuffers[id := st.mutableBuffers[id].(end := |g|)]), n, p)
  {
    hide Named, AliasesFollow, Ordered, Packed, Sized, OnlyConcatsContain, BuffersSized, Rooted, Spanned, Tight,
      ConstantsKept, Placed;
    EndsInside(g, st, n, p, id);
    StretchSpans(g, st.tensorNames, st.mutableBuffers, st.tensorSizes, st.links, id, |g|);
  }

  // ----- concat

  predicate Distinct(ids: seq<BufferID>) {
    forall i, j :: 0 <= i < j < |ids| ==> ids[i] != ids[j]
  }

  lemma {:induction false} PrefixGrows(sizes: Sizes, ids: seq<BufferID>, j: nat, k: nat)
    requires j < k <= |ids|
    ensures PrefixSize(sizes, ids, j) + SizeOf(sizes, ids[j]) <= PrefixSize(sizes, ids, k)
    decreases k
  {
    if j + 1 < k { PrefixGrows(sizes, ids, j, k - 1); }
  }

  /** `links'` is `links` plus the first `k` ids, laid out back to back under `parent` in input order. */
  ghost predicate LaidOut(links: Links, links': Links, sizes: Sizes, ids: seq<BufferID>, parent: BufferID, k: nat)
    requires k <= |ids|
  {
    && (forall c :: c in links ==> c in links' && links'[c] == links[c])
    && (forall j :: 0 <= j < k ==> ids[j] in links' && links'[ids[j]] == Link(parent, PrefixSize(sizes, ids, j)))
    && (forall c :: c in links' ==> c in links || exists j :: 0 <= j < k && ids[j] == c)
  }

  /** The facts about one merge: which ids become children of `parent`, over which links and sizes. */
  ghost predicate Merges(links: Links, sizes: Sizes, ids: seq<BufferID>, parent: BufferID) {
    && Upward(links) && Distinct(ids)
    && (forall j :: 0 <= j < |ids| ==> ids[j] in sizes && ids[j] !in links && ids[j] < parent)
    && parent !in sizes && parent !in links
    && (forall c {:trigger links[c]} :: c in links ==> c < parent && links[c].parent < parent)
  }

  lemma {:induction false} LayNext(links: Links, before: Links, sizes: Sizes, ids: seq<BufferID>, parent: BufferID,
                                   k: nat)
    requires Merges(links, sizes, ids, parent) && 0 < k <= |ids|
    requires LaidOut(links, before, sizes, ids, parent, k - 1)
    ensures LaidOut(links, before[ids[k - 1] := Link(parent, PrefixSize(sizes, ids, k - 1))], sizes, ids, parent, k)
  {
    hide PrefixSize;
  }

  lemma {:induction false} ChildLinks(links: Links, sizes: Sizes, ids: seq<BufferID>, parent: BufferID, k: nat)
    requires Merges(links, sizes, ids, parent) && k <= |ids|
    ensures LaidOut(links, LinkChildren(links, sizes, ids, parent, k), sizes, ids, parent, k)
  {
    hide PrefixSize;
    if k > 0 {
      ChildLinks(links, sizes, ids, parent, k - 1);
      LayNext(links, LinkChildren(links, sizes, ids, parent, k - 1), sizes, ids, parent, k);
    }
  }

  /** The position of a new child among the merged ids. */
  lemma {:induction false} NewChild(links: Links, links': Links, sizes: Sizes, ids: seq<BufferID>, parent: BufferID,
                                    c: BufferID) returns (j: nat)
    requires Merges(links, sizes, ids, parent) && LaidOut(links, links', sizes, ids, parent, |ids|)
    requires c in links' && c !in links
    ensures j < |ids| && ids[j] == c && c in sizes && links'[c] == Link(parent, PrefixSize(sizes, ids, j))
  {
    hide PrefixSize;
    j :| 0 <= j < |ids| && ids[j] == c;
  }

  lemma {:induction false} MergeInside(links: Links, links': Links, sizes: Sizes, ids: seq<BufferID>, parent: BufferID,
                                       c: BufferID)
    requires Merges(links, sizes, ids, parent) && Packed(links, sizes)
    requires LaidOut(links, links', sizes, ids, parent, |ids|) && c in links'
    ensures var sizes' := sizes[parent := PrefixSize(sizes, ids, |ids|)];
            c in sizes && links'[c].parent in sizes' && links'[c].offset + sizes'[c] <= sizes'[links'[c].parent]
  {
    hide PrefixSize, LaidOut;
    if c in links {
      OldChild(links, links', sizes, ids, parent, c);
    } else {
      var j := NewChild(links, links', sizes, ids, parent, c);
      PrefixGrows(sizes, ids, j, |ids|);
    }
  }

  lemma {:induction false} OldChild(links: Links, links': Links, sizes: Sizes, ids: seq<BufferID>, parent: BufferID,
                                    c: BufferID)
    requires Merges(links, sizes, ids, parent) && LaidOut(links, links', sizes, ids, parent, |ids|) && c in links
    ensures c in links' && links'[c] == links[c] && links[c].parent != parent && c != parent
  {
    hide PrefixSize;
  }

  lemma {:induction false} MergeSiblings(links: Links, links': Links, sizes: Sizes, ids: seq<BufferID>, parent: BufferID,
                                         c: BufferID, d: BufferID)
    requires Merges(links, sizes, ids, parent) && LaidOut(links, links', sizes, ids, parent, |ids|)
    requires c in links' && c !in links && d in links' && d !in links && c != d && c in sizes && d in sizes
    ensures links'[c].offset + sizes[c] <= links'[d].offset || links'[d].offset + sizes[d] <= links'[c].offset
  {
    hide PrefixSize, LaidOut;
    var i := NewChild(links, links', sizes, ids, parent, c);
    var j := NewChild(links, links', sizes, ids, parent, d);
    if i < j { PrefixGrows(sizes, ids, i, j); } else { PrefixGrows(sizes, ids, j, i); }
  }

  lemma {:induction false} MergePacked(links: Links, links': Links, sizes: Sizes, ids: seq<BufferID>, parent: BufferID)
    requires Merges(links, sizes, ids, parent) && Packed(links, sizes)
    requires LaidOut(links, links', sizes, ids, parent, |ids|)
    ensures Packed(links', sizes[parent := PrefixSize(sizes, ids, |ids|)])
  {
    hide PrefixSize, LaidOut;
    var sizes' := sizes[parent := PrefixSize(sizes, ids, |ids|)];
    forall c | c in links'
      ensures c in sizes' && links'[c].parent in sizes' && links'[c].offset + sizes'[c] <= sizes'[links'[c].parent]
      ensures c in sizes && c != parent
    {
      MergeInside(links, links', sizes, ids, parent, c);
    }
    forall c, d | c in links' && d in links' && c != d && links'[c].parent == links'[d].parent
      ensures links'[c].offset + sizes'[c] <= links'[d].offset || links'[d].offset + sizes'[d] <= links'[c].offset
    {
      if c in links { OldChild(links, links', sizes, ids, parent, c); }
      if d in links { OldChild(links, links', sizes, ids, parent, d); }
      if c !in links { var i := NewChild(links, links', sizes, ids, parent, c); }
      if d !in links { var j := NewChild(links, links', sizes, ids, parent, d); }
      if c !in links && d !in links { MergeSiblings(links, links', sizes, ids, parent, c, d); }
    }
  }

  /** A merge moves exactly the tensors rooted at its children under the new parent. */
  lemma {:induction false} MergeRoots(links: Links, links': Links, sizes: Sizes, ids: seq<BufferID>, parent: BufferID,
                                      id: BufferID)
    requires Merges(links, sizes, ids, parent) && LaidOut(links, links', sizes, ids, parent, |ids|) && Upward(links')
    requires id < parent
    ensures Root(links', id) == if Root(links, id) in ids then parent else Root(links, id)
    decreases parent - id
  {
    if id in links {
      MergeRoots(links, links', sizes, ids, parent, links[id].parent);
    }
  }

  lemma {:induction false} MergedLookup(buffers: Buffers, ids: seq<BufferID>, parent: BufferID, d: Desc)
    requires parent !in ids
    ensures var m := Merged(buffers, ids, parent, d);
            && (forall r :: r in m <==> r == parent || (r in buffers && r !in ids))
            && (forall r :: r in m ==> m[r] == if r == parent then d else buffers[r])
  {}

  /** Where each tensor is rooted after tensor `t` has become the parent of `ids`. */
  ghost predicate RootsMoved(names: Names, links: Links, links': Links, ids: seq<BufferID>, parent: BufferID, t: TensorName)
    requires Upward(links) && Upward(links')
  {
    && (forall s, r :: RootedAt(names, links, s, r) ==>
          s != t && RootedAt(names[t := parent], links', s, if r in ids then parent else r))
    && (forall s, r :: RootedAt(names[t := parent], links', s, r) && s != t ==>
          if r == parent then s in names && Root(links, names[s]) in ids
          else RootedAt(names, links, s, r) && r !in ids)
    && RootedAt(names[t := parent], links', t, parent)
  }

  /** Roots before and after a merge, tensor by tensor. */
  lemma {:induction false} MergeRooted(names: Names, links: Links, links': Links, sizes: Sizes, ids: seq<BufferID>,
                                       parent: BufferID, t: TensorName)
    requires Merges(links, sizes, ids, parent) && LaidOut(links, links', sizes, ids, parent, |ids|) && Upward(links')
    requires t !in names && forall s :: s in names ==> names[s] < parent
    ensures RootsMoved(names, links, links', ids, parent, t)
  {
    hide LaidOut;
    forall s | s in names
      ensures Root(links', names[s]) == if Root(links, names[s]) in ids then parent else Root(links, names[s])
      ensures Root(links, names[s]) != parent
    {
      MergeRoots(links, links', sizes, ids, parent, names[s]);
      RootBelow(links, names[s], parent);
    }
    assert Root(links', parent) == parent by { ParentIsRoot(links, links', sizes, ids, parent); }
  }

  lemma {:induction false} ParentIsRoot(links: Links, links': Links, sizes: Sizes, ids: seq<BufferID>, parent: BufferID)
    requires Merges(links, sizes, ids, parent) && LaidOut(links, links', sizes, ids, parent, |ids|)
    ensures parent !in links'
  {}

  lemma {:induction false} RootBelow(links: Links, id: BufferID, bound: BufferID)
    requires Upward(links) && id < bound && forall c {:trigger links[c]} :: c in links ==> links[c].parent < bound
    ensures Root(links, id) < bound
    decreases bound - id
  {
    if id in links { RootBelow(links, links[id].parent, bound); }
  }

  lemma {:induction false} MergeSpanned(g: Graph, names: Names, buffers: Buffers, links: Links, links': Links,
                                        ids: seq<BufferID>, parent: BufferID, t: TensorName, d: Desc)
    requires Upward(links) && Upward(links') && RootsMoved(names, links, links', ids, parent, t)
    requires parent !in ids && forall j :: 0 <= j < |ids| ==> ids[j] in buffers && d.start <= buffers[ids[j]].start
    requires d.start <= t.node == d.end && forall s :: s in names ==> s.node <= t.node
    requires Spanned(g, names, buffers, links)
    ensures Spanned(g, names[t := parent], Merged(buffers, ids, parent, d), links')
  {
    hide Merged;
    MergedLookup(buffers, ids, parent, d);
    var names', buffers' := names[t := parent], Merged(buffers, ids, parent, d);
    forall s, r | r in buffers' && RootedAt(names', links', s, r)
      ensures buffers'[r].start <= s.node && (Own(g, s) ==> s.node <= buffers'[r].end)
    {
      if s != t && r == parent {
        assert Root(links, names[s]) in ids;
        var j :| 0 <= j < |ids| && ids[j] == Root(links, names[s]);
        assert RootedAt(names, links, s, ids[j]);
      }
    }
  }

  lemma {:induction false} MergeTight(g: Graph, names: Names, buffers: Buffers, links: Links, links': Links,
                                      ids: seq<BufferID>, parent: BufferID, t: TensorName, d: Desc)
    requires Upward(links) && Upward(links') && RootsMoved(names, links, links', ids, parent, t)
    requires parent !in ids && d.end == t.node
    requires exists j :: 0 <= j < |ids| && ids[j] in buffers && d.start == buffers[ids[j]].start
    requires Tight(g, names, buffers, links)
    ensures Tight(g, names[t := parent], Merged(buffers, ids, parent, d), links')
  {
    hide Merged, RootedAt, RootsMoved;
    MergedLookup(buffers, ids, parent, d);
    var names', buffers' := names[t := parent], Merged(buffers, ids, parent, d);
    var first :| 0 <= first < |ids| && ids[first] in buffers && d.start == buffers[ids[first]].start;
    var s :| RootedAt(names, links, s, ids[first]) && s.node == d.start;
    RootMoves(names, links, links', ids, parent, t, s, ids[first]);
    ParentRooted(names, links, links', ids, parent, t);
    forall r | r in buffers' && r != parent
      ensures exists s :: RootedAt(names', links', s, r) && s.node == buffers'[r].start
      ensures buffers'[r].end == |g| || exists s :: RootedAt(names', links', s, r) && s.node == buffers'[r].end
    {
      var s :| RootedAt(names, links, s, r) && s.node == buffers[r].start;
      RootMoves(names, links, links', ids, parent, t, s, r);
      if buffers[r].end != |g| {
        var e :| RootedAt(names, links, e, r) && e.node == buffers[r].end;
        RootMoves(names, links, links', ids, parent, t, e, r);
      }
    }
  }

  lemma {:induction false} RootMoves(names: Names, links: Links, links': Links, ids: seq<BufferID>, parent: BufferID,
                                     t: TensorName, s: TensorName, r: BufferID)
    requires Upward(links) && Upward(links') && RootsMoved(names, links, links', ids, parent, t)
    requires RootedAt(names, links, s, r)
    ensures RootedAt(names[t := parent], links', s, if r in ids then parent else r)
  {
    hide RootedAt;
  }

  lemma {:induction false} ParentRooted(names: Names, links: Links, links': Links, ids: seq<BufferID>, parent: BufferID,
                                        t: TensorName)
    requires Upward(links) && Upward(links') && RootsMoved(names, links, links', ids, parent, t)
    ensures RootedAt(names[t := parent], links', t, parent)
  {
    hide RootedAt;
  }

  lemma {:induction false} MergeKeys(links: Links, links': Links, sizes: Sizes, ids: seq<BufferID>, parent: BufferID)
    requires Merges(links, sizes, ids, parent) && LaidOut(links, links', sizes, ids, parent, |ids|)
    ensures forall c :: c in links' <==> c in links || c in ids
    ensures forall c {:trigger links'[c]} :: c in links' ==> links'[c].parent == if c in links then links[c].parent else parent
    ensures forall c {:trigger links'[c]} :: c in links' ==> links'[c].parent == parent || (c in links && links'[c] == links[c])
    ensures forall c :: c in links' ==> c < parent
    ensures Upward(links') && parent !in ids
  {
    hide PrefixSize;
  }

  lemma {:induction false} MergeParents(links: Links, links': Links, sizes: Sizes, parent: BufferID, total: nat)
    requires ParentsKnown(links, sizes)
    requires forall c {:trigger links'[c]} :: c in links' ==> links'[c].parent == parent || (c in links && links'[c] == links[c])
    ensures ParentsKnown(links', sizes[parent := total])
  {}

  lemma {:induction false} MergeClassified(buffers: Buffers, sizes: Sizes, constants: Constants,
      links: Links, links': Links, ids: seq<BufferID>, parent: BufferID, d: Desc, total: nat)
    requires Classified(buffers, sizes, constants, links, parent) && parent !in ids
    requires forall c :: c in links' <==> c in links || c in ids
    requires forall c :: c in links' ==> c < parent
    requires forall id :: id in ids ==> id in buffers
    ensures Classified(Merged(buffers, ids, parent, d), sizes[parent := total], constants, links', parent + 1)
  {
    hide Merged;
    MergedLookup(buffers, ids, parent, d);
  }

  lemma {:induction false} MergeSized(g: Graph, names: Names, buffers: Buffers, ids: seq<BufferID>, parent: BufferID,
                                      t: TensorName, d: Desc)
    requires BuffersSized(g, names, buffers) && parent !in ids && Exists(g, t) && d.size == TensorBytes(g, t)
    requires forall s :: s in names ==> names[s] < parent
    ensures BuffersSized(g, names[t := parent], Merged(buffers, ids, parent, d))
  {
    hide Merged;
    MergedLookup(buffers, ids, parent, d);
  }

  lemma {:induction false} MergeRootedness(buffers: Buffers, sizes: Sizes, links: Links, links': Links,
                                           ids: seq<BufferID>, parent: BufferID, d: Desc, total: nat)
    requires Merges(links, sizes, ids, parent) && LaidOut(links, links', sizes, ids, parent, |ids|) && Upward(links')
    requires Rooted(buffers, sizes, links) && forall id :: id in sizes ==> id < parent
    ensures Rooted(Merged(buffers, ids, parent, d), sizes[parent := total], links')
  {
    hide Merged, LaidOut;
    MergedLookup(buffers, ids, parent, d);
    ParentIsRoot(links, links', sizes, ids, parent);
    forall id | id in sizes ensures Root(links', id) == if Root(links, id) in ids then parent else Root(links, id) {
      MergeRoots(links, links', sizes, ids, parent, id);
    }
  }

  lemma {:induction false} MergeOwners(g: Graph, names: Names, sizes: Sizes, links: Links, links': Links,
                                       parent: BufferID, t: TensorName, total: nat)
    requires Exists(g, t) && g[t.node].kind.ConcatNode? && (TensorBytes(g, t) != 0 ==> total == TensorBytes(g, t))
    requires forall s :: s in names ==> names[s] < parent
    requires forall c {:trigger links'[c]} :: c in links' ==> links'[c].parent == parent || (c in links && links'[c] == links[c])
    requires Sized(g, names, sizes) && OnlyConcatsContain(g, names, links)
    ensures Sized(g, names[t := parent], sizes[parent := total])
    ensures OnlyConcatsContain(g, names[t := parent], links')
  {}

  /** What ConcatStep has checked when it succeeds, and the state it then builds. */
  lemma {:induction false} ConcatSetup(g: Graph, st: State, n: nat)
    requires n < |g| && |g[n].outputs| == 1 && Inv(g, st, n, 0) && ConcatStep(g, st, n).Ok?
    requires ConcatIds(g, st, n, |g[n].inputs|).Ok? && Distinct(ConcatIds(g, st, n, |g[n].inputs|).value)
    ensures var ids := ConcatIds(g, st, n, |g[n].inputs|).value;
            && |ids| > 0 && Merges(st.links, st.tensorSizes, ids, st.next)
            && (forall j :: 0 <= j < |ids| ==> ids[j] in st.mutableBuffers)
            && var total := PrefixSize(st.tensorSizes, ids, |ids|);
            && var bytes := TensorBytes(g, TensorName(n, 0));
            && (bytes == total || bytes == 0)
            && ConcatStep(g, st, n).value == State(
                 Merged(st.mutableBuffers, ids, st.next, Desc(MinStart(st.mutableBuffers, ids, |ids|), n, bytes)),
                 st.tensorSizes[st.next := total], st.immutableBuffers, st.immutableWorkbuffers,
                 st.tensorNames[TensorName(n, 0) := st.next],
                 LinkChildren(st.links, st.tensorSizes, ids, st.next, |ids|), st.next + 1)
  {
    hide PrefixSize, LinkChildren, Merged, MinStart, AliasesFollow, Ordered, BuffersSized, Rooted, Spanned, Tight, Named,
      Distinct, Sized, OnlyConcatsContain, Packed, Placed, ConstantsKept, Classified, ParentsKnown, Upward, Merges, ConcatIds,
      TensorBytes, ConcatStep;
    ConcatStepIs(g, st, n);
    var ids := ConcatIds(g, st, n, |g[n].inputs|).value;
    MergesFrom(st.mutableBuffers, st.tensorSizes, st.immutableBuffers, st.links, ids, st.next);
  }

  lemma {:induction false} MergesFrom(buffers: Buffers, sizes: Sizes, constants: Constants, links: Links,
                                      ids: seq<BufferID>, next: BufferID)
    requires Upward(links) && Classified(buffers, sizes, constants, links, next) && ParentsKnown(links, sizes)
    requires Distinct(ids) && forall j :: 0 <= j < |ids| ==> ids[j] in buffers && ids[j] in sizes
    ensures Merges(links, sizes, ids, next)
  {
    hide Distinct, Upward;
  }

  /** A concat step that succeeds, spelled out. */
  lemma {:induction false} ConcatStepIs(g: Graph, st: State, n: nat)
    requires n < |g| && |g[n].outputs| > 0 && ConcatStep(g, st, n).Ok?
    ensures ConcatIds(g, st, n, |g[n].inputs|).Ok?
    ensures var ids := ConcatIds(g, st, n, |g[n].inputs|).value;
            && |ids| > 0 && (forall j :: 0 <= j < |ids| ==> ids[j] in st.mutableBuffers && ids[j] in st.tensorSizes)
            && var total := PrefixSize(st.tensorSizes, ids, |ids|);
            && var bytes := TensorBytes(g, TensorName(n, 0));
            && (bytes == total || bytes == 0)
            && ConcatStep(g, st, n).value == State(
                 Merged(st.mutableBuffers, ids, st.next, Desc(MinStart(st.mutableBuffers, ids, |ids|), n, bytes)),
                 st.tensorSizes[st.next := total], st.immutableBuffers, st.immutableWorkbuffers,
                 st.tensorNames[TensorName(n, 0) := st.next],
                 LinkChildren(st.links, st.tensorSizes, ids, st.next, |ids|), st.next + 1)
  {
    hide PrefixSize, LinkChildren, Merged, MinStart, ConcatIds, TensorBytes;
  }

  lemma {:induction false} ConcatInv(g: Graph, st: State, n: nat)
    requires n < |g| && |g[n].outputs| == 1 && g[n].kind.ConcatNode? && Inv(g, st, n, 0) && ConcatStep(g, st, n).Ok?
    requires ConcatIds(g, st, n, |g[n].inputs|).Ok? && Distinct(ConcatIds(g, st, n, |g[n].inputs|).value)
    ensures Inv(g, ConcatStep(g, st, n).value, n, 1)
  {
    hide PrefixSize, LinkChildren, Merged, MinStart, AliasesFollow, Ordered, Packed, BuffersSized, Rooted, Spanned, Tight,
      LaidOut, Distinct, Sized, OnlyConcatsContain, ParentsKnown, Merges, Upward, Classified, ConcatStep, ConcatIds,
      Named, Placed, ConstantsKept;
    var t := TensorName(n, 0);
    NodeUnnamed(g, st, n);
    ConcatSetup(g, st, n);
    var ids, parent := ConcatIds(g, st, n, |g[n].inputs|).value, st.next;
    var total := PrefixSize(st.tensorSizes, ids, |ids|);
    var links' := LinkChildren(st.links, st.tensorSizes, ids, parent, |ids|);
    var d := Desc(MinStart(st.mutableBuffers, ids, |ids|), n, TensorBytes(g, t));
    NameFresh(g, st.tensorNames, parent, n, 0);
    ConcatRegions(g, st, links', ids, d, total);
    MergeSized(g, st.tensorNames, st.mutableBuffers, ids, parent, t, d);
    MergeKeys(st.links, links', st.tensorSizes, ids, parent);
    MergeOwners(g, st.tensorNames, st.tensorSizes, st.links, links', parent, t, total);
    ConcatRoots(g, st, links', ids, t, d, total);
    NameNoConstant(g, st.tensorNames, st.immutableBuffers, t, parent);
    PlaceFresh(st.tensorNames, st.tensorSizes, st.immutableBuffers, t, parent, total);
  }

  lemma {:induction false} NodeUnnamed(g: Graph, st: State, n: nat)
    requires Named(g, st.tensorNames, st.next, n, 0)
    requires Classified(st.mutableBuffers, st.tensorSizes, st.immutableBuffers, st.links, st.next)
    ensures forall p :: TensorName(n, p) !in st.tensorNames
    ensures forall s :: s in st.tensorNames ==> s.node < n && st.tensorNames[s] < st.next
    ensures forall id :: id in st.tensorSizes || id in st.immutableBuffers ==> id < st.next
  {}

  lemma {:induction false} PlaceFresh(names: Names, sizes: Sizes, constants: Constants, t: TensorName,
                                      id: BufferID, size: nat)
    requires Placed(names, sizes, constants)
    ensures Placed(names[t := id], sizes[id := size], constants)
  {}

  lemma {:induction false} ConcatRegions(g: Graph, st: State, links': Links, ids: seq<BufferID>, d: Desc, total: nat)
    requires Merges(st.links, st.tensorSizes, ids, st.next) && total == PrefixSize(st.tensorSizes, ids, |ids|)
    requires links' == LinkChildren(st.links, st.tensorSizes, ids, st.next, |ids|)
    requires forall j :: 0 <= j < |ids| ==> ids[j] in st.mutableBuffers
    requires Classified(st.mutableBuffers, st.tensorSizes, st.immutableBuffers, st.links, st.next)
    requires Packed(st.links, st.tensorSizes) && ParentsKnown(st.links, st.tensorSizes)
    ensures LaidOut(st.links, links', st.tensorSizes, ids, st.next, |ids|) && Upward(links')
    ensures var sizes', buffers' := st.tensorSizes[st.next := total], Merged(st.mutableBuffers, ids, st.next, d);
            && Classified(buffers', sizes', st.immutableBuffers, links', st.next + 1)
            && Packed(links', sizes') && ParentsKnown(links', sizes')
  {
    hide PrefixSize, LinkChildren, Merged, Packed, LaidOut, BuffersSized, Classified, ParentsKnown, Upward, Merges;
    ChildLinks(st.links, st.tensorSizes, ids, st.next, |ids|);
    MergeKeys(st.links, links', st.tensorSizes, ids, st.next);
    MergeParents(st.links, links', st.tensorSizes, st.next, total);
    MergePacked(st.links, links', st.tensorSizes, ids, st.next);
    MergeClassified(st.mutableBuffers, st.tensorSizes, st.immutableBuffers, st.links, links', ids, st.next, d, total);
  }

  lemma {:induction false} ConcatRoots(g: Graph, st: State, links': Links, ids: seq<BufferID>, t: TensorName, d: Desc,
                                       total: nat)
    requires Merges(st.links, st.tensorSizes, ids, st.next) && Upward(links')
    requires LaidOut(st.links, links', st.tensorSizes, ids, st.next, |ids|)
    requires |ids| > 0 && forall j :: 0 <= j < |ids| ==> ids[j] in st.mutableBuffers
    requires d.end == t.node && d.start == MinStart(st.mutableBuffers, ids, |ids|)
    requires t !in st.tensorNames
    requires forall s :: s in st.tensorNames ==> st.tensorNames[s] < st.next && s.node < t.node
    requires forall id :: id in st.tensorSizes ==> id < st.next
    requires Rooted(st.mutableBuffers, st.tensorSizes, st.links)
    requires Spanned(g, st.tensorNames, st.mutableBuffers, st.links)
    requires Tight(g, st.tensorNames, st.mutableBuffers, st.links)
    ensures var buffers' := Merged(st.mutableBuffers, ids, st.next, d);
            && Rooted(buffers', st.tensorSizes[st.next := total], links')
            && Spanned(g, st.tensorNames[t := st.next], buffers', links')
            && Tight(g, st.tensorNames[t := st.next], buffers', links')
  {
    hide Rooted, Spanned, Merged, LaidOut;
    assert exists s :: RootedAt(st.tensorNames, st.links, s, ids[0]) && s.node == st.mutableBuffers[ids[0]].start;
    var names, buffers := st.tensorNames, st.mutableBuffers;
    MergeRootedness(buffers, st.tensorSizes, st.links, links', ids, st.next, d, total);
    MergeRooted(names, st.links, links', st.tensorSizes, ids, st.next, t);
    MergeSpanned(g, names, buffers, st.links, links', ids, st.next, t, d);
    MergeTight(g, names, buffers, st.links, links', ids, st.next, t, d);
  }
}
