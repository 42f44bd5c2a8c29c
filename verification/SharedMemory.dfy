/** The shared block: the static tensors of a graph, however many of its nodes are dynamic, keep their values while
    buffers with disjoint lifespans reuse the same bytes. */
module SharedMemory {
  import opened Graphs
  import opened BufferSpec
  import opened BufferInvariant
  import opened BufferRuns
  import opened BufferTheorems
  import opened BufferLayout
  import opened TensorValues

  type Memory = seq<Byte>

  // ----- the block

  /** `data` stands at address `a`. */
  predicate HoldsBytes(mem: Memory, a: nat, data: seq<Byte>) {
    a + |data| <= |mem| && mem[a..a + |data|] == data
  }

  function Write(mem: Memory, a: nat, data: seq<Byte>): (mem': Memory)
    ensures |mem'| == |mem|
    ensures forall i :: 0 <= i < |mem| && !(a <= i < a + |data|) ==> mem'[i] == mem[i]
    ensures a + |data| <= |mem| ==> HoldsBytes(mem', a, data)
  {
    if a + |data| <= |mem| then mem[..a] + data + mem[a + |data|..] else mem
  }

  /** Where everything is: the extractor's final state, all mutable buffers including workbuffers, each node's mutable
      workbuffers, and the offset of every stored buffer in the block. */
  datatype Plan = Plan(g: Graph, st: State, buffers: Buffers, work: seq<seq<BufferID>>, place: map<BufferID, nat>)

  function PlaceOf(plan: Plan, id: BufferID): nat {
    if id in plan.place then plan.place[id] else 0
  }

  function SizeIn(plan: Plan, id: BufferID): nat {
    if id in plan.buffers then plan.buffers[id].size else 0
  }

  function RootOf(st: State, t: TensorName): BufferID
    requires Upward(st.links)
  {
    Root(st.links, IdOf(st, t))
  }

  /** MemoryModel::deviceTensorPtr of a stored buffer. */
  function Address(plan: Plan, id: BufferID): nat
    requires Upward(plan.st.links)
  {
    PlaceOf(plan, Root(plan.st.links, id)) + Offset(plan.st.links, id)
  }

  predicate InWorkbuffer(plan: Plan, n: nat, i: nat)
    requires n < |plan.work|
  {
    exists k :: 0 <= k < |plan.work[n]|
      && PlaceOf(plan, plan.work[n][k]) <= i < PlaceOf(plan, plan.work[n][k]) + SizeIn(plan, plan.work[n][k])
  }

  function Scribble(plan: Plan, env: Env, mem: Memory, n: nat): (mem': Memory)
    requires n < |plan.work|
    ensures |mem'| == |mem|
    ensures forall i :: 0 <= i < |mem| && !InWorkbuffer(plan, n, i) ==> mem'[i] == mem[i]
  {
    seq(|mem|, i requires 0 <= i < |mem| => if InWorkbuffer(plan, n, i) then env.noise(n, mem, i) else mem[i])
  }

  /** Constants, static reshapes and ConcatOptimized are NopOps. */
  predicate IsNop(node: Node) {
    node.kind.ConstantNode? || node.kind.ConcatNode? || (node.kind.ReshapeNode? && !node.dynamic)
  }

  /** The first `ports` outputs of node `n` stored at their addresses. */
  function WriteBlock(plan: Plan, mem: Memory, n: nat, values: seq<TensorValue>, ports: nat): (mem': Memory)
    requires Upward(plan.st.links)
    ensures |mem'| == |mem|
  {
    if ports == 0 then mem
    else Write(WriteBlock(plan, mem, n, values, ports - 1),
               Address(plan, IdOf(plan.st, TensorName(n, ports - 1))), OutputOf(values, ports - 1).data)
  }

  /** The block after a static node that computed `values`; its workbuffers are dirty before and after. */
  function NextBlock(plan: Plan, env: Env, mem: Memory, n: nat, values: seq<TensorValue>): (mem': Memory)
    requires Upward(plan.st.links) && n < |plan.g| && n < |plan.work|
    ensures |mem'| == |mem|
  {
    if IsNop(plan.g[n]) then mem
    else
      var dirty := Scribble(plan, env, mem, n);
      if IsAlias(plan.g[n]) then dirty
      else Scribble(plan, env, WriteBlock(plan, dirty, n, values, |plan.g[n].outputs|), n)
  }

  // ----- what makes a plan good

  predicate Meet(a: Desc, b: Desc) {
    a.start <= b.end && b.start <= a.end
  }

  /** The memory solver's contract: exactly the buffers of non-zero size get a place, inside the block, and those alive
      at the same time get disjoint bytes. */
  ghost predicate Placement(plan: Plan, block: nat) {
    var buffers := plan.buffers;
    && (forall r :: r in plan.place <==> r in buffers && buffers[r].size != 0)
    && (forall r :: r in plan.place ==> plan.place[r] + SizeIn(plan, r) <= block)
    && (forall r, s :: (r in plan.place && s in plan.place && r != s && r in buffers && s in buffers
                        && Meet(buffers[r], buffers[s])) ==>
          plan.place[r] + buffers[r].size <= plan.place[s] || plan.place[s] + buffers[s].size <= plan.place[r])
  }

  /** The workbuffers come on top of the extractor's buffers, each alive at its own node. */
  ghost predicate WorkAdded(plan: Plan) {
    && |plan.work| == |plan.g|
    && (forall r :: r in plan.st.mutableBuffers ==> r in plan.buffers && plan.buffers[r] == plan.st.mutableBuffers[r])
    && (forall n, k :: 0 <= n < |plan.g| && 0 <= k < |plan.work[n]| ==>
          var w := plan.work[n][k];
          && w in plan.buffers && w !in plan.st.mutableBuffers
          && plan.buffers[w].start <= n <= plan.buffers[w].end)
  }

  /** What the extractor guarantees of its final state. */
  ghost predicate Extracted(g: Graph, st: State) {
    && Final(g, st) && LinkedByConcat(g, st.tensorNames, st.links)
    && (forall r :: r in st.mutableBuffers ==> Covered(g, st, r))
    && (forall n :: 0 <= n < |g| && g[n].kind.ConcatNode? ==> Tiled(g, st, n))
    && (forall n, k :: 0 <= n < |g| && 0 <= k < |g[n].inputs| ==> g[n].inputs[k] in st.tensorNames)
  }

  ghost predicate GoodGraph(g: Graph) {
    WellFormed(g) && Topological(g) && DynamicFlags(g) && BytesKept(g)
  }

  /** All the standing assumptions about a plan. */
  ghost predicate Sound(plan: Plan, env: Env, block: nat) {
    && GoodGraph(plan.g) && Extracted(plan.g, plan.st)
    && WorkAdded(plan) && Placement(plan, block) && ValuesFit(plan.g, env)
  }

  /** The id `id` owns bytes of the block: its root buffer has been given the size the region tree needs. */
  ghost predicate InBlock(st: State, id: BufferID)
    requires Upward(st.links)
  {
    && id in st.tensorSizes && st.tensorSizes[id] > 0
    && var r := Root(st.links, id);
    && r in st.mutableBuffers && r in st.tensorSizes && st.mutableBuffers[r].size == st.tensorSizes[r]
  }

  /** Tensor ids `a` and `b` occupy disjoint bytes [Address, Address + size). */
  ghost predicate AddressesApart(plan: Plan, a: BufferID, b: BufferID)
    requires Upward(plan.st.links) && a in plan.st.tensorSizes && b in plan.st.tensorSizes
  {
    || Address(plan, a) + plan.st.tensorSizes[a] <= Address(plan, b)
    || Address(plan, b) + plan.st.tensorSizes[b] <= Address(plan, a)
  }

  lemma {:induction false} InsideRoot(g: Graph, st: State, id: BufferID)
    requires Final(g, st) && InBlock(st, id)
    ensures var r := Root(st.links, id);
            && Offset(st.links, id) + st.tensorSizes[id] <= st.mutableBuffers[r].size && st.mutableBuffers[r].size > 0
  {
    hide Named, AliasesFollow, Ordered, ParentsKnown, Placed, Sized, OnlyConcatsContain, ConstantsKept, Packed,
      BuffersSized, Classified, Rooted;
    RootContains(st.links, id);
    ContainedInside(st.links, st.tensorSizes, Root(st.links, id), id);
  }

  /** Tensors alive together do not overlap unless one contains the other. */
  lemma {:induction false} LiveApart(plan: Plan, block: nat, a: BufferID, b: BufferID)
    requires Final(plan.g, plan.st) && WorkAdded(plan) && Placement(plan, block)
    requires InBlock(plan.st, a) && InBlock(plan.st, b)
    requires !Contains(plan.st.links, a, b) && !Contains(plan.st.links, b, a)
    requires var ra, rb := Root(plan.st.links, a), Root(plan.st.links, b);
             Meet(plan.st.mutableBuffers[ra], plan.st.mutableBuffers[rb])
    ensures AddressesApart(plan, a, b)
  {
    hide Named, AliasesFollow, Ordered, ParentsKnown, Placed, Sized, OnlyConcatsContain, ConstantsKept, Packed,
      BuffersSized, Classified, Rooted;
    InsideRoot(plan.g, plan.st, a);
    InsideRoot(plan.g, plan.st, b);
    if Root(plan.st.links, a) == Root(plan.st.links, b) {
      RegionsApart(plan.st.links, plan.st.tensorSizes, a, b);
    }
  }

  /** A tensor alive at node `n` is out of reach of that node's workbuffers. */
  lemma {:induction false} WorkApart(plan: Plan, block: nat, n: nat, id: BufferID, i: nat)
    requires Final(plan.g, plan.st) && WorkAdded(plan) && Placement(plan, block)
    requires n < |plan.g| && InBlock(plan.st, id)
    requires var r := Root(plan.st.links, id); plan.st.mutableBuffers[r].start <= n <= plan.st.mutableBuffers[r].end
    requires Address(plan, id) <= i < Address(plan, id) + plan.st.tensorSizes[id]
    ensures !InWorkbuffer(plan, n, i) && i < block
  {
    hide Named, AliasesFollow, Ordered, ParentsKnown, Placed, Sized, OnlyConcatsContain, ConstantsKept, Packed,
      BuffersSized, Classified, Rooted;
    InsideRoot(plan.g, plan.st, id);
    var r := Root(plan.st.links, id);
    forall k | 0 <= k < |plan.work[n]|
      ensures !(PlaceOf(plan, plan.work[n][k]) <= i < PlaceOf(plan, plan.work[n][k]) + SizeIn(plan, plan.work[n][k]))
    {
      var w := plan.work[n][k];
      assert w in plan.buffers && Meet(plan.buffers[w], plan.buffers[r]);
    }
  }

  // ----- from a graph to its plan

  /** The workbuffers an operation asks for; NopOps are never asked, and a DynamicOperation asks for none. */
  datatype Request = Request(immutable: seq<nat>, mutable: seq<nat>)

  predicate Asks(node: Node) {
    !IsNop(node) && !node.dynamic
  }

  function AddRequest(g: Graph, st: State, requests: seq<Request>, n: nat): State
    requires n < |g| && n < |requests|
  {
    if !Asks(g[n]) then st
    else AddMutableWorkbuffers(AddImmutableWorkbuffers(st, requests[n].immutable), n, requests[n].mutable)
  }

  /** The extractor's state once the first `n` nodes have got their workbuffers. */
  function AddRequests(g: Graph, st: State, requests: seq<Request>, n: nat): State
    requires n <= |g| && n <= |requests|
  {
    if n == 0 then st else AddRequest(g, AddRequests(g, st, requests, n - 1), requests, n - 1)
  }

  /** The ids node `n` receives for its mutable workbuffers. */
  function WorkIds(g: Graph, st: State, requests: seq<Request>, n: nat): seq<BufferID>
    requires n < |g| && n < |requests|
  {
    if !Asks(g[n]) then []
    else
      var first := AddRequests(g, st, requests, n).next + |requests[n].immutable|;
      seq(|requests[n].mutable|, i => first + i)
  }

  function MakePlan(g: Graph, st: State, requests: seq<Request>, place: map<BufferID, nat>): Plan
    requires |requests| == |g|
  {
    Plan(g, st, AddRequests(g, st, requests, |g|).mutableBuffers,
         seq(|g|, n requires 0 <= n < |g| => WorkIds(g, st, requests, n)), place)
  }

  /** What the first `n` requests add. */
  ghost predicate RequestsAdded(g: Graph, st: State, st': State, requests: seq<Request>, n: nat)
    requires n <= |g| && n <= |requests|
  {
    && st.next <= st'.next
    && (forall id :: id in st'.mutableBuffers ==> id < st'.next)
    && (forall id :: id in st.mutableBuffers ==>
          id in st'.mutableBuffers && st'.mutableBuffers[id] == st.mutableBuffers[id])
    && (forall m, k :: 0 <= m < n && 0 <= k < |WorkIds(g, st, requests, m)| ==>
          var w := WorkIds(g, st, requests, m)[k];
          && st.next <= w && w in st'.mutableBuffers
          && st'.mutableBuffers[w].start == m == st'.mutableBuffers[w].end)
  }

  lemma {:induction false} RequestGrows(g: Graph, st: State, mid: State, requests: seq<Request>, n: nat)
    requires n < |g| && n < |requests| && mid == AddRequests(g, st, requests, n)
    requires forall id :: id in mid.mutableBuffers ==> id < mid.next
    ensures var st' := AddRequest(g, mid, requests, n);
            && mid.next <= st'.next && (forall id :: id in st'.mutableBuffers ==> id < st'.next)
            && (forall id :: id in mid.mutableBuffers ==>
                  id in st'.mutableBuffers && st'.mutableBuffers[id] == mid.mutableBuffers[id])
            && (forall k :: 0 <= k < |WorkIds(g, st, requests, n)| ==>
                  var w := WorkIds(g, st, requests, n)[k];
                  && mid.next <= w && w in st'.mutableBuffers
                  && st'.mutableBuffers[w].start == n == st'.mutableBuffers[w].end)
  {
    hide AddRequests;
  }

  lemma {:induction false} RequestAdded(g: Graph, st: State, mid: State, requests: seq<Request>, n: nat)
    requires n < |g| && n < |requests| && RequestsAdded(g, st, mid, requests, n) && mid == AddRequests(g, st, requests, n)
    ensures RequestsAdded(g, st, AddRequest(g, mid, requests, n), requests, n + 1)
  {
    hide AddRequest, AddRequests, WorkIds;
    RequestGrows(g, st, mid, requests, n);
  }

  lemma {:induction false} RequestsExtend(g: Graph, st: State, requests: seq<Request>, n: nat)
    requires n <= |g| && n <= |requests| && forall id :: id in st.mutableBuffers ==> id < st.next
    ensures RequestsAdded(g, st, AddRequests(g, st, requests, n), requests, n)
  {
    hide RequestsAdded, AddRequest;
    if n == 0 {
      NothingAdded(g, st, requests);
    } else {
      RequestsExtend(g, st, requests, n - 1);
      RequestAdded(g, st, AddRequests(g, st, requests, n - 1), requests, n - 1);
    }
  }

  lemma {:induction false} NothingAdded(g: Graph, st: State, requests: seq<Request>)
    requires forall id :: id in st.mutableBuffers ==> id < st.next
    ensures RequestsAdded(g, st, st, requests, 0)
  {}

  lemma {:induction false} BuffersBelow(g: Graph, st: State)
    requires Final(g, st)
    ensures forall id :: id in st.mutableBuffers ==> id < st.next
  {
    hide Named, AliasesFollow, Ordered, ParentsKnown, Placed, Sized, OnlyConcatsContain, ConstantsKept, Packed, BuffersSized,
      Rooted;
  }

  lemma {:induction false} ExtractTiles(g: Graph, stable: Stability)
    requires WellFormed(g) && DistinctConcats(g) && Extract(g, stable).Ok?
    ensures forall n :: 0 <= n < |g| && g[n].kind.ConcatNode? ==> Tiled(g, Extract(g, stable).value, n)
  {
    hide Extract, Tiled, DistinctInputs;
    forall n | 0 <= n < |g| && g[n].kind.ConcatNode? ensures Tiled(g, Extract(g, stable).value, n) {
      DistinctTiles(g, stable, n);
    }
  }

  lemma {:induction false} ExtractLinks(g: Graph, stable: Stability)
    requires WellFormed(g) && Extract(g, stable).Ok?
    ensures var st := Extract(g, stable).value; LinkedByConcat(g, st.tensorNames, st.links)
  {
    hide Assign, Extend, LinkedByConcat;
    AssignLinks(g, stable, |g|);
  }

  /** The extractor's final state satisfies everything later proofs need of it. */
  lemma {:induction false} ExtractExtracted(g: Graph, stable: Stability)
    requires WellFormed(g) && Topological(g) && DistinctConcats(g) && Extract(g, stable).Ok?
    ensures Extracted(g, Extract(g, stable).value)
  {
    hide Extract, Tiled, LinkedByConcat, DistinctConcats, WellFormed, Named, AliasesFollow, Ordered, ParentsKnown, Placed,
      Sized, OnlyConcatsContain, ConstantsKept, Packed, BuffersSized, Classified, Rooted, Covered;
    LifespansCover(g, stable);
    ExtractTiles(g, stable);
    ExtractLinks(g, stable);
    InputsKnown(g, stable);
  }

  /** With the requested workbuffers and any placement that keeps overlapping lifespans apart, the plan is sound. */
  lemma {:induction false} PlanSound(g: Graph, stable: Stability, env: Env, requests: seq<Request>,
                                     place: map<BufferID, nat>, block: nat)
    requires GoodGraph(g) && DistinctConcats(g) && ValuesFit(g, env) && Extract(g, stable).Ok? && |requests| == |g|
    requires Placement(MakePlan(g, Extract(g, stable).value, requests, place), block)
    ensures Sound(MakePlan(g, Extract(g, stable).value, requests, place), env, block)
  {
    hide Extract, Placement, Final, DistinctConcats, ValuesFit, Extracted;
    var st := Extract(g, stable).value;
    ExtractExtracted(g, stable);
    assert Final(g, st) by { ExtractedFinal(g, st); }
    PlanWork(g, st, requests, place);
  }

  lemma {:induction false} ExtractedFinal(g: Graph, st: State)
    requires Extracted(g, st)
    ensures Final(g, st)
  {
    hide Final, Tiled, Covered, LinkedByConcat;
  }

  lemma {:induction false} PlanWork(g: Graph, st: State, requests: seq<Request>, place: map<BufferID, nat>)
    requires Final(g, st) && |requests| == |g|
    ensures WorkAdded(MakePlan(g, st, requests, place))
  {
    hide Final, WorkIds, AddRequests;
    BuffersBelow(g, st);
    RequestsExtend(g, st, requests, |g|);
  }
}
