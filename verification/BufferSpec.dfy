/** The buffer extractor as a function of the node list: one step per node, then the lifespan pass over all
    inputs.  A TensorID of the program is known here by its id; `links` holds its parent pointer and offset. */
module BufferSpec {
  import opened Graphs

  datatype Desc = Desc(start: nat, end: nat, size: nat)

  datatype Link = Link(parent: BufferID, offset: nat)

  datatype State = State(
    mutableBuffers: map<BufferID, Desc>,
    tensorSizes: map<BufferID, nat>,
    immutableBuffers: map<BufferID, seq<Byte>>,
    immutableWorkbuffers: map<BufferID, nat>,
    tensorNames: map<TensorName, BufferID>,
    links: map<BufferID, Link>,
    next: BufferID)

  datatype Stability = Stability(params: bool, results: bool)

  const Empty := State(map[], map[], map[], map[], map[], map[], 0)

  /** Parents are created after their children, so parent pointers climb to larger ids. */
  ghost predicate Upward(links: map<BufferID, Link>) {
    forall c {:trigger links[c]} :: c in links ==> c < links[c].parent
  }

  /** Ids in use are below `next`. */
  ghost predicate Basic(st: State) {
    && Upward(st.links)
    && (forall t :: t in st.tensorNames ==> st.tensorNames[t] < st.next)
    && (forall id :: id in st.tensorSizes ==> id < st.next)
  }

  // ----- one node

  function AliasOutputs(st: State, n: nat, ports: nat, id: BufferID): (st': State)
    ensures st' == st.(tensorNames := st'.tensorNames)
    ensures forall t :: t in st'.tensorNames <==> t in st.tensorNames || (t.node == n && t.port < ports)
    ensures forall t :: t in st'.tensorNames ==>
      st'.tensorNames[t] == if t.node == n && t.port < ports then id else st.tensorNames[t]
  {
    if ports == 0 then st
    else
      var s := AliasOutputs(st, n, ports - 1, id);
      s.(tensorNames := s.tensorNames[TensorName(n, ports - 1) := id])
  }

  /** A fresh buffer for output `t`, alive from its node to node `last`. */
  function FreshOutput(g: Graph, st: State, t: TensorName, last: nat): State
    requires Exists(g, t)
  {
    st.(tensorSizes := st.tensorSizes[st.next := TensorBytes(g, t)],
        mutableBuffers := st.mutableBuffers[st.next := Desc(t.node, last, TensorBytes(g, t))],
        tensorNames := st.tensorNames[t := st.next],
        next := st.next + 1)
  }

  function FreshOutputs(g: Graph, st: State, n: nat, ports: nat, last: nat): (st': State)
    requires n < |g| && ports <= |g[n].outputs|
    ensures Basic(st) ==> Basic(st')
  {
    if ports == 0 then st
    else FreshOutput(g, FreshOutputs(g, st, n, ports - 1, last), TensorName(n, ports - 1), last)
  }

  function ParameterStep(g: Graph, stable: Stability, st: State, n: nat): (r: Result<State>)
    requires n < |g|
    ensures Basic(st) && r.Ok? ==> Basic(r.value)
  {
    if |g[n].inputs| > 0 then
      if g[n].outputs == [] then Err(NoOutputs)
      else if g[n].inputs[0] !in st.tensorNames then Err(UnknownTensor)
      else Ok(AliasOutputs(st, n, |g[n].outputs|, st.tensorNames[g[n].inputs[0]]))
    else
      Ok(FreshOutputs(g, st, n, |g[n].outputs|, if stable.params then |g| else n))
  }

  function ResultStep(g: Graph, stable: Stability, st: State, n: nat): (r: Result<State>)
    requires n < |g| && |g[n].inputs| > 0
    ensures Basic(st) && r.Ok? ==> Basic(r.value)
  {
    var input := g[n].inputs[0];
    if input !in st.tensorNames then
      if |g[n].outputs| > 0 || stable.results then Err(UnknownTensor) else Ok(st)
    else
      var id := st.tensorNames[input];
      var named := AliasOutputs(st, n, |g[n].outputs|, id);
      if !stable.results then Ok(named)
      else if id !in named.mutableBuffers then Err(ResultBufferNotFound)
      else Ok(named.(mutableBuffers := named.mutableBuffers[id := named.mutableBuffers[id].(end := |g|)]))
  }

  function ConstantStep(g: Graph, st: State, n: nat): State
    requires n < |g| && g[n].kind.ConstantNode?
  {
    st.(immutableBuffers := st.immutableBuffers[st.next := g[n].kind.data],
        tensorNames := st.tensorNames[TensorName(n, 0) := st.next],
        next := st.next + 1)
  }

  function ReshapeStep(g: Graph, st: State, n: nat): (r: Result<State>)
    requires n < |g|
    ensures Basic(st) && r.Ok? ==> Basic(r.value)
  {
    if g[n].dynamic then Ok(FreshOutputs(g, st, n, |g[n].outputs|, n))
    else if |g[n].inputs| < 1 || |g[n].outputs| != 1 || g[n].inputs[0] !in st.tensorNames then Err(BadReshape)
    else Ok(AliasOutputs(st, n, 1, st.tensorNames[g[n].inputs[0]]))
  }

  // ----- concat: the inputs become consecutive sub-regions of one fresh parent

  /** The ids behind the first `k` inputs, each of which must be a root tensor. */
  function ConcatIds(g: Graph, st: State, n: nat, k: nat): (r: Result<seq<BufferID>>)
    requires n < |g| && k <= |g[n].inputs|
    ensures r.Ok? ==> |r.value| == k
    ensures r.Ok? ==> forall j :: 0 <= j < k ==>
      g[n].inputs[j] in st.tensorNames && r.value[j] == st.tensorNames[g[n].inputs[j]] && r.value[j] !in st.links
  {
    if k == 0 then Ok([])
    else
      var r := ConcatIds(g, st, n, k - 1);
      if r.Err? then r
      else if g[n].inputs[k - 1] !in st.tensorNames then Err(UnknownTensor)
      else if st.tensorNames[g[n].inputs[k - 1]] in st.links then Err(NotARootTensor)
      else Ok(r.value + [st.tensorNames[g[n].inputs[k - 1]]])
  }

  function SizeOf(sizes: map<BufferID, nat>, id: BufferID): nat {
    if id in sizes then sizes[id] else 0
  }

  /** Bytes of the first `k` merged tensors; also the offset of the k-th one. */
  function PrefixSize(sizes: map<BufferID, nat>, ids: seq<BufferID>, k: nat): nat
    requires k <= |ids|
  {
    if k == 0 then 0 else PrefixSize(sizes, ids, k - 1) + SizeOf(sizes, ids[k - 1])
  }

  function MinStart(buffers: map<BufferID, Desc>, ids: seq<BufferID>, k: nat): (m: nat)
    requires 1 <= k <= |ids|
    requires forall j :: 0 <= j < |ids| ==> ids[j] in buffers
    ensures forall j :: 0 <= j < k ==> m <= buffers[ids[j]].start
    ensures exists j :: 0 <= j < k && m == buffers[ids[j]].start
  {
    if k == 1 then buffers[ids[0]].start
    else
      var m := MinStart(buffers, ids, k - 1);
      if buffers[ids[k - 1]].start < m then buffers[ids[k - 1]].start else m
  }

  /** SetParent on the first `k` merged tensors, in input order; a later call for the same tensor wins. */
  function LinkChildren(links: map<BufferID, Link>, sizes: map<BufferID, nat>, ids: seq<BufferID>,
                        parent: BufferID, k: nat): (links': map<BufferID, Link>)
    requires k <= |ids|
    ensures Upward(links) && (forall j :: 0 <= j < |ids| ==> ids[j] < parent) ==> Upward(links')
  {
    if k == 0 then links
    else
      LinkChildren(links, sizes, ids, parent, k - 1)[ids[k - 1] := Link(parent, PrefixSize(sizes, ids, k - 1))]
  }

  /** The children's own buffers disappear into the parent's. */
  function Merged(buffers: map<BufferID, Desc>, ids: seq<BufferID>, parent: BufferID, d: Desc): map<BufferID, Desc> {
    buffers[parent := d] - set j | 0 <= j < |ids| :: ids[j]
  }

  function ConcatStep(g: Graph, st: State, n: nat): (r: Result<State>)
    requires n < |g| && |g[n].outputs| > 0
    ensures Basic(st) && r.Ok? ==> Basic(r.value)
  {
    var merged := ConcatIds(g, st, n, |g[n].inputs|);
    if merged.Err? then Err(merged.error)
    else
      var ids := merged.value;
      if ids == [] then Err(EmptyConcat)
      else if exists j :: 0 <= j < |ids| && (ids[j] !in st.mutableBuffers || ids[j] !in st.tensorSizes)
      then Err(NotAMutableBuffer)
      else
        var bytes := TensorBytes(g, TensorName(n, 0));
        var parent := st.next;
        var total := PrefixSize(st.tensorSizes, ids, |ids|);
        if bytes != 0 && bytes != total then Err(ConcatSizeMismatch)
        else
          Ok(State(
            Merged(st.mutableBuffers, ids, parent, Desc(MinStart(st.mutableBuffers, ids, |ids|), n, bytes)),
            st.tensorSizes[parent := total],
            st.immutableBuffers,
            st.immutableWorkbuffers,
            st.tensorNames[TensorName(n, 0) := parent],
            LinkChildren(st.links, st.tensorSizes, ids, parent, |ids|),
            parent + 1))
  }

  function Step(g: Graph, stable: Stability, st: State, n: nat): (r: Result<State>)
    requires WellFormed(g) && n < |g|
    ensures Basic(st) && r.Ok? ==> Basic(r.value)
  {
    assert WellFormedNode(g[n]);
    match g[n].kind
    case ParameterNode => ParameterStep(g, stable, st, n)
    case ResultNode => ResultStep(g, stable, st, n)
    case AssignNode => ResultStep(g, stable, st, n)
    case ConstantNode(_) => Ok(ConstantStep(g, st, n))
    case ConcatNode => ConcatStep(g, st, n)
    case ReshapeNode => ReshapeStep(g, st, n)
    case ReadValueNode => Ok(FreshOutputs(g, st, n, |g[n].outputs|, n))
    case ComputeNode => Ok(FreshOutputs(g, st, n, |g[n].outputs|, n))
  }

  /** The first pass: the state after the first `n` nodes. */
  function Assign(g: Graph, stable: Stability, n: nat): (r: Result<State>)
    requires WellFormed(g) && n <= |g|
    ensures r.Ok? ==> Basic(r.value)
  {
    if n == 0 then Ok(Empty)
    else
      var r := Assign(g, stable, n - 1);
      if r.Err? then r else Step(g, stable, r.value, n - 1)
  }

  // ----- roots and offsets

  ghost function Above(links: map<BufferID, Link>, id: BufferID): set<BufferID> {
    set c | c in links && id <= c
  }

  lemma ParentClimbs(links: map<BufferID, Link>, id: BufferID)
    requires Upward(links) && id in links
    ensures Above(links, links[id].parent) < Above(links, id)
  {
    assert id in Above(links, id) && id !in Above(links, links[id].parent);
  }

  /** TensorID::GetBuffer. */
  function Root(links: map<BufferID, Link>, id: BufferID): (r: BufferID)
    requires Upward(links)
    ensures r !in links && id <= r
    decreases Above(links, id)
  {
    if id !in links then id
    else
      ParentClimbs(links, id);
      Root(links, links[id].parent)
  }

  /** TensorID::GetOffset. */
  function Offset(links: map<BufferID, Link>, id: BufferID): nat
    requires Upward(links)
    decreases Above(links, id)
  {
    if id !in links then 0
    else
      ParentClimbs(links, id);
      links[id].offset + Offset(links, links[id].parent)
  }

  // ----- the lifespan pass

  /** The k-th input of node `n` keeps its buffer alive until `n` and must fit in it. */
  function ExtendInput(g: Graph, st: State, n: nat, k: nat): (r: Result<State>)
    requires n < |g| && k < |g[n].inputs| && Upward(st.links)
    ensures r.Ok? ==> r.value == st.(mutableBuffers := r.value.mutableBuffers)
  {
    var t := g[n].inputs[k];
    if t !in st.tensorNames || !Exists(g, t) then Err(UnknownTensor)
    else
      var id := Root(st.links, st.tensorNames[t]);
      if id in st.immutableBuffers then Ok(st)
      else if id !in st.mutableBuffers then Err(UnknownTensor)
      else
        var d := st.mutableBuffers[id];
        if d.size != 0 && d.size < TensorBytes(g, t) then Err(BufferTooSmall)
        else if n > d.end then Ok(st.(mutableBuffers := st.mutableBuffers[id := d.(end := n)]))
        else Ok(st)
  }

  function ExtendNode(g: Graph, st: State, n: nat, k: nat): (r: Result<State>)
    requires n < |g| && k <= |g[n].inputs| && Upward(st.links)
    ensures r.Ok? ==> r.value == st.(mutableBuffers := r.value.mutableBuffers)
  {
    if k == 0 then Ok(st)
    else
      var r := ExtendNode(g, st, n, k - 1);
      if r.Err? then r else ExtendInput(g, r.value, n, k - 1)
  }

  function Extend(g: Graph, st: State, n: nat): (r: Result<State>)
    requires n <= |g| && Upward(st.links)
    ensures r.Ok? ==> r.value == st.(mutableBuffers := r.value.mutableBuffers)
  {
    if n == 0 then Ok(st)
    else
      var r := Extend(g, st, n - 1);
      if r.Err? then r else ExtendNode(g, r.value, n - 1, |g[n - 1].inputs|)
  }

  /** The whole constructor. */
  function Extract(g: Graph, stable: Stability): (r: Result<State>)
    requires WellFormed(g)
    ensures r.Ok? ==> Basic(r.value)
  {
    var named := Assign(g, stable, |g|);
    if named.Err? then named else Extend(g, named.value, |g|)
  }

  // ----- workbuffers

  function AddImmutableWorkbuffers(st: State, sizes: seq<nat>): (st': State)
    ensures st' == st.(immutableWorkbuffers := st'.immutableWorkbuffers, next := st.next + |sizes|)
    ensures forall id :: id in st'.immutableWorkbuffers ==>
      if st.next <= id < st'.next then st'.immutableWorkbuffers[id] == sizes[id - st.next]
      else id in st.immutableWorkbuffers && st'.immutableWorkbuffers[id] == st.immutableWorkbuffers[id]
    ensures forall id :: id in st.immutableWorkbuffers || st.next <= id < st'.next ==> id in st'.immutableWorkbuffers
  {
    if sizes == [] then st
    else
      var m := |sizes| - 1;
      var s := AddImmutableWorkbuffers(st, sizes[..m]);
      s.(immutableWorkbuffers := s.immutableWorkbuffers[s.next := sizes[m]], next := s.next + 1)
  }

  /** Mutable workbuffers share the block with the tensors and live for their node only. */
  function AddMutableWorkbuffers(st: State, n: nat, sizes: seq<nat>): (st': State)
    ensures st' == st.(mutableBuffers := st'.mutableBuffers, next := st.next + |sizes|)
    ensures forall id :: id in st'.mutableBuffers <==> id in st.mutableBuffers || st.next <= id < st'.next
    ensures forall id :: id in st'.mutableBuffers ==>
      st'.mutableBuffers[id] == if st.next <= id < st'.next then Desc(n, n, sizes[id - st.next])
                                else st.mutableBuffers[id]
  {
    if sizes == [] then st
    else
      var m := |sizes| - 1;
      var s := AddMutableWorkbuffers(st, n, sizes[..m]);
      s.(mutableBuffers := s.mutableBuffers[s.next := Desc(n, n, sizes[m])], next := s.next + 1)
  }
}
