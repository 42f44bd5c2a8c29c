/** CUDA graphs: an execution sequence is cut into segments, capturable segments are recorded once into a tree of
    graphs, and later inferences replay the recorded graphs with refreshed host pointers. */
module GraphSpec {
  import opened Options

  type Ptr = nat

  /** An operation of the execution sequence.  A Loop is a TensorIterator: per iteration it slices its inputs, runs its
      body, moves back edges and inserts its outputs; `lastOnly` says that only the last iteration leaves the loop. */
  datatype Op =
    | Upload(name: string, dst: Ptr)
    | Download(name: string, src: Ptr)
    | Kernel(id: nat)
    | Eager(id: nat)
    | Loop(id: nat, slices: nat, inserts: nat, iterations: nat, lastOnly: bool, body: seq<Op>)

  datatype Compat = NotCapturable | Full | Special

  /** The host tensors of one inference. */
  datatype Tensors = Tensors(input: string -> Ptr, output: string -> Ptr)

  datatype Event =
    | Uploaded(dst: Ptr, host: Ptr)
    | Downloaded(src: Ptr, host: Ptr)
    | Ran(id: nat)
    | Called(id: nat)   // an operation that no stream capture can hold
    | First(id: nat)
    | Sliced(id: nat, k: nat, iteration: nat)
    | Moved(id: nat)
    | Inserted(id: nat, k: nat, iteration: nat)
    | Last(id: nat)

  // ----- compatibility and segments

  function CompatOf(op: Op): Compat {
    match op
    case Eager(_) => NotCapturable
    case Loop(_, _, _, _, lastOnly, body) => if lastOnly && AnyGraphable(body) then Special else NotCapturable
    case _ => Full
  }

  predicate AnyGraphable(ops: seq<Op>) {
    ops != [] && (CompatOf(ops[0]) != NotCapturable || AnyGraphable(ops[1..]))
  }

  /** A loop whose body is not fully capturable gets a runner of its own. */
  predicate NeedsRunner(op: Op) {
    op.Loop? && exists i :: 0 <= i < |op.body| && CompatOf(op.body[i]) != Full
  }

  /** A new segment starts at `i`. */
  predicate Cut(ops: seq<Op>, i: nat)
    requires 0 < i < |ops|
  {
    CompatOf(ops[i]) != CompatOf(ops[i - 1]) || CompatOf(ops[i]) == Special
  }

  function SegmentEnd(ops: seq<Op>, i: nat): (j: nat)
    requires i < |ops|
    ensures i < j <= |ops|
    decreases |ops| - i
  {
    if i + 1 == |ops| || Cut(ops, i + 1) then i + 1 else SegmentEnd(ops, i + 1)
  }

  /** The segments of `ops` from position `i`. */
  function Segments(ops: seq<Op>, i: nat): seq<seq<Op>>
    requires i <= |ops|
    decreases |ops| - i
  {
    if i == |ops| then [] else [ops[i..SegmentEnd(ops, i)]] + Segments(ops, SegmentEnd(ops, i))
  }

  // ----- eager execution

  function SliceEvents(op: Op, n: nat, it: nat): seq<Event>
    requires op.Loop?
  {
    if n == 0 then [] else SliceEvents(op, n - 1, it) + [Sliced(op.id, n - 1, it)]
  }

  function InsertEvents(op: Op, n: nat, it: nat): seq<Event>
    requires op.Loop?
  {
    if n == 0 then [] else InsertEvents(op, n - 1, it) + [Inserted(op.id, n - 1, it)]
  }

  function PostEvents(op: Op, it: nat): seq<Event>
    requires op.Loop?
  {
    [Moved(op.id)] + InsertEvents(op, op.inserts, it)
  }

  function IterationEvents(op: Op, body: seq<Event>, it: nat): seq<Event>
    requires op.Loop?
  {
    SliceEvents(op, op.slices, it) + body + PostEvents(op, it)
  }

  function IterationsFrom(op: Op, body: seq<Event>, it: nat): seq<Event>
    requires op.Loop?
    decreases op.iterations - it
  {
    if it >= op.iterations then [] else IterationEvents(op, body, it) + IterationsFrom(op, body, it + 1)
  }

  function LoopEvents(op: Op, body: seq<Event>): seq<Event>
    requires op.Loop?
  {
    [First(op.id)] + IterationsFrom(op, body, 0) + [Last(op.id)]
  }

  function EagerOp(op: Op, x: Tensors): seq<Event> {
    match op
    case Upload(name, dst) => [Uploaded(dst, x.input(name))]
    case Download(name, src) => [Downloaded(src, x.output(name))]
    case Kernel(id) => [Ran(id)]
    case Eager(id) => [Called(id)]
    case Loop(_, _, _, _, _, body) => LoopEvents(op, EagerSeq(body, x))
  }

  function EagerSeq(ops: seq<Op>, x: Tensors): seq<Event> {
    if ops == [] then [] else EagerOp(ops[0], x) + EagerSeq(ops[1..], x)
  }

  // ----- recorded graphs

  /** A memcpy node of a recorded graph that must follow a host tensor: CUDA::UploadNode or DownloadNode. */
  datatype Slot = Slot(name: string, index: nat, host: Ptr)

  /** CudaGraphInfo and CudaGraphPack. */
  datatype Graph =
    | Leaf(exec: seq<Event>, uploads: seq<Slot>, downloads: seq<Slot>, kernels: nat)
    | Pack(graphs: seq<Graph>, current: nat)

  function GraphsCount(g: Graph): nat {
    match g
    case Leaf(_, _, _, _) => 1
    case Pack(graphs, _) => GraphsCounts(graphs)
  }

  function GraphsCounts(gs: seq<Graph>): nat {
    if gs == [] then 0 else GraphsCounts(gs[..|gs| - 1]) + GraphsCount(gs[|gs| - 1])
  }

  function KernelsCount(g: Graph): nat {
    match g
    case Leaf(_, _, _, kernels) => kernels
    case Pack(graphs, _) => KernelsCounts(graphs)
  }

  function KernelsCounts(gs: seq<Graph>): nat {
    if gs == [] then 0 else KernelsCounts(gs[..|gs| - 1]) + KernelsCount(gs[|gs| - 1])
  }

  /** std::map::emplace: a name already present keeps its first node. */
  function Emplace(slots: seq<Slot>, s: Slot): seq<Slot> {
    if exists i :: 0 <= i < |slots| && slots[i].name == s.name then slots else slots + [s]
  }

  /** Recording the first `n` operations of a capturable segment. */
  function Record(ops: seq<Op>, x: Tensors, n: nat): Graph
    requires n <= |ops|
  {
    if n == 0 then Leaf([], [], [], 0)
    else
      var g := Record(ops, x, n - 1);
      if g.Pack? then g
      else
        var index := |g.exec|;
        match ops[n - 1]
        case Upload(name, dst) =>
          g.(exec := g.exec + EagerOp(ops[n - 1], x), uploads := Emplace(g.uploads, Slot(name, index, x.input(name))))
        case Download(name, src) =>
          g.(exec := g.exec + EagerOp(ops[n - 1], x), downloads := Emplace(g.downloads, Slot(name, index, x.output(name))))
        case op => g.(exec := g.exec + EagerOp(op, x))
  }

  // ----- capture

  /** hasNestedRunners: some special operation after the first has a runner. */
  predicate HasNestedRunners(ops: seq<Op>) {
    exists i :: 0 < i < |ops| && CompatOf(ops[i]) == Special && NeedsRunner(ops[i])
  }

  /** The constructor's count of the segments from `i`; the loop starts at index 1, so a special first operation is
      neither initialised nor counted. */
  function Counted(ops: seq<Op>, i: nat): nat
    requires i <= |ops|
    decreases |ops| - i
  {
    if i == |ops| then 0
    else
      var j := SegmentEnd(ops, i);
      (match CompatOf(ops[i])
       case Full => 1
       case Special => if i == 0 then 0 else if NeedsRunner(ops[i]) then 3 else 1
       case NotCapturable => 0)
      + Counted(ops, j)
  }

  /** TensorIteratorOp::Capture into a fresh pack (`nested`) or a fresh single graph; `runner` says whether the loop's
      runner was initialised. */
  function CaptureLoop(op: Op, x: Tensors, runner: bool, nested: bool): Option<Graph>
    requires op.Loop?
    decreases op, 0
  {
    if runner then
      if !nested then None
      else
        match CaptureAll(op.body, x)
        case None => None
        case Some(body) =>
          Some(Pack([Leaf(SliceEvents(op, op.slices, 0), [], [], op.slices), body,
                     Leaf(PostEvents(op, 0), [], [], op.inserts)], 2))
    else if nested || NeedsRunner(op) then None
    else Some(Leaf(IterationEvents(op, EagerSeq(op.body, x), 0), [], [], op.slices + op.inserts))
  }

  /** The graphs recorded for the segments from `i`. */
  function CaptureFrom(ops: seq<Op>, x: Tensors, i: nat): Option<seq<Graph>>
    requires i <= |ops|
    decreases ops, 1, |ops| - i
  {
    if i == |ops| then Some([])
    else
      var j := SegmentEnd(ops, i);
      match CaptureFrom(ops, x, j)
      case None => None
      case Some(rest) =>
        match CompatOf(ops[i])
        case NotCapturable => Some(rest)
        case Full => Some([Record(ops[i..j], x, j - i)] + rest)
        case Special =>
          match CaptureLoop(ops[i], x, i > 0 && NeedsRunner(ops[i]), HasNestedRunners(ops))
          case None => None
          case Some(g) => Some([g] + rest)
  }

  /** CudaGraphTopologyRunner::Capture, with its final assertion on the number of graphs. */
  function CaptureAll(ops: seq<Op>, x: Tensors): Option<Graph>
    decreases ops, 2, 0
  {
    if ops == [] then None
    else
      match CaptureFrom(ops, x, 0)
      case None => None
      case Some(graphs) =>
        if GraphsCounts(graphs) == Counted(ops, 0) then Some(Pack(graphs, if |graphs| == 0 then 0 else |graphs| - 1))
        else None
  }

  // ----- refreshing host pointers

  function HostOf(slot: Slot, upload: bool, x: Tensors): Ptr {
    if upload then x.input(slot.name) else x.output(slot.name)
  }

  function WithHost(e: Event, host: Ptr): Event {
    match e
    case Uploaded(dst, _) => Uploaded(dst, host)
    case Downloaded(src, _) => Downloaded(src, host)
    case _ => e
  }

  /** update_src / update_dst on the first `n` slots: the recorded node is rewritten only if its pointer changed. */
  function RefreshExec(exec: seq<Event>, slots: seq<Slot>, upload: bool, x: Tensors, n: nat): (r: seq<Event>)
    requires n <= |slots|
    ensures |r| == |exec|
  {
    if n == 0 then exec
    else
      var r, slot := RefreshExec(exec, slots, upload, x, n - 1), slots[n - 1];
      if slot.host != HostOf(slot, upload, x) && slot.index < |r|
      then r[slot.index := WithHost(r[slot.index], HostOf(slot, upload, x))] else r
  }

  function RefreshSlots(slots: seq<Slot>, upload: bool, x: Tensors): (r: seq<Slot>)
    ensures |r| == |slots|
    ensures forall i :: 0 <= i < |r| ==> r[i] == slots[i].(host := HostOf(slots[i], upload, x))
  {
    seq(|slots|, i requires 0 <= i < |slots| => slots[i].(host := HostOf(slots[i], upload, x)))
  }

  /** update_capture: every graph of the tree; a pack's index ends one past its last graph. */
  function UpdateCapture(g: Graph, x: Tensors): Graph {
    match g
    case Leaf(exec, ups, downs, _) =>
      var uploaded := RefreshExec(exec, ups, true, x, |ups|);
      g.(exec := RefreshExec(uploaded, downs, false, x, |downs|),
         uploads := RefreshSlots(ups, true, x), downloads := RefreshSlots(downs, false, x))
    case Pack(graphs, _) => Pack(UpdateCaptures(graphs, x), |graphs|)
  }

  function UpdateCaptures(gs: seq<Graph>, x: Tensors): (r: seq<Graph>)
    ensures |r| == |gs| && forall i :: 0 <= i < |r| ==> r[i] == UpdateCapture(gs[i], x)
  {
    if gs == [] then [] else UpdateCaptures(gs[..|gs| - 1], x) + [UpdateCapture(gs[|gs| - 1], x)]
  }

  predicate IsInitialized(g: Graph) {
    match g
    case Leaf(_, _, _, _) => true
    case Pack(graphs, _) => graphs != [] && IsInitialized(graphs[|graphs| - 1])
  }

  /** UpdateContext at the start of an inference; None where an assertion of Capture fails. */
  function UpdateContext(ops: seq<Op>, g: Graph, x: Tensors): Option<Graph> {
    if IsInitialized(g) then Some(UpdateCapture(g, x)) else CaptureAll(ops, x)
  }

  // ----- replay

  /** update_kernel: slices and inserts are told the iteration before their graph is launched. */
  function WithIteration(e: Event, it: nat): Event {
    match e
    case Sliced(id, k, _) => Sliced(id, k, it)
    case Inserted(id, k, _) => Inserted(id, k, it)
    case _ => e
  }

  function Launch(exec: seq<Event>, it: nat): (r: seq<Event>)
    ensures |r| == |exec| && forall i :: 0 <= i < |r| ==> r[i] == WithIteration(exec[i], it)
  {
    seq(|exec|, i requires 0 <= i < |exec| => WithIteration(exec[i], it))
  }

  /** select_current_graph; None where its assertion fails. */
  function Select(g: Graph, i: nat): Option<Graph> {
    if g.Pack? && i < |g.graphs| then Some(g.(current := i)) else None
  }

  datatype Ran = Ran_(graph: Graph, events: seq<Event>)

  /** The launches of a single-graph loop from iteration `it`. */
  function SingleIterations(op: Op, g: Graph, it: nat): seq<Event>
    requires op.Loop? && g.Leaf?
    decreases op.iterations - it
  {
    if it >= op.iterations then [] else Launch(g.exec, it) + SingleIterations(op, g, it + 1)
  }

  /** The iterations of a multi-graph loop: slices, the body's own runner, then back edges and inserts. */
  function MultiIterations(op: Op, g: Graph, x: Tensors, it: nat): Option<Ran>
    requires op.Loop? && g.Pack? && |g.graphs| == 3
    decreases op, 0, op.iterations - it
  {
    if it >= op.iterations then Some(Ran_(g, []))
    else if !g.graphs[0].Leaf? || !g.graphs[2].Leaf? then None
    else
      match RunAll(op.body, g.graphs[1], x)
      case None => None
      case Some(body) =>
        match MultiIterations(op, g.(graphs := g.graphs[1 := body.graph]), x, it + 1)
        case None => None
        case Some(rest) =>
          Some(Ran_(rest.graph, Launch(g.graphs[0].exec, it) + body.events + Launch(g.graphs[2].exec, it) + rest.events))
  }

  /** TensorIteratorOp::ExecuteGraph on the graph selected for it. */
  function RunLoop(op: Op, g: Graph, x: Tensors, runner: bool): Option<Ran>
    requires op.Loop?
    decreases op, 1, 0
  {
    if KernelsCount(g) != op.slices + op.inserts then None
    else if !runner then
      if g.Leaf? then Some(Ran_(g, [First(op.id)] + SingleIterations(op, g, 0) + [Last(op.id)])) else None
    else if !g.Pack? || GraphsCount(g) != 3 || |g.graphs| != 3 then None
    else
      match MultiIterations(op, g.(current := 2), x, 0)
      case None => None
      case Some(r) => Some(Ran_(r.graph, [First(op.id)] + r.events + [Last(op.id)]))
  }

  /** The segments from `i`, the next graph being number `index`. */
  function RunFrom(ops: seq<Op>, g: Graph, x: Tensors, i: nat, index: nat): Option<Ran>
    requires i <= |ops|
    decreases ops, 1, |ops| - i
  {
    if i == |ops| then Some(Ran_(g, []))
    else
      var j := SegmentEnd(ops, i);
      match CompatOf(ops[i])
      case NotCapturable =>
        (match RunFrom(ops, g, x, j, index)
         case None => None
         case Some(rest) => Some(Ran_(rest.graph, EagerSeq(ops[i..j], x) + rest.events)))
      case Full =>
        (match Select(g, index)
         case None => None
         case Some(sel) =>
           if !sel.graphs[sel.current].Leaf? then None
           else
             match RunFrom(ops, sel, x, j, index + 1)
             case None => None
             case Some(rest) => Some(Ran_(rest.graph, sel.graphs[sel.current].exec + rest.events)))
      case Special =>
        (match Select(g, index)
         case None => None
         case Some(sel) =>
           match RunLoop(ops[i], sel.graphs[sel.current], x, i > 0 && NeedsRunner(ops[i]))
           case None => None
           case Some(r) =>
             match RunFrom(ops, sel.(graphs := sel.graphs[sel.current := r.graph]), x, j, index + 1)
             case None => None
             case Some(rest) => Some(Ran_(rest.graph, r.events + rest.events)))
  }

  /** CudaGraphTopologyRunner::Run. */
  function RunAll(ops: seq<Op>, g: Graph, x: Tensors): Option<Ran>
    decreases ops, 2, 0
  {
    RunFrom(ops, g, x, 0, 0)
  }

  /** One inference: UpdateContext, then Run. */
  function Infer(ops: seq<Op>, g: Graph, x: Tensors): Option<Ran> {
    match UpdateContext(ops, g, x)
    case None => None
    case Some(ready) => RunAll(ops, ready, x)
  }

  /** A request's life: the graph context survives from one inference to the next. */
  function Serve(ops: seq<Op>, xs: seq<Tensors>): Option<(Graph, seq<seq<Event>>)> {
    if xs == [] then Some((Pack([], 0), []))
    else
      match Serve(ops, xs[..|xs| - 1])
      case None => None
      case Some((g, traces)) =>
        match Infer(ops, g, xs[|xs| - 1])
        case None => None
        case Some(r) => Some((r.graph, traces + [r.events]))
  }
}
