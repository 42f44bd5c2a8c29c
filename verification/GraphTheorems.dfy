/** The life of a graph context: which sequences can be served at all, and what every inference performs. */
module GraphTheorems {
  import opened Options
  import opened GraphSpec
  import opened GraphCapture
  import opened GraphRefresh
  import opened GraphReplay

  // ----- counts held by a context

  predicate NoRunners(ops: seq<Op>, i: nat) {
    forall k :: i <= k < |ops| && IsSpecial(ops[k]) ==> !NeedsRunner(ops[k])
  }

  /** No special loop from `i` slices or inserts. */
  predicate Quiet(ops: seq<Op>, i: nat) {
    forall k :: i <= k < |ops| && IsSpecial(ops[k]) ==> ops[k].slices + ops[k].inserts == 0
  }

  /** The bodies of the loops with a runner launch no kernels of their own. */
  predicate QuietBodies(ops: seq<Op>, i: nat) {
    forall k :: i <= k < |ops| && IsSpecial(ops[k]) && NeedsRunner(ops[k]) ==> Quiet(ops[k].body, 0)
  }

  /** The sequences whose first inference succeeds. */
  predicate Servable(ops: seq<Op>) {
    Capturable(ops) && QuietBodies(ops, 0)
  }

  lemma {:induction false} CountedRunner(ops: seq<Op>, i: nat, k: nat)
    requires i <= k < |ops| && IsSpecial(ops[k]) && NeedsRunner(ops[k]) && (i > 0 || !IsSpecial(ops[0]))
    ensures Counted(ops, i) >= 3
    decreases |ops| - i
  {
    SegmentFacts(ops, i);
    if k >= SegmentEnd(ops, i) { CountedRunner(ops, SegmentEnd(ops, i), k); }
  }

  lemma {:induction false} SingleBodyPlain(ops: seq<Op>)
    requires Capturable(ops) && Counted(ops, 0) == 1
    ensures NoRunners(ops, 0)
  {
    forall k | 0 <= k < |ops| && IsSpecial(ops[k]) ensures !NeedsRunner(ops[k]) {
      if NeedsRunner(ops[k]) { CountedRunner(ops, 0, k); }
    }
  }

  lemma {:induction false} GraphsHeld(ops: seq<Op>, gs: seq<Graph>, x: Tensors, y: Tensors, i: nat)
    requires i <= |ops| && ListHolds(ops, gs, x, y, i) && NoRunners(ops, i) && (i == 0 && ops != [] ==> !IsSpecial(ops[0]))
    ensures GraphsCounts(gs) == Counted(ops, i)
    ensures KernelsCounts(gs) == 0 <==> Quiet(ops, i)
    decreases |ops| - i
  {
    hide Holds;
    if i < |ops| {
      var j := SegmentEnd(ops, i);
      SegmentFacts(ops, i);
      QuietStep(ops, i);
      if CompatOf(ops[i]) == NotCapturable {
        GraphsHeld(ops, gs, x, y, j);
      } else {
        GraphsHeld(ops, gs[1..], x, y, j);
        GraphsCountsCons(gs[0], gs[1..]);
        assert gs == [gs[0]] + gs[1..];
        OneGraph(ops, gs[0], x, y, i);
      }
    }
  }

  lemma {:induction false} OneGraph(ops: seq<Op>, g: Graph, x: Tensors, y: Tensors, i: nat)
    requires i < |ops|
    requires if IsSpecial(ops[i]) then LoopHolds(ops[i], g, x, y) && !NeedsRunner(ops[i])
             else Holds(g, ops[i..SegmentEnd(ops, i)], x, y)
    ensures g.Leaf? && GraphsCount(g) == 1
    ensures KernelsCount(g) == if IsSpecial(ops[i]) then ops[i].slices + ops[i].inserts else 0
  {}

  lemma {:induction false} QuietStep(ops: seq<Op>, i: nat)
    requires i < |ops|
    ensures Quiet(ops, i) <==>
      Quiet(ops, SegmentEnd(ops, i)) && (IsSpecial(ops[i]) ==> ops[i].slices + ops[i].inserts == 0)
    ensures QuietBodies(ops, i) <==>
      QuietBodies(ops, SegmentEnd(ops, i)) && (IsSpecial(ops[i]) && NeedsRunner(ops[i]) ==> Quiet(ops[i].body, 0))
  {
    SegmentFacts(ops, i);
  }

  // ----- launches

  lemma {:induction false} LaunchAppend(a: seq<Event>, b: seq<Event>, it: nat)
    ensures Launch(a + b, it) == Launch(a, it) + Launch(b, it)
  {}

  lemma {:induction false} LaunchSlices(op: Op, n: nat, it: nat)
    requires op.Loop?
    ensures Launch(SliceEvents(op, n, 0), it) == SliceEvents(op, n, it)
  {
    if n > 0 {
      LaunchSlices(op, n - 1, it);
      LaunchAppend(SliceEvents(op, n - 1, 0), [Sliced(op.id, n - 1, 0)], it);
    }
  }

  lemma {:induction false} LaunchPost(op: Op, it: nat)
    requires op.Loop?
    ensures Launch(PostEvents(op, 0), it) == PostEvents(op, it)
  {
    LaunchInserts(op, op.inserts, it);
    LaunchAppend([Moved(op.id)], InsertEvents(op, op.inserts, 0), it);
  }

  lemma {:induction false} LaunchInserts(op: Op, n: nat, it: nat)
    requires op.Loop?
    ensures Launch(InsertEvents(op, n, 0), it) == InsertEvents(op, n, it)
  {
    if n > 0 {
      LaunchInserts(op, n - 1, it);
      LaunchAppend(InsertEvents(op, n - 1, 0), [Inserted(op.id, n - 1, 0)], it);
    }
  }

  /** A fully capturable body has no slices or inserts of its own to retarget. */
  lemma {:induction false} LaunchBody(op: Op, x: Tensors, it: nat)
    requires op.Loop? && !NeedsRunner(op)
    ensures Launch(EagerSeq(op.body, x), it) == EagerSeq(op.body, x)
  {
    assert Recordable(op.body);
    FullEagerly(op.body, x, |op.body|);
    assert op.body[..|op.body|] == op.body;
    forall p | 0 <= p < |op.body| ensures WithIteration(EventOf(op.body[p], x), it) == EventOf(op.body[p], x) {
      FullKinds(op.body[p]);
    }
  }

  lemma {:induction false} LaunchIteration(op: Op, x: Tensors, it: nat)
    requires op.Loop? && !NeedsRunner(op)
    ensures Launch(IterationEvents(op, EagerSeq(op.body, x), 0), it) == IterationEvents(op, EagerSeq(op.body, x), it)
  {
    var body := EagerSeq(op.body, x);
    LaunchSlices(op, op.slices, it);
    LaunchBody(op, x, it);
    LaunchPost(op, it);
    LaunchAppend(SliceEvents(op, op.slices, 0), body, it);
    LaunchAppend(SliceEvents(op, op.slices, 0) + body, PostEvents(op, 0), it);
  }

  lemma {:induction false} SingleRuns(op: Op, g: Graph, y: Tensors, it: nat)
    requires op.Loop? && !NeedsRunner(op) && g == Leaf(IterationEvents(op, EagerSeq(op.body, y), 0), [], [], op.slices + op.inserts)
    ensures SingleIterations(op, g, it) == IterationsFrom(op, EagerSeq(op.body, y), it)
    decreases op.iterations - it
  {
    if it < op.iterations {
      hide Launch, IterationEvents, EagerSeq, NeedsRunner;
      SingleRuns(op, g, y, it + 1);
      LaunchIteration(op, y, it);
    }
  }

  // ----- runs

  /** A loop's own conditions on its runner. */
  predicate BodyFits(op: Op) {
    op.Loop? && Internal(op.body) && (NeedsRunner(op) ==> Capturable(op.body) && Counted(op.body, 0) == 1)
  }

  lemma {:induction false} BodyRuns(op: Op, g: Graph, x: Tensors, y: Tensors)
    requires BodyFits(op) && NeedsRunner(op) && PackHolds(op.body, g, x, y)
    ensures RunAll(op.body, g, y).Some?
    ensures var r := RunAll(op.body, g, y).value; PackHolds(op.body, r.graph, x, y) && r.events == EagerSeq(op.body, y)
    decreases op, 0, 0
  {
    hide Counted, Replayed, EagerSeq, SegmentsApart, RunFrom, ListHolds;
    SingleBodyPlain(op.body);
    InternalMembers(op.body);
    assert g.graphs[0..] == g.graphs;
    RunFromHolds(op.body, g, x, y, 0, 0);
    var r := RunAll(op.body, g, y).value;
    assert r.graph.graphs[0..] == r.graph.graphs;
    InternalApart(op.body, 0);
    ReplayedEager(op.body, x, y, 0);
    assert op.body[0..] == op.body;
  }

  lemma {:induction false} MultiRuns(op: Op, g: Graph, x: Tensors, y: Tensors, it: nat)
    requires BodyFits(op) && NeedsRunner(op) && LoopHolds(op, g, x, y)
    ensures MultiIterations(op, g, y, it).Some?
    ensures var r := MultiIterations(op, g, y, it).value;
      LoopHolds(op, r.graph, x, y) && r.events == IterationsFrom(op, EagerSeq(op.body, y), it)
    decreases op, 1, op.iterations - it
  {
    if it < op.iterations {
      BodyRuns(op, g.graphs[1], x, y);
      hide PackHolds, RunAll, EagerSeq, SliceEvents, PostEvents, Launch;
      var body := RunAll(op.body, g.graphs[1], y).value;
      var next := g.(graphs := g.graphs[1 := body.graph]);
      MultiRuns(op, next, x, y, it + 1);
      LaunchSlices(op, op.slices, it);
      LaunchPost(op, it);
    }
  }

  /** A special loop runs exactly when its body launches no kernels of its own; then it performs its iterations. */
  lemma {:induction false} LoopRuns(op: Op, g: Graph, x: Tensors, y: Tensors)
    requires BodyFits(op) && LoopHolds(op, g, x, y)
    ensures RunLoop(op, g, y, NeedsRunner(op)).Some? <==> (NeedsRunner(op) ==> Quiet(op.body, 0))
    ensures RunLoop(op, g, y, NeedsRunner(op)).Some? ==>
      var r := RunLoop(op, g, y, NeedsRunner(op)).value;
      LoopHolds(op, r.graph, x, y) && r.events == EagerOp(op, y)
    decreases op, 2, 0
  {
    hide Counted, EagerSeq, ListHolds, Capturable;
    if NeedsRunner(op) {
      SingleBodyPlain(op.body);
      FirstPlain(op.body);
      GraphsHeld(op.body, g.graphs[1].graphs, x, y, 0);
      LoopPackCounts(g.graphs[0], g.graphs[1], g.graphs[2]);
      assert g.graphs == [g.graphs[0], g.graphs[1], g.graphs[2]];
      MultiRuns(op, g.(current := 2), x, y, 0);
    } else {
      SingleRuns(op, g, y, 0);
    }
  }

  lemma {:induction false} FirstPlain(ops: seq<Op>)
    requires Capturable(ops)
    ensures ops != [] && !IsSpecial(ops[0])
    ensures forall k :: 0 <= k < |ops| && IsSpecial(ops[k]) && NeedsRunner(ops[k]) ==>
      Capturable(ops[k].body) && Counted(ops[k].body, 0) == 1
  {}

  /** A run of the segments from `i` on the graphs from `index`: it needs quiet bodies, performs what the context holds,
      and leaves the context as it was. */
  predicate Runs(ops: seq<Op>, g: Graph, run: Option<Ran>, x: Tensors, y: Tensors, i: nat, index: nat)
    requires i <= |ops| && g.Pack? && index <= |g.graphs|
  {
    && (run.Some? <==> QuietBodies(ops, i))
    && (run.Some? ==>
          && run.value.graph.Pack? && |run.value.graph.graphs| == |g.graphs|
          && run.value.graph.graphs[..index] == g.graphs[..index]
          && ListHolds(ops, run.value.graph.graphs[index..], x, y, i)
          && run.value.events == Replayed(ops, x, y, i))
  }

  lemma {:induction false} RunFull(ops: seq<Op>, g: Graph, x: Tensors, y: Tensors, i: nat, index: nat)
    requires Capturable(ops) && BodiesInternal(ops) && i < |ops| && CompatOf(ops[i]) == Full
    requires g.Pack? && index <= |g.graphs| && ListHolds(ops, g.graphs[index..], x, y, i)
    ensures Runs(ops, g, RunFrom(ops, g, y, i, index), x, y, i, index)
    decreases ops, 3, |ops| - i, 0
  {
    hide LoopHolds, Capturable, BodiesInternal, QuietBodies, RunLoop, EagerSeq, NeedsRunner;
    QuietStep(ops, i);
    var j := SegmentEnd(ops, i);
    var sel := g.(current := index);
    assert g.graphs[index..][1..] == g.graphs[index + 1..];
    RunFromHolds(ops, sel, x, y, j, index + 1);
    assert g.graphs[index].exec == SegmentReplay(ops[i..j], x, y);
    var run := RunFrom(ops, sel, y, j, index + 1);
    if run.Some? {
      var after := run.value.graph.graphs;
      assert after[..index + 1] == g.graphs[..index + 1];
      assert after[index] == after[..index + 1][index];
      assert after[..index] == after[..index + 1][..index];
      assert after[index..][1..] == after[index + 1..];
    }
  }

  lemma {:induction false} SpecialFits(ops: seq<Op>, i: nat)
    requires Capturable(ops) && BodiesInternal(ops) && i < |ops| && IsSpecial(ops[i])
    ensures BodyFits(ops[i]) && i > 0
  {
    FirstPlain(ops);
  }

  lemma {:induction false} SpecialHolds(ops: seq<Op>, gs: seq<Graph>, x: Tensors, y: Tensors, i: nat)
    requires i < |ops| && IsSpecial(ops[i])
    ensures ListHolds(ops, gs, x, y, i) <==>
      gs != [] && LoopHolds(ops[i], gs[0], x, y) && ListHolds(ops, gs[1..], x, y, SegmentEnd(ops, i))
    ensures Replayed(ops, x, y, i) == EagerOp(ops[i], y) + Replayed(ops, x, y, SegmentEnd(ops, i))
  {
    hide Holds, LoopHolds, EagerSeq, EagerOp;
    SegmentFacts(ops, i);
    OneEager(ops, i, y);
  }

  /** One special segment of a run. */
  lemma {:induction false} SpecialStep(ops: seq<Op>, g: Graph, y: Tensors, i: nat, index: nat)
    requires 0 < i < |ops| && IsSpecial(ops[i]) && ops[i].Loop? && g.Pack? && index < |g.graphs|
    ensures RunFrom(ops, g, y, i, index) ==
      match RunLoop(ops[i], g.graphs[index], y, NeedsRunner(ops[i]))
      case None => None
      case Some(r) =>
        match RunFrom(ops, Pack(g.graphs[index := r.graph], index), y, SegmentEnd(ops, i), index + 1)
        case None => None
        case Some(rest) => Some(Ran_(rest.graph, r.events + rest.events))
  {
    hide RunLoop, NeedsRunner;
  }

  /** A run that keeps everything before the next index leaves the graph at `index` as it was set. */
  lemma {:induction false} Stitch(was: seq<Graph>, g: Graph, after: seq<Graph>, index: nat)
    requires index < |was| == |after| && after[..index + 1] == was[index := g][..index + 1]
    ensures after[..index] == was[..index] && after[index..] == [g] + after[index + 1..]
  {
    assert after[index] == after[..index + 1][index];
    assert after[..index] == after[..index + 1][..index];
  }

  lemma {:induction false} RunSpecial(ops: seq<Op>, g: Graph, x: Tensors, y: Tensors, i: nat, index: nat)
    requires Capturable(ops) && BodiesInternal(ops) && i < |ops| && IsSpecial(ops[i])
    requires g.Pack? && index <= |g.graphs| && ListHolds(ops, g.graphs[index..], x, y, i)
    ensures Runs(ops, g, RunFrom(ops, g, y, i, index), x, y, i, index)
    decreases ops, 3, |ops| - i, 0
  {
    hide RunFrom, ListHolds, LoopHolds, Capturable, BodiesInternal, QuietBodies, RunLoop, Replayed, BodyFits, EagerOp;
    hide NeedsRunner, Quiet;
    SpecialFits(ops, i);
    SpecialHolds(ops, g.graphs[index..], x, y, i);
    QuietStep(ops, i);
    var op, j, tail := ops[i], SegmentEnd(ops, i), g.graphs[index..];
    assert tail[0] == g.graphs[index] && tail[1..] == g.graphs[index + 1..];
    LoopRuns(op, g.graphs[index], x, y);
    SpecialLoop(op);
    SpecialStep(ops, g, y, i, index);
    var loop := RunLoop(op, g.graphs[index], y, NeedsRunner(op));
    if loop.Some? {
      var sel := Pack(g.graphs[index := loop.value.graph], index);
      assert sel.graphs[index + 1..] == g.graphs[index + 1..];
      RunFromHolds(ops, sel, x, y, j, index + 1);
      var run := RunFrom(ops, sel, y, j, index + 1);
      if run.Some? {
        var after := run.value.graph.graphs;
        Stitch(g.graphs, loop.value.graph, after, index);
        assert after[index..][1..] == after[index + 1..];
        SpecialHolds(ops, after[index..], x, y, i);
      }
    }
  }

  lemma {:induction false} SpecialLoop(op: Op)
    requires IsSpecial(op)
    ensures op.Loop?
  {}

  lemma {:induction false} OneEager(ops: seq<Op>, i: nat, x: Tensors)
    requires i < |ops|
    ensures EagerSeq(ops[i..i + 1], x) == EagerOp(ops[i], x)
  {}

  lemma {:induction false} RunFromHolds(ops: seq<Op>, g: Graph, x: Tensors, y: Tensors, i: nat, index: nat)
    requires Capturable(ops) && BodiesInternal(ops) && i <= |ops|
    requires g.Pack? && index <= |g.graphs| && ListHolds(ops, g.graphs[index..], x, y, i)
    ensures Runs(ops, g, RunFrom(ops, g, y, i, index), x, y, i, index)
    decreases ops, 3, |ops| - i, 1
  {
    if i < |ops| {
      hide Holds, LoopHolds, Capturable, BodiesInternal, QuietBodies, RunLoop, EagerSeq, NeedsRunner;
      if CompatOf(ops[i]) == NotCapturable {
        QuietStep(ops, i);
        RunFromHolds(ops, g, x, y, SegmentEnd(ops, i), index);
      } else if CompatOf(ops[i]) == Full {
        RunFull(ops, g, x, y, i, index);
      } else {
        RunSpecial(ops, g, x, y, i, index);
      }
    }
  }

  // ----- inferences

  lemma {:induction false} LastInitialized(ops: seq<Op>, gs: seq<Graph>, x: Tensors, y: Tensors, i: nat)
    requires i <= |ops| && ListHolds(ops, gs, x, y, i) && gs != []
    ensures IsInitialized(gs[|gs| - 1])
    decreases |ops| - i
  {
    hide PackHolds;
    if i < |ops| {
      if CompatOf(ops[i]) == NotCapturable {
        LastInitialized(ops, gs, x, y, SegmentEnd(ops, i));
      } else if |gs| > 1 {
        LastInitialized(ops, gs[1..], x, y, SegmentEnd(ops, i));
      }
    }
  }

  /** Without a single graph nothing was recorded, for any tensors. */
  lemma {:induction false} NothingHeld(ops: seq<Op>, gs: seq<Graph>, x: Tensors, y: Tensors, z: Tensors, w: Tensors, i: nat)
    requires i <= |ops| && ListHolds(ops, [], x, y, i) && ListHolds(ops, gs, w, z, i)
    ensures gs == [] && ListHolds(ops, [], x, z, i)
    decreases |ops| - i
  {
    if i < |ops| { NothingHeld(ops, gs, x, y, z, w, SegmentEnd(ops, i)); }
  }

  /** One inference on a context kept since a first inference. */
  lemma {:induction false} InferHolds(ops: seq<Op>, g: Graph, x: Tensors, y: Tensors, z: Tensors)
    requires Servable(ops) && BodiesInternal(ops) && PackHolds(ops, g, x, y)
    ensures Infer(ops, g, z).Some?
    ensures var r := Infer(ops, g, z).value; PackHolds(ops, r.graph, x, z) && r.events == Replayed(ops, x, z, 0)
  {
    hide Replayed, Capturable, BodiesInternal, RunFrom, UpdateCaptures, QuietBodies, CaptureAll;
    hide ListHolds;
    CapturableIff(ops, z);
    var ready := UpdateContext(ops, g, z).value;
    if g.graphs != [] {
      LastInitialized(ops, g.graphs, x, y, 0);
      RefreshListHolds(ops, g.graphs, x, y, z, 0);
    } else {
      CaptureHolds(ops, z);
      NothingHeld(ops, ready.graphs, x, y, z, z, 0);
    }
    assert PackHolds(ops, ready, x, z);
    assert ready.graphs[0..] == ready.graphs;
    RunFromHolds(ops, ready, x, z, 0, 0);
    var r := RunAll(ops, ready, z).value;
    assert r.graph.graphs[0..] == r.graph.graphs;
  }

  /** The first inference succeeds exactly on servable sequences. */
  lemma {:induction false} FirstInferenceIff(ops: seq<Op>, x: Tensors)
    requires BodiesInternal(ops)
    ensures Infer(ops, Pack([], 0), x).Some? <==> Servable(ops)
    ensures Servable(ops) ==>
      var r := Infer(ops, Pack([], 0), x).value; PackHolds(ops, r.graph, x, x) && r.events == Replayed(ops, x, x, 0)
  {
    hide Replayed, Capturable, BodiesInternal, RunFrom, QuietBodies, CaptureAll, ListHolds;
    CapturableIff(ops, x);
    if Capturable(ops) {
      CaptureHolds(ops, x);
      var ready := CaptureAll(ops, x).value;
      assert ready.graphs[0..] == ready.graphs;
      RunFromHolds(ops, ready, x, x, 0, 0);
      if Servable(ops) {
        var r := RunAll(ops, ready, x).value;
        assert r.graph.graphs[0..] == r.graph.graphs;
      }
    }
  }

  /** Every inference of a request performs the original operations on its own tensors, except that a transfer whose name
      was taken keeps the tensor of the first inference. */
  lemma {:induction false} ServeReplays(ops: seq<Op>, xs: seq<Tensors>)
    requires Servable(ops) && BodiesInternal(ops)
    ensures Serve(ops, xs).Some? && |Serve(ops, xs).value.1| == |xs|
    ensures forall k :: 0 <= k < |xs| ==> Serve(ops, xs).value.1[k] == Replayed(ops, xs[0], xs[k], 0)
    ensures xs != [] ==> PackHolds(ops, Serve(ops, xs).value.0, xs[0], xs[|xs| - 1])
  {
    hide Replayed, Servable, BodiesInternal, Infer, PackHolds;
    if xs != [] {
      var before, x := xs[..|xs| - 1], xs[|xs| - 1];
      ServeReplays(ops, before);
      var g := Serve(ops, before).value.0;
      if before == [] {
        FirstInferenceIff(ops, x);
      } else {
        InferHolds(ops, g, xs[0], before[|before| - 1], x);
      }
    }
  }

  /** Every inference of the request succeeds and performs the original operations, in order, on its own tensors. */
  predicate ServedEagerly(ops: seq<Op>, xs: seq<Tensors>) {
    && Serve(ops, xs).Some? && |Serve(ops, xs).value.1| == |xs|
    && forall k :: 0 <= k < |xs| ==> Serve(ops, xs).value.1[k] == EagerSeq(ops, xs[k])
  }

  /** Graph replay equals eager execution, over any sequence of inferences with changing host tensors. */
  lemma {:induction false} ReplayIsEager(ops: seq<Op>, xs: seq<Tensors>)
    requires Servable(ops) && BodiesInternal(ops) && SegmentsApart(ops, 0)
    ensures ServedEagerly(ops, xs)
  {
    hide Replayed, Servable, BodiesInternal, Serve, PackHolds, SegmentsApart, EagerSeq;
    ServeReplays(ops, xs);
    forall k | 0 <= k < |xs| ensures Serve(ops, xs).value.1[k] == EagerSeq(ops, xs[k]) {
      ReplayedEager(ops, xs[0], xs[k], 0);
      assert ops[0..] == ops;
    }
  }

  // ----- the naming condition is exact

  function At(host: Ptr): Tensors {
    Tensors(_ => host, _ => host)
  }

  predicate OnHost(e: Event, host: Ptr) {
    (e.Uploaded? || e.Downloaded?) && e.host == host
  }

  lemma {:induction false} SliceInsertHosts(op: Op, n: nat, it: nat, host: Ptr)
    requires op.Loop?
    ensures forall e :: e in SliceEvents(op, n, it) || e in InsertEvents(op, n, it) ==> !OnHost(e, host)
  {
    if n > 0 { SliceInsertHosts(op, n - 1, it, host); }
  }

  lemma {:induction false} IterationHosts(op: Op, body: seq<Event>, it: nat, host: Ptr)
    requires op.Loop? && forall e :: e in body ==> !OnHost(e, host)
    ensures forall e :: e in IterationsFrom(op, body, it) ==> !OnHost(e, host)
    decreases op.iterations - it
  {
    if it < op.iterations {
      hide SliceEvents, InsertEvents;
      SliceInsertHosts(op, op.slices, it, host);
      SliceInsertHosts(op, op.inserts, it, host);
      IterationHosts(op, body, it + 1, host);
    }
  }

  lemma {:induction false} EagerOpHosts(op: Op, x: Ptr, host: Ptr)
    requires x != host
    ensures forall e :: e in EagerOp(op, At(x)) ==> !OnHost(e, host)
  {
    if op.Loop? {
      EagerHosts(op.body, x, host);
      IterationHosts(op, EagerSeq(op.body, At(x)), 0, host);
    }
  }

  lemma {:induction false} EagerHosts(ops: seq<Op>, x: Ptr, host: Ptr)
    requires x != host
    ensures forall e :: e in EagerSeq(ops, At(x)) ==> !OnHost(e, host)
  {
    if ops != [] {
      hide EagerOp;
      EagerOpHosts(ops[0], x, host);
      EagerHosts(ops[1..], x, host);
    }
  }

  lemma {:induction false} StaleHost(ops: seq<Op>, x: Ptr, y: Ptr, i: nat) returns (e: Event)
    requires i <= |ops| && !SegmentsApart(ops, i)
    ensures e in Replayed(ops, At(x), At(y), i) && OnHost(e, x)
    decreases |ops| - i
  {
    var j := SegmentEnd(ops, i);
    var seg := ops[i..j];
    SegmentFacts(ops, i);
    if !NamesApart(seg) {
      NamesApartIff(seg);
      var p: nat :| p < |seg| && Stale(seg, p);
      assert seg[p] == ops[i + p] && CompatOf(ops[i + p]) == CompatOf(ops[i]);
      FullKinds(seg[p]);
      e := SegmentReplay(seg, At(x), At(y))[p];
      assert e in SegmentReplay(seg, At(x), At(y));
    } else {
      e := StaleHost(ops, x, y, j);
    }
  }

  /** A request is served eagerly, whatever its inferences, exactly when no segment repeats a name: otherwise the second
      inference still transfers through a pointer of the first. */
  lemma {:induction false} ReplayIsEagerIff(ops: seq<Op>)
    requires Servable(ops) && BodiesInternal(ops)
    ensures SegmentsApart(ops, 0) <==> forall xs: seq<Tensors> :: ServedEagerly(ops, xs)
  {
    hide Servable, BodiesInternal, Serve, PackHolds, SegmentsApart, EagerSeq, Replayed, At;
    if SegmentsApart(ops, 0) {
      forall xs: seq<Tensors> ensures ServedEagerly(ops, xs) { ReplayIsEager(ops, xs); }
    } else {
      var xs := [At(0), At(1)];
      ServeReplays(ops, xs);
      var e := StaleHost(ops, 0, 1, 0);
      EagerHosts(ops, 1, 0);
      assert Serve(ops, xs).value.1[1] != EagerSeq(ops, xs[1]);
      assert !ServedEagerly(ops, xs);
    }
  }
}
