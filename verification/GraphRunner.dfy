/** The runner and the graph pack as objects: the loops of the constructor, Capture, Run and update_capture. */
module GraphRunner {
  import opened Options
  import opened GraphSpec
  import opened GraphPartition

  /** CudaGraphPack, the context of a request; nested packs are values of its list. */
  class CudaGraphPack {
    var graphs: seq<Graph>
    var current: nat

    function Value(): Graph
      reads this
    {
      Pack(graphs, current)
    }

    constructor ()
      ensures Value() == Pack([], 0)
    {
      graphs, current := [], 0;
    }

    method Reset()
      modifies this
      ensures Value() == Pack([], 0)
    {
      graphs, current := [], 0;
    }

    method Add(g: Graph)
      modifies this
      ensures Value() == Pack(old(graphs) + [g], |old(graphs)|)
    {
      current := |graphs|;
      graphs := graphs + [g];
    }

    method SelectCurrentGraph(index: nat) returns (ok: bool)
      modifies this
      ensures ok <==> Select(old(Value()), index).Some?
      ensures Value() == if ok then Select(old(Value()), index).value else old(Value())
    {
      ok := index < |graphs|;
      if ok { current := index; }
    }

    method UpdateCaptureAll(x: Tensors)
      modifies this
      ensures Value() == UpdateCapture(old(Value()), x)
    {
      ghost var was := graphs;
      current := 0;
      while current < |graphs|
        invariant current <= |graphs| == |was|
        invariant forall k :: 0 <= k < current ==> graphs[k] == UpdateCapture(was[k], x)
        invariant forall k :: current <= k < |was| ==> graphs[k] == was[k]
        decreases |graphs| - current
      {
        graphs := graphs[current := UpdateCapture(graphs[current], x)];
        current := current + 1;
      }
      assert graphs == UpdateCaptures(was, x);
    }
  }

  class CudaGraphTopologyRunner {
    const ops: seq<Op>
    var segments: seq<seq<Op>>
    var graphsCount: nat

    ghost predicate Valid()
      reads this
    {
      ops != [] && segments == Segments(ops, 0) && graphsCount == Counted(ops, 0)
    }

    constructor (sequence: seq<Op>)
      requires sequence != []
      ensures Valid() && ops == sequence
    {
      ops := sequence;
      new;
      segments := Partition(ops);
      graphsCount := 0;
      ghost var i: nat := 0;
      for k := 0 to |segments|
        invariant ops == sequence && i <= |ops| && segments == Segments(ops, 0) && segments[k..] == Segments(ops, i)
        invariant i == 0 <==> k == 0
        invariant graphsCount + Counted(ops, i) == Counted(ops, 0)
      {
        assert segments[k..] != [] && i < |ops|;
        assert segments[k] == segments[k..][0] && segments[k..][1..] == segments[k + 1..];
        var first := segments[k][0];
        assert first == ops[i];
        if CompatOf(first) == Full {
          graphsCount := graphsCount + 1;
        } else if CompatOf(first) == Special && k > 0 {
          graphsCount := graphsCount + if NeedsRunner(first) then 3 else 1;
        }
        i := SegmentEnd(ops, i);
      }
    }

    /** Record every segment that is not eager; `ok` is false where an assertion fails. */
    method Capture(pack: CudaGraphPack, x: Tensors) returns (ok: bool)
      requires Valid()
      modifies pack
      ensures ok <==> CaptureAll(ops, x).Some?
      ensures ok ==> pack.Value() == CaptureAll(ops, x).value
    {
      hide Record, CaptureLoop, HasNestedRunners, CompatOf, NeedsRunner, GraphsCount, Counted;
      pack.Reset();
      Nothing(CaptureFrom(ops, x, 0), None);
      ghost var i: nat := 0;
      for k := 0 to |segments|
        invariant i <= |ops| && segments[k..] == Segments(ops, i) && (i == 0 <==> k == 0)
        invariant pack.current == if |pack.graphs| == 0 then 0 else |pack.graphs| - 1
        invariant CaptureFrom(ops, x, 0) == Prepend(pack.graphs, CaptureFrom(ops, x, i))
      {
        assert segments[k..] != [] && i < |ops|;
        assert segments[k] == segments[k..][0] && segments[k..][1..] == segments[k + 1..];
        var seg := segments[k];
        assert seg[0] == ops[i];
        PrependStep(pack.graphs, ops, x, i);
        if CompatOf(seg[0]) == Full {
          pack.Add(Record(seg, x, |seg|));
        } else if CompatOf(seg[0]) == Special {
          SpecialIsLoop(seg[0]);
          match CaptureLoop(seg[0], x, k > 0 && NeedsRunner(seg[0]), HasNestedRunners(ops))
          case None => return false;
          case Some(g) => pack.Add(g);
        }
        i := SegmentEnd(ops, i);
      }
      assert pack.graphs + [] == pack.graphs;
      ok := GraphsCounts(pack.graphs) == graphsCount;
    }

    method UpdateContext(pack: CudaGraphPack, x: Tensors) returns (ok: bool)
      requires Valid()
      modifies pack
      ensures ok <==> GraphSpec.UpdateContext(ops, old(pack.Value()), x).Some?
      ensures ok ==> pack.Value() == GraphSpec.UpdateContext(ops, old(pack.Value()), x).value
    {
      if IsInitialized(pack.Value()) {
        pack.UpdateCaptureAll(x);
        ok := true;
      } else {
        ok := Capture(pack, x);
      }
    }

    /** Replay the recorded graphs by index, executing the eager segments between them. */
    method Run(pack: CudaGraphPack, x: Tensors) returns (ok: bool, trace: seq<Event>)
      requires Valid()
      modifies pack
      ensures ok <==> RunAll(ops, old(pack.Value()), x).Some?
      ensures ok ==> Ran_(pack.Value(), trace) == RunAll(ops, old(pack.Value()), x).value
    {
      hide RunLoop, EagerSeq, CompatOf, NeedsRunner;
      ghost var i: nat, was := 0, pack.Value();
      var graphIndex := 0;
      trace := [];
      Nothing(None, RunFrom(ops, was, x, 0, 0));
      for k := 0 to |segments|
        invariant i <= |ops| && segments[k..] == Segments(ops, i) && (i == 0 <==> k == 0)
        invariant RunFrom(ops, was, x, 0, 0) == After(trace, RunFrom(ops, pack.Value(), x, i, graphIndex))
      {
        assert segments[k..] != [] && i < |ops|;
        assert segments[k] == segments[k..][0] && segments[k..][1..] == segments[k + 1..];
        var seg := segments[k];
        assert seg[0] == ops[i];
        AfterStep(trace, ops, pack.Value(), x, i, graphIndex);
        if CompatOf(seg[0]) == Full {
          var selected := pack.SelectCurrentGraph(graphIndex);
          if !selected || !pack.graphs[pack.current].Leaf? { return false, trace; }
          trace := trace + pack.graphs[pack.current].exec;
          graphIndex := graphIndex + 1;
        } else if CompatOf(seg[0]) == Special {
          var selected := pack.SelectCurrentGraph(graphIndex);
          if !selected { return false, trace; }
          SpecialIsLoop(seg[0]);
          match RunLoop(seg[0], pack.graphs[pack.current], x, k > 0 && NeedsRunner(seg[0]))
          case None => return false, trace;
          case Some(r) =>
            pack.graphs := pack.graphs[pack.current := r.graph];
            trace := trace + r.events;
            graphIndex := graphIndex + 1;
        } else {
          trace := trace + EagerSeq(seg, x);
        }
        i := SegmentEnd(ops, i);
      }
      ok := true;
    }
  }

  function Prepend(graphs: seq<Graph>, rest: Option<seq<Graph>>): Option<seq<Graph>> {
    match rest
    case None => None
    case Some(gs) => Some(graphs + gs)
  }

  function After(trace: seq<Event>, rest: Option<Ran>): Option<Ran> {
    match rest
    case None => None
    case Some(r) => Some(Ran_(r.graph, trace + r.events))
  }

  lemma {:induction false} SpecialIsLoop(op: Op)
    requires CompatOf(op) == Special
    ensures op.Loop?
  {}

  lemma {:induction false} Nothing(graphs: Option<seq<Graph>>, run: Option<Ran>)
    ensures Prepend([], graphs) == graphs && After([], run) == run
  {
    if graphs.Some? { assert [] + graphs.value == graphs.value; }
    if run.Some? { assert [] + run.value.events == run.value.events; }
  }

  lemma {:induction false} PrependStep(graphs: seq<Graph>, ops: seq<Op>, x: Tensors, i: nat)
    requires i < |ops|
    ensures var j, rest := SegmentEnd(ops, i), Prepend(graphs, CaptureFrom(ops, x, i));
      match CompatOf(ops[i])
      case NotCapturable => rest == Prepend(graphs, CaptureFrom(ops, x, j))
      case Full => rest == Prepend(graphs + [Record(ops[i..j], x, j - i)], CaptureFrom(ops, x, j))
      case Special =>
        var g := CaptureLoop(ops[i], x, i > 0 && NeedsRunner(ops[i]), HasNestedRunners(ops));
        rest == if g.None? then None else Prepend(graphs + [g.value], CaptureFrom(ops, x, j))
  {
    var j := SegmentEnd(ops, i);
    match CaptureFrom(ops, x, j)
    case None =>
    case Some(rest) =>
      forall g ensures graphs + ([g] + rest) == (graphs + [g]) + rest {}
  }

  lemma {:induction false} AfterStep(trace: seq<Event>, ops: seq<Op>, g: Graph, x: Tensors, i: nat, index: nat)
    requires i < |ops|
    ensures var j, rest := SegmentEnd(ops, i), After(trace, RunFrom(ops, g, x, i, index));
      match CompatOf(ops[i])
      case NotCapturable => rest == After(trace + EagerSeq(ops[i..j], x), RunFrom(ops, g, x, j, index))
      case Full =>
        rest == (match Select(g, index)
                 case None => None
                 case Some(sel) =>
                   if !sel.graphs[sel.current].Leaf? then None
                   else After(trace + sel.graphs[sel.current].exec, RunFrom(ops, sel, x, j, index + 1)))
      case Special =>
        rest == (match Select(g, index)
                 case None => None
                 case Some(sel) =>
                   match RunLoop(ops[i], sel.graphs[sel.current], x, i > 0 && NeedsRunner(ops[i]))
                   case None => None
                   case Some(r) =>
                     After(trace + r.events,
                           RunFrom(ops, sel.(graphs := sel.graphs[sel.current := r.graph]), x, j, index + 1)))
  {
    forall a: seq<Event>, b: seq<Event> ensures trace + (a + b) == (trace + a) + b {}
  }
}
