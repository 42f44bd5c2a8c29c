/** Small graphs that the extractor accepts and the run gets wrong, one for each condition of the theorems. */
module DynamicExamples {
  import opened Options
  import opened Graphs
  import opened BufferSpec
  import opened BufferInvariant
  import opened BufferRuns
  import opened BufferTheorems
  import opened TensorValues
  import opened SharedMemory
  import opened DynamicRegions
  import opened DynamicRun
  import opened DynamicTheorems
  import opened DynamicConverse

  const NoFlags := Stability(false, false)

  /** An environment for nodes whose results do not depend on their inputs. */
  function FixedEnv(op: (nat, seq<TensorValue>) -> seq<TensorValue>,
                    infer: (nat, seq<Shape>, seq<seq<int>>) -> seq<Shape>,
                    staticShape: TensorName -> Shape, parameter: nat -> TensorValue): Env
  {
    Env(op, infer, n => false, t => false, (t, data) => [], staticShape, parameter, n => None, n => [],
        (n, p, i) => 0 as Byte, (n, mem, i) => 0 as Byte)
  }

  lemma {:induction false} Vector(n: nat)
    ensures Elements([n]) == n
  {
    assert Elements([n][1..]) == 1;
  }

  /** The only output of node `n` gets a fresh buffer. */
  lemma {:induction false} OneFresh(g: Graph, st: State, n: nat, last: nat)
    requires n < |g| && |g[n].outputs| == 1
    ensures FreshOutputs(g, st, n, 1, last) == FreshOutput(g, st, TensorName(n, 0), last)
  {
    assert FreshOutputs(g, st, n, 0, last) == st;
  }

  lemma {:induction false} OneAlias(st: State, n: nat, id: BufferID)
    ensures AliasOutputs(st, n, 1, id) == st.(tensorNames := st.tensorNames[TensorName(n, 0) := id])
  {
    assert AliasOutputs(st, n, 0, id) == st;
  }

  lemma {:induction false} AssignsFresh(g: Graph, n: nat, st: State)
    requires WellFormed(g) && n < |g| && Assign(g, NoFlags, n) == Ok(st) && |g[n].outputs| == 1
    requires (g[n].kind.ParameterNode? && g[n].inputs == []) || g[n].kind.ComputeNode?
    ensures Assign(g, NoFlags, n + 1) == Ok(FreshOutput(g, st, TensorName(n, 0), n))
  {
    hide FreshOutputs, FreshOutput;
    OneFresh(g, st, n, n);
  }

  lemma {:induction false} AssignsAlias(g: Graph, n: nat, st: State, t: TensorName)
    requires WellFormed(g) && n < |g| && Assign(g, NoFlags, n) == Ok(st) && |g[n].outputs| == 1 && g[n].inputs == [t]
    requires g[n].kind.ResultNode? || (g[n].kind.ReshapeNode? && !g[n].dynamic)
    requires t in st.tensorNames
    ensures Assign(g, NoFlags, n + 1)
            == Ok(st.(tensorNames := st.tensorNames[TensorName(n, 0) := st.tensorNames[t]]))
  {
    hide AliasOutputs;
    OneAlias(st, n, st.tensorNames[t]);
  }

  /** The lifespan pass over a node with a single input. */
  lemma {:induction false} OneInput(g: Graph, st: State, n: nat)
    requires n < |g| && |g[n].inputs| == 1 && Upward(st.links)
    ensures ExtendNode(g, st, n, 1) == ExtendInput(g, st, n, 0)
  {
    assert ExtendNode(g, st, n, 0) == Ok(st);
  }

  function NoRequests(g: Graph): (requests: seq<Request>)
    ensures |requests| == |g|
  {
    seq(|g|, n => Request([], []))
  }

  lemma {:induction false} NoneAdded(g: Graph, st: State, n: nat)
    requires n <= |g|
    ensures AddRequests(g, st, NoRequests(g), n) == st
  {
    if n > 0 { NoneAdded(g, st, n - 1); }
  }

  /** Without workbuffers, one stored buffer can be placed anywhere it fits. */
  lemma {:induction false} OnePlace(g: Graph, st: State, place: map<BufferID, nat>, block: nat)
    requires forall r, s :: r in place && s in place ==> r == s
    requires forall r :: r in place <==> r in st.mutableBuffers && st.mutableBuffers[r].size != 0
    requires forall r :: r in place ==> r in st.mutableBuffers && place[r] + st.mutableBuffers[r].size <= block
    ensures Placement(MakePlan(g, st, NoRequests(g), place), block)
  {
    NoneAdded(g, st, |g|);
  }

  // ----- Concat(ShapeOf(a), ShapeOf(b))

  function ShapeConcat(): Graph {
    var any, one, two := TensorType(1, None), TensorType(4, Some(1)), TensorType(4, Some(2));
    [Node(ParameterNode, [], [any], true),
     Node(ParameterNode, [], [any], true),
     Node(ComputeNode, [TensorName(0, 0)], [one], true),
     Node(ComputeNode, [TensorName(1, 0)], [one], true),
     Node(ConcatNode, [TensorName(2, 0), TensorName(3, 0)], [two], false),
     Node(ResultNode, [TensorName(4, 0)], [two], false)]
  }

  function ShapeConcatOp(n: nat, inputs: seq<TensorValue>): seq<TensorValue> {
    [TensorValue([1], if n == 2 then [3, 0, 0, 0] else [5, 0, 0, 0])]
  }

  function ShapeConcatInfer(n: nat, shapes: seq<Shape>, values: seq<seq<int>>): seq<Shape> {
    [[1]]
  }

  function ShapeConcatShape(t: TensorName): Shape {
    if t.node < 4 then [1] else [2]
  }

  function ShapeConcatInput(n: nat): TensorValue {
    if n == 0 then TensorValue([3], [1, 1, 1]) else TensorValue([5], [1, 1, 1, 1, 1])
  }

  function ShapeConcatEnv(): Env {
    FixedEnv(ShapeConcatOp, ShapeConcatInfer, ShapeConcatShape, ShapeConcatInput)
  }

  lemma {:induction false} ShapeConcatOrder(g: Graph)
    requires g == ShapeConcat()
    ensures WellFormed(g) && Topological(g)
  {}

  lemma {:induction false} ShapeConcatFlags(g: Graph)
    requires g == ShapeConcat()
    ensures DynamicFlags(g)
  {
    assert Type(g, TensorName(2, 0)) == Type(g, TensorName(3, 0)) == TensorType(4, Some(1));
    assert Type(g, TensorName(4, 0)) == TensorType(4, Some(2));
  }

  lemma {:induction false} ShapeConcatTypes(g: Graph)
    requires g == ShapeConcat()
    ensures ElementTypesKept(g)
  {
    assert Type(g, TensorName(2, 0)) == Type(g, TensorName(3, 0)) == TensorType(4, Some(1));
    assert Type(g, TensorName(4, 0)) == TensorType(4, Some(2));
  }

  lemma {:induction false} ShapeConcatBytes(g: Graph)
    requires g == ShapeConcat()
    ensures BytesKept(g)
  {
    hide WellFormed, Topological, DynamicFlags;
    forall t | Exists(g, t) ensures Type(g, t).elementSize > 0 {
      assert t.port == 0;
    }
  }

  lemma {:induction false} ShapeConcatOrigins(g: Graph)
    requires g == ShapeConcat()
    ensures DistinctConcats(g) && !ConcatsApart(g)
  {
    assert g[4].inputs[0] == TensorName(2, 0) && g[4].inputs[1] == TensorName(3, 0);
    assert Source(g, TensorName(2, 0)) == TensorName(2, 0) && Source(g, TensorName(3, 0)) == TensorName(3, 0);
    assert Origin(g, g[4].inputs[0]) == TensorName(2, 0);
    assert ProducedDynamically(g, Origin(g, g[4].inputs[0]));
  }

  lemma {:induction false} ShapeConcatObserved(g: Graph, env: Env)
    requires g == ShapeConcat()
    ensures ConcatsObserved(g, env)
  {
    assert Reads(g, env, 5) && g[5].inputs[0] == TensorName(4, 0);
    assert Observed(g, env, TensorName(4, 0));
  }

  const Three: TensorValue := TensorValue([1], [3, 0, 0, 0])
  const Five: TensorValue := TensorValue([1], [5, 0, 0, 0])
  const Both: TensorValue := TensorValue([2], [3, 0, 0, 0, 5, 0, 0, 0])

  lemma {:induction false} ShapeConcatOutputs(g: Graph, env: Env)
    requires g == ShapeConcat() && env == ShapeConcatEnv() && Topological(g)
    ensures ReferenceOutputs(g, env, 0) == [ShapeConcatInput(0)] && ReferenceOutputs(g, env, 1) == [ShapeConcatInput(1)]
    ensures ReferenceOutputs(g, env, 2) == [Three] && ReferenceOutputs(g, env, 3) == [Five]
    ensures Reference(g, env, TensorName(2, 0)) == Three && Reference(g, env, TensorName(3, 0)) == Five
  {}

  lemma {:induction false} ShapeConcatMerged(g: Graph, env: Env)
    requires g == ShapeConcat() && env == ShapeConcatEnv() && Topological(g)
    ensures ReferenceOutputs(g, env, 4) == [Both]
    ensures Reference(g, env, TensorName(4, 0)) == Both && Reference(g, env, TensorName(5, 0)) == Both
  {
    ShapeConcatOutputs(g, env);
    hide Reference;
    var parts := References(g, env, 4);
    assert parts[0] == Three && parts[1] == Five;
    assert Flatten(parts, 1) == Flatten(parts, 0) + Three.data;
    assert Flatten(parts, 2) == Both.data;
    assert ReferenceOutputs(g, env, 4) == [Both];
    ShapeConcatShown(g, env);
  }

  lemma {:induction false} ShapeConcatShown(g: Graph, env: Env)
    requires g == ShapeConcat() && Topological(g) && ReferenceOutputs(g, env, 4) == [Both]
    ensures Reference(g, env, TensorName(4, 0)) == Both && Reference(g, env, TensorName(5, 0)) == Both
  {
    hide Evaluate;
    assert Reference(g, env, TensorName(4, 0)) == Both;
  }

  lemma {:induction false} ShapeConcatInputs(g: Graph, env: Env)
    requires g == ShapeConcat() && env == ShapeConcatEnv() && Topological(g)
    ensures Reference(g, env, TensorName(0, 0)) == ShapeConcatInput(0)
    ensures Reference(g, env, TensorName(1, 0)) == ShapeConcatInput(1)
  {}

  lemma {:induction false} ShapeConcatFits(g: Graph, env: Env)
    requires g == ShapeConcat() && env == ShapeConcatEnv() && Topological(g)
    ensures ValuesFit(g, env)
  {
    ShapeConcatInputs(g, env);
    ShapeConcatOutputs(g, env);
    ShapeConcatMerged(g, env);
    hide Reference, ReferenceOutputs, Elements;
    Vector(1);
    Vector(2);
    Vector(3);
    Vector(5);
    forall t | Exists(g, t) ensures Typed(g, env, t, Reference(g, env, t)) {
      assert t == TensorName(t.node, 0);
    }
    forall n | 0 <= n < |g| && !IsAlias(g[n]) ensures |ReferenceOutputs(g, env, n)| == |g[n].outputs| {
      assert n < 5;
    }
  }

  lemma {:induction false} ShapeConcatVariants(g: Graph, env: Env)
    requires g == ShapeConcat() && env == ShapeConcatEnv() && Topological(g)
    ensures VariantsFit(g, env)
  {
    hide Reference, ReferenceOutputs, Elements, MakeKey, Folded;
    ShapeConcatOutputs(g, env);
    Vector(1);
    forall n | 0 <= n < |g| && IsCached(g[n])
      ensures ReferenceVariant(g, env, n).shapes == ShapesOf(ReferenceOutputs(g, env, n)) == [[1]]
    {
      assert n == 2 || n == 3;
    }
  }

  lemma {:induction false} ShapeConcatWritten(g: Graph, env: Env)
    requires g == ShapeConcat() && env == ShapeConcatEnv() && Topological(g)
    ensures ReadsWritten(g, env)
  {
    hide Reference, ReferenceOutputs, Elements, Reads, Origin;
    ShapeConcatOutputs(g, env);
    Vector(1);
    forall d: TensorName ensures !Unwritten(g, env, d) {
      if d.node < |g| && IsCached(g[d.node]) { assert d.node == 2 || d.node == 3; }
    }
  }

  const ShapesAssigned := State(
    map[0 := Desc(0, 0, 0), 1 := Desc(1, 1, 0), 2 := Desc(2, 2, 4), 3 := Desc(3, 3, 4)],
    map[0 := 0, 1 := 0, 2 := 4, 3 := 4], map[], map[],
    map[TensorName(0, 0) := 0, TensorName(1, 0) := 1, TensorName(2, 0) := 2, TensorName(3, 0) := 3], map[], 4)

  const ShapesMerged := State(
    map[0 := Desc(0, 0, 0), 1 := Desc(1, 1, 0), 4 := Desc(2, 4, 8)],
    map[0 := 0, 1 := 0, 2 := 4, 3 := 4, 4 := 8], map[], map[],
    map[TensorName(0, 0) := 0, TensorName(1, 0) := 1, TensorName(2, 0) := 2, TensorName(3, 0) := 3,
        TensorName(4, 0) := 4],
    map[2 := Link(4, 0), 3 := Link(4, 4)], 5)

  const ShapesNamed := ShapesMerged.(tensorNames := ShapesMerged.tensorNames[TensorName(5, 0) := 4])

  lemma {:induction false} ShapeConcatAssigned(g: Graph)
    requires g == ShapeConcat() && WellFormed(g)
    ensures Assign(g, NoFlags, 4) == Ok(ShapesAssigned)
  {
    hide FreshOutput;
    var s1 := FreshOutput(g, Empty, TensorName(0, 0), 0);
    var s2 := FreshOutput(g, s1, TensorName(1, 0), 1);
    var s3 := FreshOutput(g, s2, TensorName(2, 0), 2);
    ShapeConcatFresh(g);
    assert Assign(g, NoFlags, 0) == Ok(Empty);
    AssignsFresh(g, 0, Empty);
    AssignsFresh(g, 1, s1);
    AssignsFresh(g, 2, s2);
    AssignsFresh(g, 3, s3);
  }

  lemma {:induction false} ShapeConcatFresh(g: Graph)
    requires g == ShapeConcat()
    ensures var s1 := FreshOutput(g, Empty, TensorName(0, 0), 0);
            var s2 := FreshOutput(g, s1, TensorName(1, 0), 1);
            FreshOutput(g, FreshOutput(g, s2, TensorName(2, 0), 2), TensorName(3, 0), 3) == ShapesAssigned
  {
    assert TensorBytes(g, TensorName(0, 0)) == 0 == TensorBytes(g, TensorName(1, 0));
    assert TensorBytes(g, TensorName(2, 0)) == 4 == TensorBytes(g, TensorName(3, 0));
  }

  lemma {:induction false} ShapeConcatIds(g: Graph)
    requires g == ShapeConcat()
    ensures ConcatIds(g, ShapesAssigned, 4, 2) == Ok([2, 3])
  {
    var st := ShapesAssigned;
    assert g[4].inputs[0] == TensorName(2, 0) && g[4].inputs[1] == TensorName(3, 0);
    assert st.tensorNames[TensorName(2, 0)] == 2 && st.tensorNames[TensorName(3, 0)] == 3;
    assert ConcatIds(g, st, 4, 0) == Ok([]);
    assert ConcatIds(g, st, 4, 1).Ok? && ConcatIds(g, st, 4, 1).value == [2];
    assert ConcatIds(g, st, 4, 2).Ok? && ConcatIds(g, st, 4, 2).value == [2, 3];
  }

  lemma {:induction false} ShapeConcatLinks(sizes: Sizes)
    requires sizes == ShapesAssigned.tensorSizes
    ensures PrefixSize(sizes, [2, 3], 2) == 8
    ensures LinkChildren(map[], sizes, [2, 3], 4, 2) == map[2 := Link(4, 0), 3 := Link(4, 4)]
  {
    assert PrefixSize(sizes, [2, 3], 0) == 0 && PrefixSize(sizes, [2, 3], 1) == 4;
    assert LinkChildren(map[], sizes, [2, 3], 4, 0) == map[];
    assert LinkChildren(map[], sizes, [2, 3], 4, 1) == map[2 := Link(4, 0)];
  }

  lemma {:induction false} ShapeConcatMerges(g: Graph)
    requires g == ShapeConcat()
    ensures ConcatStep(g, ShapesAssigned, 4) == Ok(ShapesMerged)
  {
    ShapeConcatIds(g);
    ShapeConcatLinks(ShapesAssigned.tensorSizes);
    assert g[4].inputs == [TensorName(2, 0), TensorName(3, 0)];
    hide ConcatIds, LinkChildren, PrefixSize;
    assert MinStart(ShapesAssigned.mutableBuffers, [2, 3], 1) == 2;
    assert Merged(ShapesAssigned.mutableBuffers, [2, 3], 4, Desc(2, 4, 8)) == ShapesMerged.mutableBuffers;
  }

  lemma {:induction false} ShapeConcatNamed(g: Graph)
    requires g == ShapeConcat() && WellFormed(g)
    ensures Assign(g, NoFlags, 6) == Ok(ShapesNamed)
  {
    hide ConcatStep, ResultStep;
    ShapeConcatAssigned(g);
    ShapeConcatMerges(g);
    ShapeConcatResult(g);
    assert Assign(g, NoFlags, 5) == Ok(ShapesMerged);
  }

  lemma {:induction false} ShapeConcatResult(g: Graph)
    requires g == ShapeConcat()
    ensures ResultStep(g, NoFlags, ShapesMerged, 5) == Ok(ShapesNamed)
  {
    hide AliasOutputs;
    OneAlias(ShapesMerged, 5, 4);
    assert g[5].inputs[0] == TensorName(4, 0) && ShapesMerged.tensorNames[TensorName(4, 0)] == 4;
  }

  const ShapesBuffers2: Buffers := map[0 := Desc(0, 2, 0), 1 := Desc(1, 1, 0), 4 := Desc(2, 4, 8)]
  const ShapesBuffers3: Buffers := map[0 := Desc(0, 2, 0), 1 := Desc(1, 3, 0), 4 := Desc(2, 4, 8)]
  const ShapesBuffers: Buffers := map[0 := Desc(0, 2, 0), 1 := Desc(1, 3, 0), 4 := Desc(2, 5, 8)]

  lemma {:induction false} ShapeConcatRoots(links: Links)
    requires links == ShapesNamed.links
    ensures Upward(links) && Root(links, 0) == 0 && Root(links, 1) == 1 && Root(links, 4) == 4
    ensures Root(links, 2) == 4 && Root(links, 3) == 4
  {
    assert links[2].parent == 4 && links[3].parent == 4;
  }

  lemma {:induction false} ShapeConcatExtends(g: Graph)
    requires g == ShapeConcat() && Upward(ShapesNamed.links)
    ensures Extend(g, ShapesNamed, 6) == Ok(ShapesNamed.(mutableBuffers := ShapesBuffers))
  {
    hide ExtendNode;
    var s3 := ShapesNamed.(mutableBuffers := ShapesBuffers2);
    var s4 := ShapesNamed.(mutableBuffers := ShapesBuffers3);
    ShapeConcatReads(g);
    ShapeConcatReadsTwo(g, s4);
    ShapeConcatIdle(g);
    assert Extend(g, ShapesNamed, 0) == Ok(ShapesNamed);
    assert Extend(g, ShapesNamed, 1) == Ok(ShapesNamed);
    assert Extend(g, ShapesNamed, 2) == Ok(ShapesNamed);
    assert Extend(g, ShapesNamed, 3) == Ok(s3);
    assert Extend(g, ShapesNamed, 4) == Ok(s4);
    assert Extend(g, ShapesNamed, 5) == Ok(s4);
  }

  lemma {:induction false} ShapeConcatReads(g: Graph)
    requires g == ShapeConcat() && Upward(ShapesNamed.links)
    ensures ExtendNode(g, ShapesNamed, 2, 1) == Ok(ShapesNamed.(mutableBuffers := ShapesBuffers2))
    ensures ExtendNode(g, ShapesNamed.(mutableBuffers := ShapesBuffers2), 3, 1)
            == Ok(ShapesNamed.(mutableBuffers := ShapesBuffers3))
    ensures ExtendNode(g, ShapesNamed.(mutableBuffers := ShapesBuffers3), 5, 1)
            == Ok(ShapesNamed.(mutableBuffers := ShapesBuffers))
  {
    hide ExtendNode, ExtendInput, Upward;
    var s3 := ShapesNamed.(mutableBuffers := ShapesBuffers2);
    var s4 := ShapesNamed.(mutableBuffers := ShapesBuffers3);
    OneInput(g, ShapesNamed, 2);
    OneInput(g, s3, 3);
    OneInput(g, s4, 5);
    ShapeConcatRead(g, ShapesNamed, 2, 0, 2);
    ShapeConcatRead(g, s3, 3, 1, 3);
    ShapeConcatRead(g, s4, 5, 4, 5);
    assert ShapesBuffers2 == ShapesNamed.mutableBuffers[0 := Desc(0, 2, 0)];
    assert ShapesBuffers3 == ShapesBuffers2[1 := Desc(1, 3, 0)];
    assert ShapesBuffers == ShapesBuffers3[4 := Desc(2, 5, 8)];
  }

  lemma {:induction false} ShapeConcatRead(g: Graph, st: State, n: nat, id: BufferID, end: nat)
    requires g == ShapeConcat() && Upward(st.links) && st == ShapesNamed.(mutableBuffers := st.mutableBuffers)
    requires (n == 2 && id == 0) || (n == 3 && id == 1) || (n == 5 && id == 4)
    requires id in st.mutableBuffers && st.mutableBuffers[id].end < n == end
    requires st.mutableBuffers[id].size == if id == 4 then 8 else 0
    ensures ExtendInput(g, st, n, 0)
            == Ok(st.(mutableBuffers := st.mutableBuffers[id := st.mutableBuffers[id].(end := end)]))
  {
    ShapeConcatRoots(st.links);
    hide Root;
    var t := g[n].inputs[0];
    assert t == TensorName(if n == 5 then 4 else n - 2, 0);
    assert t in st.tensorNames && st.tensorNames[t] == id;
  }

  lemma {:induction false} ShapeConcatIdle(g: Graph)
    requires g == ShapeConcat() && Upward(ShapesNamed.links)
    ensures ExtendNode(g, ShapesNamed, 0, 0) == Ok(ShapesNamed) && ExtendNode(g, ShapesNamed, 1, 0) == Ok(ShapesNamed)
  {}

  lemma {:induction false} ShapeConcatReadsTwo(g: Graph, st: State)
    requires g == ShapeConcat() && Upward(st.links) && st.links == ShapesNamed.links
    requires st == ShapesNamed.(mutableBuffers := ShapesBuffers3)
    ensures ExtendNode(g, st, 4, 2) == Ok(st)
  {
    ShapeConcatRoots(st.links);
    hide Root;
    assert g[4].inputs[0] == TensorName(2, 0) && g[4].inputs[1] == TensorName(3, 0);
    assert ExtendNode(g, st, 4, 0) == Ok(st);
    assert ExtendInput(g, st, 4, 0) == Ok(st);
    assert ExtendNode(g, st, 4, 1) == Ok(st);
    assert ExtendInput(g, st, 4, 1) == Ok(st);
  }

  lemma {:induction false} ShapeConcatExtracts(g: Graph)
    requires g == ShapeConcat() && WellFormed(g)
    ensures Extract(g, NoFlags) == Ok(ShapesNamed.(mutableBuffers := ShapesBuffers))
  {
    hide Extend, Assign;
    ShapeConcatNamed(g);
    ShapeConcatRoots(ShapesNamed.links);
    ShapeConcatExtends(g);
  }

  /** Two dynamic nodes whose outputs have static shapes, and the concat of both: the extractor accepts the graph, every
      operation keeps its contract, and yet in no block and at no placement does every node read its reference inputs. */
  lemma {:induction false} ShapeConcatReadsWrong(requests: seq<Request>, place: map<BufferID, nat>, block: Memory)
    ensures Runnable(ShapeConcat(), ShapeConcatEnv()) && ReadsWritten(ShapeConcat(), ShapeConcatEnv())
    ensures Extract(ShapeConcat(), NoFlags).Ok?
    ensures Placement(MakePlan(ShapeConcat(), Extract(ShapeConcat(), NoFlags).value, NoRequests(ShapeConcat()), map[4 := 0]), 8)
    ensures |requests| == 6 ==>
      var plan := MakePlan(ShapeConcat(), Extract(ShapeConcat(), NoFlags).value, requests, place);
      Placement(plan, |block|) ==>
        Ready(plan) && !forall n :: 0 <= n < 6 ==> Right(plan, ShapeConcatEnv(), block, n)
  {
    hide Placement, MakePlan, Right, ValuesFit, VariantsFit, ReadsWritten, DynamicFlags, BytesKept, Extract, DistinctConcats,
      ConcatsApart, ElementTypesKept, ConcatsObserved, RenamesKept;
    var g, env := ShapeConcat(), ShapeConcatEnv();
    ShapeConcatOrder(g);
    ShapeConcatFlags(g);
    ShapeConcatTypes(g);
    ShapeConcatBytes(g);
    ShapeConcatOrigins(g);
    ShapeConcatObserved(g, env);
    ShapeConcatFits(g, env);
    ShapeConcatVariants(g, env);
    ShapeConcatWritten(g, env);
    ShapeConcatExtracts(g);
    OnePlace(g, Extract(g, NoFlags).value, map[4 := 0], 8);
    if |requests| == 6 && Placement(MakePlan(g, Extract(g, NoFlags).value, requests, place), |block|) {
      RightOnly(g, NoFlags, env, requests, place, block);
    }
  }

  // ----- a static reshape between two dynamic nodes

  function Renamed(): Graph {
    var any, two := TensorType(1, None), TensorType(4, Some(2));
    [Node(ParameterNode, [], [any], true),
     Node(ComputeNode, [TensorName(0, 0)], [two], true),
     Node(ReshapeNode, [TensorName(1, 0)], [two], false),
     Node(ComputeNode, [TensorName(2, 0)], [any], true),
     Node(ResultNode, [TensorName(3, 0)], [any], true)]
  }

  const Pair: TensorValue := TensorValue([2], [1, 0, 0, 0, 3, 0, 0, 0])
  const Row: TensorValue := TensorValue([1, 2], [1, 0, 0, 0, 3, 0, 0, 0])
  const Triple: TensorValue := TensorValue([3], [1, 1, 1])

  function RenamedOp(n: nat, inputs: seq<TensorValue>): seq<TensorValue> {
    [if n == 1 then Pair else Triple]
  }

  function RenamedInfer(n: nat, shapes: seq<Shape>, values: seq<seq<int>>): seq<Shape> {
    [if n == 1 then [2] else [3]]
  }

  function RenamedShape(t: TensorName): Shape {
    if t.node == 1 then [2] else [1, 2]
  }

  function RenamedEnv(): Env {
    FixedEnv(RenamedOp, RenamedInfer, RenamedShape, n => Triple)
  }

  lemma {:induction false} RenamedOrder(g: Graph)
    requires g == Renamed()
    ensures WellFormed(g) && Topological(g)
  {}

  lemma {:induction false} RenamedFlags(g: Graph)
    requires g == Renamed()
    ensures DynamicFlags(g)
  {
    assert Type(g, TensorName(1, 0)) == TensorType(4, Some(2)) && Type(g, TensorName(3, 0)) == TensorType(1, None);
  }

  lemma {:induction false} RenamedTypes(g: Graph, env: Env)
    requires g == Renamed()
    ensures ElementTypesKept(g) && ConcatsObserved(g, env) && DistinctConcats(g) && ConcatsApart(g)
  {
    hide Observed, Origin, Source;
    assert Type(g, TensorName(1, 0)) == TensorType(4, Some(2)) && Type(g, TensorName(3, 0)) == TensorType(1, None);
    forall n | 0 <= n < |g| ensures !g[n].kind.ConcatNode? {}
  }

  lemma {:induction false} RenamedBytes(g: Graph)
    requires g == Renamed()
    ensures BytesKept(g)
  {
    forall t | Exists(g, t) ensures Type(g, t).elementSize > 0 {
      assert t.port == 0;
    }
  }

  /** Node 3 is dynamic and sees the reshape's input. */
  lemma {:induction false} RenamedSeen(g: Graph, env: Env)
    requires g == Renamed() && env == RenamedEnv()
    ensures !RenamesKept(g, env)
  {
    var t := TensorName(2, 0);
    assert g[3].inputs[0] == t && Source(g, TensorName(1, 0)) == TensorName(1, 0);
    assert Origin(g, t) == TensorName(1, 0) && Label(g, t) == t;
    assert env.staticShape(t) == [1, 2] && env.staticShape(TensorName(1, 0)) == [2];
    assert |[1, 2]| != |[2]|;
    assert Reads(g, env, 3) && !ShapeKept(g, env, t);
  }

  lemma {:induction false} RenamedOutputs(g: Graph, env: Env)
    requires g == Renamed() && env == RenamedEnv() && Topological(g)
    ensures ReferenceOutputs(g, env, 0) == [Triple] && ReferenceOutputs(g, env, 1) == [Pair]
    ensures ReferenceOutputs(g, env, 3) == [Triple]
    ensures Reference(g, env, TensorName(0, 0)) == Triple && Reference(g, env, TensorName(1, 0)) == Pair
    ensures Reference(g, env, TensorName(3, 0)) == Triple
  {}

  lemma {:induction false} RenamedAliases(g: Graph, env: Env)
    requires g == Renamed() && env == RenamedEnv() && Topological(g)
    ensures Reference(g, env, TensorName(2, 0)) == Row && Reference(g, env, TensorName(4, 0)) == Triple
  {
    RenamedOutputs(g, env);
  }

  lemma {:induction false} RenamedFits(g: Graph, env: Env)
    requires g == Renamed() && env == RenamedEnv() && Topological(g)
    ensures ValuesFit(g, env)
  {
    RenamedOutputs(g, env);
    RenamedAliases(g, env);
    hide Reference, ReferenceOutputs, Elements;
    Vector(2);
    Vector(3);
    RowElements();
    forall t | Exists(g, t) ensures Typed(g, env, t, Reference(g, env, t)) {
      assert t == TensorName(t.node, 0);
    }
    forall n | 0 <= n < |g| && !IsAlias(g[n]) ensures |ReferenceOutputs(g, env, n)| == |g[n].outputs| {
      assert n == 0 || n == 1 || n == 3;
    }
  }

  lemma {:induction false} RowElements()
    ensures Elements([1, 2]) == 2
  {
    assert [1, 2][1..] == [2];
    Vector(2);
  }

  lemma {:induction false} RenamedVariants(g: Graph, env: Env)
    requires g == Renamed() && env == RenamedEnv() && Topological(g)
    ensures VariantsFit(g, env)
  {
    hide Reference, ReferenceOutputs, Elements, MakeKey, Folded;
    RenamedOutputs(g, env);
    Vector(2);
    Vector(3);
    forall n | 0 <= n < |g| && IsCached(g[n])
      ensures ReferenceVariant(g, env, n).shapes == ShapesOf(ReferenceOutputs(g, env, n)) == [if n == 1 then [2] else [3]]
    {
      assert n == 1 || n == 3;
    }
  }

  lemma {:induction false} RenamedWritten(g: Graph, env: Env)
    requires g == Renamed() && env == RenamedEnv() && Topological(g)
    ensures ReadsWritten(g, env)
  {
    hide Reference, ReferenceOutputs, Elements, Reads, Origin;
    RenamedOutputs(g, env);
    Vector(2);
    Vector(3);
    forall d: TensorName ensures !Unwritten(g, env, d) {
      if d.node < |g| && IsCached(g[d.node]) { assert d.node == 1 || d.node == 3; }
    }
  }

  const RenamedNames := map[TensorName(0, 0) := 0, TensorName(1, 0) := 1, TensorName(2, 0) := 1, TensorName(3, 0) := 2,
                            TensorName(4, 0) := 2]

  const RenamedAssigned := State(
    map[0 := Desc(0, 0, 0), 1 := Desc(1, 1, 8), 2 := Desc(3, 3, 0)], map[0 := 0, 1 := 8, 2 := 0], map[], map[],
    RenamedNames, map[], 3)

  lemma {:induction false} RenamedAssigns(g: Graph)
    requires g == Renamed() && WellFormed(g)
    ensures Assign(g, NoFlags, 5) == Ok(RenamedAssigned)
  {
    hide FreshOutput;
    var s1 := FreshOutput(g, Empty, TensorName(0, 0), 0);
    var s2 := FreshOutput(g, s1, TensorName(1, 0), 1);
    var s3 := s2.(tensorNames := s2.tensorNames[TensorName(2, 0) := 1]);
    var s4 := FreshOutput(g, s3, TensorName(3, 0), 3);
    RenamedFresh(g);
    assert Assign(g, NoFlags, 0) == Ok(Empty);
    AssignsFresh(g, 0, Empty);
    AssignsFresh(g, 1, s1);
    AssignsAlias(g, 2, s2, TensorName(1, 0));
    AssignsFresh(g, 3, s3);
    AssignsAlias(g, 4, s4, TensorName(3, 0));
  }

  lemma {:induction false} RenamedFresh(g: Graph)
    requires g == Renamed()
    ensures var s1 := FreshOutput(g, Empty, TensorName(0, 0), 0);
            var s2 := FreshOutput(g, s1, TensorName(1, 0), 1);
            var s3 := s2.(tensorNames := s2.tensorNames[TensorName(2, 0) := 1]);
            var s4 := FreshOutput(g, s3, TensorName(3, 0), 3);
            && s2.tensorNames == map[TensorName(0, 0) := 0, TensorName(1, 0) := 1]
            && TensorName(3, 0) in s4.tensorNames && s4.tensorNames[TensorName(3, 0)] == 2
            && s4.(tensorNames := s4.tensorNames[TensorName(4, 0) := 2]) == RenamedAssigned
  {
    RenamedSizes(g);
    assert TensorBytes(g, TensorName(0, 0)) == 0 == TensorBytes(g, TensorName(3, 0));
  }

  const RenamedBuffers: Buffers := map[0 := Desc(0, 1, 0), 1 := Desc(1, 3, 8), 2 := Desc(3, 4, 0)]

  /** One consumer in a graph without concats. */
  lemma {:induction false} OneRead(g: Graph, st: State, n: nat, t: TensorName, id: BufferID)
    requires n < |g| && g[n].inputs == [t] && Exists(g, t) && st.links == map[] && st.immutableBuffers == map[]
    requires t in st.tensorNames && st.tensorNames[t] == id && id in st.mutableBuffers
    requires st.mutableBuffers[id].end < n && (st.mutableBuffers[id].size == 0 || st.mutableBuffers[id].size == TensorBytes(g, t))
    ensures Upward(st.links)
    ensures ExtendNode(g, st, n, 1)
            == Ok(st.(mutableBuffers := st.mutableBuffers[id := st.mutableBuffers[id].(end := n)]))
  {
    OneInput(g, st, n);
  }

  lemma {:induction false} RenamedExtends(g: Graph)
    requires g == Renamed() && Upward(RenamedAssigned.links)
    ensures Extend(g, RenamedAssigned, 5) == Ok(RenamedAssigned.(mutableBuffers := RenamedBuffers))
  {
    hide ExtendNode, TensorBytes;
    var s0 := RenamedAssigned;
    var s1 := s0.(mutableBuffers := s0.mutableBuffers[0 := Desc(0, 1, 0)]);
    var s2 := s1.(mutableBuffers := s1.mutableBuffers[1 := Desc(1, 2, 8)]);
    var s3 := s2.(mutableBuffers := s2.mutableBuffers[1 := Desc(1, 3, 8)]);
    assert s3.mutableBuffers[2 := Desc(3, 4, 0)] == RenamedBuffers;
    RenamedSizes(g);
    OneRead(g, s0, 1, TensorName(0, 0), 0);
    OneRead(g, s1, 2, TensorName(1, 0), 1);
    OneRead(g, s2, 3, TensorName(2, 0), 1);
    OneRead(g, s3, 4, TensorName(3, 0), 2);
    NoInputs(g, s0, 0);
    assert Extend(g, s0, 0) == Ok(s0);
    assert Extend(g, s0, 1) == Ok(s0);
    assert Extend(g, s0, 2) == Ok(s1);
    assert Extend(g, s0, 3) == Ok(s2);
    assert Extend(g, s0, 4) == Ok(s3);
  }

  lemma {:induction false} RenamedSizes(g: Graph)
    requires g == Renamed()
    ensures TensorBytes(g, TensorName(1, 0)) == 8 && TensorBytes(g, TensorName(2, 0)) == 8
  {}

  lemma {:induction false} NoInputs(g: Graph, st: State, n: nat)
    requires n < |g| && Upward(st.links)
    ensures ExtendNode(g, st, n, 0) == Ok(st)
  {}

  lemma {:induction false} RenamedExtracts(g: Graph)
    requires g == Renamed() && WellFormed(g)
    ensures Extract(g, NoFlags) == Ok(RenamedAssigned.(mutableBuffers := RenamedBuffers))
  {
    hide Extend, Assign;
    RenamedAssigns(g);
    RenamedExtends(g);
  }

  /** A static reshape of a dynamic node's output, read by a dynamic node: accepted, and never read right. */
  lemma {:induction false} RenamedReadsWrong(requests: seq<Request>, place: map<BufferID, nat>, block: Memory)
    ensures Runnable(Renamed(), RenamedEnv()) && ConcatsApart(Renamed()) && ReadsWritten(Renamed(), RenamedEnv())
    ensures Extract(Renamed(), NoFlags).Ok?
    ensures Placement(MakePlan(Renamed(), Extract(Renamed(), NoFlags).value, NoRequests(Renamed()), map[1 := 0]), 8)
    ensures |requests| == 5 ==>
      var plan := MakePlan(Renamed(), Extract(Renamed(), NoFlags).value, requests, place);
      Placement(plan, |block|) ==> Ready(plan) && !forall n :: 0 <= n < 5 ==> Right(plan, RenamedEnv(), block, n)
  {
    hide Placement, MakePlan, Right, ValuesFit, VariantsFit, ReadsWritten, DynamicFlags, BytesKept, Extract, DistinctConcats,
      ConcatsApart, ElementTypesKept, ConcatsObserved, RenamesKept;
    var g, env := Renamed(), RenamedEnv();
    RenamedOrder(g);
    RenamedFlags(g);
    RenamedTypes(g, env);
    RenamedBytes(g);
    RenamedSeen(g, env);
    RenamedFits(g, env);
    RenamedVariants(g, env);
    RenamedWritten(g, env);
    RenamedExtracts(g);
    OnePlace(g, Extract(g, NoFlags).value, map[1 := 0], 8);
    if |requests| == 5 && Placement(MakePlan(g, Extract(g, NoFlags).value, requests, place), |block|) {
      RightOnly(g, NoFlags, env, requests, place, block);
    }
  }

  // ----- empty and non-empty outputs of one node

  function Split(): Graph {
    var any := TensorType(1, None);
    [Node(ParameterNode, [], [any], true),
     Node(ComputeNode, [TensorName(0, 0)], [any, any], true),
     Node(ResultNode, [TensorName(1, 1)], [any], true)]
  }

  const Nothing: TensorValue := TensorValue([0], [])
  const Nine: TensorValue := TensorValue([1], [9])

  function SplitOp(n: nat, inputs: seq<TensorValue>): seq<TensorValue> {
    [Nothing, Nine]
  }

  function SplitInfer(n: nat, shapes: seq<Shape>, values: seq<seq<int>>): seq<Shape> {
    [[0], [1]]
  }

  function SplitEnv(): Env {
    FixedEnv(SplitOp, SplitInfer, t => [1], n => Nine)
  }

  lemma {:induction false} SplitGood(g: Graph)
    requires g == Split()
    ensures WellFormed(g) && Topological(g) && DynamicFlags(g)
  {
    assert Type(g, TensorName(1, 1)) == TensorType(1, None);
  }

  lemma {:induction false} SplitApart(g: Graph, env: Env)
    requires g == Split() && env == SplitEnv()
    ensures BytesKept(g) && DistinctConcats(g) && ConcatsApart(g) && RenamesKept(g, env)
  {
    forall t | Exists(g, t) ensures Type(g, t).elementSize > 0 && TensorBytes(g, t) == 0 {
      assert t.port < 2;
    }
    forall n | 0 <= n < |g| ensures !g[n].kind.ConcatNode? {}
    assert g[1].inputs[0] == TensorName(0, 0) && g[2].inputs[0] == TensorName(1, 1);
    forall t | t == TensorName(0, 0) || t == TensorName(1, 1) ensures ShapeKept(g, env, t) {
      assert Source(g, t) == t;
    }
  }

  lemma {:induction false} SplitOutputs(g: Graph, env: Env)
    requires g == Split() && env == SplitEnv() && Topological(g)
    ensures ReferenceOutputs(g, env, 0) == [Nine] && ReferenceOutputs(g, env, 1) == [Nothing, Nine]
    ensures Reference(g, env, TensorName(0, 0)) == Nine && Reference(g, env, TensorName(1, 0)) == Nothing
    ensures Reference(g, env, TensorName(1, 1)) == Nine && Reference(g, env, TensorName(2, 0)) == Nine
  {}

  lemma {:induction false} SplitFits(g: Graph, env: Env)
    requires g == Split() && env == SplitEnv() && Topological(g)
    ensures ValuesFit(g, env)
  {
    SplitOutputs(g, env);
    hide Reference, ReferenceOutputs, Elements;
    Vector(0);
    Vector(1);
    forall t | Exists(g, t) ensures Typed(g, env, t, Reference(g, env, t)) {
      assert t == TensorName(0, 0) || t == TensorName(1, 0) || t == TensorName(1, 1) || t == TensorName(2, 0);
    }
    forall n | 0 <= n < |g| && !IsAlias(g[n]) ensures |ReferenceOutputs(g, env, n)| == |g[n].outputs| {
      assert n == 0 || n == 1;
    }
  }

  /** The one variant: its empty output makes it a null operation. */
  lemma {:induction false} SplitVariant(g: Graph, env: Env)
    requires g == Split() && env == SplitEnv() && Topological(g)
    ensures ReferenceVariant(g, env, 1) == Variant([[0], [1]], [1, 1], true)
    ensures VariantsFit(g, env) && Mixed(ShapesOf(ReferenceOutputs(g, env, 1)))
  {
    hide Reference, ReferenceOutputs, Elements, MakeKey, Folded, ReferenceVariant, HasEmpty, Mixed;
    SplitBuilds(g, env);
    SplitMixed(g, env);
    forall n | 0 <= n < |g| && IsCached(g[n])
      ensures ReferenceVariant(g, env, n).shapes == ShapesOf(ReferenceOutputs(g, env, n))
    {
      assert n == 1;
    }
    assert IsCached(g[1]);
  }

  lemma {:induction false} SplitUnwritten(g: Graph, env: Env)
    requires g == Split() && env == SplitEnv() && Topological(g)
    ensures !ReadsWritten(g, env)
  {
    hide Reference, ReferenceOutputs, Elements;
    SplitOutputs(g, env);
    SplitMixed(g, env);
    assert g[2].inputs[0] == TensorName(1, 1) && Source(g, TensorName(1, 1)) == TensorName(1, 1);
    assert Reads(g, env, 2) && Unwritten(g, env, Origin(g, g[2].inputs[0]));
  }

  lemma {:induction false} SplitBuilds(g: Graph, env: Env)
    requires g == Split() && env == SplitEnv() && Topological(g)
    ensures ReferenceVariant(g, env, 1) == Variant([[0], [1]], [1, 1], true)
  {
    hide Reference, ReferenceOutputs, Elements, MakeKey, Folded;
    Vector(0);
    Vector(1);
    var v := ReferenceVariant(g, env, 1);
    assert v.shapes == [[0], [1]];
    assert Type(g, TensorName(1, 0)) == TensorType(1, None) == Type(g, TensorName(1, 1));
    assert v.sizes == [1, 1];
    assert Elements(v.shapes[0]) == 0 && Elements(v.shapes[1]) == 1;
    assert HasEmpty(v.shapes);
  }

  lemma {:induction false} SplitMixed(g: Graph, env: Env)
    requires g == Split() && env == SplitEnv() && Topological(g)
    ensures ShapesOf(ReferenceOutputs(g, env, 1)) == [[0], [1]] && Mixed(ShapesOf(ReferenceOutputs(g, env, 1)))
  {
    hide Reference, ReferenceOutputs, Elements;
    SplitOutputs(g, env);
    Vector(0);
    Vector(1);
    var shapes := ShapesOf(ReferenceOutputs(g, env, 1));
    assert shapes == [[0], [1]];
    assert Elements(shapes[0]) == 0 && Elements(shapes[1]) == 1;
  }

  const SplitState := State(
    map[0 := Desc(0, 1, 0), 1 := Desc(1, 1, 0), 2 := Desc(1, 2, 0)], map[0 := 0, 1 := 0, 2 := 0], map[], map[],
    map[TensorName(0, 0) := 0, TensorName(1, 0) := 1, TensorName(1, 1) := 2, TensorName(2, 0) := 2], map[], 3)

  lemma {:induction false} SplitAssigns(g: Graph)
    requires g == Split() && WellFormed(g)
    ensures Assign(g, NoFlags, 3)
            == Ok(SplitState.(mutableBuffers := map[0 := Desc(0, 0, 0), 1 := Desc(1, 1, 0), 2 := Desc(1, 1, 0)]))
  {
    hide FreshOutput;
    var s1 := FreshOutput(g, Empty, TensorName(0, 0), 0);
    var s2 := FreshOutput(g, FreshOutput(g, s1, TensorName(1, 0), 1), TensorName(1, 1), 1);
    assert Assign(g, NoFlags, 0) == Ok(Empty);
    AssignsFresh(g, 0, Empty);
    TwoFresh(g, s1);
    SplitFresh(g);
    assert Assign(g, NoFlags, 2) == Ok(s2);
    AssignsAlias(g, 2, s2, TensorName(1, 1));
  }

  lemma {:induction false} TwoFresh(g: Graph, st: State)
    requires g == Split()
    ensures FreshOutputs(g, st, 1, 2, 1) == FreshOutput(g, FreshOutput(g, st, TensorName(1, 0), 1), TensorName(1, 1), 1)
  {
    assert FreshOutputs(g, st, 1, 0, 1) == st;
    assert FreshOutputs(g, st, 1, 1, 1) == FreshOutput(g, st, TensorName(1, 0), 1);
  }

  lemma {:induction false} SplitFresh(g: Graph)
    requires g == Split()
    ensures var s1 := FreshOutput(g, Empty, TensorName(0, 0), 0);
            var s2 := FreshOutput(g, FreshOutput(g, s1, TensorName(1, 0), 1), TensorName(1, 1), 1);
            && TensorName(1, 1) in s2.tensorNames && s2.tensorNames[TensorName(1, 1)] == 2
            && s2.(tensorNames := s2.tensorNames[TensorName(2, 0) := 2])
               == SplitState.(mutableBuffers := map[0 := Desc(0, 0, 0), 1 := Desc(1, 1, 0), 2 := Desc(1, 1, 0)])
  {
    assert TensorBytes(g, TensorName(0, 0)) == TensorBytes(g, TensorName(1, 0)) == TensorBytes(g, TensorName(1, 1)) == 0;
  }

  lemma {:induction false} SplitExtends(g: Graph)
    requires g == Split() && Upward(SplitState.links)
    ensures Extend(g, SplitState.(mutableBuffers := map[0 := Desc(0, 0, 0), 1 := Desc(1, 1, 0), 2 := Desc(1, 1, 0)]), 3)
            == Ok(SplitState)
  {
    hide ExtendNode, TensorBytes;
    var s0 := SplitState.(mutableBuffers := map[0 := Desc(0, 0, 0), 1 := Desc(1, 1, 0), 2 := Desc(1, 1, 0)]);
    var s1 := s0.(mutableBuffers := s0.mutableBuffers[0 := Desc(0, 1, 0)]);
    assert s1.mutableBuffers[2 := Desc(1, 2, 0)] == SplitState.mutableBuffers;
    OneRead(g, s0, 1, TensorName(0, 0), 0);
    OneRead(g, s1, 2, TensorName(1, 1), 2);
    NoInputs(g, s0, 0);
    assert Extend(g, s0, 0) == Ok(s0);
    assert Extend(g, s0, 1) == Ok(s0);
    assert Extend(g, s0, 2) == Ok(s1);
  }

  lemma {:induction false} SplitExtracts(g: Graph)
    requires g == Split() && WellFormed(g)
    ensures Extract(g, NoFlags) == Ok(SplitState)
  {
    hide Extend, Assign;
    SplitAssigns(g);
    SplitExtends(g);
  }

  lemma {:induction false} SplitRoots(t: TensorName)
    requires t in SplitState.tensorNames
    ensures Upward(SplitState.links) && RootOf(SplitState, t) == SplitState.tensorNames[t]
  {}

  /** The second output is registered as it was allocated. */
  lemma {:induction false} SplitRegisters(plan: Plan, env: Env, c: Ctx)
    requires plan.g == Split() && env == SplitEnv() && plan.st == SplitState && Ready(plan) && Topological(plan.g)
    requires WorkAdded(plan) && ReadsRight(plan, env, c, 1) && RunDynamic(plan, env, c, 1).Some?
    ensures var c' := RunDynamic(plan, env, c, 1).value;
            2 in c'.allocations && c'.allocations[2] == [0] && 2 in c'.shapes && c'.shapes[2] == [1]
  {
    hide ReadsRight, Reference, ReadInputs, FirstPointer, ReferenceVariant, RegisterOutputs, MakeKey, CreateVariant, RootOf;
    var inputs, v, first := References(plan.g, env, 1), ReferenceVariant(plan.g, env, 1), FirstPointer(plan, c, 1);
    assert inputs[..1] == inputs;
    ReadsReferences(plan, env, c, 1, 1);
    ReferenceVariantIs(plan.g, env, 1);
    SplitVariant(plan.g, env);
    var mid := RegisterOutputs(plan, env, c, 1, inputs, first, v, 2);
    SplitSecond(plan, env, c, inputs, first, v);
    assert plan.buffers[2] == Desc(1, 2, 0);
    assert 2 !in ReleaseSet(plan.buffers, 1);
  }

  lemma {:induction false} SplitSecond(plan: Plan, env: Env, c: Ctx, inputs: seq<TensorValue>, first: seq<Byte>, v: Variant)
    requires plan.g == Split() && env == SplitEnv() && plan.st == SplitState && Ready(plan)
    requires v == Variant([[0], [1]], [1, 1], true)
    ensures var mid := RegisterOutputs(plan, env, c, 1, inputs, first, v, 2);
            2 in mid.allocations && mid.allocations[2] == [0] && 2 in mid.shapes && mid.shapes[2] == [1]
  {
    hide RootOf;
    SplitRoots(TensorName(1, 1));
    assert OutputRoot(plan, 1, 1) == 2;
    assert CachedOutput(plan.g, env, 1, inputs, first, v, 1) == [0];
  }

  lemma {:induction false} SplitReads(plan: Plan, env: Env, c: Ctx)
    requires plan.g == Split() && env == SplitEnv() && plan.st == SplitState && Ready(plan) && Topological(plan.g)
    requires 2 in c.allocations && c.allocations[2] == [0] && 2 in c.shapes && c.shapes[2] == [1]
    ensures !ReadsRight(plan, env, c, 2)
  {
    hide Reference, RootOf;
    SplitOutputs(plan.g, env);
    SplitRoots(TensorName(1, 1));
    Vector(1);
    assert plan.g[2].inputs[0] == TensorName(1, 1);
    FromStart(c.allocations[2]);
    assert [0 as Byte][..1] == [0];
    assert Nine.data[0] == 9;
    assert ReadInput(plan, env, c, 2, 0) == Some(TensorValue([1], [0]));
  }

  lemma {:induction false} SplitGoesWrong(plan: Plan, env: Env, block: Memory)
    requires plan.g == Split() && env == SplitEnv() && plan.st == SplitState && Ready(plan) && Topological(plan.g)
    requires WorkAdded(plan) && Right(plan, env, block, 0) && Right(plan, env, block, 1)
    ensures !Right(plan, env, block, 2)
  {
    hide ReadsRight, RunDynamic, WorkAdded, Reference;
    assert plan.g[1].dynamic && Reads(plan.g, env, 1) && Reads(plan.g, env, 2);
    if Run(plan, env, block, 2).Some? {
      SplitRegisters(plan, env, Run(plan, env, block, 1).value);
      SplitReads(plan, env, Run(plan, env, block, 2).value);
    }
  }

  /** A node that computes one empty and one non-empty output: accepted, and its reader finds what fresh memory held. */
  lemma {:induction false} SplitReadsWrong(requests: seq<Request>, place: map<BufferID, nat>, block: Memory)
    ensures var g, env := Split(), SplitEnv();
            && Runnable(g, env) && ConcatsApart(g) && RenamesKept(g, env) && !ReadsWritten(g, env)
            && Extract(g, NoFlags).Ok?
            && Placement(MakePlan(g, Extract(g, NoFlags).value, NoRequests(g), map[]), 0)
    ensures |requests| == 3 ==>
      var plan := MakePlan(Split(), Extract(Split(), NoFlags).value, requests, place);
      Placement(plan, |block|) ==> Ready(plan) && !forall n :: 0 <= n < 3 ==> Right(plan, SplitEnv(), block, n)
  {
    hide Placement, MakePlan, Right, ValuesFit, VariantsFit, ReadsWritten, DynamicFlags, BytesKept, Extract, DistinctConcats,
      ConcatsApart, RenamesKept;
    var g, env := Split(), SplitEnv();
    SplitGood(g);
    SplitApart(g, env);
    SplitFits(g, env);
    SplitVariant(g, env);
    SplitUnwritten(g, env);
    SplitExtracts(g);
    OnePlace(g, SplitState, map[], 0);
    if |requests| == 3 && Placement(MakePlan(g, SplitState, requests, place), |block|) {
      SplitNeverRight(g, requests, place, block);
    }
  }

  lemma {:induction false} SplitNeverRight(g: Graph, requests: seq<Request>, place: map<BufferID, nat>, block: Memory)
    requires g == Split() && WellFormed(g) && Topological(g) && DistinctConcats(g) && Extract(g, NoFlags) == Ok(SplitState)
    requires |requests| == |g|
    ensures var plan := MakePlan(g, SplitState, requests, place);
            Ready(plan) && !forall n :: 0 <= n < 3 ==> Right(plan, SplitEnv(), block, n)
  {
    hide Right, Extract, WorkAdded, AddRequests, WorkIds, Final;
    var plan := MakePlan(g, SplitState, requests, place);
    SplitFinal(g);
    PlanWork(g, SplitState, requests, place);
    SplitRoots(TensorName(0, 0));
    SplitPlanWrong(plan, block);
  }

  lemma {:induction false} SplitPlanWrong(plan: Plan, block: Memory)
    requires plan.g == Split() && plan.st == SplitState && Ready(plan) && Topological(plan.g) && WorkAdded(plan)
    ensures !forall n :: 0 <= n < 3 ==> Right(plan, SplitEnv(), block, n)
  {
    hide Right, WorkAdded;
    if Right(plan, SplitEnv(), block, 0) && Right(plan, SplitEnv(), block, 1) {
      SplitGoesWrong(plan, SplitEnv(), block);
    }
    assert |plan.g| == 3;
  }

  lemma {:induction false} SplitFinal(g: Graph)
    requires g == Split() && WellFormed(g) && Topological(g) && DistinctConcats(g) && Extract(g, NoFlags) == Ok(SplitState)
    ensures Final(g, SplitState)
  {
    hide Extract, Final, DistinctConcats;
    ExtractExtracted(g, NoFlags);
    ExtractedFinal(g, SplitState);
  }
}
