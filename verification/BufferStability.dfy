/** What the stability flags add to the lifespans, and what a later merge takes away again. */
module BufferStability {
  import opened Graphs
  import opened BufferSpec
  import opened BufferInvariant
  import opened BufferRuns
  import opened BufferTheorems
  import opened BufferLayout

  // ----- which lifespans are pinned past the end of the graph

  predicate ParameterOutput(g: Graph, t: TensorName) {
    Exists(g, t) && g[t.node].kind.ParameterNode? && g[t.node].inputs == []
  }

  predicate Sink(g: Graph, n: nat) {
    n < |g| && (g[n].kind.ResultNode? || g[n].kind.AssignNode?) && |g[n].inputs| > 0
  }

  /** Among the first `n` nodes, a stable parameter owns `r` or a stable result reads the tensor that owns it. */
  ghost predicate Pins(g: Graph, stable: Stability, names: Names, n: nat, r: BufferID) {
    || (stable.params && exists t :: t in names && t.node < n && ParameterOutput(g, t) && names[t] == r)
    || (stable.results && exists m: nat :: m < n && SinkReads(g, names, m, r))
  }

  predicate SinkReads(g: Graph, names: Names, m: nat, r: BufferID) {
    Sink(g, m) && g[m].inputs[0] in names && names[g[m].inputs[0]] == r
  }

  /** What one step does to lifespan ends: an old buffer keeps its end unless a stable result pins it, a new one ends at
      the step's node unless it belongs to a stable parameter. */
  ghost predicate EndsStep(g: Graph, stable: Stability, st: State, st': State, n: nat) {
    && st.next <= st'.next
    && (forall r :: r in st'.mutableBuffers ==>
          var end := st'.mutableBuffers[r].end;
          if r < st.next then
            r in st.mutableBuffers
            && end == (if stable.results && SinkReads(g, st.tensorNames, n, r) then |g| else st.mutableBuffers[r].end)
          else
            r < st'.next
            && end == (if stable.params && n < |g| && g[n].kind.ParameterNode? then |g| else n)
            && (n < |g| && g[n].kind.ParameterNode? ==>
                  exists t :: t in st'.tensorNames && t.node == n && ParameterOutput(g, t) && st'.tensorNames[t] == r))
    && (forall t :: t in st'.tensorNames && t.node == n && ParameterOutput(g, t) ==> st.next <= st'.tensorNames[t])
  }

  ghost predicate BuffersKnown(st: State) {
    forall r :: r in st.mutableBuffers ==> r < st.next
  }

  /** `ports` fresh outputs of node `n`, all ending at `last`. */
  lemma {:induction false} FreshEnds(g: Graph, st: State, n: nat, ports: nat, last: nat)
    requires n < |g| && ports <= |g[n].outputs| && BuffersKnown(st) && forall p :: TensorName(n, p) !in st.tensorNames
    ensures var st' := FreshOutputs(g, st, n, ports, last);
            && st.next <= st'.next && BuffersKnown(st')
            && (forall r :: r in st'.mutableBuffers && r < st.next ==>
                  r in st.mutableBuffers && st'.mutableBuffers[r] == st.mutableBuffers[r])
            && (forall r :: r in st'.mutableBuffers && st.next <= r ==>
                  && st'.mutableBuffers[r].end == last
                  && exists p: nat :: p < ports && TensorName(n, p) in st'.tensorNames && st'.tensorNames[TensorName(n, p)] == r)
            && (forall p: nat :: TensorName(n, p) in st'.tensorNames ==> p < ports && st.next <= st'.tensorNames[TensorName(n, p)])
  {
    hide Basic;
    if ports > 0 {
      FreshEnds(g, st, n, ports - 1, last);
      var s := FreshOutputs(g, st, n, ports - 1, last);
      var st' := FreshOutputs(g, st, n, ports, last);
      assert TensorName(n, ports - 1) in st'.tensorNames && st'.tensorNames[TensorName(n, ports - 1)] == s.next;
      forall r | r in st'.mutableBuffers && st.next <= r
        ensures exists p: nat :: p < ports && TensorName(n, p) in st'.tensorNames && st'.tensorNames[TensorName(n, p)] == r
      {
        if r != s.next {
          var p: nat :| p < ports - 1 && TensorName(n, p) in s.tensorNames && s.tensorNames[TensorName(n, p)] == r;
          assert TensorName(n, p) in st'.tensorNames && st'.tensorNames[TensorName(n, p)] == r;
        }
      }
    }
  }

  lemma {:induction false} ConcatEnds(g: Graph, stable: Stability, st: State, n: nat)
    requires n < |g| && |g[n].outputs| > 0 && g[n].kind.ConcatNode? && BuffersKnown(st) && ConcatStep(g, st, n).Ok?
    ensures EndsStep(g, stable, st, ConcatStep(g, st, n).value, n) && BuffersKnown(ConcatStep(g, st, n).value)
  {
    hide PrefixSize, LinkChildren, MinStart, ConcatIds;
  }

  lemma {:induction false} ParameterEnds(g: Graph, stable: Stability, st: State, n: nat)
    requires n < |g| && g[n].kind.ParameterNode? && g[n].inputs == [] && BuffersKnown(st)
    requires forall p :: TensorName(n, p) !in st.tensorNames
    ensures var st' := FreshOutputs(g, st, n, |g[n].outputs|, if stable.params then |g| else n);
            EndsStep(g, stable, st, st', n) && BuffersKnown(st')
  {
    hide FreshOutputs;
    var last := if stable.params then |g| else n;
    var st' := FreshOutputs(g, st, n, |g[n].outputs|, last);
    FreshEnds(g, st, n, |g[n].outputs|, last);
    forall r | r in st'.mutableBuffers && st.next <= r
      ensures exists t :: t in st'.tensorNames && t.node == n && ParameterOutput(g, t) && st'.tensorNames[t] == r
    {
      var p: nat :| p < |g[n].outputs| && TensorName(n, p) in st'.tensorNames && st'.tensorNames[TensorName(n, p)] == r;
      assert ParameterOutput(g, TensorName(n, p));
    }
    forall t | t in st'.tensorNames && t.node == n ensures st.next <= st'.tensorNames[t] {
      assert t == TensorName(n, t.port);
    }
  }

  lemma {:induction false} OtherFreshEnds(g: Graph, stable: Stability, st: State, n: nat)
    requires n < |g| && !g[n].kind.ParameterNode? && !Sink(g, n) && BuffersKnown(st)
    requires forall p :: TensorName(n, p) !in st.tensorNames
    ensures var st' := FreshOutputs(g, st, n, |g[n].outputs|, n);
            EndsStep(g, stable, st, st', n) && BuffersKnown(st')
  {
    hide FreshOutputs;
    FreshEnds(g, st, n, |g[n].outputs|, n);
  }

  lemma {:induction false} AliasEnds(g: Graph, stable: Stability, st: State, n: nat, ports: nat, id: BufferID)
    requires n < |g| && BuffersKnown(st) && !Sink(g, n) && (g[n].kind.ParameterNode? ==> g[n].inputs != [])
    ensures EndsStep(g, stable, st, AliasOutputs(st, n, ports, id), n) && BuffersKnown(AliasOutputs(st, n, ports, id))
  {}

  lemma {:induction false} ResultEnds(g: Graph, stable: Stability, st: State, n: nat)
    requires Sink(g, n) && BuffersKnown(st) && ResultStep(g, stable, st, n).Ok?
    ensures EndsStep(g, stable, st, ResultStep(g, stable, st, n).value, n) && BuffersKnown(ResultStep(g, stable, st, n).value)
  {
    hide Basic;
  }

  lemma {:induction false} StepEnds(g: Graph, stable: Stability, st: State, n: nat)
    requires WellFormed(g) && n < |g| && BuffersKnown(st) && Step(g, stable, st, n).Ok?
    requires forall p :: TensorName(n, p) !in st.tensorNames
    ensures EndsStep(g, stable, st, Step(g, stable, st, n).value, n) && BuffersKnown(Step(g, stable, st, n).value)
  {
    hide ConcatStep, ResultStep, FreshOutputs, AliasOutputs, Basic, EndsStep;
    assert WellFormedNode(g[n]);
    match g[n].kind {
      case ParameterNode =>
        if |g[n].inputs| > 0 { AliasEnds(g, stable, st, n, |g[n].outputs|, st.tensorNames[g[n].inputs[0]]); }
        else { ParameterEnds(g, stable, st, n); }
      case ResultNode => ResultEnds(g, stable, st, n);
      case AssignNode => ResultEnds(g, stable, st, n);
      case ConstantNode(_) => ConstantEnds(g, stable, st, n);
      case ConcatNode => ConcatEnds(g, stable, st, n);
      case ReshapeNode =>
        if g[n].dynamic { OtherFreshEnds(g, stable, st, n); }
        else { AliasEnds(g, stable, st, n, 1, st.tensorNames[g[n].inputs[0]]); }
      case ReadValueNode => OtherFreshEnds(g, stable, st, n);
      case ComputeNode => OtherFreshEnds(g, stable, st, n);
    }
  }

  lemma {:induction false} ConstantEnds(g: Graph, stable: Stability, st: State, n: nat)
    requires n < |g| && g[n].kind.ConstantNode? && BuffersKnown(st)
    ensures EndsStep(g, stable, st, ConstantStep(g, st, n), n) && BuffersKnown(ConstantStep(g, st, n))
  {}

  lemma {:induction false} AssignKnown(g: Graph, stable: Stability, n: nat)
    requires WellFormed(g) && n <= |g| && Assign(g, stable, n).Ok?
    ensures BuffersKnown(Assign(g, stable, n).value) && forall p :: TensorName(n, p) !in Assign(g, stable, n).value.tensorNames
  {
    hide Step, EndsStep;
    AssignGrows(g, stable, n, n);
    if n > 0 {
      AssignKnown(g, stable, n - 1);
      StepEnds(g, stable, Assign(g, stable, n - 1).value, n - 1);
    }
  }

  // ----- both ends of every lifespan are exact

  /** After `n` nodes the pinned buffers, and no others, end past the graph. */
  ghost predicate EndsExact(g: Graph, stable: Stability, st: State, n: nat) {
    forall r :: r in st.mutableBuffers ==>
      if Pins(g, stable, st.tensorNames, n, r) then st.mutableBuffers[r].end == |g| else st.mutableBuffers[r].end < n
  }

  /** One more node pins what it says it pins. */
  lemma {:induction false} PinsNext(g: Graph, stable: Stability, names: Names, names': Names, n: nat, r: BufferID)
    requires Topological(g) && n < |g|
    requires forall t :: t in names <==> t in names' && t.node < n
    requires forall t :: t in names ==> names'[t] == names[t]
    ensures Pins(g, stable, names', n + 1, r) <==>
            || Pins(g, stable, names, n, r)
            || (stable.params && exists t :: t in names' && t.node == n && ParameterOutput(g, t) && names'[t] == r)
            || (stable.results && SinkReads(g, names, n, r))
  {
    forall m: nat | m <= n ensures SinkReads(g, names', m, r) <==> SinkReads(g, names, m, r) {}
    if stable.results && exists m: nat :: m < n + 1 && SinkReads(g, names', m, r) {
      var m: nat :| m < n + 1 && SinkReads(g, names', m, r);
      assert SinkReads(g, names, m, r);
    }
  }

  lemma {:induction false} NamesBounded(g: Graph, stable: Stability, names: Names, bound: BufferID, n: nat, r: BufferID)
    requires bound <= r && forall t :: t in names ==> names[t] < bound
    ensures !Pins(g, stable, names, n, r)
  {}

  lemma {:induction false} EndsNext(g: Graph, stable: Stability, st: State, st': State, n: nat)
    requires Topological(g) && n < |g| && EndsExact(g, stable, st, n) && EndsStep(g, stable, st, st', n)
    requires forall t :: t in st.tensorNames <==> t in st'.tensorNames && t.node < n
    requires forall t :: t in st.tensorNames ==> st'.tensorNames[t] == st.tensorNames[t] < st.next
    ensures EndsExact(g, stable, st', n + 1)
  {
    hide Pins;
    forall r | r in st'.mutableBuffers
      ensures if Pins(g, stable, st'.tensorNames, n + 1, r) then st'.mutableBuffers[r].end == |g|
              else st'.mutableBuffers[r].end < n + 1
    {
      PinsNext(g, stable, st.tensorNames, st'.tensorNames, n, r);
      if st.next <= r { NamesBounded(g, stable, st.tensorNames, st.next, n, r); }
    }
  }

  lemma {:induction false} AssignEndsExact(g: Graph, stable: Stability, n: nat)
    requires WellFormed(g) && Topological(g) && n <= |g| && DistinctConcats(g) && Assign(g, stable, n).Ok?
    ensures EndsExact(g, stable, Assign(g, stable, n).value, n)
  {
    hide Step, EndsStep, EndsExact, Pins, ParameterOutput;
    if n == 0 {
      NothingPinned(g, stable);
    } else {
      AssignEndsExact(g, stable, n - 1);
      var st, st' := Assign(g, stable, n - 1).value, Assign(g, stable, n).value;
      AssignKnown(g, stable, n - 1);
      StepEnds(g, stable, st, n - 1);
      AssignNames(g, stable, n - 1);
      AssignNames(g, stable, n);
      AssignGrows(g, stable, n - 1, n);
      EndsNext(g, stable, st, st', n - 1);
    }
  }

  lemma {:induction false} NothingPinned(g: Graph, stable: Stability)
    ensures EndsExact(g, stable, Empty, 0)
  {}

  lemma {:induction false} AssignNames(g: Graph, stable: Stability, n: nat)
    requires WellFormed(g) && n <= |g| && DistinctConcats(g) && Assign(g, stable, n).Ok?
    ensures forall t :: t in Assign(g, stable, n).value.tensorNames <==> Exists(g, t) && t.node < n
    ensures forall t :: t in Assign(g, stable, n).value.tensorNames ==>
      Assign(g, stable, n).value.tensorNames[t] < Assign(g, stable, n).value.next
  {
    hide Assign, AliasesFollow, Ordered, ParentsKnown, Placed, Packed, Sized, OnlyConcatsContain, BuffersSized, Rooted,
      Classified, Spanned, Tight, ConstantsKept;
    AssignInv(g, stable, n);
  }

  /** `r`'s lifespan is the hull of the nodes that touch it, unless a stable parameter or result pins its end. */
  ghost predicate Hull(g: Graph, stable: Stability, st: State, r: BufferID)
    requires Upward(st.links) && r in st.mutableBuffers
  {
    var d := st.mutableBuffers[r];
    && Touches(g, st, d.start, r)
    && (if Pins(g, stable, st.tensorNames, |g|, r) then d.end == |g| else d.end < |g| && Touches(g, st, d.end, r))
    && (forall n: nat :: Touches(g, st, n, r) ==> d.start <= n <= d.end)
  }

  lemma {:induction false} PinnedSurvive(g: Graph, before: State, st: State, r: BufferID)
    requires Upward(before.links) && Extended(g, before, st, |g|, 0) && r in st.mutableBuffers
    requires before.mutableBuffers[r].end >= |g|
    ensures st.mutableBuffers[r].end == before.mutableBuffers[r].end
  {
    hide Reached;
  }

  lemma {:induction false} EndsBelow(g: Graph, before: State, st: State, r: BufferID)
    requires Upward(before.links) && Extended(g, before, st, |g|, 0) && r in st.mutableBuffers
    requires before.mutableBuffers[r].end < |g|
    ensures st.mutableBuffers[r].end < |g|
  {
    hide Reached;
  }

  lemma {:induction false} HullOf(g: Graph, stable: Stability, before: State, st: State, r: BufferID)
    requires Upward(before.links) && Extended(g, before, st, |g|, 0) && r in st.mutableBuffers && Covered(g, st, r)
    requires EndsExact(g, stable, before, |g|)
    requires Tight(g, before.tensorNames, before.mutableBuffers, before.links)
    ensures Hull(g, stable, st, r)
  {
    hide Touches, Pins, Tight, Reached, Justified;
    if Pins(g, stable, st.tensorNames, |g|, r) {
      PinnedSurvive(g, before, st, r);
    } else {
      EndsBelow(g, before, st, r);
      EndsTouched(g, before, st, r);
    }
  }

  /** The extractor's lifespans are exact, whatever chain of aliases and merges leads to a buffer and whichever
      stability is asked for. */
  lemma {:induction false} LifespansAreHulls(g: Graph, stable: Stability, r: BufferID)
    requires WellFormed(g) && Topological(g) && DistinctConcats(g) && Extract(g, stable).Ok?
    requires r in Extract(g, stable).value.mutableBuffers
    ensures Hull(g, stable, Extract(g, stable).value, r)
  {
    hide Assign, Extend, Final, Inv, Touches, OnlyEndsGrow, Extended, Covered, Tight, EndsExact, Hull;
    var before, st := Assign(g, stable, |g|).value, Extract(g, stable).value;
    LifespansCover(g, stable);
    AssignInv(g, stable, |g|);
    InvTight(g, before);
    InvApart(g, before);
    ExtendSound(g, before, |g|);
    AssignEndsExact(g, stable, |g|);
    HullOf(g, stable, before, st, r);
  }

  lemma {:induction false} InvTight(g: Graph, st: State)
    requires Inv(g, st, |g|, 0)
    ensures Tight(g, st.tensorNames, st.mutableBuffers, st.links)
  {
    hide Named, AliasesFollow, Ordered, ParentsKnown, Placed, Packed, Sized, OnlyConcatsContain, BuffersSized, Rooted,
      Classified, Spanned, Tight, ConstantsKept;
  }

  // ----- stable parameters and results

  /** Buffer `r`, unless swallowed by a merge, is alive to the end of the graph. */
  ghost predicate Pinned(g: Graph, st: State, r: BufferID) {
    r < st.next && (r in st.mutableBuffers ==> st.mutableBuffers[r].end == |g|)
  }

  lemma {:induction false} PinsStay(g: Graph, stable: Stability, m: nat, n: nat, r: BufferID)
    requires WellFormed(g) && m <= n <= |g| && Assign(g, stable, n).Ok? && Assign(g, stable, m).Ok?
    requires Pinned(g, Assign(g, stable, m).value, r)
    ensures Pinned(g, Assign(g, stable, n).value, r)
    decreases n
  {
    hide Step;
    if m < n {
      PinsStay(g, stable, m, n - 1, r);
      AssignKnown(g, stable, n - 1);
      StepEnds(g, stable, Assign(g, stable, n - 1).value, n - 1);
    }
  }

  lemma {:induction false} PinsSurviveExtend(g: Graph, before: State, st: State, r: BufferID)
    requires Upward(before.links) && Extended(g, before, st, |g|, 0) && Pinned(g, before, r)
    ensures r in st.mutableBuffers ==> st.mutableBuffers[r].end == |g|
  {
    hide Reached;
  }

  lemma {:induction false} PinnedToTheEnd(g: Graph, stable: Stability, n: nat, r: BufferID)
    requires WellFormed(g) && n <= |g| && DistinctConcats(g) && Extract(g, stable).Ok?
    requires Assign(g, stable, n).Ok? && Pinned(g, Assign(g, stable, n).value, r)
    ensures var st := Extract(g, stable).value; r in st.mutableBuffers ==> st.mutableBuffers[r].end == |g|
  {
    hide Inv, Assign, Extend, Extended, Pinned;
    var before := Assign(g, stable, |g|).value;
    PinsStay(g, stable, n, |g|, r);
    AssignInv(g, stable, |g|);
    InvApart(g, before);
    ExtendSound(g, before, |g|);
    PinsSurviveExtend(g, before, Extract(g, stable).value, r);
  }

  lemma {:induction false} FreshPinned(g: Graph, st: State, n: nat, ports: nat, p: nat)
    requires n < |g| && p < ports <= |g[n].outputs|
    ensures var st' := FreshOutputs(g, st, n, ports, |g|);
            TensorName(n, p) in st'.tensorNames && Pinned(g, st', st'.tensorNames[TensorName(n, p)])
  {
    hide Basic;
    if p < ports - 1 { FreshPinned(g, st, n, ports - 1, p); }
  }

  /** With stable parameters, a parameter's buffer outlives the graph unless a concat swallowed it. */
  lemma {:induction false} StableParametersStay(g: Graph, stable: Stability, n: nat, p: nat)
    requires WellFormed(g) && DistinctConcats(g) && Extract(g, stable).Ok? && stable.params
    requires n < |g| && g[n].kind.ParameterNode? && g[n].inputs == [] && p < |g[n].outputs|
    ensures var st := Extract(g, stable).value;
            && TensorName(n, p) in st.tensorNames
            && var r := st.tensorNames[TensorName(n, p)];
               r in st.mutableBuffers ==> st.mutableBuffers[r].end == |g|
  {
    hide Extract, Extend, FreshOutputs, Basic, Pinned;
    ExtractFrom(g, stable, n);
    ExtractFrom(g, stable, n + 1);
    FreshPinned(g, Assign(g, stable, n).value, n, |g[n].outputs|, p);
    PinnedToTheEnd(g, stable, n + 1, Assign(g, stable, n + 1).value.tensorNames[TensorName(n, p)]);
  }

  lemma {:induction false} ResultSucceeded(g: Graph, stable: Stability, n: nat)
    requires WellFormed(g) && n < |g| && (g[n].kind.ResultNode? || g[n].kind.AssignNode?) && |g[n].inputs| > 0
    requires Assign(g, stable, n).Ok? && Assign(g, stable, n + 1).Ok?
    ensures ResultStep(g, stable, Assign(g, stable, n).value, n) == Assign(g, stable, n + 1)
  {
    hide ResultStep;
  }

  lemma {:induction false} ResultPinned(g: Graph, stable: Stability, st: State, n: nat)
    requires n < |g| && |g[n].inputs| > 0 && stable.results && BuffersKnown(st) && ResultStep(g, stable, st, n).Ok?
    ensures g[n].inputs[0] in st.tensorNames
    ensures Pinned(g, ResultStep(g, stable, st, n).value, st.tensorNames[g[n].inputs[0]])
  {
    hide Basic;
  }

  /** With stable results, so does the buffer a result (or Assign) reads. */
  lemma {:induction false} StableResultsStay(g: Graph, stable: Stability, n: nat)
    requires WellFormed(g) && DistinctConcats(g) && Extract(g, stable).Ok? && stable.results
    requires n < |g| && (g[n].kind.ResultNode? || g[n].kind.AssignNode?) && |g[n].inputs| > 0
    ensures var st := Extract(g, stable).value;
            && g[n].inputs[0] in st.tensorNames
            && var r := st.tensorNames[g[n].inputs[0]];
               r in st.mutableBuffers ==> st.mutableBuffers[r].end == |g|
  {
    hide Extract, Assign, Basic, ResultStep, Pinned, BuffersKnown;
    ExtractFrom(g, stable, n);
    ExtractFrom(g, stable, n + 1);
    AssignKnown(g, stable, n);
    ResultSucceeded(g, stable, n);
    ResultPinned(g, stable, Assign(g, stable, n).value, n);
    PinnedToTheEnd(g, stable, n + 1, Assign(g, stable, n).value.tensorNames[g[n].inputs[0]]);
  }
}
