/** SparseConvTranspose is the adjoint of SparseConv: the inner products agree for all features and weights exactly when
    no live pair falls on a boundary between taps. */
module SparseConvAdjoint {
  import opened Arithmetic
  import opened SparseConv

  // ----- inner products of outputs

  predicate Rated(p: Problem, h: seq<real>) {
    |h| == |p.outputs| * p.kernel.oc
  }

  function Rate(p: Problem, h: seq<real>, i: nat, oc: nat): real
    requires Rated(p, h) && i < |p.outputs| && oc < p.kernel.oc
  {
    At(h, |p.outputs|, p.kernel.oc, i, oc)
  }

  function Weighted(p: Problem, h: seq<real>, i: nat): nat -> real
    requires Valid(p) && Rated(p, h) && i < |p.outputs|
  {
    (oc: nat) => if oc < p.kernel.oc then Rate(p, h, i, oc) * Output(p, i, oc) else 0.0
  }

  function PointDot(p: Problem, h: seq<real>): nat -> real
    requires Valid(p) && Rated(p, h)
  {
    (i: nat) => if i < |p.outputs| then Sum(p.kernel.oc, Weighted(p, h, i)) else 0.0
  }

  /** The inner product of the first `n` output points with `h`. */
  function Dot(p: Problem, h: seq<real>, n: nat): real
    requires Valid(p) && Rated(p, h)
  {
    Sum(n, PointDot(p, h))
  }

  function ChannelPair(p: Problem, h: seq<real>, i: nat, j: nat): (nat, nat) -> real
    requires Valid(p) && Rated(p, h) && i < |p.outputs| && j < Live(p.inputs)
  {
    (oc: nat, ic: nat) =>
      if oc < p.kernel.oc && ic < p.kernel.ic then Rate(p, h, i, oc) * Term(p, i, j, ic, oc) else 0.0
  }

  /** What one pair of points contributes. */
  function Cross(p: Problem, h: seq<real>, i: nat, j: nat): real
    requires Valid(p) && Rated(p, h) && i < |p.outputs| && j < Live(p.inputs)
  {
    Sum(p.kernel.oc, RowSums(ChannelPair(p, h, i, j), p.kernel.ic))
  }

  function Crosses(p: Problem, h: seq<real>): (nat, nat) -> real
    requires Valid(p) && Rated(p, h)
  {
    (i: nat, j: nat) => if i < |p.outputs| && j < Live(p.inputs) then Cross(p, h, i, j) else 0.0
  }

  function NeighbourPair(p: Problem, h: seq<real>, i: nat): (nat, nat) -> real
    requires Valid(p) && Rated(p, h) && i < |p.outputs|
  {
    (oc: nat, j: nat) => if oc < p.kernel.oc then Rate(p, h, i, oc) * Neighbour(p, i, oc)(j) else 0.0
  }

  lemma {:induction false} ScaledChannels(p: Problem, h: seq<real>, i: nat, j: nat, oc: nat)
    requires Valid(p) && Rated(p, h) && i < |p.outputs| && j < Live(p.inputs) && oc < p.kernel.oc
    ensures Sum(p.kernel.ic, Row(ChannelPair(p, h, i, j), oc)) == Rate(p, h, i, oc) * Neighbour(p, i, oc)(j)
  {
    hide Term, Rate, Valid;
    var f := Scaled(Rate(p, h, i, oc), Channel(p, i, j, oc));
    SumSame(p.kernel.ic, Row(ChannelPair(p, h, i, j), oc), f);
    SumScale(p.kernel.ic, Channel(p, i, j, oc), Rate(p, h, i, oc));
  }

  lemma {:induction false} PointDotIsCrosses(p: Problem, h: seq<real>, i: nat)
    requires Valid(p) && Rated(p, h) && i < |p.outputs|
    ensures PointDot(p, h)(i) == Sum(Live(p.inputs), Row(Crosses(p, h), i))
  {
    hide Rate, Valid, Neighbour, ChannelPair;
    var live, f := Live(p.inputs), NeighbourPair(p, h, i);
    forall oc: nat | oc < p.kernel.oc ensures Weighted(p, h, i)(oc) == RowSums(f, live)(oc) {
      SumSame(live, Row(f, oc), Scaled(Rate(p, h, i, oc), Neighbour(p, i, oc)));
      SumScale(live, Neighbour(p, i, oc), Rate(p, h, i, oc));
    }
    SumSame(p.kernel.oc, Weighted(p, h, i), RowSums(f, live));
    SumSwap(p.kernel.oc, live, f);
    forall j: nat | j < live ensures ColumnSums(f, p.kernel.oc)(j) == Row(Crosses(p, h), i)(j) {
      forall oc: nat | oc < p.kernel.oc ensures Column(f, j)(oc) == RowSums(ChannelPair(p, h, i, j), p.kernel.ic)(oc) {
        ScaledChannels(p, h, i, j, oc);
      }
      SumSame(p.kernel.oc, Column(f, j), RowSums(ChannelPair(p, h, i, j), p.kernel.ic));
    }
    SumSame(live, ColumnSums(f, p.kernel.oc), Row(Crosses(p, h), i));
  }

  lemma {:induction false} DotIsCrosses(p: Problem, h: seq<real>, n: nat)
    requires Valid(p) && Rated(p, h) && n <= |p.outputs|
    ensures Dot(p, h, n) == Sum(n, RowSums(Crosses(p, h), Live(p.inputs)))
  {
    forall i: nat | i < n ensures PointDot(p, h)(i) == RowSums(Crosses(p, h), Live(p.inputs))(i) {
      PointDotIsCrosses(p, h, i);
    }
    SumSame(n, PointDot(p, h), RowSums(Crosses(p, h), Live(p.inputs)));
  }

  // ----- the adjoint problem

  /** The weights of `l` are those of `k` with the channels exchanged. */
  predicate Transposed(k: Kernel, l: Kernel) {
    && WellFormed(k) && WellFormed(l)
    && l.kd == k.kd && l.kh == k.kh && l.kw == k.kw && l.ic == k.oc && l.oc == k.ic
    && forall d: nat, h: nat, w: nat, ic: nat, oc: nat ::
         d < k.kd && h < k.kh && w < k.kw && ic < k.ic && oc < k.oc ==>
           Weight(l, d, h, w, oc, ic) == Weight(k, d, h, w, ic, oc)
  }

  /** The transposed convolution of `q` undoes the geometry of `p`: positions exchanged, offset negated. */
  predicate Adjoint(p: Problem, q: Problem) {
    && Transposed(p.kernel, q.kernel) && SmallSides(p.kernel)
    && !p.transpose && q.transpose && q.inputs == p.outputs && q.outputs == p.inputs
    && q.offset == Point(-p.offset.x, -p.offset.y, -p.offset.z)
    && |p.features| == |p.inputs| * p.kernel.ic && |q.features| == |q.inputs| * q.kernel.ic
  }

  predicate OffBoundary(k: Kernel, d: Point) {
    !OnBoundary(k.kw, d.x) && !OnBoundary(k.kh, d.y) && !OnBoundary(k.kd, d.z)
  }

  /** No live pair in the window falls between two taps. */
  predicate Smooth(p: Problem) {
    forall i, j :: 0 <= i < Live(p.outputs) && 0 <= j < Live(p.inputs) && Near(p.kernel, Delta(p, i, j)) ==>
      OffBoundary(p.kernel, Delta(p, i, j))
  }

  lemma {:induction false} AdjointValid(p: Problem, q: Problem)
    requires Adjoint(p, q)
    ensures Valid(p) && Valid(q) && Rated(p, q.features) && Rated(q, p.features)
  {
    SmallKernelsValid(p);
    forall i, j | 0 <= i < |q.outputs| && 0 <= j < LiveFrom(q.inputs, 0) && Near(q.kernel, Delta(q, i, j))
      ensures TapsInside(q, Delta(q, i, j))
    {
      MirroredInside(q.kernel, Delta(q, i, j));
    }
  }

  lemma {:induction false} MirroredInside(k: Kernel, d: Point)
    requires SmallSides(k) && Near(k, d)
    ensures 0 <= Mirror(k.kw, d.x) < k.kw && 0 <= Mirror(k.kh, d.y) < k.kh && 0 <= Mirror(k.kd, d.z) < k.kd
  {
    TapsInsideIff(k.kw);
    TapsInsideIff(k.kh);
    TapsInsideIff(k.kd);
    assert TapInside(k.kw, d.x) && TapInside(k.kh, d.y) && TapInside(k.kd, d.z);
  }

  lemma {:induction false} Opposite(p: Problem, q: Problem, i: nat, j: nat)
    requires Adjoint(p, q) && i < |p.outputs| && j < |p.inputs|
    ensures var d, e := Delta(p, i, j), Delta(q, j, i);
      e == Point(-d.x, -d.y, -d.z) && (Near(q.kernel, e) <==> Near(p.kernel, d))
  {}

  /** The two operations pick the same weight for a pair on no boundary. */
  lemma {:induction false} SameWeight(p: Problem, q: Problem, i: nat, j: nat, ic: nat, oc: nat)
    requires Adjoint(p, q) && Valid(p) && Valid(q) && i < Live(p.outputs) && j < Live(p.inputs)
    requires Near(p.kernel, Delta(p, i, j)) && OffBoundary(p.kernel, Delta(p, i, j))
    requires ic < p.kernel.ic && oc < p.kernel.oc
    ensures TapsInside(p, Delta(p, i, j)) && TapsInside(q, Delta(q, j, i))
    ensures WeightAt(q, Delta(q, j, i), oc, ic) == WeightAt(p, Delta(p, i, j), ic, oc)
  {
    hide Weight, OnBoundary, WellFormed;
    Opposite(p, q, i, j);
    var d := Delta(p, i, j);
    MirrorIff(p.kernel.kw, d.x);
    MirrorIff(p.kernel.kh, d.y);
    MirrorIff(p.kernel.kd, d.z);
    hide Tap, Near, Delta;
  }

  lemma {:induction false} SameTerm(p: Problem, q: Problem, i: nat, j: nat, ic: nat, oc: nat)
    requires Adjoint(p, q) && Valid(p) && Valid(q) && i < Live(p.outputs) && j < Live(p.inputs)
    requires Near(p.kernel, Delta(p, i, j)) ==> OffBoundary(p.kernel, Delta(p, i, j))
    requires ic < p.kernel.ic && oc < p.kernel.oc && Rated(p, q.features) && Rated(q, p.features)
    ensures Rate(p, q.features, i, oc) * Term(p, i, j, ic, oc) == Rate(q, p.features, j, ic) * Term(q, j, i, oc, ic)
  {
    hide At, Near, Delta, WeightAt, Valid, Weight, OffBoundary, TapsInside, WellFormed;
    Opposite(p, q, i, j);
    if Near(p.kernel, Delta(p, i, j)) {
      SameWeight(p, q, i, j, ic, oc);
      Commute(Rate(p, q.features, i, oc), WeightAt(p, Delta(p, i, j), ic, oc), Rate(q, p.features, j, ic));
    }
  }

  lemma {:induction false} Commute(a: real, b: real, c: real)
    ensures a * (b * c) == c * (b * a)
  {}

  lemma {:induction false} AdjointSizes(p: Problem, q: Problem)
    requires Adjoint(p, q)
    ensures q.kernel.ic == p.kernel.oc && q.kernel.oc == p.kernel.ic && q.inputs == p.outputs && q.outputs == p.inputs
  {}

  lemma {:induction false} SameChannel(p: Problem, q: Problem, i: nat, j: nat, ic: nat)
    requires Adjoint(p, q) && Valid(p) && Valid(q) && i < Live(p.outputs) && j < Live(p.inputs) && ic < p.kernel.ic
    requires Near(p.kernel, Delta(p, i, j)) ==> OffBoundary(p.kernel, Delta(p, i, j))
    requires Rated(p, q.features) && Rated(q, p.features)
    ensures Sum(p.kernel.oc, Column(ChannelPair(p, q.features, i, j), ic)) ==
            Sum(p.kernel.oc, Row(ChannelPair(q, p.features, j, i), ic))
  {
    hide Term, Rate, Valid, Near, Delta, OffBoundary, Adjoint, Rated;
    AdjointSizes(p, q);
    var f, g := ChannelPair(p, q.features, i, j), ChannelPair(q, p.features, j, i);
    forall oc: nat | oc < p.kernel.oc ensures Column(f, ic)(oc) == Row(g, ic)(oc) { SameTerm(p, q, i, j, ic, oc); }
    SumSame(p.kernel.oc, Column(f, ic), Row(g, ic));
  }

  lemma {:induction false} SameCross(p: Problem, q: Problem, i: nat, j: nat)
    requires Adjoint(p, q) && Valid(p) && Valid(q) && i < Live(p.outputs) && j < Live(p.inputs)
    requires Near(p.kernel, Delta(p, i, j)) ==> OffBoundary(p.kernel, Delta(p, i, j))
    requires Rated(p, q.features) && Rated(q, p.features)
    ensures Cross(p, q.features, i, j) == Cross(q, p.features, j, i)
  {
    AdjointSizes(p, q);
    hide ChannelPair, Valid, Near, Delta, OffBoundary, Adjoint, Rated;
    var f, g := ChannelPair(p, q.features, i, j), ChannelPair(q, p.features, j, i);
    SumSwap(p.kernel.oc, p.kernel.ic, f);
    forall ic: nat | ic < p.kernel.ic ensures ColumnSums(f, p.kernel.oc)(ic) == RowSums(g, p.kernel.oc)(ic) {
      SameChannel(p, q, i, j, ic);
    }
    SumSame(p.kernel.ic, ColumnSums(f, p.kernel.oc), RowSums(g, p.kernel.oc));
  }

  /** Adjointness over the live points: <SparseConv(F), G> == <F, SparseConvTranspose(G)>. */
  lemma {:induction false} InnerProductsAgree(p: Problem, q: Problem)
    requires Adjoint(p, q) && Smooth(p) && Valid(p) && Valid(q) && Rated(p, q.features) && Rated(q, p.features)
    ensures Dot(p, q.features, Live(p.outputs)) == Dot(q, p.features, Live(p.inputs))
  {
    var n, m := Live(p.outputs), Live(p.inputs);
    var f, g := Crosses(p, q.features), Crosses(q, p.features);
    DotIsCrosses(p, q.features, n);
    DotIsCrosses(q, p.features, m);
    SumSwap(n, m, f);
    hide Valid, Adjoint, Cross, Near, Delta, OffBoundary;
    forall j: nat | j < m ensures ColumnSums(f, n)(j) == RowSums(g, n)(j) {
      forall i: nat | i < n ensures Column(f, j)(i) == Row(g, j)(i) { SameCross(p, q, i, j); }
      SumSame(n, Column(f, j), Row(g, j));
    }
    SumSame(m, ColumnSums(f, n), RowSums(g, n));
  }

  // ----- the boundary condition is exact

  lemma {:induction false} SumSingle(n: nat, f: nat -> real, k: nat)
    requires k < n && forall i: nat :: i < n && i != k ==> f(i) == 0.0
    ensures Sum(n, f) == f(k)
  {
    if k == n - 1 { SumZeros(n - 1, f); } else { SumSingle(n - 1, f, k); }
  }

  function OneHot(n: nat, at: nat): (s: seq<real>)
    ensures |s| == n && forall k :: 0 <= k < n ==> s[k] == if k == at then 1.0 else 0.0
  {
    seq(n, k => if k == at then 1.0 else 0.0)
  }

  /** The kernel of the dimensions of `k` whose only weight is 1, at tap (d, h, w) of the first channels. */
  function HotKernel(k: Kernel, ic: nat, oc: nat, d: nat, h: nat, w: nat): (r: Kernel)
    requires d < k.kd && h < k.kh && w < k.kw && ic > 0 && oc > 0
    ensures WellFormed(r) && r.kd == k.kd && r.kh == k.kh && r.kw == k.kw && r.ic == ic && r.oc == oc
  {
    var dhw := Pos(k.kd * k.kh, k.kw, Pos(k.kd, k.kh, d, h), w);
    var dhwi := Pos((k.kd * k.kh) * k.kw, ic, dhw, 0);
    Kernel(k.kd, k.kh, k.kw, ic, oc,
           OneHot((((k.kd * k.kh) * k.kw) * ic) * oc, Pos(((k.kd * k.kh) * k.kw) * ic, oc, dhwi, 0)))
  }

  lemma {:induction false} HotWeight(k: Kernel, ic: nat, oc: nat, d: nat, h: nat, w: nat,
                                     d': nat, h': nat, w': nat, c: nat, o: nat)
    requires d < k.kd && h < k.kh && w < k.kw && d' < k.kd && h' < k.kh && w' < k.kw && c < ic && o < oc
    ensures Weight(HotKernel(k, ic, oc, d, h, w), d', h', w', c, o) ==
      if d' == d && h' == h && w' == w && c == 0 && o == 0 then 1.0 else 0.0
  {
    var dh, dh' := Pos(k.kd, k.kh, d, h), Pos(k.kd, k.kh, d', h');
    var dhw, dhw' := Pos(k.kd * k.kh, k.kw, dh, w), Pos(k.kd * k.kh, k.kw, dh', w');
    var t := (k.kd * k.kh) * k.kw;
    var dhwi, dhwi' := Pos(t, ic, dhw, 0), Pos(t, ic, dhw', c);
    assert Pos(t * ic, oc, dhwi, 0) == Pos(t * ic, oc, dhwi', o) ==> dhwi == dhwi' && o == 0;
    assert dhwi == dhwi' ==> dhw == dhw' && c == 0;
    assert dhw == dhw' ==> dh == dh' && w == w';
    assert dh == dh' ==> d == d' && h == h';
  }

  /** With one-hot features and ratings, the inner product is the weight of one pair. */
  lemma {:induction false} HotDot(p: Problem, h: seq<real>, n: nat, i: nat, j: nat)
    requires Valid(p) && Rated(p, h) && i < n <= |p.outputs| && j < Live(p.inputs)
    requires 0 < p.kernel.ic && 0 < p.kernel.oc && Near(p.kernel, Delta(p, i, j)) && TapsInside(p, Delta(p, i, j))
    requires h == OneHot(|p.outputs| * p.kernel.oc, Pos(|p.outputs|, p.kernel.oc, i, 0))
    requires p.features == OneHot(|p.inputs| * p.kernel.ic, Pos(|p.inputs|, p.kernel.ic, j, 0))
    ensures Dot(p, h, n) == WeightAt(p, Delta(p, i, j), 0, 0)
  {
    var live := Live(p.inputs);
    DotIsCrosses(p, h, n);
    hide WeightAt, Near, Valid, Delta, TapsInside;
    forall i': nat, j': nat | i' < n && j' < live
      ensures Crosses(p, h)(i', j') == if i' == i && j' == j then WeightAt(p, Delta(p, i, j), 0, 0) else 0.0
    {
      HotCross(p, h, i, j, i', j');
    }
    forall i': nat | i' < n
      ensures RowSums(Crosses(p, h), live)(i') == if i' == i then WeightAt(p, Delta(p, i, j), 0, 0) else 0.0
    {
      if i' == i { SumSingle(live, Row(Crosses(p, h), i'), j); } else { SumZeros(live, Row(Crosses(p, h), i')); }
    }
    SumSingle(n, RowSums(Crosses(p, h), live), i);
  }

  lemma {:induction false} HotPair(p: Problem, h: seq<real>, i: nat, j: nat, i': nat, j': nat, oc: nat, ic: nat)
    requires Valid(p) && Rated(p, h) && i < |p.outputs| && j < Live(p.inputs) && i' < |p.outputs| && j' < Live(p.inputs)
    requires Near(p.kernel, Delta(p, i, j)) && TapsInside(p, Delta(p, i, j)) && ic < p.kernel.ic && oc < p.kernel.oc
    requires h == OneHot(|p.outputs| * p.kernel.oc, Pos(|p.outputs|, p.kernel.oc, i, 0))
    requires p.features == OneHot(|p.inputs| * p.kernel.ic, Pos(|p.inputs|, p.kernel.ic, j, 0))
    ensures Rate(p, h, i', oc) * Term(p, i', j', ic, oc) ==
      if i' == i && j' == j && ic == 0 && oc == 0 then WeightAt(p, Delta(p, i, j), 0, 0) else 0.0
  {
    hide WeightAt;
    var a, b := Pos(|p.outputs|, p.kernel.oc, i, 0), Pos(|p.outputs|, p.kernel.oc, i', oc);
    var c, d := Pos(|p.inputs|, p.kernel.ic, j, 0), Pos(|p.inputs|, p.kernel.ic, j', ic);
    assert a == b ==> i == i' && oc == 0;
    assert c == d ==> j == j' && ic == 0;
  }

  lemma {:induction false} HotCross(p: Problem, h: seq<real>, i: nat, j: nat, i': nat, j': nat)
    requires Valid(p) && Rated(p, h) && i < |p.outputs| && j < Live(p.inputs) && i' < |p.outputs| && j' < Live(p.inputs)
    requires 0 < p.kernel.ic && 0 < p.kernel.oc && Near(p.kernel, Delta(p, i, j)) && TapsInside(p, Delta(p, i, j))
    requires h == OneHot(|p.outputs| * p.kernel.oc, Pos(|p.outputs|, p.kernel.oc, i, 0))
    requires p.features == OneHot(|p.inputs| * p.kernel.ic, Pos(|p.inputs|, p.kernel.ic, j, 0))
    ensures Cross(p, h, i', j') == if i' == i && j' == j then WeightAt(p, Delta(p, i, j), 0, 0) else 0.0
  {
    assert WellFormed(p.kernel);
    hide WeightAt, Near, Valid, Delta, TapsInside, Term, Rate, WellFormed;
    var f := ChannelPair(p, h, i', j');
    forall oc: nat, ic: nat | oc < p.kernel.oc && ic < p.kernel.ic
      ensures f(oc, ic) ==
        if i' == i && j' == j && ic == 0 && oc == 0 then WeightAt(p, Delta(p, i, j), 0, 0) else 0.0
    {
      HotPair(p, h, i, j, i', j', oc, ic);
    }
    hide ChannelPair;
    forall oc: nat | oc < p.kernel.oc && oc != 0 ensures RowSums(f, p.kernel.ic)(oc) == 0.0 {
      SumZeros(p.kernel.ic, Row(f, oc));
    }
    SumSingle(p.kernel.ic, Row(f, 0), 0);
    SumSingle(p.kernel.oc, RowSums(f, p.kernel.ic), 0);
  }

  predicate SameGeometry(p: Problem, q: Problem) {
    && p.kernel.kd == q.kernel.kd && p.kernel.kh == q.kernel.kh && p.kernel.kw == q.kernel.kw
    && p.kernel.ic == q.kernel.ic && p.kernel.oc == q.kernel.oc
    && p.offset == q.offset && p.inputs == q.inputs && p.outputs == q.outputs && p.transpose == q.transpose
  }

  /** The inner products agree for this forward problem and its transposed partner. */
  ghost predicate Agree(p: Problem, q: Problem)
    requires Adjoint(p, q)
  {
    AdjointValid(p, q);
    Dot(p, q.features, Live(p.outputs)) == Dot(q, p.features, Live(p.inputs))
  }

  /** The forward problem of p's geometry with one feature, at input j, and one weight, at that pair's tap. */
  function HotForward(p: Problem, i: nat, j: nat): Problem
    requires SmallSides(p.kernel) && 0 < p.kernel.ic && 0 < p.kernel.oc
    requires i < |p.outputs| && j < |p.inputs| && Near(p.kernel, Delta(p, i, j))
  {
    var k, d := p.kernel, Delta(p, i, j);
    TapsOf(k, d);
    Problem(HotKernel(k, k.ic, k.oc, Tap(k.kd, d.z), Tap(k.kh, d.y), Tap(k.kw, d.x)), p.offset, false,
            OneHot(|p.inputs| * k.ic, Pos(|p.inputs|, k.ic, j, 0)), p.inputs, p.outputs)
  }

  function HotBackward(p: Problem, i: nat, j: nat): Problem
    requires SmallSides(p.kernel) && 0 < p.kernel.ic && 0 < p.kernel.oc
    requires i < |p.outputs| && j < |p.inputs| && Near(p.kernel, Delta(p, i, j))
  {
    var k, d := p.kernel, Delta(p, i, j);
    TapsOf(k, d);
    Problem(HotKernel(k, k.oc, k.ic, Tap(k.kd, d.z), Tap(k.kh, d.y), Tap(k.kw, d.x)),
            Point(-p.offset.x, -p.offset.y, -p.offset.z), true,
            OneHot(|p.outputs| * k.oc, Pos(|p.outputs|, k.oc, i, 0)), p.outputs, p.inputs)
  }

  lemma {:induction false} HotAdjoint(p: Problem, i: nat, j: nat)
    requires SmallSides(p.kernel) && 0 < p.kernel.ic && 0 < p.kernel.oc && !p.transpose
    requires i < |p.outputs| && j < |p.inputs| && Near(p.kernel, Delta(p, i, j))
    ensures SameGeometry(HotForward(p, i, j), p) && Adjoint(HotForward(p, i, j), HotBackward(p, i, j))
  {
    var k, d := p.kernel, Delta(p, i, j);
    TapsOf(k, d);
    HotTransposed(k, Tap(k.kd, d.z), Tap(k.kh, d.y), Tap(k.kw, d.x));
    hide HotKernel, Tap, Near, Pos, Weight;
  }

  lemma {:induction false} HotForwardWeight(p: Problem, i: nat, j: nat)
    requires SmallSides(p.kernel) && 0 < p.kernel.ic && 0 < p.kernel.oc && !p.transpose
    requires i < |p.outputs| && j < |p.inputs| && Near(p.kernel, Delta(p, i, j))
    ensures var r := HotForward(p, i, j);
      && Delta(r, i, j) == Delta(p, i, j) && Near(r.kernel, Delta(r, i, j)) && TapsInside(r, Delta(r, i, j))
      && WeightAt(r, Delta(r, i, j), 0, 0) == 1.0
  {
    var k, d := p.kernel, Delta(p, i, j);
    TapsOf(k, d);
    var td, th, tw := Tap(k.kd, d.z), Tap(k.kh, d.y), Tap(k.kw, d.x);
    hide Tap, InWindow, Pos, Weight;
    HotWeight(k, k.ic, k.oc, td, th, tw, td, th, tw, 0, 0);
  }

  lemma {:induction false} HotBackwardWeight(p: Problem, i: nat, j: nat)
    requires SmallSides(p.kernel) && 0 < p.kernel.ic && 0 < p.kernel.oc && !p.transpose
    requires i < |p.outputs| && j < |p.inputs| && Near(p.kernel, Delta(p, i, j)) && !OffBoundary(p.kernel, Delta(p, i, j))
    ensures var q := HotBackward(p, i, j);
      && Near(q.kernel, Delta(q, j, i)) && TapsInside(q, Delta(q, j, i)) && WeightAt(q, Delta(q, j, i), 0, 0) == 0.0
  {
    hide Tap, InWindow, Pos, Weight, OnBoundary, OneHot, Mirror, OffBoundary, Near, Adjoint, SmallSides, HotForward, WellFormed;
    var k, d, q := p.kernel, Delta(p, i, j), HotBackward(p, i, j);
    TapsOf(k, d);
    HotAdjoint(p, i, j);
    HotOpposite(p, i, j);
    var e := Delta(q, j, i);
    MirroredInside(k, e);
    SomeTapDiffers(k, d);
    HotWeight(k, k.oc, k.ic, Tap(k.kd, d.z), Tap(k.kh, d.y), Tap(k.kw, d.x),
              Mirror(k.kd, e.z), Mirror(k.kh, e.y), Mirror(k.kw, e.x), 0, 0);
  }

  lemma {:induction false} HotOpposite(p: Problem, i: nat, j: nat)
    requires SmallSides(p.kernel) && 0 < p.kernel.ic && 0 < p.kernel.oc && !p.transpose
    requires i < |p.outputs| && j < |p.inputs| && Near(p.kernel, Delta(p, i, j))
    ensures var d, q := Delta(p, i, j), HotBackward(p, i, j);
      j < |q.outputs| && i < |q.inputs| && Delta(q, j, i) == Point(-d.x, -d.y, -d.z)
      && Near(p.kernel, Delta(q, j, i)) && Near(q.kernel, Delta(q, j, i))
  {
    hide Tap, Pos, OneHot, HotKernel;
    HotAdjoint(p, i, j);
    Opposite(HotForward(p, i, j), HotBackward(p, i, j), i, j);
  }

  /** On a boundary, the mirrored tap is another one. */
  lemma {:induction false} SomeTapDiffers(k: Kernel, d: Point)
    requires SmallSides(k) && Near(k, d) && !OffBoundary(k, d)
    ensures Mirror(k.kw, -d.x) != Tap(k.kw, d.x) || Mirror(k.kh, -d.y) != Tap(k.kh, d.y)
            || Mirror(k.kd, -d.z) != Tap(k.kd, d.z)
  {
    hide Tap, Mirror, OnBoundary;
    MirrorIff(k.kw, d.x);
    MirrorIff(k.kh, d.y);
    MirrorIff(k.kd, d.z);
  }

  lemma {:induction false} BoundaryDisagrees(p: Problem, i: nat, j: nat)
    requires SmallSides(p.kernel) && 0 < p.kernel.ic && 0 < p.kernel.oc && !p.transpose
    requires i < Live(p.outputs) && j < Live(p.inputs) && Near(p.kernel, Delta(p, i, j))
    requires !OffBoundary(p.kernel, Delta(p, i, j))
    ensures SameGeometry(HotForward(p, i, j), p) && Adjoint(HotForward(p, i, j), HotBackward(p, i, j))
    ensures !Agree(HotForward(p, i, j), HotBackward(p, i, j))
  {
    HotAdjoint(p, i, j);
    HotForwardWeight(p, i, j);
    HotBackwardWeight(p, i, j);
    var r, q := HotForward(p, i, j), HotBackward(p, i, j);
    AdjointValid(r, q);
    hide Adjoint, Near, Delta, TapsInside, WeightAt, Dot, Valid, HotKernel, OffBoundary;
    HotDot(r, q.features, Live(r.outputs), i, j);
    HotDot(q, r.features, Live(r.inputs), j, i);
  }

  lemma {:induction false} SmoothSame(p: Problem, r: Problem)
    requires Smooth(p) && SameGeometry(r, p)
    ensures Smooth(r)
  {
    forall i, j | 0 <= i < Live(r.outputs) && 0 <= j < Live(r.inputs) && Near(r.kernel, Delta(r, i, j))
      ensures OffBoundary(r.kernel, Delta(r, i, j))
    {
      assert Delta(r, i, j) == Delta(p, i, j);
    }
  }

  lemma {:induction false} TapsOf(k: Kernel, d: Point)
    requires SmallSides(k) && Near(k, d)
    ensures 0 <= Tap(k.kd, d.z) < k.kd && 0 <= Tap(k.kh, d.y) < k.kh && 0 <= Tap(k.kw, d.x) < k.kw
  {
    TapsInsideIff(k.kw);
    TapsInsideIff(k.kh);
    TapsInsideIff(k.kd);
    assert TapInside(k.kw, d.x) && TapInside(k.kh, d.y) && TapInside(k.kd, d.z);
  }

  lemma {:induction false} HotTransposed(k: Kernel, d: nat, h: nat, w: nat)
    requires d < k.kd && h < k.kh && w < k.kw && 0 < k.ic && 0 < k.oc
    ensures Transposed(HotKernel(k, k.ic, k.oc, d, h, w), HotKernel(k, k.oc, k.ic, d, h, w))
  {
    hide HotKernel, Weight, WellFormed;
    forall d': nat, h': nat, w': nat, ic: nat, oc: nat | d' < k.kd && h' < k.kh && w' < k.kw && ic < k.ic && oc < k.oc
      ensures Weight(HotKernel(k, k.oc, k.ic, d, h, w), d', h', w', oc, ic) ==
              Weight(HotKernel(k, k.ic, k.oc, d, h, w), d', h', w', ic, oc)
    {
      HotWeight(k, k.ic, k.oc, d, h, w, d', h', w', ic, oc);
      HotWeight(k, k.oc, k.ic, d, h, w, d', h', w', oc, ic);
    }
  }

  lemma {:induction false} SmoothAgrees(p: Problem, q: Problem)
    requires Adjoint(p, q) && Smooth(p)
    ensures Agree(p, q)
  {
    AdjointValid(p, q);
    InnerProductsAgree(p, q);
  }

  lemma {:induction false} RoughPair(p: Problem) returns (i: nat, j: nat)
    requires !Smooth(p)
    ensures i < Live(p.outputs) && j < Live(p.inputs) && Near(p.kernel, Delta(p, i, j))
    ensures !OffBoundary(p.kernel, Delta(p, i, j))
  {
    hide OnBoundary, InWindow;
    i, j :| 0 <= i < Live(p.outputs) && 0 <= j < Live(p.inputs) && Near(p.kernel, Delta(p, i, j))
      && !OffBoundary(p.kernel, Delta(p, i, j));
  }

  /** For a given geometry the two operations are adjoint for all weights and features exactly when no live pair falls on
      a boundary between taps. */
  lemma {:induction false} AdjointIff(p: Problem)
    requires SmallSides(p.kernel) && 0 < p.kernel.ic && 0 < p.kernel.oc && !p.transpose
    ensures Smooth(p) <==> forall r: Problem, q: Problem :: SameGeometry(r, p) && Adjoint(r, q) ==> Agree(r, q)
  {
    hide Adjoint, Agree, SameGeometry, Smooth, HotForward, HotBackward, Near, Delta, OffBoundary;
    if Smooth(p) {
      forall r: Problem, q: Problem | SameGeometry(r, p) && Adjoint(r, q) ensures Agree(r, q) {
        SmoothSame(p, r);
        SmoothAgrees(r, q);
      }
    } else {
      var i, j := RoughPair(p);
      BoundaryDisagrees(p, i, j);
    }
  }
}
