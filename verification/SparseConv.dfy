/** Sparse convolution and its transpose over point clouds: tap selection, the accumulation loops, and adjointness. */
module SparseConv {
  import opened Arithmetic

  datatype Point = Point(x: real, y: real, z: real)

  /** A kernel of depth, height and width, laid out DxHxWxICxOC. */
  datatype Kernel = Kernel(kd: nat, kh: nat, kw: nat, ic: nat, oc: nat, weights: seq<real>)

  /** One evaluation; `transpose` tells which of the two operations it is. */
  datatype Problem = Problem(kernel: Kernel, offset: Point, transpose: bool, features: seq<real>,
                             inputs: seq<Point>, outputs: seq<Point>)

  // ----- taps

  /** static_cast<int>: truncation toward zero. */
  function Truncate(x: real): int {
    if x >= 0.0 then x.Floor else -(-x).Floor
  }

  /** The half-width of the window is 0.51 of the kernel side. */
  predicate InWindow(k: nat, d: real) {
    -0.51 * k as real <= d <= 0.51 * k as real
  }

  function Tap(k: nat, d: real): int {
    var t := Truncate(d + 0.5 * k as real);
    if t < k - 1 then t else k - 1
  }

  function Mirror(k: nat, d: real): int {
    k - 1 - Tap(k, d)
  }

  /** A displacement falling exactly between two taps. */
  predicate OnBoundary(k: nat, d: real) {
    var t := d + 0.5 * k as real;
    t == t.Floor as real && 0.0 < t < k as real
  }

  predicate TapInside(k: nat, d: real) {
    0 <= Tap(k, d) < k
  }

  /** Although the window is wider than the kernel, every tap is in range exactly for sides below 100. */
  lemma {:induction false} TapsInsideIff(k: nat)
    requires k > 0
    ensures k < 100 <==> forall d: real :: InWindow(k, d) ==> TapInside(k, d)
  {
    if k < 100 {
      forall d: real | InWindow(k, d) ensures TapInside(k, d) {
        var t := d + 0.5 * k as real;
        assert t > -1.0;
        if t < 0.0 { assert (-t).Floor == 0; }
      }
    } else {
      var d := -0.51 * k as real;
      var t := d + 0.5 * k as real;
      assert InWindow(k, d) && t <= -1.0;
      assert (-t).Floor >= 1;
      assert !TapInside(k, d);
    }
  }

  /** Seen from the other side, the mirrored tap is the same one exactly off the boundaries between taps. */
  lemma {:induction false} MirrorIff(k: nat, d: real)
    requires 0 < k < 100 && InWindow(k, d)
    ensures Mirror(k, -d) == Tap(k, d) <==> !OnBoundary(k, d)
  {
    var t, u := d + 0.5 * k as real, -d + 0.5 * k as real;
    assert u == k as real - t;
    if t < 0.0 {
      assert (-t).Floor == 0 && u.Floor >= k;
    } else if t >= k as real {
      assert t.Floor >= k;
      if u < 0.0 { assert (-u).Floor == 0; }
    } else if t == t.Floor as real {
      assert u.Floor == k - t.Floor;
    } else {
      assert u.Floor == k - 1 - t.Floor;
    }
  }

  // ----- one term

  function Shifted(p: Problem, i: nat): Point
    requires i < |p.outputs|
  {
    var o := p.outputs[i];
    Point(o.x - p.offset.x, o.y - p.offset.y, o.z - p.offset.z)
  }

  /** The displacement of input `j` from output `i`. */
  function Delta(p: Problem, i: nat, j: nat): Point
    requires i < |p.outputs| && j < |p.inputs|
  {
    var o, q := Shifted(p, i), p.inputs[j];
    Point(q.x - o.x, q.y - o.y, q.z - o.z)
  }

  predicate Near(k: Kernel, d: Point) {
    InWindow(k.kw, d.x) && InWindow(k.kh, d.y) && InWindow(k.kd, d.z)
  }

  function Side(transpose: bool, k: nat, d: real): int {
    if transpose then Mirror(k, d) else Tap(k, d)
  }

  predicate TapsInside(p: Problem, d: Point) {
    0 <= Side(p.transpose, p.kernel.kw, d.x) < p.kernel.kw
    && 0 <= Side(p.transpose, p.kernel.kh, d.y) < p.kernel.kh
    && 0 <= Side(p.transpose, p.kernel.kd, d.z) < p.kernel.kd
  }

  predicate WellFormed(k: Kernel) {
    |k.weights| == (((k.kd * k.kh) * k.kw) * k.ic) * k.oc
  }

  function Weight(k: Kernel, d: nat, h: nat, w: nat, ic: nat, oc: nat): real
    requires WellFormed(k) && d < k.kd && h < k.kh && w < k.kw && ic < k.ic && oc < k.oc
  {
    var dh := Pos(k.kd, k.kh, d, h);
    var dhw := Pos(k.kd * k.kh, k.kw, dh, w);
    var dhwi := Pos((k.kd * k.kh) * k.kw, k.ic, dhw, ic);
    k.weights[Pos(((k.kd * k.kh) * k.kw) * k.ic, k.oc, dhwi, oc)]
  }

  /** The inputs before the first one with a negative first coordinate. */
  function LiveFrom(points: seq<Point>, i: nat): (n: nat)
    requires i <= |points|
    ensures i <= n <= |points|
    ensures forall j :: i <= j < n ==> points[j].x >= 0.0
    ensures n < |points| ==> points[n].x < 0.0
    decreases |points| - i
  {
    if i == |points| || points[i].x < 0.0 then i else LiveFrom(points, i + 1)
  }

  function Live(points: seq<Point>): nat {
    LiveFrom(points, 0)
  }

  /** The sizes the operation's inputs have, and taps inside the kernel for every live pair in the window. */
  predicate Valid(p: Problem) {
    && WellFormed(p.kernel) && |p.features| == |p.inputs| * p.kernel.ic
    && forall i, j :: 0 <= i < |p.outputs| && 0 <= j < LiveFrom(p.inputs, 0) && Near(p.kernel, Delta(p, i, j)) ==>
         TapsInside(p, Delta(p, i, j))
  }

  /** Kernel sides below 100 keep every tap inside. */
  lemma {:induction false} SmallKernelsValid(p: Problem)
    requires WellFormed(p.kernel) && |p.features| == |p.inputs| * p.kernel.ic
    requires 0 < p.kernel.kd < 100 && 0 < p.kernel.kh < 100 && 0 < p.kernel.kw < 100
    ensures Valid(p)
  {
    TapsInsideIff(p.kernel.kd);
    TapsInsideIff(p.kernel.kh);
    TapsInsideIff(p.kernel.kw);
    forall i, j | 0 <= i < |p.outputs| && 0 <= j < LiveFrom(p.inputs, 0) && Near(p.kernel, Delta(p, i, j))
      ensures TapsInside(p, Delta(p, i, j))
    {
      var d := Delta(p, i, j);
      assert TapInside(p.kernel.kw, d.x) && TapInside(p.kernel.kh, d.y) && TapInside(p.kernel.kd, d.z);
    }
  }

  function WeightAt(p: Problem, d: Point, ic: nat, oc: nat): real
    requires WellFormed(p.kernel) && TapsInside(p, d) && ic < p.kernel.ic && oc < p.kernel.oc
  {
    Weight(p.kernel, Side(p.transpose, p.kernel.kd, d.z), Side(p.transpose, p.kernel.kh, d.y),
           Side(p.transpose, p.kernel.kw, d.x), ic, oc)
  }

  function Term(p: Problem, i: nat, j: nat, ic: nat, oc: nat): real
    requires Valid(p) && i < |p.outputs| && j < Live(p.inputs) && ic < p.kernel.ic && oc < p.kernel.oc
  {
    if Near(p.kernel, Delta(p, i, j))
    then WeightAt(p, Delta(p, i, j), ic, oc) * At(p.features, |p.inputs|, p.kernel.ic, j, ic)
    else 0.0
  }

  // ----- which weight a pair of points meets

  /** Displacement `u` along a side of `k` taps falls to tap `t`: tap t covers the unit interval around t - (k - 1) / 2, and
      the end taps also what the window reaches beyond the kernel. */
  predicate Covers(k: nat, t: nat, u: real) {
    && t < k && -0.51 * k as real <= u <= 0.51 * k as real
    && (t > 0 ==> t as real - 0.5 * k as real <= u)
    && (t < k - 1 ==> u < t as real + 1.0 - 0.5 * k as real)
  }

  lemma {:induction false} CoversIff(k: nat, t: nat, u: real)
    requires 0 < k < 100
    ensures Covers(k, t, u) <==> InWindow(k, u) && Tap(k, u) == t
  {
    if InWindow(k, u) {
      var v := u + 0.5 * k as real;
      assert -1.0 < v;
      if v < 0.0 {
        assert (-v).Floor == 0;
      } else {
        assert v.Floor as real <= v < v.Floor as real + 1.0;
      }
    }
  }

  /** The centre of a tap, whole numbers apart, lies in the tap. */
  lemma {:induction false} CentreCovered(k: nat, t: nat)
    requires 0 < k < 100 && t < k
    ensures Covers(k, t, t as real - (k - 1) as real / 2.0)
  {}

  /** The weight for input `j`, displaced by (x, y, z) from output `i` less the offset, whose taps are (d, h, w): entry
      (d, h, w, ic, oc) of the kernel, or the mirrored one for the transpose. */
  function EntryIndex(k: Kernel, transpose: bool, d: nat, h: nat, w: nat, ic: nat, oc: nat): int {
    if transpose then ((((k.kd - 1 - d) * k.kh + (k.kh - 1 - h)) * k.kw + (k.kw - 1 - w)) * k.ic + ic) * k.oc + oc
    else (((d * k.kh + h) * k.kw + w) * k.ic + ic) * k.oc + oc
  }

  predicate SmallSides(k: Kernel) {
    0 < k.kd < 100 && 0 < k.kh < 100 && 0 < k.kw < 100
  }

  /** The input lies where these taps are, seen from the output point less the offset. */
  predicate Meets(p: Problem, i: nat, j: nat, d: nat, h: nat, w: nat)
    requires i < |p.outputs| && j < |p.inputs|
  {
    && Covers(p.kernel.kw, w, p.inputs[j].x - (p.outputs[i].x - p.offset.x))
    && Covers(p.kernel.kh, h, p.inputs[j].y - (p.outputs[i].y - p.offset.y))
    && Covers(p.kernel.kd, d, p.inputs[j].z - (p.outputs[i].z - p.offset.z))
  }

  lemma {:induction false} PosIs(h: nat, w: nat, r: nat, c: nat)
    requires r < h && c < w
    ensures Pos(h, w, r, c) == r * w + c < h * w
  {}

  lemma {:induction false} WeightIs(k: Kernel, d: nat, h: nat, w: nat, ic: nat, oc: nat)
    requires WellFormed(k) && d < k.kd && h < k.kh && w < k.kw && ic < k.ic && oc < k.oc
    ensures 0 <= EntryIndex(k, false, d, h, w, ic, oc) < |k.weights|
    ensures Weight(k, d, h, w, ic, oc) == k.weights[EntryIndex(k, false, d, h, w, ic, oc)]
  {
    PosIs(k.kd, k.kh, d, h);
    PosIs(k.kd * k.kh, k.kw, d * k.kh + h, w);
    PosIs((k.kd * k.kh) * k.kw, k.ic, (d * k.kh + h) * k.kw + w, ic);
    PosIs(((k.kd * k.kh) * k.kw) * k.ic, k.oc, ((d * k.kh + h) * k.kw + w) * k.ic + ic, oc);
    hide Pos;
  }

  /** Each input contributes its features times the weights of the taps it meets, and nothing outside the window. */
  lemma {:induction false} TermIs(p: Problem, i: nat, j: nat, ic: nat, oc: nat, d: nat, h: nat, w: nat)
    requires WellFormed(p.kernel) && |p.features| == |p.inputs| * p.kernel.ic && SmallSides(p.kernel)
    requires i < |p.outputs| && j < Live(p.inputs) && ic < p.kernel.ic && oc < p.kernel.oc && Meets(p, i, j, d, h, w)
    ensures Valid(p) && 0 <= EntryIndex(p.kernel, p.transpose, d, h, w, ic, oc) < |p.kernel.weights|
    ensures 0 <= j * p.kernel.ic + ic < |p.features|
    ensures Term(p, i, j, ic, oc)
            == p.kernel.weights[EntryIndex(p.kernel, p.transpose, d, h, w, ic, oc)] * p.features[j * p.kernel.ic + ic]
  {
    hide Covers, InWindow, Tap, WellFormed, Weight, EntryIndex, Pos;
    var k := p.kernel;
    PosIs(|p.inputs|, k.ic, j, ic);
    SmallKernelsValid(p);
    CoversIff(k.kw, w, p.inputs[j].x - (p.outputs[i].x - p.offset.x));
    CoversIff(k.kh, h, p.inputs[j].y - (p.outputs[i].y - p.offset.y));
    CoversIff(k.kd, d, p.inputs[j].z - (p.outputs[i].z - p.offset.z));
    CoveredSide(k.kw, w, p.inputs[j].x - (p.outputs[i].x - p.offset.x));
    CoveredSide(k.kh, h, p.inputs[j].y - (p.outputs[i].y - p.offset.y));
    CoveredSide(k.kd, d, p.inputs[j].z - (p.outputs[i].z - p.offset.z));
    if p.transpose {
      WeightIs(k, k.kd - 1 - d, k.kh - 1 - h, k.kw - 1 - w, ic, oc);
      MirroredIndex(k, d, h, w, ic, oc);
    } else {
      WeightIs(k, d, h, w, ic, oc);
    }
  }

  lemma {:induction false} CoveredSide(k: nat, t: nat, u: real)
    requires Covers(k, t, u)
    ensures t < k
  {}

  lemma {:induction false} MirroredIndex(k: Kernel, d: nat, h: nat, w: nat, ic: nat, oc: nat)
    requires d < k.kd && h < k.kh && w < k.kw
    ensures EntryIndex(k, true, d, h, w, ic, oc) == EntryIndex(k, false, k.kd - 1 - d, k.kh - 1 - h, k.kw - 1 - w, ic, oc)
  {}

  /** An input that meets no taps contributes nothing: it is outside the window. */
  lemma {:induction false} FarTerm(p: Problem, i: nat, j: nat, ic: nat, oc: nat)
    requires WellFormed(p.kernel) && |p.features| == |p.inputs| * p.kernel.ic && SmallSides(p.kernel)
    requires i < |p.outputs| && j < Live(p.inputs) && ic < p.kernel.ic && oc < p.kernel.oc
    requires forall d: nat, h: nat, w: nat :: !Meets(p, i, j, d, h, w)
    ensures Valid(p) && Term(p, i, j, ic, oc) == 0.0
  {
    SmallKernelsValid(p);
    if Near(p.kernel, Delta(p, i, j)) {
      var d, h, w := NearMeets(p, i, j);
      assert false;
    }
  }

  lemma {:induction false} NearMeets(p: Problem, i: nat, j: nat) returns (d: nat, h: nat, w: nat)
    requires SmallSides(p.kernel) && i < |p.outputs| && j < |p.inputs| && Near(p.kernel, Delta(p, i, j))
    ensures Meets(p, i, j, d, h, w)
  {
    hide Covers, InWindow, Tap;
    var e := Delta(p, i, j);
    w, h, d := TapFound(p.kernel.kw, e.x), TapFound(p.kernel.kh, e.y), TapFound(p.kernel.kd, e.z);
  }

  /** On a grid of whole steps, the input at the centre of taps (d, h, w) contributes exactly their weight times its
      features. */
  lemma {:induction false} GridTerm(p: Problem, i: nat, j: nat, ic: nat, oc: nat, d: nat, h: nat, w: nat)
    requires WellFormed(p.kernel) && |p.features| == |p.inputs| * p.kernel.ic && SmallSides(p.kernel)
    requires i < |p.outputs| && j < Live(p.inputs) && ic < p.kernel.ic && oc < p.kernel.oc
    requires d < p.kernel.kd && h < p.kernel.kh && w < p.kernel.kw
    requires p.inputs[j].x == p.outputs[i].x - p.offset.x + (w as real - (p.kernel.kw - 1) as real / 2.0)
    requires p.inputs[j].y == p.outputs[i].y - p.offset.y + (h as real - (p.kernel.kh - 1) as real / 2.0)
    requires p.inputs[j].z == p.outputs[i].z - p.offset.z + (d as real - (p.kernel.kd - 1) as real / 2.0)
    ensures Valid(p) && 0 <= EntryIndex(p.kernel, p.transpose, d, h, w, ic, oc) < |p.kernel.weights|
    ensures 0 <= j * p.kernel.ic + ic < |p.features|
    ensures Term(p, i, j, ic, oc)
            == p.kernel.weights[EntryIndex(p.kernel, p.transpose, d, h, w, ic, oc)] * p.features[j * p.kernel.ic + ic]
  {
    hide Covers, Term, WellFormed, EntryIndex;
    CentreCovered(p.kernel.kw, w);
    CentreCovered(p.kernel.kh, h);
    CentreCovered(p.kernel.kd, d);
    TermIs(p, i, j, ic, oc, d, h, w);
  }

  lemma {:induction false} TapFoundIs(k: nat, u: real)
    requires 0 < k < 100 && InWindow(k, u)
    ensures 0 <= Tap(k, u) < k && Covers(k, Tap(k, u), u)
  {
    TapsInsideIff(k);
    assert TapInside(k, u);
    CoversIff(k, Tap(k, u), u);
  }

  function TapFound(k: nat, u: real): (t: nat)
    requires 0 < k < 100 && InWindow(k, u)
    ensures Covers(k, t, u)
  {
    TapFoundIs(k, u);
    Tap(k, u)
  }

  // ----- sums

  function Sum(n: nat, f: nat -> real): real {
    if n == 0 then 0.0 else Sum(n - 1, f) + f(n - 1)
  }

  lemma {:induction false} SumSame(n: nat, f: nat -> real, g: nat -> real)
    requires forall k: nat :: k < n ==> f(k) == g(k)
    ensures Sum(n, f) == Sum(n, g)
  {
    if n > 0 { SumSame(n - 1, f, g); }
  }

  function Scaled(a: real, f: nat -> real): nat -> real {
    (k: nat) => a * f(k)
  }

  lemma {:induction false} SumScale(n: nat, f: nat -> real, a: real)
    ensures Sum(n, Scaled(a, f)) == a * Sum(n, f)
  {
    if n > 0 {
      SumScale(n - 1, f, a);
      assert a * (Sum(n - 1, f) + f(n - 1)) == a * Sum(n - 1, f) + a * f(n - 1);
    }
  }

  function Row(f: (nat, nat) -> real, i: nat): nat -> real {
    (j: nat) => f(i, j)
  }

  function Column(f: (nat, nat) -> real, j: nat): nat -> real {
    (i: nat) => f(i, j)
  }

  function RowSums(f: (nat, nat) -> real, m: nat): nat -> real {
    (i: nat) => Sum(m, Row(f, i))
  }

  function ColumnSums(f: (nat, nat) -> real, n: nat): nat -> real {
    (j: nat) => Sum(n, Column(f, j))
  }

  lemma {:induction false} SumOneMore(m: nat, f: (nat, nat) -> real, n: nat)
    ensures Sum(m, ColumnSums(f, n + 1)) == Sum(m, ColumnSums(f, n)) + Sum(m, Row(f, n))
  {
    if m > 0 { SumOneMore(m - 1, f, n); }
  }

  lemma {:induction false} SumNone(m: nat, f: (nat, nat) -> real)
    ensures Sum(m, ColumnSums(f, 0)) == 0.0
  {
    if m > 0 { SumNone(m - 1, f); }
  }

  /** Exchange of two finite sums. */
  lemma {:induction false} SumSwap(n: nat, m: nat, f: (nat, nat) -> real)
    ensures Sum(n, RowSums(f, m)) == Sum(m, ColumnSums(f, n))
  {
    if n == 0 {
      SumNone(m, f);
    } else {
      SumSwap(n - 1, m, f);
      SumOneMore(m, f, n - 1);
    }
  }

  // ----- the operation

  function Channel(p: Problem, i: nat, j: nat, oc: nat): nat -> real
    requires Valid(p) && i < |p.outputs| && j < Live(p.inputs) && oc < p.kernel.oc
  {
    (ic: nat) => if ic < p.kernel.ic then Term(p, i, j, ic, oc) else 0.0
  }

  function Neighbour(p: Problem, i: nat, oc: nat): nat -> real
    requires Valid(p) && i < |p.outputs| && oc < p.kernel.oc
  {
    (j: nat) => if j < Live(p.inputs) then Sum(p.kernel.ic, Channel(p, i, j, oc)) else 0.0
  }

  /** Channel `oc` of output point `i`. */
  function Output(p: Problem, i: nat, oc: nat): real
    requires Valid(p) && i < |p.outputs| && oc < p.kernel.oc
  {
    Sum(Live(p.inputs), Neighbour(p, i, oc))
  }

  // ----- the accumulation loops

  /** What entry (r, c) holds when the loops are at output i, input j, input channel ic, output channel oc. */
  function Cell(p: Problem, i: nat, j: nat, ic: nat, oc: nat, r: nat, c: nat): real
    requires Valid(p) && r < |p.outputs| && c < p.kernel.oc
  {
    if r < i then Output(p, r, c)
    else if r > i then 0.0
    else
      Sum(j, Neighbour(p, r, c))
      + if j < Live(p.inputs) then Sum(if c < oc then ic + 1 else ic, Channel(p, r, j, c)) else 0.0
  }

  ghost predicate Reached(p: Problem, out: seq<real>, i: nat, j: nat, ic: nat, oc: nat)
    requires Valid(p) && |out| == |p.outputs| * p.kernel.oc
  {
    forall r: nat, c: nat :: r < |p.outputs| && c < p.kernel.oc ==>
      At(out, |p.outputs|, p.kernel.oc, r, c) == Cell(p, i, j, ic, oc, r, c)
  }

  lemma {:induction false} ReachedStart(p: Problem, out: seq<real>)
    requires Valid(p) && |out| == |p.outputs| * p.kernel.oc && forall k :: 0 <= k < |out| ==> out[k] == 0.0
    ensures Reached(p, out, 0, 0, 0, 0)
  {
    hide Pos;
  }

  lemma {:induction false} ReachedEntry(p: Problem, out: seq<real>, i: nat, j: nat, ic: nat, oc: nat, next: seq<real>)
    requires Valid(p) && |out| == |p.outputs| * p.kernel.oc && Reached(p, out, i, j, ic, oc)
    requires i < |p.outputs| && j < Live(p.inputs) && ic < p.kernel.ic && oc < p.kernel.oc
    requires next == out[Pos(|p.outputs|, p.kernel.oc, i, oc) :=
                         At(out, |p.outputs|, p.kernel.oc, i, oc) + Term(p, i, j, ic, oc)]
    ensures Reached(p, next, i, j, ic, oc + 1)
  {
    hide Term, Neighbour, Valid;
    forall r: nat, c: nat | r < |p.outputs| && c < p.kernel.oc
      ensures At(next, |p.outputs|, p.kernel.oc, r, c) == Cell(p, i, j, ic, oc + 1, r, c)
    {
      assert At(out, |p.outputs|, p.kernel.oc, r, c) == Cell(p, i, j, ic, oc, r, c);
      assert Pos(|p.outputs|, p.kernel.oc, r, c) == Pos(|p.outputs|, p.kernel.oc, i, oc) ==> r == i && c == oc;
    }
  }

  lemma {:induction false} ReachedChannel(p: Problem, out: seq<real>, i: nat, j: nat, ic: nat)
    requires Valid(p) && |out| == |p.outputs| * p.kernel.oc && j < Live(p.inputs)
    requires Reached(p, out, i, j, ic, p.kernel.oc)
    ensures Reached(p, out, i, j, ic + 1, 0)
  {
    hide Pos, Channel, Neighbour, Valid;
  }

  lemma {:induction false} ReachedInput(p: Problem, out: seq<real>, i: nat, j: nat)
    requires Valid(p) && |out| == |p.outputs| * p.kernel.oc && j < Live(p.inputs)
    requires Reached(p, out, i, j, p.kernel.ic, 0)
    ensures Reached(p, out, i, j + 1, 0, 0)
  {
    hide Pos, Channel, Valid, At;
  }

  lemma {:induction false} ReachedFar(p: Problem, out: seq<real>, i: nat, j: nat)
    requires Valid(p) && |out| == |p.outputs| * p.kernel.oc && i < |p.outputs| && j < Live(p.inputs)
    requires Reached(p, out, i, j, 0, 0) && !Near(p.kernel, Delta(p, i, j))
    ensures Reached(p, out, i, j, p.kernel.ic, 0)
  {
    forall c: nat | c < p.kernel.oc ensures Sum(p.kernel.ic, Channel(p, i, j, c)) == 0.0 {
      SumZeros(p.kernel.ic, Channel(p, i, j, c));
    }
    hide Pos, Channel, Neighbour, Valid, At;
  }

  lemma {:induction false} SumZeros(n: nat, f: nat -> real)
    requires forall k: nat :: k < n ==> f(k) == 0.0
    ensures Sum(n, f) == 0.0
  {
    if n > 0 { SumZeros(n - 1, f); }
  }

  lemma {:induction false} ReachedOutput(p: Problem, out: seq<real>, i: nat)
    requires Valid(p) && |out| == |p.outputs| * p.kernel.oc && Reached(p, out, i, Live(p.inputs), 0, 0)
    ensures Reached(p, out, i + 1, 0, 0, 0)
  {
    hide Pos, Channel, Neighbour, Valid, At;
  }

  lemma {:induction false} ReachedEnd(p: Problem, out: seq<real>)
    requires Valid(p) && |out| == |p.outputs| * p.kernel.oc && Reached(p, out, |p.outputs|, 0, 0, 0)
    ensures forall i: nat, oc: nat :: i < |p.outputs| && oc < p.kernel.oc ==>
      At(out, |p.outputs|, p.kernel.oc, i, oc) == Output(p, i, oc)
  {
    hide Pos, Valid, At;
  }

  lemma {:induction false} LiveTaps(p: Problem, i: nat, j: nat)
    requires Valid(p) && i < |p.outputs| && j < Live(p.inputs) && Near(p.kernel, Delta(p, i, j))
    ensures TapsInside(p, Delta(p, i, j)) && WellFormed(p.kernel) && |p.features| == |p.inputs| * p.kernel.ic
  {}

  lemma {:induction false} NearTerm(p: Problem, i: nat, j: nat, ic: nat, oc: nat)
    requires Valid(p) && i < |p.outputs| && j < Live(p.inputs) && ic < p.kernel.ic && oc < p.kernel.oc
    requires Near(p.kernel, Delta(p, i, j))
    ensures TapsInside(p, Delta(p, i, j))
    ensures Term(p, i, j, ic, oc) ==
      WeightAt(p, Delta(p, i, j), ic, oc) * At(p.features, |p.inputs|, p.kernel.ic, j, ic)
  {}

  /** The two inner loops: add one neighbour's features, channel by channel. */
  method Accumulate(p: Problem, out: array<real>, i: nat, j: nat)
    requires Valid(p) && i < |p.outputs| && j < Live(p.inputs) && Near(p.kernel, Delta(p, i, j))
    requires out.Length == |p.outputs| * p.kernel.oc && Reached(p, out[..], i, j, 0, 0)
    modifies out
    ensures Reached(p, out[..], i, j, p.kernel.ic, 0)
  {
    hide Cell, Reached, Near, TapsInside, Pos, Valid, WellFormed, WeightAt, Delta, Term;
    var k, n, d := p.kernel, |p.outputs|, Delta(p, i, j);
    LiveTaps(p, i, j);
    for ic := 0 to k.ic
      invariant Reached(p, out[..], i, j, ic, 0)
    {
      for oc := 0 to k.oc
        invariant Reached(p, out[..], i, j, ic, oc)
      {
        ghost var was := out[..];
        var at := Pos(n, k.oc, i, oc);
        var sum := out[at] + WeightAt(p, d, ic, oc) * At(p.features, |p.inputs|, k.ic, j, ic);
        NearTerm(p, i, j, ic, oc);
        assert sum == At(was, n, k.oc, i, oc) + Term(p, i, j, ic, oc);
        out[at] := sum;
        assert out[..] == was[at := sum];
        ReachedEntry(p, was, i, j, ic, oc, out[..]);
      }
      ReachedChannel(p, out[..], i, j, ic);
    }
  }

  /** evaluate: every output channel is the sum over live neighbours and input channels. */
  method Evaluate(p: Problem) returns (out: array<real>)
    requires Valid(p)
    ensures fresh(out) && out.Length == |p.outputs| * p.kernel.oc
    ensures forall i: nat, oc: nat :: i < |p.outputs| && oc < p.kernel.oc ==>
      At(out[..], |p.outputs|, p.kernel.oc, i, oc) == Output(p, i, oc)
  {
    hide Cell, Reached, Near, TapsInside, Pos, Side, Valid, Output, At;
    out := new real[|p.outputs| * p.kernel.oc](_ => 0.0);
    var live := 0;
    while live < |p.inputs| && p.inputs[live].x >= 0.0
      invariant live <= |p.inputs| && Live(p.inputs) == LiveFrom(p.inputs, live)
    {
      live := live + 1;
    }
    ReachedStart(p, out[..]);
    for i := 0 to |p.outputs|
      invariant Reached(p, out[..], i, 0, 0, 0)
    {
      for j := 0 to live
        invariant Reached(p, out[..], i, j, 0, 0)
      {
        if Near(p.kernel, Delta(p, i, j)) {
          Accumulate(p, out, i, j);
        } else {
          ReachedFar(p, out[..], i, j);
        }
        ReachedInput(p, out[..], i, j);
      }
      ReachedOutput(p, out[..], i);
    }
    ReachedEnd(p, out[..]);
  }
}
