/** fftshift: the quadrant swap of a contiguous matrix, done in place through overlapping block copies. */
module FftShift {
  import opened Arithmetic

  /** A rectangle of a matrix: the header the copies work on. */
  datatype Block = Block(top: nat, left: nat, rows: nat, cols: nat)

  predicate Within(b: Block, h: nat, w: nat) {
    b.top + b.rows <= h && b.left + b.cols <= w
  }

  predicate Inside(b: Block, r: int, c: int) {
    b.top <= r < b.top + b.rows && b.left <= c < b.left + b.cols
  }

  // ----- specification: a cyclic shift

  function Shift<T>(m: seq<T>, h: nat, w: nat, dy: nat, dx: nat): (s: seq<T>)
    requires |m| == h * w
    ensures |s| == h * w
  {
    seq(h * w, k requires 0 <= k < h * w => ShiftAt(m, h, w, dy, dx, k))
  }

  /** The row, or column, an entry of a shifted matrix comes from. */
  function Origin(i: nat, d: nat, n: nat): (k: nat)
    requires i < n
    ensures k < n
    ensures d <= n ==> k == if i + d < n then i + d else i + d - n
  {
    if d <= n && i + d < 2 * n then ModBelowTwice(i + d, n); (i + d) % n else (i + d) % n
  }

  lemma {:induction false} ShiftedAt<T>(m: seq<T>, h: nat, w: nat, dy: nat, dx: nat, r: nat, c: nat)
    requires |m| == h * w && r < h && c < w
    ensures At(Shift(m, h, w, dy, dx), h, w, r, c) == At(m, h, w, Origin(r, dy, h), Origin(c, dx, w))
  {}

  lemma {:induction false} CopiedAt<T>(now: seq<T>, was: seq<T>, h: nat, w: nat, b: Block, src: seq<T>, sh: nat, sw: nat,
                                       a: Block, r: nat, c: nat)
    requires |now| == |was| == h * w && |src| == sh * sw && Within(a, sh, sw) && a.rows == b.rows && a.cols == b.cols
    requires Copied(now, was, h, w, b, src, sh, sw, a) && r < h && c < w
    ensures At(now, h, w, r, c) ==
      if Inside(b, r, c) then At(src, sh, sw, a.top + (r - b.top), a.left + (c - b.left)) else At(was, h, w, r, c)
  {}

  function ShiftAt<T>(m: seq<T>, h: nat, w: nat, dy: nat, dx: nat, k: nat): T
    requires |m| == h * w && k < h * w
  {
    var (r, c) := (k / w, k % w);
    RowBelow(h, w, k);
    At(m, h, w, (r + dy) % h, (c + dx) % w)
  }

  lemma {:induction false} RowBelow(h: nat, w: nat, k: nat)
    requires k < h * w
    ensures w > 0 && h > 0 && k / w < h
  {
    var r, c := RowOf(h, w, k);
  }

  /** The rows, or columns, moved to the end: half of them, the middle one going with the first half unless inverse. */
  function Half(n: nat, inverse: bool): (k: nat)
    ensures k <= n
  {
    if inverse then n / 2 else n / 2 + n % 2
  }

  function Shifted<T>(m: seq<T>, h: nat, w: nat, inverse: bool): seq<T>
    requires |m| == h * w
  {
    Shift(m, h, w, Half(h, inverse), Half(w, inverse))
  }

  lemma {:induction false} ModBelowTwice(x: nat, n: nat)
    requires x < 2 * n
    ensures x % n == if x < n then x else x - n
  {
    if x >= n { DivMod(1, x - n, n); } else { DivMod(0, x, n); }
  }

  /** Where row or column `k` of `n` goes: half way on, or, inverse, half way on rounded up. */
  function Destination(k: nat, n: nat, inverse: bool): (d: nat)
    requires k < n
    ensures d < n
  {
    var half := if inverse then (n + 1) / 2 else n / 2;
    if k + half < n then k + half else k + half - n
  }

  lemma {:induction false} DestinationBack(k: nat, n: nat, inverse: bool)
    requires k < n
    ensures Origin(Destination(k, n, inverse), Half(n, inverse), n) == k
  {
    ModBelowTwice(Destination(k, n, inverse) + Half(n, inverse), n);
  }

  /** Every entry goes half the height and half the width on; the first one to the centre. */
  lemma {:induction false} EntryMoves<T>(m: seq<T>, h: nat, w: nat, inverse: bool, r: nat, c: nat)
    requires |m| == h * w && r < h && c < w
    ensures At(Shifted(m, h, w, inverse), h, w, Destination(r, h, inverse), Destination(c, w, inverse)) ==
      At(m, h, w, r, c)
    ensures !inverse ==> Destination(0, h, false) == h / 2 && Destination(0, w, false) == w / 2
  {
    hide Shift, Origin, Pos, At;
    DestinationBack(r, h, inverse);
    DestinationBack(c, w, inverse);
    ShiftedAt(m, h, w, Half(h, inverse), Half(w, inverse), Destination(r, h, inverse), Destination(c, w, inverse));
  }

  /** Shifting one way and then the other is the identity. */
  lemma {:induction false} ShiftRoundTrip<T>(m: seq<T>, h: nat, w: nat, inverse: bool)
    requires |m| == h * w
    ensures Shifted(Shifted(m, h, w, inverse), h, w, !inverse) == m
  {
    hide Shift, Origin, Pos;
    var once := Shifted(m, h, w, inverse);
    var twice := Shifted(once, h, w, !inverse);
    forall r: nat, c: nat | r < h && c < w ensures At(twice, h, w, r, c) == At(m, h, w, r, c) {
      var y, x := Origin(r, Half(h, !inverse), h), Origin(c, Half(w, !inverse), w);
      ShiftedAt(once, h, w, Half(h, !inverse), Half(w, !inverse), r, c);
      ShiftedAt(m, h, w, Half(h, inverse), Half(w, inverse), y, x);
    }
    Everywhere(twice, m, h, w);
  }

  // ----- block copies

  /** Reading block `a` while writing block `b` of the same matrix in ascending order never reads what was written. */
  predicate ReadsAhead(a: Block, b: Block) {
    a.rows == 0 || a.top > b.top || (a.top == b.top && a.left >= b.left)
  }

  /** `now` is `was` with block `b` replaced by block `a` of `src`. */
  ghost predicate Copied<T>(now: seq<T>, was: seq<T>, h: nat, w: nat, b: Block, src: seq<T>, sh: nat, sw: nat, a: Block)
    requires |now| == |was| == h * w && |src| == sh * sw && Within(a, sh, sw) && a.rows == b.rows && a.cols == b.cols
  {
    forall r: nat, c: nat :: r < h && c < w ==>
      At(now, h, w, r, c) ==
      if Inside(b, r, c) then At(src, sh, sw, a.top + (r - b.top), a.left + (c - b.left)) else At(was, h, w, r, c)
  }

  /** The copy of the first `i` rows and `j` further entries. */
  ghost predicate Partly<T>(now: seq<T>, was: seq<T>, h: nat, w: nat, b: Block, src: seq<T>, sh: nat, sw: nat, a: Block,
                            i: nat, j: nat)
    requires |now| == |was| == h * w && |src| == sh * sw && Within(a, sh, sw) && a.rows == b.rows && a.cols == b.cols
  {
    forall r: nat, c: nat :: r < h && c < w ==>
      At(now, h, w, r, c) ==
      if Inside(b, r, c) && (r - b.top < i || (r - b.top == i && c - b.left < j))
      then At(src, sh, sw, a.top + (r - b.top), a.left + (c - b.left)) else At(was, h, w, r, c)
  }

  lemma {:induction false} PartlyStep<T>(now: seq<T>, was: seq<T>, h: nat, w: nat, b: Block, src: seq<T>, sh: nat, sw: nat,
                                         a: Block, i: nat, j: nat, next: seq<T>)
    requires |now| == |was| == h * w && |src| == sh * sw && Within(a, sh, sw) && a.rows == b.rows && a.cols == b.cols
    requires Within(b, h, w) && i < b.rows && j < b.cols && Partly(now, was, h, w, b, src, sh, sw, a, i, j)
    requires next == now[Pos(h, w, b.top + i, b.left + j) := At(src, sh, sw, a.top + i, a.left + j)]
    ensures Partly(next, was, h, w, b, src, sh, sw, a, i, j + 1)
  {
    forall r: nat, c: nat | r < h && c < w
      ensures At(next, h, w, r, c) ==
        if Inside(b, r, c) && (r - b.top < i || (r - b.top == i && c - b.left < j + 1))
        then At(src, sh, sw, a.top + (r - b.top), a.left + (c - b.left)) else At(was, h, w, r, c)
    {
      assert Pos(h, w, r, c) == Pos(h, w, b.top + i, b.left + j) ==> r == b.top + i && c == b.left + j;
      assert At(now, h, w, r, c) == now[Pos(h, w, r, c)];
    }
  }

  lemma {:induction false} NothingCopied<T>(was: seq<T>, h: nat, w: nat, b: Block, src: seq<T>, sh: nat, sw: nat, a: Block)
    requires |was| == h * w && |src| == sh * sw && Within(a, sh, sw) && a.rows == b.rows && a.cols == b.cols
    ensures Partly(was, was, h, w, b, src, sh, sw, a, 0, 0)
  {}

  lemma {:induction false} RowCopied<T>(now: seq<T>, was: seq<T>, h: nat, w: nat, b: Block, src: seq<T>, sh: nat, sw: nat,
                                        a: Block, i: nat)
    requires |now| == |was| == h * w && |src| == sh * sw && Within(a, sh, sw) && a.rows == b.rows && a.cols == b.cols
    requires Partly(now, was, h, w, b, src, sh, sw, a, i, b.cols)
    ensures Partly(now, was, h, w, b, src, sh, sw, a, i + 1, 0)
  {}

  lemma {:induction false} AllCopied<T>(now: seq<T>, was: seq<T>, h: nat, w: nat, b: Block, src: seq<T>, sh: nat, sw: nat,
                                        a: Block)
    requires |now| == |was| == h * w && |src| == sh * sw && Within(a, sh, sw) && a.rows == b.rows && a.cols == b.cols
    requires Partly(now, was, h, w, b, src, sh, sw, a, b.rows, 0)
    ensures Copied(now, was, h, w, b, src, sh, sw, a)
  {}

  /** Copying within one matrix in ascending order, the entry read next was not written yet. */
  lemma {:induction false} SourceUntouched<T>(now: seq<T>, was: seq<T>, h: nat, w: nat, b: Block, a: Block, i: nat, j: nat)
    requires |now| == |was| == h * w && Within(a, h, w) && a.rows == b.rows && a.cols == b.cols && ReadsAhead(a, b)
    requires Partly(now, was, h, w, b, was, h, w, a, i, j) && i < b.rows && j < b.cols
    ensures At(now, h, w, a.top + i, a.left + j) == At(was, h, w, a.top + i, a.left + j)
  {}

  /** cvCopy between two blocks, row by row in ascending order; source and destination may be the same buffer. */
  method Copy<T>(src: array<T>, sh: nat, sw: nat, a: Block, dst: array<T>, h: nat, w: nat, b: Block)
    requires src.Length == sh * sw && dst.Length == h * w && Within(a, sh, sw) && Within(b, h, w)
    requires a.rows == b.rows && a.cols == b.cols
    requires src == dst ==> sh == h && sw == w && ReadsAhead(a, b)
    modifies dst
    ensures Copied(dst[..], old(dst[..]), h, w, b, old(src[..]), sh, sw, a)
  {
    hide Pos, Partly, ReadsAhead;
    ghost var was, from := dst[..], src[..];
    NothingCopied(was, h, w, b, from, sh, sw, a);
    for i := 0 to b.rows
      invariant src != dst ==> src[..] == from
      invariant Partly(dst[..], was, h, w, b, from, sh, sw, a, i, 0)
    {
      for j := 0 to b.cols
        invariant src != dst ==> src[..] == from
        invariant Partly(dst[..], was, h, w, b, from, sh, sw, a, i, j)
      {
        ghost var now := dst[..];
        if src == dst { SourceUntouched(now, was, h, w, b, a, i, j); }
        dst[Pos(h, w, b.top + i, b.left + j)] := src[Pos(sh, sw, a.top + i, a.left + j)];
        PartlyStep(now, was, h, w, b, from, sh, sw, a, i, j, dst[..]);
      }
      RowCopied(dst[..], was, h, w, b, from, sh, sw, a, i);
    }
    AllCopied(dst[..], was, h, w, b, from, sh, sw, a);
  }

  /** cvCloneMat: a buffer of its own for one block. */
  method Clone<T>(src: array<T>, h: nat, w: nat, a: Block) returns (tmp: array<T>)
    requires src.Length == h * w && Within(a, h, w)
    ensures fresh(tmp) && tmp.Length == a.rows * a.cols
    ensures Copied(tmp[..], tmp[..], a.rows, a.cols, Block(0, 0, a.rows, a.cols), src[..], h, w, a)
  {
    if a.rows == 0 || a.cols == 0 {
      tmp := new T[0];
    } else {
      RowBound(h, w, a.top);
      var first := src[Pos(h, w, a.top, a.left)];
      tmp := new T[a.rows * a.cols](_ => first);
      Copy(src, h, w, a, tmp, a.rows, a.cols, Block(0, 0, a.rows, a.cols));
    }
  }

  // ----- fftshift

  lemma {:induction false} SwapRows<T>(m: seq<T>, tmp: seq<T>, mid: seq<T>, done: seq<T>, h: nat, w: nat, k: nat)
    requires |m| == |mid| == |done| == h * w && |tmp| == k * w && k <= h
    requires Copied(tmp, tmp, k, w, Block(0, 0, k, w), m, h, w, Block(0, 0, k, w))
    requires Copied(mid, m, h, w, Block(0, 0, h - k, w), m, h, w, Block(k, 0, h - k, w))
    requires Copied(done, mid, h, w, Block(h - k, 0, k, w), tmp, k, w, Block(0, 0, k, w))
    ensures done == Shift(m, h, w, k, 0)
  {
    hide Shift, Pos, Copied, Origin;
    var s := Shift(m, h, w, k, 0);
    forall r: nat, c: nat | r < h && c < w ensures At(done, h, w, r, c) == At(s, h, w, r, c) {
      ShiftedAt(m, h, w, k, 0, r, c);
      CopiedAt(done, mid, h, w, Block(h - k, 0, k, w), tmp, k, w, Block(0, 0, k, w), r, c);
      if r < h - k {
        CopiedAt(mid, m, h, w, Block(0, 0, h - k, w), m, h, w, Block(k, 0, h - k, w), r, c);
      } else {
        CopiedAt(tmp, tmp, k, w, Block(0, 0, k, w), m, h, w, Block(0, 0, k, w), r - (h - k), c);
      }
    }
    Everywhere(done, s, h, w);
  }

  lemma {:induction false} SwapColumns<T>(m: seq<T>, tmp: seq<T>, mid: seq<T>, done: seq<T>, h: nat, w: nat, k: nat)
    requires |m| == |mid| == |done| == h * w && |tmp| == h * k && k <= w
    requires Copied(tmp, tmp, h, k, Block(0, 0, h, k), m, h, w, Block(0, 0, h, k))
    requires Copied(mid, m, h, w, Block(0, 0, h, w - k), m, h, w, Block(0, k, h, w - k))
    requires Copied(done, mid, h, w, Block(0, w - k, h, k), tmp, h, k, Block(0, 0, h, k))
    ensures done == Shift(m, h, w, 0, k)
  {
    hide Shift, Pos, Copied, Origin;
    var s := Shift(m, h, w, 0, k);
    forall r: nat, c: nat | r < h && c < w ensures At(done, h, w, r, c) == At(s, h, w, r, c) {
      ShiftedAt(m, h, w, 0, k, r, c);
      CopiedAt(done, mid, h, w, Block(0, w - k, h, k), tmp, h, k, Block(0, 0, h, k), r, c);
      if c < w - k {
        CopiedAt(mid, m, h, w, Block(0, 0, h, w - k), m, h, w, Block(0, k, h, w - k), r, c);
      } else {
        CopiedAt(tmp, tmp, h, k, Block(0, 0, h, k), m, h, w, Block(0, 0, h, k), r, c - (w - k));
      }
    }
    Everywhere(done, s, h, w);
  }

  /** Rows and columns shift independently. */
  lemma {:induction false} ShiftBoth<T>(m: seq<T>, h: nat, w: nat, dy: nat, dx: nat)
    requires |m| == h * w
    ensures Shift(Shift(m, h, w, dy, 0), h, w, 0, dx) == Shift(m, h, w, dy, dx)
  {
    hide Shift, Pos, Copied, Origin;
    var rows := Shift(m, h, w, dy, 0);
    var both, s := Shift(rows, h, w, 0, dx), Shift(m, h, w, dy, dx);
    forall r: nat, c: nat | r < h && c < w ensures At(both, h, w, r, c) == At(s, h, w, r, c) {
      ShiftedAt(rows, h, w, 0, dx, r, c);
      ShiftedAt(m, h, w, dy, 0, r, Origin(c, dx, w));
      ShiftedAt(m, h, w, dy, dx, r, c);
    }
    Everywhere(both, s, h, w);
  }

  /** The odd branch: swap the rows, then the columns. */
  method ShiftOdd<T>(data: array<T>, h: nat, w: nat, inverse: bool)
    requires data.Length == h * w
    modifies data
    ensures data[..] == Shifted(old(data[..]), h, w, inverse)
  {
    hide Shift, Copied;
    ghost var m := data[..];
    var topH := Half(h, inverse);
    var tmp := Clone(data, h, w, Block(0, 0, topH, w));
    Copy(data, h, w, Block(topH, 0, h - topH, w), data, h, w, Block(0, 0, h - topH, w));
    ghost var mid := data[..];
    Copy(tmp, topH, w, Block(0, 0, topH, w), data, h, w, Block(h - topH, 0, topH, w));
    SwapRows(m, tmp[..], mid, data[..], h, w, topH);

    ghost var rows := data[..];
    var leftW := Half(w, inverse);
    tmp := Clone(data, h, w, Block(0, 0, h, leftW));
    Copy(data, h, w, Block(0, leftW, h, w - leftW), data, h, w, Block(0, 0, h, w - leftW));
    mid := data[..];
    Copy(tmp, h, leftW, Block(0, 0, h, leftW), data, h, w, Block(0, w - leftW, h, leftW));
    SwapColumns(rows, tmp[..], mid, data[..], h, w, leftW);
    ShiftBoth(m, h, w, topH, leftW);
  }

  /** One entry of the four quadrants, copied as the code does: tl and br swapped, then tr and bl. */
  lemma {:induction false} QuadrantAt<T>(m: seq<T>, t1: seq<T>, m1: seq<T>, m2: seq<T>, t2: seq<T>, m3: seq<T>,
                                         done: seq<T>, h: nat, w: nat, r: nat, c: nat)
    requires |m| == |m1| == |m2| == |m3| == |done| == (2 * h) * (2 * w) && |t1| == |t2| == h * w
    requires Quadrants(m, t1, m1, m2, t2, m3, done, h, w) && r < 2 * h && c < 2 * w
    ensures At(done, 2 * h, 2 * w, r, c) ==
      At(m, 2 * h, 2 * w, if r < h then r + h else r - h, if c < w then c + w else c - w)
  {
    hide Copied, Pos, At;
    var hh, ww, all, tl, tr := 2 * h, 2 * w, Block(0, 0, h, w), Block(0, 0, h, w), Block(0, w, h, w);
    var bl, br := Block(h, 0, h, w), Block(h, w, h, w);
    CopiedAt(done, m3, hh, ww, bl, t2, h, w, all, r, c);
    CopiedAt(m3, m2, hh, ww, tr, m2, hh, ww, bl, r, c);
    if r < h && c < w {
      CopiedAt(m2, m1, hh, ww, br, t1, h, w, all, r, c);
      CopiedAt(m1, m, hh, ww, tl, m, hh, ww, br, r, c);
    } else if r >= h && c >= w {
      CopiedAt(m2, m1, hh, ww, br, t1, h, w, all, r, c);
      CopiedAt(t1, t1, h, w, all, m, hh, ww, tl, r - h, c - w);
    } else if r < h {
      CopiedAt(m2, m1, hh, ww, br, t1, h, w, all, r + h, c - w);
      CopiedAt(m1, m, hh, ww, tl, m, hh, ww, br, r + h, c - w);
    } else {
      CopiedAt(t2, t1, h, w, all, m2, hh, ww, tr, r - h, c);
      CopiedAt(m2, m1, hh, ww, br, t1, h, w, all, r - h, c + w);
      CopiedAt(m1, m, hh, ww, tl, m, hh, ww, br, r - h, c + w);
    }
  }

  ghost predicate Quadrants<T>(m: seq<T>, t1: seq<T>, m1: seq<T>, m2: seq<T>, t2: seq<T>, m3: seq<T>, done: seq<T>,
                               h: nat, w: nat)
    requires |m| == |m1| == |m2| == |m3| == |done| == (2 * h) * (2 * w) && |t1| == |t2| == h * w
  {
    var all, tl, tr := Block(0, 0, h, w), Block(0, 0, h, w), Block(0, w, h, w);
    var bl, br := Block(h, 0, h, w), Block(h, w, h, w);
    && Copied(t1, t1, h, w, all, m, 2 * h, 2 * w, tl)
    && Copied(m1, m, 2 * h, 2 * w, tl, m, 2 * h, 2 * w, br)
    && Copied(m2, m1, 2 * h, 2 * w, br, t1, h, w, all)
    && Copied(t2, t1, h, w, all, m2, 2 * h, 2 * w, tr)
    && Copied(m3, m2, 2 * h, 2 * w, tr, m2, 2 * h, 2 * w, bl)
    && Copied(done, m3, 2 * h, 2 * w, bl, t2, h, w, all)
  }

  lemma {:induction false} SwapQuadrants<T>(m: seq<T>, t1: seq<T>, m1: seq<T>, m2: seq<T>, t2: seq<T>, m3: seq<T>,
                                            done: seq<T>, h: nat, w: nat)
    requires |m| == |m1| == |m2| == |m3| == |done| == (2 * h) * (2 * w) && |t1| == |t2| == h * w
    requires Quadrants(m, t1, m1, m2, t2, m3, done, h, w)
    ensures done == Shift(m, 2 * h, 2 * w, h, w)
  {
    hide Shift, Pos, Quadrants, Copied, Origin;
    var s, hh, ww := Shift(m, 2 * h, 2 * w, h, w), 2 * h, 2 * w;
    forall r: nat, c: nat | r < hh && c < ww ensures At(done, hh, ww, r, c) == At(s, hh, ww, r, c) {
      ShiftedAt(m, hh, ww, h, w, r, c);
      QuadrantAt(m, t1, m1, m2, t2, m3, done, h, w, r, c);
    }
    Everywhere(done, s, hh, ww);
  }

  method ShiftEven<T>(data: array<T>, h: nat, w: nat)
    requires data.Length == (2 * h) * (2 * w)
    modifies data
    ensures data[..] == Shift(old(data[..]), 2 * h, 2 * w, h, w)
  {
    hide Shift, Copied;
    var all, tl, tr := Block(0, 0, h, w), Block(0, 0, h, w), Block(0, w, h, w);
    var bl, br := Block(h, 0, h, w), Block(h, w, h, w);
    ghost var m := data[..];
    var tmp := Clone(data, 2 * h, 2 * w, tl);
    ghost var t1 := tmp[..];
    Copy(data, 2 * h, 2 * w, br, data, 2 * h, 2 * w, tl);
    ghost var m1 := data[..];
    Copy(tmp, h, w, all, data, 2 * h, 2 * w, br);
    ghost var m2 := data[..];

    Copy(data, 2 * h, 2 * w, tr, tmp, h, w, all);
    ghost var t2 := tmp[..];
    Copy(data, 2 * h, 2 * w, bl, data, 2 * h, 2 * w, tr);
    ghost var m3 := data[..];
    Copy(tmp, h, w, all, data, 2 * h, 2 * w, bl);
    SwapQuadrants(m, t1, m1, m2, t2, m3, data[..], h, w);
  }

  /** Both branches perform the same cyclic shift, for any height and width. */
  method FftShiftInPlace<T>(data: array<T>, height: nat, width: nat, inverse: bool)
    requires data.Length == height * width
    modifies data
    ensures data[..] == Shifted(old(data[..]), height, width, inverse)
  {
    if height % 2 != 0 || width % 2 != 0 {
      ShiftOdd(data, height, width, inverse);
    } else {
      ShiftEven(data, height / 2, width / 2);
    }
  }
}
