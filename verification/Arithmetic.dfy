/** Division, remainders and row-major positions. */
module Arithmetic {
  lemma {:induction false} SmallMultiple(d: int, g: int)
    requires -g < g * d < g
    ensures d == 0
  {}

  lemma {:induction false} DivMod(q: nat, r: nat, g: nat)
    requires r < g
    ensures (q * g + r) / g == q && (q * g + r) % g == r
  {
    var n := q * g + r;
    assert g * (n / g - q) == r - n % g;
    SmallMultiple(n / g - q, g);
  }

  lemma {:induction false} Cancel(d: int, x: int, y: int)
    requires d > 0 && d * x < d * y + d
    ensures x <= y
  {
    assert d * (x - y - 1) == d * x - d * y - d;
    NegativeFactor(d, x - y - 1);
  }

  lemma {:induction false} NegativeFactor(d: int, k: int)
    requires d > 0 && d * k < 0
    ensures k < 0
  {}

  lemma {:induction false} Regroup(x: nat, y: nat, z: nat)
    ensures x * (y * z) == (x * y) * z
  {}

  lemma {:induction false} RowBound(h: nat, w: nat, r: nat)
    requires r < h
    ensures r * w + w <= h * w
  {
    RowsBelow(h - r - 1, w);
    assert h * w == (h - r - 1) * w + r * w + w;
  }

  lemma {:induction false} RowsBelow(rows: nat, w: nat)
    ensures rows * w >= 0
  {}

  /** The offset of row `r`, column `c` in an h by w matrix. */
  function Pos(h: nat, w: nat, r: nat, c: nat): (p: nat)
    requires r < h && c < w
    ensures p < h * w && p / w == r && p % w == c
  {
    RowBound(h, w, r);
    DivMod(r, c, w);
    r * w + c
  }

  function At<T>(m: seq<T>, h: nat, w: nat, r: nat, c: nat): T
    requires |m| == h * w && r < h && c < w
  {
    m[Pos(h, w, r, c)]
  }

  lemma {:induction false} RowOf(h: nat, w: nat, k: nat) returns (r: nat, c: nat)
    requires k < h * w
    ensures r < h && c < w && Pos(h, w, r, c) == k
  {
    assert w > 0;
    r, c := k / w, k % w;
    Cancel(w, r + 1, h);
  }

  /** Matrices equal at every row and column are equal. */
  lemma {:induction false} Everywhere<T>(a: seq<T>, b: seq<T>, h: nat, w: nat)
    requires |a| == |b| == h * w
    requires forall r: nat, c: nat :: r < h && c < w ==> At(a, h, w, r, c) == At(b, h, w, r, c)
    ensures a == b
  {
    forall k | 0 <= k < h * w ensures a[k] == b[k] {
      var r, c := RowOf(h, w, k);
      assert At(a, h, w, r, c) == At(b, h, w, r, c);
    }
  }
}
