/** X-Attention: top-p selection of key blocks for one row of block masses, with the first and diagonal blocks forced. */
module XAttention {
  import opened Ranking

  /** One row: the block masses, the chunk [current, current + chunk) it belongs to, its diagonal block, and the threshold. */
  datatype RowInput = RowInput(mass: seq<real>, current: nat, chunk: nat, diagonal: nat, threshold: real)

  predicate WellFormed(x: RowInput) {
    && |x.mass| >= 2 && x.current <= x.diagonal < x.current + x.chunk <= |x.mass|
    && 0.0 <= x.threshold <= 1.0
    && (forall j :: 0 <= j < |x.mass| ==> 0.0 <= x.mass[j] < 100000.0)
    && (forall j :: x.current + x.chunk <= j < |x.mass| ==> x.mass[j] == 0.0)
  }

  /** The first block is marked, then the chunk's columns are overwritten by the identity: in the first chunk the mark is
      lost again, except on the diagonal. */
  predicate Forced(x: RowInput, j: nat) {
    if x.current <= j < x.current + x.chunk then j == x.diagonal else j == 0
  }

  /** The masses without the forced blocks. */
  function Others(x: RowInput): (o: seq<real>)
    ensures |o| == |x.mass| && forall j :: 0 <= j < |o| ==> o[j] == if Forced(x, j) then 0.0 else x.mass[j]
  {
    seq(|x.mass|, j requires 0 <= j < |x.mass| => if Forced(x, j) then 0.0 else x.mass[j])
  }

  /** The keys the blocks are sorted by: forced blocks are lifted above all others. */
  function Keys(x: RowInput): (k: seq<real>)
    ensures |k| == |x.mass|
    ensures forall j :: 0 <= j < |k| ==> k[j] == if Forced(x, j) then 100000.0 * (1.0 + x.mass[j]) else x.mass[j]
  {
    seq(|x.mass|, j requires 0 <= j < |x.mass| =>
      if Forced(x, j) then 100000.0 * (1.0 + x.mass[j]) else x.mass[j])
  }

  function ForcedMass(x: RowInput, n: nat): real
    requires n <= |x.mass|
  {
    if n == 0 then 0.0 else ForcedMass(x, n - 1) + if Forced(x, n - 1) then x.mass[n - 1] else 0.0
  }

  function Total(s: seq<real>): real {
    if s == [] then 0.0 else Total(s[..|s| - 1]) + s[|s| - 1]
  }

  /** The values accumulated: nothing, the forced mass, then the other masses in descending order, but the last two. */
  function Accumulated(x: RowInput, byOther: seq<nat>): seq<real>
    requires |x.mass| >= 2 && |byOther| == |x.mass| && Below(byOther, |x.mass|)
  {
    [0.0, ForcedMass(x, |x.mass|)] + seq(|x.mass| - 2, k requires 0 <= k < |x.mass| - 2 => Others(x)[byOther[k]])
  }

  /** cumulative_sum_without_self at position `k`. */
  function Before(x: RowInput, byOther: seq<nat>, k: nat): real
    requires |x.mass| >= 2 && |byOther| == |x.mass| && Below(byOther, |x.mass|) && k < |x.mass|
  {
    if k == 0 then 0.0 else Total(Accumulated(x, byOther)[..k])
  }

  function Required(x: RowInput): real {
    Total(x.mass) * x.threshold
  }

  /** The possible results of the two sorts. */
  predicate Sorted(x: RowInput, byOther: seq<nat>, byKey: seq<nat>) {
    IsDescending(Others(x), byOther) && IsDescending(Keys(x), byKey)
  }

  /** The final mask of a row: forced blocks, the blocks of the sorted order reached before the required mass, the first
      block wherever that stops early, and nothing past the chunk. */
  predicate Selected(x: RowInput, byOther: seq<nat>, byKey: seq<nat>, j: nat)
    requires |x.mass| >= 2 && Sorted(x, byOther, byKey) && j < |x.mass|
  {
    && j < x.current + x.chunk
    && (Forced(x, j)
        || (exists k :: 0 <= k < |byKey| && byKey[k] == j && Before(x, byOther, k) < Required(x))
        || (j == 0 && exists k :: 0 <= k < |byKey| && Before(x, byOther, k) >= Required(x)))
  }

  function SelectedSet(x: RowInput, byOther: seq<nat>, byKey: seq<nat>): set<nat>
    requires |x.mass| >= 2 && Sorted(x, byOther, byKey)
  {
    set j: nat | j < |x.mass| && Selected(x, byOther, byKey, j)
  }

  // ----- the first block and the diagonal

  lemma {:induction false} FirstAndDiagonal(x: RowInput, byOther: seq<nat>, byKey: seq<nat>)
    requires WellFormed(x) && Sorted(x, byOther, byKey)
    ensures Selected(x, byOther, byKey, 0) && Selected(x, byOther, byKey, x.diagonal)
  {
    var k := Position(byKey, |x.mass|, 0);
    assert Before(x, byOther, k) < Required(x) || Before(x, byOther, k) >= Required(x);
  }

  // ----- sums

  lemma {:induction false} TotalIsOver(x: seq<real>, n: nat, s: set<nat>)
    requires n <= |x| && forall j :: 0 <= j < n ==> j in s
    ensures Total(x[..n]) == SumOver(x, n, s)
  {
    if n > 0 {
      TotalIsOver(x, n - 1, s);
      assert x[..n][..n - 1] == x[..n - 1];
    }
  }

  lemma {:induction false} SumAppend(vals: seq<real>, a: seq<nat>, b: seq<nat>)
    requires Below(a, |vals|) && Below(b, |vals|)
    ensures Below(a + b, |vals|) && Sum(vals, a + b) == Sum(vals, a) + Sum(vals, b)
  {
    if b == [] {
      assert a + b == a;
    } else {
      SumAppend(vals, a, b[..|b| - 1]);
      assert (a + b)[..|a + b| - 1] == a + b[..|b| - 1];
    }
  }

  lemma {:induction false} SumAgree(u: seq<real>, v: seq<real>, s: seq<nat>)
    requires Below(s, |u|) && Below(s, |v|) && forall k :: 0 <= k < |s| ==> u[s[k]] == v[s[k]]
    ensures Sum(u, s) == Sum(v, s)
  {
    if s != [] { SumAgree(u, v, s[..|s| - 1]); }
  }

  /** The accumulated sum is the forced mass and a prefix of the other masses in descending order. */
  lemma {:induction false} BeforeIs(x: RowInput, byOther: seq<nat>, k: nat)
    requires |x.mass| >= 2 && |byOther| == |x.mass| && Below(byOther, |x.mass|) && 2 <= k < |x.mass|
    ensures Before(x, byOther, k) == ForcedMass(x, |x.mass|) + Sum(Others(x), byOther[..k - 2])
    decreases k
  {
    var a := Accumulated(x, byOther);
    if k == 2 {
      assert a[..2] == [0.0, ForcedMass(x, |x.mass|)];
      assert a[..2][..1] == [0.0] && Total([0.0]) == 0.0;
      assert byOther[..0] == [];
    } else {
      BeforeIs(x, byOther, k - 1);
      assert a[..k][..k - 1] == a[..k - 1];
      assert byOther[..k - 2][..k - 3] == byOther[..k - 3];
    }
  }

  // ----- the forced blocks come first in the sorted order

  /** How many blocks are forced: the diagonal, and the first block unless it lies in the chunk. */
  function ForcedCount(x: RowInput): nat {
    if x.current == 0 then 1 else 2
  }

  lemma {:induction false} ForcedIff(x: RowInput, j: nat)
    requires WellFormed(x) && j < |x.mass|
    ensures Forced(x, j) <==> j == x.diagonal || (j == 0 && x.current > 0)
  {}

  lemma {:induction false} ForcedFirst(x: RowInput, byKey: seq<nat>, k: nat)
    requires WellFormed(x) && IsDescending(Keys(x), byKey) && k < |x.mass|
    ensures Forced(x, byKey[k]) <==> k < ForcedCount(x)
  {
    var d := Position(byKey, |x.mass|, x.diagonal);
    ForcedIff(x, byKey[k]);
    ForcedIff(x, byKey[0]);
    ForcedIff(x, byKey[1]);
    if x.current == 0 {
      Leads(x, byKey, d, 0);
    } else {
      var z := Position(byKey, |x.mass|, 0);
      Leads(x, byKey, d, z);
      Leads(x, byKey, z, d);
    }
  }

  /** A forced block is preceded by forced blocks only. */
  lemma {:induction false} Leads(x: RowInput, byKey: seq<nat>, p: nat, q: nat)
    requires WellFormed(x) && IsDescending(Keys(x), byKey) && p < |x.mass| && Forced(x, byKey[p])
    ensures forall k :: 0 <= k < p ==> Forced(x, byKey[k])
  {
    forall k | 0 <= k < p ensures Forced(x, byKey[k]) {
      assert Keys(x)[byKey[p]] <= Keys(x)[byKey[k]];
      Lifted(x.mass[byKey[p]]);
    }
  }

  lemma {:induction false} Lifted(m: real)
    requires m >= 0.0
    ensures 100000.0 * (1.0 + m) >= 100000.0
  {}

  // ----- the selected mass

  lemma {:induction false} OthersSum(x: RowInput, byKey: seq<nat>, i: nat, k: nat)
    requires WellFormed(x) && IsDescending(Keys(x), byKey) && ForcedCount(x) <= i <= k <= |x.mass|
    ensures Sum(Others(x), byKey[i..k]) == Sum(x.mass, byKey[i..k])
  {
    var s := byKey[i..k];
    forall m | 0 <= m < |s| ensures Others(x)[s[m]] == x.mass[s[m]] { ForcedFirst(x, byKey, i + m); }
    SumAgree(Others(x), x.mass, s);
  }

  /** The sorted order begins with the forced mass. */
  lemma {:induction false} PrefixMass(x: RowInput, byKey: seq<nat>, k: nat)
    requires WellFormed(x) && IsDescending(Keys(x), byKey) && ForcedCount(x) <= k <= |x.mass|
    ensures Sum(x.mass, byKey[..k]) == ForcedMass(x, |x.mass|) + Sum(Others(x), byKey[ForcedCount(x)..k])
  {
    var c := ForcedCount(x);
    ForcedPrefix(x, byKey, c);
    OthersSum(x, byKey, c, k);
    assert byKey[..k] == byKey[..c] + byKey[c..k];
    SumAppend(x.mass, byKey[..c], byKey[c..k]);
  }

  lemma {:induction false} OthersCarry(x: RowInput, byOther: seq<nat>, byKey: seq<nat>, k: nat)
    requires WellFormed(x) && Sorted(x, byOther, byKey) && 2 <= k < |x.mass|
    ensures Sum(Others(x), byKey[ForcedCount(x)..k]) >= Sum(Others(x), byOther[..k - 2])
  {
    hide Keys, Forced, IsDescending, IsTop, Sum, Distinct;
    SortedLengths(x, byOther, byKey);
    OtherTop(x, byKey, k - 2);
    SlicePrefix(byKey, ForcedCount(x), k, k - 2);
    TopPrefixCarries(Others(x), byOther, byKey[ForcedCount(x)..k], k - 2);
  }

  lemma {:induction false} SlicePrefix(s: seq<nat>, c: nat, k: nat, n: nat)
    requires c + n <= k <= |s|
    ensures s[c..k][..n] == s[c..c + n]
  {}

  lemma {:induction false} TopPrefixCarries(vals: seq<real>, order: seq<nat>, s: seq<nat>, n: nat)
    requires IsDescending(vals, order) && n <= |order| && n <= |s| && Below(s, |vals|) && IsTop(vals, n, s[..n])
    requires forall i :: 0 <= i < |vals| ==> vals[i] >= 0.0
    ensures Sum(vals, s) >= Sum(vals, order[..n])
  {
    PrefixDistinct(vals, order, n);
    TopSum(vals, n, s[..n], order[..n]);
    SumSplit(vals, s, n);
  }

  lemma {:induction false} PrefixDistinct(vals: seq<real>, order: seq<nat>, n: nat)
    requires IsDescending(vals, order) && n <= |order|
    ensures Distinct(order[..n]) && Below(order[..n], |vals|)
  {}

  lemma {:induction false} SumSplit(vals: seq<real>, s: seq<nat>, n: nat)
    requires Below(s, |vals|) && n <= |s| && forall i :: 0 <= i < |vals| ==> vals[i] >= 0.0
    ensures Sum(vals, s[..n]) <= Sum(vals, s)
  {
    assert s == s[..n] + s[n..];
    SumAppend(vals, s[..n], s[n..]);
    SumNonNegative(vals, s[n..]);
  }

  /** Everything reached before position `k` carries at least the sum accumulated there. */
  lemma {:induction false} PrefixCarries(x: RowInput, byOther: seq<nat>, byKey: seq<nat>, k: nat)
    requires WellFormed(x) && Sorted(x, byOther, byKey) && k < |x.mass|
    ensures Sum(x.mass, byKey[..k]) >= Before(x, byOther, k)
  {
    if k >= 2 {
      hide Before, ForcedMass, Keys, Forced;
      BeforeIs(x, byOther, k);
      PrefixMass(x, byKey, k);
      OthersCarry(x, byOther, byKey, k);
    } else {
      SumNonNegative(x.mass, byKey[..k]);
      if k == 1 { assert Accumulated(x, byOther)[..1] == [0.0] && Total([0.0]) == 0.0; }
    }
  }

  lemma {:induction false} ForcedPrefix(x: RowInput, byKey: seq<nat>, c: nat)
    requires WellFormed(x) && IsDescending(Keys(x), byKey) && c == ForcedCount(x)
    ensures Sum(x.mass, byKey[..c]) == ForcedMass(x, |x.mass|)
  {
    var s := byKey[..c];
    SumIsOver(x.mass, s);
    forall j: nat | j < |x.mass| ensures j in Elems(s) <==> Forced(x, j) {
      var m := Position(byKey, |x.mass|, j);
      ForcedFirst(x, byKey, m);
      assert m < c ==> s[m] == j;
    }
    ForcedOver(x, |x.mass|, Elems(s));
  }

  lemma {:induction false} ForcedOver(x: RowInput, n: nat, s: set<nat>)
    requires n <= |x.mass| && forall j: nat :: j < |x.mass| ==> (j in s <==> Forced(x, j))
    ensures ForcedMass(x, n) == SumOver(x.mass, n, s)
  {
    if n > 0 { ForcedOver(x, n - 1, s); }
  }

  lemma {:induction false} SliceDistinct(vals: seq<real>, order: seq<nat>, i: nat, k: nat)
    requires IsDescending(vals, order) && i <= k <= |vals|
    ensures |order| == |vals| && Distinct(order) && Below(order, |vals|)
    ensures Distinct(order[i..k]) && Below(order[i..k], |vals|)
  {}

  /** After the forced blocks the sorted order lists the largest of the others. */
  lemma {:induction false} OtherTop(x: RowInput, byKey: seq<nat>, n: nat)
    requires WellFormed(x) && IsDescending(Keys(x), byKey) && ForcedCount(x) + n <= |x.mass|
    ensures IsTop(Others(x), n, byKey[ForcedCount(x)..ForcedCount(x) + n])
  {
    hide Forced, WellFormed, Keys, ForcedCount, Others, IsDescending;
    var c := ForcedCount(x);
    SliceDistinct(Keys(x), byKey, c, c + n);
    var top := byKey[c..c + n];
    forall i, j | 0 <= i < n && 0 <= j < |x.mass| && j !in top ensures Others(x)[j] <= Others(x)[top[i]] {
      forall q | c <= q < c + n ensures byKey[q] in top { assert top[q - c] == byKey[q]; }
      var m := Position(byKey, |x.mass|, j);
      OtherOrder(x, byKey, c + i, m);
    }
  }

  lemma {:induction false} OtherOrder(x: RowInput, byKey: seq<nat>, p: nat, q: nat)
    requires WellFormed(x) && IsDescending(Keys(x), byKey) && ForcedCount(x) <= p < |x.mass| && q < |x.mass|
    requires q < ForcedCount(x) || q >= p
    ensures Others(x)[byKey[q]] <= Others(x)[byKey[p]]
  {
    ForcedFirst(x, byKey, p);
    ForcedFirst(x, byKey, q);
    if q > p { assert Keys(x)[byKey[q]] <= Keys(x)[byKey[p]]; }
  }

  /** The mass of the selected blocks. */
  function SelectedMass(x: RowInput, byOther: seq<nat>, byKey: seq<nat>): real
    requires |x.mass| >= 2 && Sorted(x, byOther, byKey)
  {
    SumOver(x.mass, |x.mass|, SelectedSet(x, byOther, byKey))
  }

  lemma {:induction false} SumOverMore(x: RowInput, n: nat, a: set<nat>, b: set<nat>)
    requires WellFormed(x) && n <= |x.mass|
    requires forall j: nat :: j < n && j in a ==> j in b || x.mass[j] == 0.0
    ensures SumOver(x.mass, n, a) <= SumOver(x.mass, n, b)
  {
    if n > 0 { SumOverMore(x, n - 1, a, b); }
  }

  /** The first position at which the required mass is reached, if any. */
  function Stop(x: RowInput, byOther: seq<nat>, k: nat): (s: nat)
    requires |x.mass| >= 2 && |byOther| == |x.mass| && Below(byOther, |x.mass|) && k <= |x.mass|
    ensures k <= s <= |x.mass|
    ensures forall i :: k <= i < s ==> Before(x, byOther, i) < Required(x)
    ensures s < |x.mass| ==> Before(x, byOther, s) >= Required(x)
    decreases |x.mass| - k
  {
    if k == |x.mass| || Before(x, byOther, k) >= Required(x) then k else Stop(x, byOther, k + 1)
  }

  /** The blocks reached in the sorted order are selected, as far as they carry any mass. */
  lemma {:induction false} ReachedSelected(x: RowInput, byOther: seq<nat>, byKey: seq<nat>, s: nat)
    requires WellFormed(x) && Sorted(x, byOther, byKey) && s <= |x.mass|
    requires forall i :: 0 <= i < s ==> Before(x, byOther, i) < Required(x)
    ensures Sum(x.mass, byKey[..s]) <= SelectedMass(x, byOther, byKey)
  {
    var prefix := byKey[..s];
    SumIsOver(x.mass, prefix);
    hide Before, Required, Forced, IsDescending;
    forall j: nat | j < |x.mass| && j in Elems(prefix)
      ensures j in SelectedSet(x, byOther, byKey) || x.mass[j] == 0.0
    {
      var k :| 0 <= k < s && prefix[k] == j;
      assert byKey[k] == j;
    }
    SumOverMore(x, |x.mass|, Elems(prefix), SelectedSet(x, byOther, byKey));
  }

  lemma {:induction false} StopCarries(x: RowInput, byOther: seq<nat>, byKey: seq<nat>)
    requires WellFormed(x) && Sorted(x, byOther, byKey)
    ensures Sum(x.mass, byKey[..Stop(x, byOther, 0)]) >= Required(x)
  {
    hide Before, Forced, Others, Keys, Required, Total, IsDescending, Accumulated;
    SortedLengths(x, byOther, byKey);
    var s := Stop(x, byOther, 0);
    if s < |x.mass| {
      PrefixCarries(x, byOther, byKey, s);
    } else {
      assert byKey[..s] == byKey;
      AllMass(x, byKey);
      RequiredAtMost(x);
    }
  }

  lemma {:induction false} SortedLengths(x: RowInput, byOther: seq<nat>, byKey: seq<nat>)
    requires Sorted(x, byOther, byKey)
    ensures |byOther| == |byKey| == |x.mass| && Below(byOther, |x.mass|) && Below(byKey, |x.mass|) && Distinct(byKey)
  {}

  lemma {:induction false} RequiredShare(x: RowInput)
    ensures Required(x) == x.threshold * Total(x.mass)
  {}

  lemma {:induction false} RequiredAtMost(x: RowInput)
    requires 0.0 <= x.threshold <= 1.0 && Total(x.mass) >= 0.0
    ensures Required(x) <= Total(x.mass)
  {
    Share(Total(x.mass), x.threshold);
  }

  /** The selected blocks carry at least the threshold's share of the row, include the first and the diagonal block, and
      none past the chunk. */
  lemma {:induction false} SelectionCarries(x: RowInput, byOther: seq<nat>, byKey: seq<nat>)
    requires WellFormed(x) && Sorted(x, byOther, byKey)
    ensures SelectedMass(x, byOther, byKey) >= x.threshold * Total(x.mass)
    ensures 0 in SelectedSet(x, byOther, byKey) && x.diagonal in SelectedSet(x, byOther, byKey)
    ensures forall j :: j in SelectedSet(x, byOther, byKey) ==> j < x.current + x.chunk
  {
    hide SelectedMass, Before, Forced, Others, Keys, Total, Required, IsDescending, Sum, Accumulated;
    RequiredShare(x);
    SortedLengths(x, byOther, byKey);
    FirstAndDiagonal(x, byOther, byKey);
    StopCarries(x, byOther, byKey);
    ReachedSelected(x, byOther, byKey, Stop(x, byOther, 0));
  }

  lemma {:induction false} Share(t: real, p: real)
    requires t >= 0.0 && 0.0 <= p <= 1.0
    ensures t * p <= t
  {
    assert t * (1.0 - p) >= 0.0;
  }

  lemma {:induction false} AllMass(x: RowInput, order: seq<nat>)
    requires WellFormed(x) && |order| == |x.mass| && Distinct(order) && Below(order, |x.mass|)
    ensures Sum(x.mass, order) == Total(x.mass) >= 0.0
  {
    SumIsOver(x.mass, order);
    SumNonNegative(x.mass, order);
    forall j | 0 <= j < |x.mass| ensures j in Elems(order) { var m := Position(order, |x.mass|, j); }
    TotalIsOver(x.mass, |x.mass|, Elems(order));
    assert x.mass[..|x.mass|] == x.mass;
  }

  /** And no more than needed: past the first chunk, what precedes the last block taken in the sorted order falls short of
      the required mass. */
  lemma {:induction false} SelectionTight(x: RowInput, byOther: seq<nat>, byKey: seq<nat>, k: nat)
    requires WellFormed(x) && Sorted(x, byOther, byKey) && x.current > 0 && 2 <= k < |x.mass|
    requires Selected(x, byOther, byKey, byKey[k]) && byKey[k] != 0
    ensures Sum(x.mass, byKey[..k]) < x.threshold * Total(x.mass)
  {
    hide Required, Total, Others, Keys, Accumulated;
    RequiredShare(x);
    ForcedFirst(x, byKey, k);
    assert Before(x, byOther, k) < Required(x);
    BeforeIs(x, byOther, k);
    PrefixMass(x, byKey, k);
    OtherTop(x, byKey, k - 2);
    PrefixIsTop(Others(x), byOther, k - 2);
    TopSum(Others(x), k - 2, byOther[..k - 2], byKey[2..k]);
  }

  // ----- the mask writes

  /** Marked after the first `k` positions of the sorted order were written. */
  ghost predicate Marked(x: RowInput, byOther: seq<nat>, byKey: seq<nat>, k: nat, j: nat)
    requires |x.mass| >= 2 && Sorted(x, byOther, byKey) && k <= |x.mass| && j < |x.mass|
  {
    || Forced(x, j)
    || (exists i :: 0 <= i < k && byKey[i] == j && Before(x, byOther, i) < Required(x))
    || (j == 0 && exists i :: 0 <= i < k && Before(x, byOther, i) >= Required(x))
  }

  lemma {:induction false} MarkedStep(x: RowInput, byOther: seq<nat>, byKey: seq<nat>, k: nat, j: nat)
    requires |x.mass| >= 2 && Sorted(x, byOther, byKey) && k < |x.mass| && j < |x.mass|
    ensures Marked(x, byOther, byKey, k + 1, j) <==>
      Marked(x, byOther, byKey, k, j)
      || j == (if Before(x, byOther, k) < Required(x) then byKey[k] else 0)
  {
    hide Before, Required, Forced, IsDescending;
  }

  lemma {:induction false} BeforeNext(x: RowInput, byOther: seq<nat>, k: nat)
    requires |x.mass| >= 2 && |byOther| == |x.mass| && Below(byOther, |x.mass|) && k + 1 < |x.mass|
    ensures Before(x, byOther, k + 1) == Before(x, byOther, k) + Accumulated(x, byOther)[k]
  {
    TotalStep(Accumulated(x, byOther), k);
  }

  lemma {:induction false} TotalStep(a: seq<real>, k: nat)
    requires k < |a|
    ensures Total(a[..k + 1]) == Total(a[..k]) + a[k] && Total(a[..0]) == 0.0
  {
    assert a[..k + 1][..k] == a[..k];
  }

  /** The causal branch for one row, given the results of its two sorts. */
  method FindBlocksRow(x: RowInput, byOther: seq<nat>, byKey: seq<nat>) returns (mask: array<bool>)
    requires |x.mass| >= 2 && x.current + x.chunk <= |x.mass| && Sorted(x, byOther, byKey)
    ensures fresh(mask) && mask.Length == |x.mass|
    ensures forall j: nat :: j < mask.Length ==> (mask[j] <==> Selected(x, byOther, byKey, j))
  {
    var n := |x.mass|;
    mask := new bool[n](_ => false);
    mask[0] := true;
    for j := x.current to x.current + x.chunk
      invariant forall i :: 0 <= i < n ==>
        (mask[i] <==> if x.current <= i < j then i == x.diagonal else i == 0)
    {
      mask[j] := j == x.diagonal;
    }
    var values, cumulative, required := Accumulated(x, byOther), 0.0, Required(x);
    hide Before, Forced, Required, Marked, Selected, Accumulated;
    StartMarked(x, byOther, byKey, mask);
    for k := 0 to n
      invariant k < n ==> cumulative == Before(x, byOther, k)
      invariant forall j: nat :: j < n ==> (mask[j] <==> Marked(x, byOther, byKey, k, j))
    {
      forall j: nat | j < n
        ensures Marked(x, byOther, byKey, k + 1, j) <==>
          Marked(x, byOther, byKey, k, j) || j == (if cumulative < required then byKey[k] else 0)
      {
        MarkedStep(x, byOther, byKey, k, j);
      }
      mask[if cumulative < required then byKey[k] else 0] := true;
      if k + 1 < n {
        BeforeNext(x, byOther, k);
        cumulative := cumulative + values[k];
      }
    }
    for j := x.current + x.chunk to n
      invariant forall i: nat :: i < n ==>
        (mask[i] <==> Marked(x, byOther, byKey, n, i) && !(x.current + x.chunk <= i < j))
    {
      mask[j] := false;
    }
    EndMarked(x, byOther, byKey);
  }

  lemma {:induction false} StartMarked(x: RowInput, byOther: seq<nat>, byKey: seq<nat>, mask: array<bool>)
    requires |x.mass| >= 2 && Sorted(x, byOther, byKey) && mask.Length == |x.mass|
    requires forall i :: 0 <= i < mask.Length ==>
      (mask[i] <==> if x.current <= i < x.current + x.chunk then i == x.diagonal else i == 0)
    ensures Before(x, byOther, 0) == 0.0
    ensures forall j: nat :: j < mask.Length ==> (mask[j] <==> Marked(x, byOther, byKey, 0, j))
  {}

  lemma {:induction false} EndMarked(x: RowInput, byOther: seq<nat>, byKey: seq<nat>)
    requires |x.mass| >= 2 && Sorted(x, byOther, byKey)
    ensures forall j: nat :: j < |x.mass| ==>
      (Selected(x, byOther, byKey, j) <==> Marked(x, byOther, byKey, |x.mass|, j) && j < x.current + x.chunk)
  {
    hide Before, Required, Forced;
  }
}
