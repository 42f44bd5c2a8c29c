/** KV-cache eviction, from kept groups to kept tokens: index expansion, trimming of the padding, the mask and
    masked_select. */
module EvictionMask {
  import opened Arithmetic
  import opened Eviction
  import opened Ranking

  /** _convert_group_indices before trimming: every token of every listed group. */
  function Expand(groups: seq<nat>, g: nat): (r: seq<nat>)
    requires g > 0
    ensures |r| == |groups| * g
  {
    seq(|groups| * g, k requires 0 <= k < |groups| * g => GroupToken(groups, g, k))
  }

  function GroupToken(groups: seq<nat>, g: nat, k: nat): nat
    requires g > 0 && k < |groups| * g
  {
    Cancel(g, k / g + 1, |groups|);
    groups[k / g] * g + k % g
  }

  /** ... and without the last `Padding` indices. */
  function TokenIndices(groups: seq<nat>, seqLen: nat, g: nat): seq<nat>
    requires g > 0
  {
    var all, pad := Expand(groups, g), Padding(seqLen, g);
    if |all| < pad then [] else all[..|all| - pad]
  }

  function Mask(indices: seq<nat>, n: nat): (m: seq<bool>)
    ensures |m| == n
    ensures forall i :: 0 <= i < n ==> (m[i] <==> i in indices)
  {
    seq(n, i => i in indices)
  }

  lemma {:induction false} BlockStart(q: nat, p: nat, g: nat)
    requires g > 0 && q < p
    ensures q * g + g <= p * g
  {
    var d: nat := p - q - 1;
    assert p * g == q * g + g + d * g;
    assert d * g >= 0;
  }

  /** The groups before the last listed one are kept whole; of the last listed group, all but the trimmed tokens. */
  lemma {:induction false} TokenKept(groups: seq<nat>, seqLen: nat, g: nat, m: nat, r: nat)
    requires g > 0 && m < |groups| && r < g && (m + 1 < |groups| || r < g - Padding(seqLen, g))
    ensures groups[m] * g + r in TokenIndices(groups, seqLen, g)
  {
    var k, pad := m * g + r, Padding(seqLen, g);
    DivMod(m, r, g);
    BlockStart(m, |groups|, g);
    if m + 1 < |groups| { BlockStart(m + 1, |groups|, g); }
    assert m * g + g == (m + 1) * g;
    assert k < |groups| * g - pad;
    assert TokenIndices(groups, seqLen, g)[k] == groups[m] * g + r;
  }

  /** Token `x` comes from the m-th listed group and is not trimmed. */
  predicate ComesFrom(groups: seq<nat>, g: nat, pad: nat, x: nat, m: nat)
    requires g > 0
  {
    m < |groups| && groups[m] == x / g && (m + 1 < |groups| || x % g < g - pad)
  }

  lemma {:induction false} TokenFrom(groups: seq<nat>, seqLen: nat, g: nat, x: nat) returns (m: nat)
    requires g > 0 && x in TokenIndices(groups, seqLen, g)
    ensures ComesFrom(groups, g, Padding(seqLen, g), x, m)
  {
    hide TokenIndices, Expand, Padding, ComesFrom, GroupToken;
    var k :| 0 <= k < |TokenIndices(groups, seqLen, g)| && TokenIndices(groups, seqLen, g)[k] == x;
    IndexToken(groups, seqLen, g, k);
    m := TokenOrigin(groups, g, Padding(seqLen, g), k);
  }

  lemma {:induction false} IndexToken(groups: seq<nat>, seqLen: nat, g: nat, k: nat)
    requires g > 0 && k < |TokenIndices(groups, seqLen, g)|
    ensures k < |groups| * g - Padding(seqLen, g) && k < |groups| * g
    ensures TokenIndices(groups, seqLen, g)[k] == GroupToken(groups, g, k)
  {
    hide Padding, GroupToken;
  }

  lemma {:induction false} TokenOrigin(groups: seq<nat>, g: nat, pad: nat, k: nat) returns (m: nat)
    requires g > 0 && pad < g && k < |groups| * g - pad
    ensures ComesFrom(groups, g, pad, GroupToken(groups, g, k), m)
  {
    m := k / g;
    var r, n := k % g, |groups|;
    Cancel(g, m + 1, n);
    DivMod(groups[m], r, g);
    if m + 1 == n { NextBlock(m, g); }
  }

  lemma {:induction false} NextBlock(m: nat, g: nat)
    ensures (m + 1) * g == m * g + g
  {}

  /** Every kept index is inside the cache exactly when there is no padding, or the padded group is listed last only. */
  lemma {:induction false} InRangeIff(groups: seq<nat>, seqLen: nat, g: nat)
    requires g > 0 && Below(groups, Groups(seqLen, g))
    ensures Below(TokenIndices(groups, seqLen, g), seqLen) <==>
      Padding(seqLen, g) == 0 || forall m :: 0 <= m < |groups| - 1 ==> groups[m] != Groups(seqLen, g) - 1
  {
    hide TokenIndices, Padding, Groups;
    var total, pad, idx := Groups(seqLen, g), Padding(seqLen, g), TokenIndices(groups, seqLen, g);
    if m: int :| pad > 0 && 0 <= m < |groups| - 1 && groups[m] + 1 == total {
      TokenKept(groups, seqLen, g, m, g - 1);
      TokenOutside(seqLen, g);
      assert groups[m] * g + (g - 1) in idx;
    } else {
      forall i | 0 <= i < |idx| ensures idx[i] < seqLen {
        var m := TokenFrom(groups, seqLen, g, idx[i]);
        TokenInside(idx[i], seqLen, g, m + 1 < |groups|);
      }
    }
  }

  lemma {:induction false} TokenOutside(seqLen: nat, g: nat)
    requires g > 0 && Padding(seqLen, g) > 0
    ensures (Groups(seqLen, g) - 1) * g + (g - 1) >= seqLen
  {
    GroupsTile(seqLen, g);
    var total := Groups(seqLen, g);
    assert (total - 1) * g + g == total * g;
  }

  lemma {:induction false} TokenInside(x: nat, seqLen: nat, g: nat, whole: bool)
    requires g > 0 && x / g < Groups(seqLen, g)
    requires whole ==> Padding(seqLen, g) == 0 || x / g != Groups(seqLen, g) - 1
    requires !whole ==> x % g < g - Padding(seqLen, g)
    ensures x < seqLen
  {
    var total, pad, q, r := Groups(seqLen, g), Padding(seqLen, g), x / g, x % g;
    GroupsTile(seqLen, g);
    assert x == q * g + r && r < g;
    hide Groups, Padding;
    BlockStart(q, total, g);
    NextBlock(total - 1, g);
    if q < total - 1 { BlockStart(q, total - 1, g); }
  }

  // ----- masked_select

  function MaskedSelect<T>(xs: seq<T>, mask: seq<bool>): seq<T>
    requires |xs| == |mask|
  {
    if xs == [] then []
    else
      var n := |xs| - 1;
      MaskedSelect(xs[..n], mask[..n]) + if mask[n] then [xs[n]] else []
  }

  function CountTrue(mask: seq<bool>): nat {
    if mask == [] then 0 else CountTrue(mask[..|mask| - 1]) + if mask[|mask| - 1] then 1 else 0
  }

  function Map<T, U>(f: T -> U, xs: seq<T>): (r: seq<U>)
    ensures |r| == |xs| && forall i :: 0 <= i < |r| ==> r[i] == f(xs[i])
  {
    seq(|xs|, i requires 0 <= i < |xs| => f(xs[i]))
  }

  lemma {:induction false} SelectCount<T>(xs: seq<T>, mask: seq<bool>)
    requires |xs| == |mask|
    ensures |MaskedSelect(xs, mask)| == CountTrue(mask)
  {
    if xs != [] { SelectCount(xs[..|xs| - 1], mask[..|xs| - 1]); }
  }

  lemma {:induction false} SelectMap<T, U>(f: T -> U, xs: seq<T>, mask: seq<bool>)
    requires |xs| == |mask|
    ensures MaskedSelect(Map(f, xs), mask) == Map(f, MaskedSelect(xs, mask))
  {
    if xs != [] {
      var n := |xs| - 1;
      SelectMap(f, xs[..n], mask[..n]);
      assert Map(f, xs)[..n] == Map(f, xs[..n]);
    }
  }

  lemma {:induction false} SelectAll<T>(xs: seq<T>, mask: seq<bool>)
    requires |xs| == |mask| && forall i :: 0 <= i < |mask| ==> mask[i]
    ensures MaskedSelect(xs, mask) == xs
  {
    if xs != [] { SelectAll(xs[..|xs| - 1], mask[..|xs| - 1]); }
  }

  lemma {:induction false} SelectSplit<T>(xs: seq<T>, mask: seq<bool>, k: nat)
    requires |xs| == |mask| && k <= |xs|
    ensures MaskedSelect(xs, mask) == MaskedSelect(xs[..k], mask[..k]) + MaskedSelect(xs[k..], mask[k..])
  {
    if k == |xs| {
      assert xs[..k] == xs && mask[..k] == mask;
    } else {
      var n := |xs| - 1;
      SelectSplit(xs[..n], mask[..n], k);
      assert xs[..n][..k] == xs[..k] && xs[..n][k..] == xs[k..][..n - k];
      assert mask[..n][..k] == mask[..k] && mask[..n][k..] == mask[k..][..n - k];
    }
  }

  lemma {:induction false} SelectAscending(xs: seq<nat>, mask: seq<bool>)
    requires |xs| == |mask| && Ascending(xs)
    ensures Ascending(MaskedSelect(xs, mask))
    ensures forall x :: x in MaskedSelect(xs, mask) ==> x in xs
  {
    if xs != [] {
      var n := |xs| - 1;
      SelectAscending(xs[..n], mask[..n]);
      var r := MaskedSelect(xs[..n], mask[..n]);
      assert forall x :: x in xs[..n] ==> x < xs[n];
      assert forall i :: 0 <= i < |r| ==> r[i] in r;
    }
  }

  lemma {:induction false} CountTrueSplit(a: seq<bool>, b: seq<bool>)
    ensures CountTrue(a + b) == CountTrue(a) + CountTrue(b)
  {
    if b == [] {
      assert a + b == a;
    } else {
      var n := |b| - 1;
      CountTrueSplit(a, b[..n]);
      assert (a + b)[..|a + b| - 1] == a + b[..n];
    }
  }

  lemma {:induction false} CountTrueConstant(mask: seq<bool>, b: bool)
    requires forall i :: 0 <= i < |mask| ==> mask[i] == b
    ensures CountTrue(mask) == if b then |mask| else 0
  {
    if mask != [] { CountTrueConstant(mask[..|mask| - 1], b); }
  }

  predicate ByGroup(mask: seq<bool>, g: nat, chosen: set<nat>)
    requires g > 0
  {
    forall k :: 0 <= k < |mask| ==> (mask[k] <==> k / g in chosen)
  }

  lemma {:induction false} LastBlock(mask: seq<bool>, v: nat, g: nat, chosen: set<nat>)
    requires g > 0 && v > 0 && |mask| == v * g && ByGroup(mask, g, chosen)
    ensures |mask| >= g && ByGroup(mask[..|mask| - g], g, chosen) && |mask[..|mask| - g]| == (v - 1) * g
    ensures CountTrue(mask[|mask| - g..]) == if v - 1 in chosen then g else 0
  {
    NextBlock(v - 1, g);
    var cut := (v - 1) * g;
    assert cut == |mask| - g;
    var last := mask[cut..];
    forall k | 0 <= k < |last| ensures last[k] == (v - 1 in chosen) {
      DivMod(v - 1, k, g);
      assert last[k] == mask[cut + k];
    }
    CountTrueConstant(last, v - 1 in chosen);
  }

  /** A mask made of whole groups keeps as many tokens as groups times the group size. */
  lemma {:induction false} CountGroups(mask: seq<bool>, v: nat, g: nat, chosen: set<nat>)
    requires g > 0 && |mask| == v * g && ByGroup(mask, g, chosen)
    ensures CountTrue(mask) == CountOver(v, chosen) * g
  {
    if v > 0 {
      hide ByGroup;
      LastBlock(mask, v, g, chosen);
      var cut := |mask| - g;
      CountGroups(mask[..cut], v - 1, g, chosen);
      CountTrueSplit(mask[..cut], mask[cut..]);
      assert mask == mask[..cut] + mask[cut..];
      NextBlock(CountOver(v - 1, chosen), g);
    }
  }
}
