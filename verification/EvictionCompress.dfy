/** KV-cache eviction, one compression: exactly which tokens survive. */
module EvictionCompress {
  import opened Arithmetic
  import opened Options
  import opened Eviction
  import opened Ranking
  import opened EvictionMask
  import opened EvictionSpec

  /** A selection of intermediate groups that fills the budget. */
  predicate FullSelection(c: Config, n: nat, chosen: seq<nat>) {
    && Validated(c) && n > c.recent + c.inter
    && |chosen| == c.inter / c.group && Distinct(chosen) && Below(chosen, IntermediateGroups(c, n))
  }

  function Indices(c: Config, n: nat, chosen: seq<nat>): seq<nat>
    requires c.group > 0
  {
    TokenIndices(KeptGroups(c, n, chosen), c.start + n, c.group)
  }

  /** The first token after the intermediate part. */
  function TailStart(c: Config, n: nat): nat
    requires c.group > 0
  {
    c.start + Product(IntermediateGroups(c, n), c.group)
  }

  lemma {:induction false} Offset(i: nat, a: nat, g: nat)
    requires g > 0
    ensures i >= a * g ==> i / g == a + (i - a * g) / g && i % g == (i - a * g) % g
    ensures i < a * g ==> i / g < a
  {
    if i >= a * g {
      var q, r := (i - a * g) / g, (i - a * g) % g;
      assert i == (a + q) * g + r;
      DivMod(a + q, r, g);
    } else {
      Cancel(g, i / g + 1, a);
    }
  }

  lemma {:induction false} PaddingAfterStart(c: Config, n: nat)
    requires Validated(c)
    ensures Padding(c.start + n, c.group) == Padding(n, c.group)
    ensures Groups(c.start + n, c.group) == c.start / c.group + Groups(n, c.group)
  {
    var a, g := c.start / c.group, c.group;
    Whole(c.start, g);
    Offset(c.start + n, a, g);
    Offset(c.start + n + Padding(n, g), a, g);
  }

  /** The frozen groups 0 to a - 1, the chosen ones, then the groups from a + v on. */
  predicate Listed(groups: seq<nat>, chosen: seq<nat>, a: nat, v: nat) {
    && a + |chosen| <= |groups|
    && (forall m :: 0 <= m < a ==> groups[m] == m)
    && (forall m :: a <= m < a + |chosen| ==> groups[m] == chosen[m - a] + a)
    && (forall m :: a + |chosen| <= m < |groups| ==> groups[m] == a + v + (m - a - |chosen|))
  }

  lemma {:induction false} GroupsListed(c: Config, n: nat, chosen: seq<nat>)
    requires c.group > 0
    ensures Listed(KeptGroups(c, n, chosen), chosen, c.start / c.group, IntermediateGroups(c, n))
    ensures |KeptGroups(c, n, chosen)| == c.start / c.group + |chosen| + c.recent / c.group
  {}

  lemma {:induction false} DivSplit(i: nat, g: nat)
    requires g > 0
    ensures i == (i / g) * g + i % g
  {}

  lemma {:induction false} StartKept(c: Config, n: nat, chosen: seq<nat>, i: nat)
    requires FullSelection(c, n, chosen) && c.recent > 0 && i < c.start
    ensures i in Indices(c, n, chosen)
  {
    Whole(c.start, c.group);
    Whole(c.recent, c.group);
    Offset(i, c.start / c.group, c.group);
    GroupsListed(c, n, chosen);
    DivSplit(i, c.group);
    hide KeptGroups, TokenIndices, IntermediateGroups;
    TokenKept(KeptGroups(c, n, chosen), c.start + n, c.group, i / c.group, i % c.group);
  }

  lemma {:induction false} RecentKept(c: Config, n: nat, chosen: seq<nat>, i: nat)
    requires FullSelection(c, n, chosen) && c.recent > 0 && TailStart(c, n) <= i < c.start + n
    ensures i in Indices(c, n, chosen)
  {
    var a, g, v := c.start / c.group, c.group, IntermediateGroups(c, n);
    RecentGroup(c, n, i);
    LastGroup(i, c.start + n, g);
    GroupsListed(c, n, chosen);
    DivSplit(i, g);
    hide KeptGroups, TokenIndices, IntermediateGroups, Padding, Groups;
    TokenKept(KeptGroups(c, n, chosen), c.start + n, g, i / g - v + |chosen|, i % g);
  }

  lemma {:induction false} RecentGroup(c: Config, n: nat, i: nat)
    requires Validated(c) && n > c.recent + c.inter && TailStart(c, n) <= i
    ensures i / c.group >= c.start / c.group + IntermediateGroups(c, n)
    ensures Groups(c.start + n, c.group) == c.start / c.group + IntermediateGroups(c, n) + c.recent / c.group
  {
    hide IntermediateGroups, Padding, Groups;
    Whole(c.start, c.group);
    AfterBlocks(i, c.start / c.group, IntermediateGroups(c, n), c.group);
    GroupsSplit(c, n);
  }

  lemma {:induction false} GroupsSplit(c: Config, n: nat)
    requires Validated(c) && n > c.recent + c.inter
    ensures Groups(c.start + n, c.group) == c.start / c.group + IntermediateGroups(c, n) + c.recent / c.group
  {
    PaddingAfterStart(c, n);
    SpareGroup(c, n);
  }

  lemma {:induction false} AfterBlocks(i: nat, a: nat, v: nat, g: nat)
    requires g > 0 && i >= a * g + v * g
    ensures i / g >= a + v
  {
    assert (a + v) * g == a * g + v * g;
    Offset(i, a + v, g);
  }

  lemma {:induction false} LastGroup(i: nat, seqLen: nat, g: nat)
    requires g > 0 && i < seqLen
    ensures i / g < Groups(seqLen, g)
    ensures i / g == Groups(seqLen, g) - 1 ==> i % g < g - Padding(seqLen, g)
  {
    var total := Groups(seqLen, g);
    GroupsTile(seqLen, g);
    Cancel(g, i / g + 1, total);
    if i / g == total - 1 { NextBlock(total - 1, g); }
  }

  lemma {:induction false} MiddleGroup(c: Config, n: nat, i: nat) returns (q: nat)
    requires Validated(c) && c.start <= i < TailStart(c, n)
    ensures q == (i - c.start) / c.group < IntermediateGroups(c, n)
    ensures i / c.group == c.start / c.group + q
  {
    hide IntermediateGroups;
    Whole(c.start, c.group);
    q := WithinBlocks(i, c.start / c.group, IntermediateGroups(c, n), c.group);
  }

  lemma {:induction false} WithinBlocks(i: nat, a: nat, v: nat, g: nat) returns (q: nat)
    requires g > 0 && a * g <= i < a * g + v * g
    ensures q == (i - a * g) / g < v && i / g == a + q
  {
    Offset(i, a, g);
    q := (i - a * g) / g;
    Cancel(g, q + 1, v);
  }

  lemma {:induction false} ChosenKept(c: Config, n: nat, chosen: seq<nat>, i: nat)
    requires FullSelection(c, n, chosen) && c.recent > 0 && c.start <= i < TailStart(c, n)
    requires (i - c.start) / c.group in chosen
    ensures i in Indices(c, n, chosen)
  {
    var a, g := c.start / c.group, c.group;
    var q := MiddleGroup(c, n, i);
    Whole(c.recent, g);
    GroupsListed(c, n, chosen);
    DivSplit(i, g);
    hide KeptGroups, TokenIndices, IntermediateGroups, Padding, Groups, TailStart;
    var j :| 0 <= j < |chosen| && chosen[j] == q;
    TokenKept(KeptGroups(c, n, chosen), c.start + n, g, a + j, i % g);
  }

  lemma {:induction false} MiddleListed(groups: seq<nat>, chosen: seq<nat>, a: nat, v: nat, m: nat, q: nat)
    requires Listed(groups, chosen, a, v) && m < |groups| && groups[m] == a + q && q < v
    ensures q in chosen
  {
    assert chosen[m - a] == q;
  }

  lemma {:induction false} KeptChosen(c: Config, n: nat, chosen: seq<nat>, i: nat)
    requires FullSelection(c, n, chosen) && c.recent > 0 && c.start <= i < TailStart(c, n)
    requires i in Indices(c, n, chosen)
    ensures (i - c.start) / c.group in chosen
  {
    var a, g, v := c.start / c.group, c.group, IntermediateGroups(c, n);
    var q := MiddleGroup(c, n, i);
    GroupsListed(c, n, chosen);
    hide KeptGroups, TokenIndices, IntermediateGroups, Padding, Groups, TailStart, FullSelection, Listed;
    var m := TokenFrom(KeptGroups(c, n, chosen), c.start + n, g, i);
    MiddleListed(KeptGroups(c, n, chosen), chosen, a, v, m, q);
  }

  /** With recent tokens, which hold the padded group and list it last. */
  lemma {:induction false} KeptWithRecent(c: Config, n: nat, chosen: seq<nat>)
    requires FullSelection(c, n, chosen) && c.recent > 0
    ensures Below(Indices(c, n, chosen), c.start + n)
    ensures forall i :: 0 <= i < c.start + n ==>
      (i in Indices(c, n, chosen) <==>
       i < c.start || i >= TailStart(c, n) || (i - c.start) / c.group in chosen)
  {
    KeptBelow(c, n, chosen);
    hide Indices, TailStart;
    forall i | 0 <= i < c.start + n
      ensures i in Indices(c, n, chosen) <==>
        i < c.start || i >= TailStart(c, n) || (i - c.start) / c.group in chosen
    {
      if i < c.start {
        StartKept(c, n, chosen, i);
      } else if i >= TailStart(c, n) {
        RecentKept(c, n, chosen, i);
      } else if (i - c.start) / c.group in chosen {
        ChosenKept(c, n, chosen, i);
      } else if i in Indices(c, n, chosen) {
        KeptChosen(c, n, chosen, i);
      }
    }
  }

  // ----- without recent tokens the padded group is an intermediate one

  /** The padded group is chosen, but not listed last. */
  predicate Misplaced(c: Config, n: nat, chosen: seq<nat>)
    requires c.group > 0
  {
    && c.recent == 0 && Padding(n, c.group) > 0
    && exists m :: 0 <= m < |chosen| - 1 && chosen[m] == IntermediateGroups(c, n) - 1
  }

  /** The padding is trimmed from the last listed group even where that is not the padded one. */
  predicate Trimmed(c: Config, n: nat, chosen: seq<nat>, x: nat)
    requires c.group > 0
  {
    && c.recent == 0 && chosen != [] && chosen[|chosen| - 1] != IntermediateGroups(c, n) - 1
    && x / c.group == chosen[|chosen| - 1] && x % c.group >= c.group - Padding(n, c.group)
  }

  predicate Survives(c: Config, n: nat, chosen: seq<nat>, i: nat)
    requires c.group > 0
  {
    || i < c.start || i >= TailStart(c, n)
    || ((i - c.start) / c.group in chosen && !Trimmed(c, n, chosen, i - c.start))
  }

  lemma {:induction false} NoRecentGroups(c: Config, n: nat)
    requires Validated(c) && n > c.inter && c.recent == 0
    ensures IntermediateGroups(c, n) == Groups(n, c.group) > 0 && c.recent / c.group == 0
    ensures Groups(c.start + n, c.group) == c.start / c.group + Groups(n, c.group)
    ensures Padding(c.start + n, c.group) == Padding(n, c.group) && TailStart(c, n) == c.start + n + Padding(n, c.group)
  {
    PaddingAfterStart(c, n);
    SpareGroup(c, n);
  }

  lemma {:induction false} MisplacedIff(c: Config, n: nat, chosen: seq<nat>)
    requires FullSelection(c, n, chosen) && c.recent == 0 && c.inter > 0
    ensures Below(Indices(c, n, chosen), c.start + n) <==> !Misplaced(c, n, chosen)
  {
    hide Padding, Groups, TokenIndices;
    NoRecentGroups(c, n);
    var groups, a, v := KeptGroups(c, n, chosen), c.start / c.group, IntermediateGroups(c, n);
    GroupsListed(c, n, chosen);
    assert |groups| == a + |chosen|;
    assert Below(groups, a + v);
    InRangeIff(groups, c.start + n, c.group);
    if m :| 0 <= m < |groups| - 1 && groups[m] == a + v - 1 {
      assert chosen[m - a] == v - 1;
    } else if m :| 0 <= m < |chosen| - 1 && chosen[m] == v - 1 {
      assert groups[a + m] == a + v - 1;
    }
  }

  /** Two groups of two kept out of five tokens, the padded one first: coarse, before the refined group 0. */
  lemma {:induction false} MisplacedPair(c: Config)
    requires c == Config(0, 0, 4, 2, 2, false, None, KvCrush, false)
    ensures FullSelection(c, 5, [2, 0]) && Misplaced(c, 5, [2, 0]) && !Below(Indices(c, 5, [2, 0]), 5)
  {
    var chosen := [2, 0];
    assert Padding(5, 2) == 1 && Groups(5, 2) == 3;
    assert IntermediateGroups(c, 5) == 3;
    assert chosen[0] == IntermediateGroups(c, 5) - 1;
    MisplacedIff(c, 5, chosen);
  }

  lemma {:induction false} BudgetListed(c: Config, n: nat, chosen: seq<nat>)
    requires FullSelection(c, n, chosen) && c.inter > 0
    ensures chosen != []
  {
    Whole(c.inter, c.group);
  }

  lemma {:induction false} StartKeptAlone(c: Config, n: nat, chosen: seq<nat>, i: nat)
    requires FullSelection(c, n, chosen) && c.recent == 0 && c.inter > 0 && i < c.start
    ensures i in Indices(c, n, chosen)
  {
    BudgetListed(c, n, chosen);
    Whole(c.start, c.group);
    Offset(i, c.start / c.group, c.group);
    GroupsListed(c, n, chosen);
    DivSplit(i, c.group);
    hide KeptGroups, TokenIndices, IntermediateGroups;
    TokenKept(KeptGroups(c, n, chosen), c.start + n, c.group, i / c.group, i % c.group);
  }

  /** Which listed group a token past the start belongs to. */
  lemma {:induction false} GroupAfterStart(c: Config, n: nat, i: nat)
    requires Validated(c) && c.recent == 0 && n > c.inter && c.start <= i < c.start + n
    ensures var q := (i - c.start) / c.group;
            && i / c.group == c.start / c.group + q && i % c.group == (i - c.start) % c.group
            && q < IntermediateGroups(c, n)
            && (q == IntermediateGroups(c, n) - 1 ==> i % c.group < c.group - Padding(n, c.group))
  {
    NoRecentGroups(c, n);
    Whole(c.start, c.group);
    Offset(i, c.start / c.group, c.group);
    hide Padding, Groups;
    LastGroup(i - c.start, n, c.group);
  }

  lemma {:induction false} ChosenAlone(c: Config, n: nat, chosen: seq<nat>, i: nat)
    requires FullSelection(c, n, chosen) && c.recent == 0 && c.inter > 0 && c.start <= i < c.start + n
    requires (i - c.start) / c.group in chosen && !Trimmed(c, n, chosen, i - c.start)
    ensures i in Indices(c, n, chosen)
  {
    var a, g, q := c.start / c.group, c.group, (i - c.start) / c.group;
    GroupAfterStart(c, n, i);
    NoRecentGroups(c, n);
    GroupsListed(c, n, chosen);
    DivSplit(i, g);
    var j :| 0 <= j < |chosen| && chosen[j] == q;
    hide KeptGroups, TokenIndices, IntermediateGroups, Padding, Groups;
    TokenKept(KeptGroups(c, n, chosen), c.start + n, g, a + j, i % g);
  }

  lemma {:induction false} AloneChosen(c: Config, n: nat, chosen: seq<nat>, i: nat)
    requires FullSelection(c, n, chosen) && c.recent == 0 && c.inter > 0 && c.start <= i < c.start + n
    requires i in Indices(c, n, chosen)
    ensures (i - c.start) / c.group in chosen && !Trimmed(c, n, chosen, i - c.start)
  {
    hide Trimmed, FullSelection, KeptGroups, TokenIndices, IntermediateGroups, Padding, Groups, Distinct, Listed;
    SelectionFacts(c, n, chosen);
    BudgetListed(c, n, chosen);
    GroupAfterStart(c, n, i);
    NoRecentGroups(c, n);
    GroupsListed(c, n, chosen);
    var groups, x := KeptGroups(c, n, chosen), i - c.start;
    var m := TokenFrom(groups, c.start + n, c.group, i);
    OriginListed(groups, chosen, c.start / c.group, IntermediateGroups(c, n), m, i, c.group, x / c.group);
    NotTrimmed(c, n, chosen, x);
  }

  lemma {:induction false} SelectionFacts(c: Config, n: nat, chosen: seq<nat>)
    requires FullSelection(c, n, chosen)
    ensures Validated(c) && n > c.recent + c.inter && Distinct(chosen) && Below(chosen, IntermediateGroups(c, n))
  {}

  lemma {:induction false} NotTrimmed(c: Config, n: nat, chosen: seq<nat>, x: nat)
    requires c.group > 0 && chosen != []
    requires chosen[|chosen| - 1] == x / c.group ==> x % c.group < c.group - Padding(n, c.group)
    ensures !Trimmed(c, n, chosen, x)
  {
    hide Padding, IntermediateGroups;
  }

  /** A token kept from the m-th listed group, past the frozen ones. */
  lemma {:induction false} OriginListed(groups: seq<nat>, chosen: seq<nat>, a: nat, v: nat, m: nat, i: nat, g: nat, q: nat)
    requires g > 0 && Listed(groups, chosen, a, v) && |groups| == a + |chosen| && Distinct(chosen)
    requires m < |groups| && groups[m] == i / g == a + q
    ensures q in chosen && (chosen[|chosen| - 1] == q ==> m + 1 == |groups|)
  {
    assert chosen[m - a] == q;
  }

  /** The kept tokens are the start tokens, the tokens of the chosen groups, and the recent ones, all in range; without
      recent tokens they are in range exactly if the padded group is not misplaced, and the group listed last loses as many
      tokens as the padded one lacks. */
  lemma {:induction false} KeptIff(c: Config, n: nat, chosen: seq<nat>)
    requires FullSelection(c, n, chosen) && c.recent + c.inter > 0
    ensures Below(Indices(c, n, chosen), c.start + n) <==> !Misplaced(c, n, chosen)
    ensures forall i :: 0 <= i < c.start + n ==> (i in Indices(c, n, chosen) <==> Survives(c, n, chosen, i))
  {
    if c.recent > 0 {
      KeptWithRecent(c, n, chosen);
    } else {
      MisplacedIff(c, n, chosen);
      NoRecentGroups(c, n);
      hide Indices, TailStart, Trimmed, Misplaced;
      forall i | 0 <= i < c.start + n ensures i in Indices(c, n, chosen) <==> Survives(c, n, chosen, i) {
        if i < c.start {
          StartKeptAlone(c, n, chosen, i);
        } else if (i - c.start) / c.group in chosen && !Trimmed(c, n, chosen, i - c.start) {
          ChosenAlone(c, n, chosen, i);
        } else if i in Indices(c, n, chosen) {
          AloneChosen(c, n, chosen, i);
        }
      }
    }
  }

  /** The tokens of consecutive groups from the first one are consecutive. */
  lemma {:induction false} FirstGroups(groups: seq<nat>, seqLen: nat, g: nat, k: nat)
    requires g > 0 && k < |TokenIndices(groups, seqLen, g)| && forall m :: 0 <= m < |groups| ==> groups[m] == m
    ensures TokenIndices(groups, seqLen, g)[k] == k
  {
    hide TokenIndices, Padding;
    IndexToken(groups, seqLen, g, k);
    Cancel(g, k / g + 1, |groups|);
    DivSplit(k, g);
  }

  /** With neither recent nor intermediate tokens, the padding is trimmed from the start tokens themselves. */
  lemma {:induction false} StartOnlyTrimmed(c: Config, n: nat, i: nat)
    requires Validated(c) && c.recent + c.inter == 0 && n > 0
    ensures i in Indices(c, n, []) <==> i < c.start - Padding(n, c.group)
  {
    var groups, idx := KeptGroups(c, n, []), Indices(c, n, []);
    PaddingAfterStart(c, n);
    Whole(c.start, c.group);
    GroupsListed(c, n, []);
    StartPart(c, n);
    hide KeptGroups, TokenIndices, Indices, Padding;
    forall k | 0 <= k < |idx| ensures idx[k] == k { FirstGroups(groups, c.start + n, c.group, k); }
    if i < |idx| { assert idx[i] == i; }
  }

  lemma {:induction false} StartPart(c: Config, n: nat)
    requires Validated(c) && c.recent + c.inter == 0 && n > 0
    ensures |Indices(c, n, [])| == c.start - Padding(n, c.group) && Padding(n, c.group) < c.start
    ensures Indices(c, n, []) == TokenIndices(KeptGroups(c, n, []), c.start + n, c.group)
  {
    PaddingAfterStart(c, n);
    Whole(c.start, c.group);
    BlockStart(0, c.start / c.group, c.group);
  }

  lemma {:induction false} KeptBelow(c: Config, n: nat, chosen: seq<nat>)
    requires FullSelection(c, n, chosen) && c.recent > 0
    ensures Below(Indices(c, n, chosen), c.start + n)
  {
    hide Padding, Groups, TokenIndices;
    var groups := KeptGroups(c, n, chosen);
    var a, v, rec := c.start / c.group, IntermediateGroups(c, n), c.recent / c.group;
    PaddingAfterStart(c, n);
    SpareGroup(c, n);
    Whole(c.recent, c.group);
    assert Groups(c.start + n, c.group) == a + v + rec && rec > 0;
    forall m | 0 <= m < |groups| ensures groups[m] <= a + v + rec - 1 && (m < |groups| - 1 ==> groups[m] < a + v + rec - 1) {
    }
    InRangeIff(groups, c.start + n, c.group);
  }

  // ----- the compressed cache

  function Middle(c: Config, n: nat, mask: seq<bool>): seq<bool>
    requires c.group > 0 && c.start <= TailStart(c, n) <= |mask|
  {
    mask[c.start..TailStart(c, n)]
  }

  /** The mask of a full selection. */
  predicate MaskFits(c: Config, n: nat, chosen: seq<nat>, mask: seq<bool>) {
    && c.group > 0 && |mask| == c.start + n
    && forall i :: 0 <= i < |mask| ==> (mask[i] <==> Survives(c, n, chosen, i))
  }

  /** With recent tokens: everything at both ends, whole chosen groups between them. */
  lemma {:induction false} MaskParts(c: Config, n: nat, chosen: seq<nat>, mask: seq<bool>)
    requires FullSelection(c, n, chosen) && c.recent > 0 && MaskFits(c, n, chosen, mask)
    ensures TailStart(c, n) <= |mask| && (forall i :: 0 <= i < c.start ==> mask[i])
    ensures forall i :: TailStart(c, n) <= i < |mask| ==> mask[i]
    ensures ByGroup(mask[c.start..TailStart(c, n)], c.group, Elems(chosen))
  {
    TailSize(c, n);
    hide TailStart;
    var middle := mask[c.start..TailStart(c, n)];
    forall k | 0 <= k < |middle| ensures middle[k] <==> k / c.group in Elems(chosen) {
      assert middle[k] == mask[c.start + k];
    }
  }

  lemma {:induction false} MaskOf(c: Config, n: nat, chosen: seq<nat>)
    requires FullSelection(c, n, chosen) && c.recent + c.inter > 0
    ensures MaskFits(c, n, chosen, Mask(Indices(c, n, chosen), c.start + n))
  {
    KeptIff(c, n, chosen);
    hide Indices, Survives;
  }

  /** The recent part that survives: the recent tokens, less the padding of the last group. */
  lemma {:induction false} TailSize(c: Config, n: nat)
    requires Validated(c) && n > c.recent + c.inter
    ensures c.start + n - TailStart(c, n) == c.recent - Padding(n, c.group)
    ensures c.recent > 0 ==> TailStart(c, n) <= c.start + n && Padding(n, c.group) < c.recent
    ensures TailStart(c, n) - c.start == IntermediateGroups(c, n) * c.group >= c.inter
  {
    SpareGroup(c, n);
    Whole(c.recent, c.group);
    Whole(c.inter, c.group);
    if c.recent > 0 { BlockStart(0, c.recent / c.group, c.group); }
    BlockStart(c.inter / c.group, IntermediateGroups(c, n), c.group);
  }

  /** With recent tokens, a row keeps its start, a budget of intermediate entries in their old order, and its tail. */
  lemma {:induction false} SelectRecent<T>(c: Config, n: nat, chosen: seq<nat>, xs: seq<T>, mask: seq<bool>)
    requires FullSelection(c, n, chosen) && c.recent > 0 && MaskFits(c, n, chosen, mask) && |xs| == |mask|
    ensures c.start <= TailStart(c, n) <= |xs|
    ensures MaskedSelect(xs, mask) == xs[..c.start] + MaskedSelect(xs[c.start..], mask[c.start..])
    ensures MaskedSelect(xs[c.start..], mask[c.start..]) ==
      MaskedSelect(xs[c.start..TailStart(c, n)], Middle(c, n, mask)) + xs[TailStart(c, n)..]
    ensures |MaskedSelect(xs[c.start..TailStart(c, n)], Middle(c, n, mask))| == c.inter
  {
    MaskParts(c, n, chosen, mask);
    TailSize(c, n);
    hide ByGroup, Indices, Validated, Distinct, Below, IntermediateGroups, Product, MaskFits;
    var t := TailStart(c, n);
    ThreeParts(xs, mask, c.start, t);
    SelectCount(xs[c.start..t], mask[c.start..t]);
    MiddleCount(c, n, chosen, mask[c.start..t]);
  }

  /** A mask true at both ends selects the ends whole. */
  lemma {:induction false} ThreeParts<T>(xs: seq<T>, mask: seq<bool>, s: nat, t: nat)
    requires |xs| == |mask| && s <= t <= |xs|
    requires (forall i :: 0 <= i < s ==> mask[i]) && (forall i :: t <= i < |mask| ==> mask[i])
    ensures MaskedSelect(xs, mask) == xs[..s] + MaskedSelect(xs[s..], mask[s..])
    ensures MaskedSelect(xs[s..], mask[s..]) == MaskedSelect(xs[s..t], mask[s..t]) + xs[t..]
  {
    hide MaskedSelect;
    SelectSplit(xs, mask, s);
    SelectAll(xs[..s], mask[..s]);
    SelectSplit(xs[s..], mask[s..], t - s);
    assert xs[s..][..t - s] == xs[s..t] && mask[s..][..t - s] == mask[s..t];
    assert xs[s..][t - s..] == xs[t..] && mask[s..][t - s..] == mask[t..];
    SelectAll(xs[t..], mask[t..]);
  }

  /** The whole chosen groups, the padding of the last one included. */
  function WholeGroups(c: Config, n: nat, chosen: seq<nat>): (r: seq<bool>)
    requires c.group > 0
    ensures |r| == Product(IntermediateGroups(c, n), c.group)
    ensures forall k :: 0 <= k < |r| ==> (r[k] <==> k / c.group in chosen)
  {
    seq(Product(IntermediateGroups(c, n), c.group), k requires 0 <= k => k / c.group in chosen)
  }

  /** Clearing a run of marks. */
  lemma {:induction false} ClearRun(a: seq<bool>, b: seq<bool>, lo: nat, hi: nat)
    requires |a| == |b| && lo <= hi <= |a|
    requires forall k :: 0 <= k < |a| ==> if lo <= k < hi then a[k] && !b[k] else a[k] == b[k]
    ensures CountTrue(a) == CountTrue(b) + (hi - lo)
  {
    var a1, a2, a3 := a[..lo], a[lo..hi], a[hi..];
    var b2 := b[lo..hi];
    assert a == (a1 + a2) + a3 && b == (a1 + b2) + a3;
    CountTrueSplit(a1 + a2, a3);
    CountTrueSplit(a1, a2);
    CountTrueSplit(a1 + b2, a3);
    CountTrueSplit(a1, b2);
    CountTrueConstant(a2, true);
    CountTrueConstant(b2, false);
  }

  /** The marks of the padded group past the end of the row. */
  lemma {:induction false} PaddedMarks(c: Config, n: nat, chosen: seq<nat>)
    requires FullSelection(c, n, chosen) && c.recent == 0
    ensures var all := WholeGroups(c, n, chosen);
            && n <= |all| == n + Padding(n, c.group)
            && CountTrue(all[..n]) + (if IntermediateGroups(c, n) - 1 in chosen then Padding(n, c.group) else 0) == c.inter
  {
    hide Padding, Groups, IntermediateGroups, FullSelection, WholeGroups;
    WholeCount(c, n, chosen);
    var all := WholeGroups(c, n, chosen);
    var front, back := all[..n], all[n..];
    CountTrueSplit(front, back);
    assert all == front + back;
    PaddingMarks(c, n, chosen);
    CountTrueConstant(back, IntermediateGroups(c, n) - 1 in chosen);
  }

  lemma {:induction false} WholeCount(c: Config, n: nat, chosen: seq<nat>)
    requires FullSelection(c, n, chosen) && c.recent == 0
    ensures var all := WholeGroups(c, n, chosen); |all| == n + Padding(n, c.group) && CountTrue(all) == c.inter
    ensures c.group > 0 && n > 0
  {
    hide Padding, Groups, IntermediateGroups;
    NoRecentGroups(c, n);
    GroupsTile(n, c.group);
    MiddleCount(c, n, chosen, WholeGroups(c, n, chosen));
  }

  /** The padding belongs to the last group. */
  lemma {:induction false} PaddingMarks(c: Config, n: nat, chosen: seq<nat>)
    requires FullSelection(c, n, chosen) && c.recent == 0
    ensures var all := WholeGroups(c, n, chosen);
            |all| == n + Padding(n, c.group)
            && forall k :: 0 <= k < |all| - n ==> all[n..][k] == (IntermediateGroups(c, n) - 1 in chosen)
  {
    hide Padding, Groups, IntermediateGroups;
    WholeCount(c, n, chosen);
    NoRecentGroups(c, n);
    var all := WholeGroups(c, n, chosen);
    forall k | 0 <= k < |all| - n ensures all[n..][k] == (IntermediateGroups(c, n) - 1 in chosen) {
      PaddedGroup(n, c.group, n + k);
      assert all[n..][k] == all[n + k];
    }
  }

  lemma {:induction false} PaddedGroup(n: nat, g: nat, k: nat)
    requires g > 0 && n > 0 && n <= k < n + Padding(n, g)
    ensures k / g == Groups(n, g) - 1
  {
    var total := Groups(n, g);
    GroupsTile(n, g);
    DivSplit(k, g);
    NextBlock(total - 1, g);
    if k / g < total - 1 { BlockStart(k / g, total - 1, g); }
    if k / g > total - 1 { BlockStart(total - 1, k / g, g); }
  }

  /** Without recent tokens a compression keeps the budget less the padding, whichever group is listed last. */
  lemma {:induction false} CountAlone(c: Config, n: nat, chosen: seq<nat>, mask: seq<bool>)
    requires FullSelection(c, n, chosen) && c.recent == 0 && c.inter > 0 && MaskFits(c, n, chosen, mask)
    requires !Misplaced(c, n, chosen)
    ensures CountTrue(mask[c.start..]) == c.inter - Padding(n, c.group)
  {
    var all, v, g, pad := WholeGroups(c, n, chosen), IntermediateGroups(c, n), c.group, Padding(n, c.group);
    PaddedMarks(c, n, chosen);
    NoRecentGroups(c, n);
    BudgetListed(c, n, chosen);
    var rest := mask[c.start..];
    var q := chosen[|chosen| - 1];
    forall k | 0 <= k < n ensures rest[k] == (all[k] && !Trimmed(c, n, chosen, k)) {
      assert rest[k] == mask[c.start + k];
    }
    if q == v - 1 || pad == 0 {
      assert rest == all[..n];
      if q != v - 1 { assert pad == 0; }
    } else {
      assert v - 1 !in chosen;
      TrimmedRun(c, n, chosen, all[..n], rest);
    }
  }

  lemma {:induction false} TrimmedRun(c: Config, n: nat, chosen: seq<nat>, all: seq<bool>, rest: seq<bool>)
    requires FullSelection(c, n, chosen) && c.recent == 0 && chosen != [] && |all| == |rest| == n
    requires chosen[|chosen| - 1] != IntermediateGroups(c, n) - 1
    requires forall k :: 0 <= k < n ==> (all[k] <==> k / c.group in chosen)
    requires forall k :: 0 <= k < n ==> rest[k] == (all[k] && !Trimmed(c, n, chosen, k))
    ensures CountTrue(all) == CountTrue(rest) + Padding(n, c.group)
  {
    var g, q, pad := c.group, chosen[|chosen| - 1], Padding(n, c.group);
    NoRecentGroups(c, n);
    GroupsTile(n, g);
    assert q < Groups(n, g) - 1;
    BlockStart(q, Groups(n, g) - 1, g);
    NextBlock(Groups(n, g) - 1, g);
    var lo: nat := q * g + (g - pad);
    forall k: nat | k < n ensures lo <= k < lo + pad <==> k / g == q && k % g >= g - pad {
      InRun(k, q, pad, g);
    }
    hide Padding, Groups, IntermediateGroups;
    ClearRun(all, rest, lo, lo + pad);
  }

  lemma {:induction false} InRun(k: nat, q: nat, pad: nat, g: nat)
    requires g > 0 && pad < g
    ensures q * g + (g - pad) <= k < q * g + g <==> k / g == q && k % g >= g - pad
  {
    DivSplit(k, g);
    if k / g < q { BlockStart(k / g, q, g); }
    if k / g > q { BlockStart(q, k / g, g); }
  }

  /** What a compression leaves of any row of the layer: its start, and of the rest the budget less the padding of the last
      group, in the old order. */
  lemma {:induction false} SelectParts<T>(c: Config, n: nat, chosen: seq<nat>, xs: seq<T>, mask: seq<bool>)
    requires FullSelection(c, n, chosen) && c.recent + c.inter > 0 && MaskFits(c, n, chosen, mask) && |xs| == |mask|
    requires !Misplaced(c, n, chosen)
    ensures MaskedSelect(xs, mask) == xs[..c.start] + MaskedSelect(xs[c.start..], mask[c.start..])
    ensures |MaskedSelect(xs[c.start..], mask[c.start..])| == c.recent + c.inter - Padding(n, c.group)
  {
    if c.recent > 0 {
      SelectRecent(c, n, chosen, xs, mask);
      TailSize(c, n);
    } else {
      CountAlone(c, n, chosen, mask);
      hide Padding, Indices, FullSelection, Misplaced, TailStart, Trimmed;
      SelectSplit(xs, mask, c.start);
      SelectAll(xs[..c.start], mask[..c.start]);
      SelectCount(xs[c.start..], mask[c.start..]);
    }
  }

  lemma {:induction false} MiddleCount(c: Config, n: nat, chosen: seq<nat>, mask: seq<bool>)
    requires FullSelection(c, n, chosen)
    requires |mask| == IntermediateGroups(c, n) * c.group && ByGroup(mask, c.group, Elems(chosen))
    ensures CountTrue(mask) == c.inter
  {
    var v := IntermediateGroups(c, n);
    CountGroups(mask, v, c.group, Elems(chosen));
    CountChosen(chosen, v);
    Whole(c.inter, c.group);
  }

  lemma {:induction false} CountChosen(s: seq<nat>, n: nat)
    requires Distinct(s) && Below(s, n)
    ensures CountOver(n, Elems(s)) == |s|
  {
    var zeros := seq(n, _ => 0.0);
    SumIsOver(zeros, s);
  }

  /** The choices of a compression fill its budget. */
  lemma {:induction false} ChosenFill(c: Config, l: Layer, pick: Pick)
    requires Compressible(c, l) && PickOk(c, Intermediate(c, l), pick)
    requires Refines(c, l, pick) ==> c.refinement != NoRefinement
    ensures FullSelection(c, |l.scores|, ChosenGroups(c, l, pick))
  {
    var vals := Intermediate(c, l);
    SpareGroup(c, |l.scores|);
    hide Intermediate, Picked, IsArgsort, RefinedTokens, IntermediateGroups;
    SelectionSplits(c, vals, pick, CoarseCount(c, vals, pick), RefinedCount(c, vals, pick));
  }

  predicate CompressedTo(c: Config, l: Layer, mask: seq<bool>, r: Layer)
    requires c.start <= |l.cache| == |mask| && |l.scores| == |l.cache| - c.start
    requires c.normalize ==> |l.counter| == |l.scores|
  {
    && r.seen == l.seen && r.cache == MaskedSelect(l.cache, mask)
    && r.scores == MaskedSelect(l.scores, mask[c.start..])
    && r.counter == if c.normalize then MaskedSelect(l.counter, mask[c.start..]) else []
  }

  predicate Unrefinable(c: Config) {
    c.refinement == NoRefinement && c.refined > 0
  }

  /** The choices of this compression misplace the padded group. */
  predicate MisplacedBy(c: Config, l: Layer, pick: Pick)
    requires Compressible(c, l) && PickOk(c, Intermediate(c, l), pick)
  {
    (Refines(c, l, pick) ==> c.refinement != NoRefinement) && Misplaced(c, |l.scores|, ChosenGroups(c, l, pick))
  }

  /** The error of a compression: refinement without an algorithm, by KVCrush per token, or by DiverseKV where the scored
      part is padded and no recent tokens hold the padding; else a misplaced padded group. */
  function Breakage(c: Config, l: Layer, pick: Pick): Option<Error>
    requires Compressible(c, l) && PickOk(c, Intermediate(c, l), pick)
  {
    if Unrefinable(c) then Some(NoRefinementAlgorithm)
    else if Refines(c, l, pick) && c.refinement == KvCrush && c.perToken then Some(RankMismatch)
    else if Refines(c, l, pick) && c.refinement == DiverseKv && c.recent == 0 && Padding(|l.scores|, c.group) > 0
    then Some(MaskMismatch)
    else if MisplacedBy(c, l, pick) then Some(IndexOutOfRange)
    else None
  }

  /** What a compression yields: its error, or else one mask of a full selection applied to the cache, the scores and the
      counters. */
  predicate CompressesTo(c: Config, l: Layer, pick: Pick, chosen: seq<nat>, mask: seq<bool>, out: Outcome)
    requires Compressible(c, l) && PickOk(c, Intermediate(c, l), pick)
  {
    match Breakage(c, l, pick)
    case Some(error) => out == Failed(error)
    case None =>
      && FullSelection(c, |l.scores|, chosen) && MaskFits(c, |l.scores|, chosen, mask) && !Misplaced(c, |l.scores|, chosen)
      && out.Live? && |mask| == |l.cache| && CompressedTo(c, l, mask, out.layer)
  }

  /** The intermediate groups reach past the scored tokens exactly if the padded group is one of them. */
  lemma {:induction false} PaddedIff(c: Config, n: nat)
    requires Validated(c) && n > c.recent + c.inter
    ensures Product(IntermediateGroups(c, n), c.group) > n <==> c.recent == 0 && Padding(n, c.group) > 0
  {
    SpareGroup(c, n);
    Whole(c.recent, c.group);
    if c.recent > 0 { BlockStart(0, c.recent / c.group, c.group); }
  }

  lemma {:induction false} CompressIff(c: Config, l: Layer, pick: Pick) returns (chosen: seq<nat>, mask: seq<bool>)
    requires Compressible(c, l) && PickOk(c, Intermediate(c, l), pick) && c.recent + c.inter > 0
    ensures CompressesTo(c, l, pick, chosen, mask, Compress(c, l, pick))
    ensures Breakage(c, l, pick).None? ==>
      (Refines(c, l, pick) ==> c.refinement != NoRefinement) && chosen == ChosenGroups(c, l, pick)
  {
    hide MaskFits, FullSelection, ChosenGroups, PickOk, TokenIndices, KeptGroups, Misplaced, Survives, RefinementOf,
      Refines, Breakage, Intermediate;
    chosen, mask := [], [];
    RefinementBreaks(c, l, pick);
    if RefinementOf(c, l, pick).None? {
      ChosenFill(c, l, pick);
      chosen := ChosenGroups(c, l, pick);
      KeptIff(c, |l.scores|, chosen);
      MaskOf(c, |l.scores|, chosen);
      mask := Mask(Indices(c, |l.scores|, chosen), |l.cache|);
    }
  }

  /** The shapes the refinement compares, and which inputs make them differ. */
  lemma {:induction false} RefinementBreaks(c: Config, l: Layer, pick: Pick)
    requires Compressible(c, l) && PickOk(c, Intermediate(c, l), pick)
    ensures var e := RefinementOf(c, l, pick);
            && Breakage(c, l, pick)
               == (if e.Some? then e else if MisplacedBy(c, l, pick) then Some(IndexOutOfRange) else None)
            && (e.None? && Refines(c, l, pick) ==> c.refinement != NoRefinement)
  {
    hide PickOk, Misplaced, ChosenGroups, Intermediate, RefinedCount, Padding, IntermediateGroups, Product;
    RefinedWhole(c, Intermediate(c, l), pick);
    PaddedIff(c, |l.scores|);
  }

  /** Five tokens, three groups, one coarse and one refined: both are whole, but DiverseKV masks five similarities by six
      scores. */
  lemma {:induction false} DiversePadded(c: Config, l: Layer, pick: Pick)
    requires c == Config(0, 0, 4, 2, 2, false, None, DiverseKv, false)
    requires l == Layer([0, 1, 2, 3, 4], 5, [0.0, 0.0, 0.0, 0.0, 0.0], [])
    requires pick == Pick([0, 1, 2], [0], [0.0, 0.0, 0.0], [1])
    ensures Compressible(c, l) && PickOk(c, Intermediate(c, l), pick)
    ensures Compress(c, l, pick) == Failed(MaskMismatch) && Below(Indices(c, 5, [0, 1]), 5)
  {
    hide PickOk, Picked, Intermediate, MisplacedBy, GroupSum, TokenIndices, KeptGroups, Compress;
    DiverseGroups(c, l);
    DiversePick(c, [0.0, 0.0, 0.0], pick);
    MisplacedIff(c, 5, [0, 1]);
    assert Breakage(c, l, pick) == Some(MaskMismatch);
    var chosen, mask := CompressIff(c, l, pick);
  }

  lemma {:induction false} DiverseGroups(c: Config, l: Layer)
    requires c == Config(0, 0, 4, 2, 2, false, None, DiverseKv, false)
    requires l == Layer([0, 1, 2, 3, 4], 5, [0.0, 0.0, 0.0, 0.0, 0.0], [])
    ensures Padding(5, 2) == 1 && IntermediateGroups(c, 5) == 3 && Intermediate(c, l) == [0.0, 0.0, 0.0]
  {
    assert Padding(5, 2) == 1 && Groups(5, 2) == 3;
    hide GroupSum;
    ZeroGroups(c, l, 0);
    ZeroGroups(c, l, 2);
    ZeroGroups(c, l, 4);
  }

  lemma {:induction false} DiversePick(c: Config, vals: seq<real>, pick: Pick)
    requires c == Config(0, 0, 4, 2, 2, false, None, DiverseKv, false) && vals == [0.0, 0.0, 0.0]
    requires pick == Pick([0, 1, 2], [0], vals, [1])
    ensures PickOk(c, vals, pick) && RefinedCount(c, vals, pick) == 1
  {}

  lemma {:induction false} ZeroGroups(c: Config, l: Layer, first: nat)
    requires !c.normalize && forall i :: 0 <= i < |l.scores| ==> l.scores[i] == 0.0
    ensures GroupSum(c, l, first, 2) == 0.0
  {
    assert GroupSum(c, l, first, 1) == 0.0;
  }

  lemma {:induction false} RefinedWhole(c: Config, vals: seq<real>, pick: Pick)
    requires Validated(c) && PickOk(c, vals, pick)
    ensures c.refinement == NoRefinement ==> (RefinedCount(c, vals, pick) > 0 <==> c.refined > 0)
  {
    Whole(c.refined, c.group);
  }
}
