/** KV-cache eviction: the groups a compression keeps are those whose tokens received the most attention. */
module EvictionRanking {
  import opened Arithmetic
  import opened Options
  import opened Eviction
  import opened Ranking
  import opened EvictionMask
  import opened EvictionSpec
  import opened EvictionCompress
  import opened EvictionTheorems

  // ----- reference: what a group of tokens is worth

  /** Attention received, shared out over the rows that could see the token when normalising. */
  function Worth(c: Config, received: real, rows: nat): real {
    if c.normalize && rows > 0 then received / rows as real else received
  }

  function WorthOf(c: Config, score: nat -> real, count: nat -> nat): nat -> real {
    (x: nat) => Worth(c, score(x), count(x))
  }

  function Total(worth: nat -> real, tokens: seq<nat>): real {
    if tokens == [] then 0.0 else Total(worth, tokens[..|tokens| - 1]) + worth(tokens[|tokens| - 1])
  }

  function Within(n: nat, size: nat): nat {
    if n < size then n else size
  }

  /** The tokens of the k-th group after the start tokens, fewer than a whole group at the end of the cache. */
  function GroupTokens(c: Config, cache: seq<nat>, k: nat): seq<nat> {
    var first := c.start + Product(k, c.group);
    cache[Within(first, |cache|)..Within(first + c.group, |cache|)]
  }

  function GroupWorth(c: Config, cache: seq<nat>, worth: nat -> real, k: nat): real {
    Total(worth, GroupTokens(c, cache, k))
  }

  /** Some token of the group is still in the cache. */
  predicate GroupKept(c: Config, before: seq<nat>, after: seq<nat>, k: nat) {
    exists x :: x in GroupTokens(c, before, k) && x in after
  }

  /** The groups after the start tokens and before the recent ones. */
  function Candidates(c: Config, cache: seq<nat>): nat
    requires c.group > 0 && |cache| >= c.start
  {
    IntermediateGroups(c, |cache| - c.start)
  }

  /** None of the other groups is worth more than a coarse one. */
  ghost predicate Dominates(c: Config, cache: seq<nat>, worth: nat -> real, coarse: seq<nat>)
    requires c.group > 0 && |cache| >= c.start
  {
    forall q: nat, d: nat :: q in coarse && d < Candidates(c, cache) && d !in coarse ==>
      GroupWorth(c, cache, worth, d) <= GroupWorth(c, cache, worth, q)
  }

  /** The coarse groups keep tokens, and no other group is worth more than one of them. */
  ghost predicate KeepsBest(c: Config, before: seq<nat>, after: seq<nat>, worth: nat -> real, coarse: seq<nat>)
    requires c.group > 0 && |before| >= c.start
  {
    && Distinct(coarse) && Below(coarse, Candidates(c, before))
    && (forall q :: q in coarse ==> GroupKept(c, before, after, q))
    && Dominates(c, before, worth, coarse)
  }

  /** A group that keeps a token is worth at least as much as any that loses all of its tokens. */
  ghost predicate DropsWorst(c: Config, before: seq<nat>, after: seq<nat>, worth: nat -> real)
    requires c.group > 0 && |before| >= c.start
  {
    forall q: nat, d: nat ::
      (&& q < Candidates(c, before) && d < Candidates(c, before)
       && GroupKept(c, before, after, q) && !GroupKept(c, before, after, d)) ==>
        GroupWorth(c, before, worth, d) <= GroupWorth(c, before, worth, q)
  }

  // ----- the scores that are ranked

  lemma {:induction false} TokenWorth(c: Config, l: Layer, score: nat -> real, count: nat -> nat, i: nat)
    requires Compressible(c, l) && Aligned(c, l, score, count)
    ensures i < |l.scores| ==> TokenScore(c, l, i) == WorthOf(c, score, count)(l.cache[c.start + i])
    ensures i >= |l.scores| ==> TokenScore(c, l, i) == 0.0
  {
    if i < |l.scores| { assert Scored(c, l.cache)[i] == l.cache[c.start + i]; }
  }

  lemma {:induction false} SumIsTotal(c: Config, l: Layer, score: nat -> real, count: nat -> nat, first: nat, n: nat)
    requires Compressible(c, l) && Aligned(c, l, score, count)
    ensures var from := c.start + first;
      GroupSum(c, l, first, n) ==
      Total(WorthOf(c, score, count), l.cache[Within(from, |l.cache|)..Within(from + n, |l.cache|)])
  {
    hide Aligned, WorthOf, TokenScore;
    var size, from := |l.cache|, c.start + first;
    var a := Within(from, size);
    if n == 0 {
      assert l.cache[a..a] == [];
    } else {
      SumIsTotal(c, l, score, count, first, n - 1);
      TokenWorth(c, l, score, count, first + n - 1);
      if from + n - 1 < size { assert l.cache[a..from + n][..n - 1] == l.cache[a..from + n - 1]; }
    }
  }

  /** The numbers that are ranked are the groups' worth. */
  lemma {:induction false} RankedWorth(c: Config, l: Layer, score: nat -> real, count: nat -> nat, k: nat)
    requires Compressible(c, l) && Aligned(c, l, score, count) && k < Candidates(c, l.cache)
    ensures |Intermediate(c, l)| == Candidates(c, l.cache)
    ensures Intermediate(c, l)[k] == GroupWorth(c, l.cache, WorthOf(c, score, count), k)
  {
    hide Aligned, WorthOf, GroupSum, Total, IntermediateGroups;
    SumIsTotal(c, l, score, count, Product(k, c.group), c.group);
  }

  lemma {:induction false} CoarseWorth(c: Config, l: Layer, pick: Pick, score: nat -> real, count: nat -> nat,
                                       q: nat, d: nat)
    requires Compressible(c, l) && Aligned(c, l, score, count) && PickOk(c, Intermediate(c, l), pick)
    requires q in pick.coarse && d < Candidates(c, l.cache) && d !in pick.coarse
    ensures var worth := WorthOf(c, score, count);
      GroupWorth(c, l.cache, worth, d) <= GroupWorth(c, l.cache, worth, q)
  {
    CoarseBelow(c, Intermediate(c, l), pick);
    var m :| 0 <= m < |pick.coarse| && pick.coarse[m] == q;
    hide Aligned, WorthOf, GroupWorth, Intermediate, IntermediateGroups, PickOk;
    RankedWorth(c, l, score, count, d);
    RankedWorth(c, l, score, count, q);
    TopWorth(Intermediate(c, l), pick.coarse, m, d);
  }

  lemma {:induction false} CoarseBelow(c: Config, vals: seq<real>, pick: Pick)
    requires Validated(c) && PickOk(c, vals, pick)
    ensures Distinct(pick.coarse) && Below(pick.coarse, |vals|)
    ensures IsTopK(Unmasked(vals), |pick.coarse|, pick.coarse)
    ensures |pick.coarse| + RefinedCount(c, vals, pick) == c.inter / c.group
  {}

  lemma {:induction false} TopWorth(vals: seq<real>, coarse: seq<nat>, m: nat, d: nat)
    requires IsTopK(Unmasked(vals), |coarse|, coarse) && m < |coarse| && d < |vals| && d !in coarse
    ensures vals[d] <= vals[coarse[m]]
  {
    assert AtMost(Unmasked(vals)[d], Unmasked(vals)[coarse[m]]);
  }

  // ----- what becomes of a group

  /** A selected entry is one whose mark is set. */
  lemma {:induction false} SelectMember(xs: seq<nat>, mask: seq<bool>, i: nat)
    requires |xs| == |mask| && Ascending(xs) && i < |xs|
    ensures xs[i] in MaskedSelect(xs, mask) <==> mask[i]
  {
    var n := |xs| - 1;
    SelectAscending(xs[..n], mask[..n]);
    if i < n {
      SelectMember(xs[..n], mask[..n], i);
    } else {
      assert xs[n] !in xs[..n];
    }
  }

  lemma {:induction false} InGroup(g: nat, q: nat, x: nat)
    requires g > 0 && Product(q, g) <= x < Product(q, g) + g
    ensures x / g == q && x % g == x - Product(q, g)
  {
    DivMod(q, x - q * g, g);
  }

  /** A group before the recent ones has a first token, and lies before them. */
  lemma {:induction false} GroupInside(c: Config, n: nat, q: nat)
    requires Validated(c) && n > c.recent + c.inter && q < IntermediateGroups(c, n)
    ensures Product(q, c.group) < n && c.start + Product(q, c.group) + c.group <= TailStart(c, n)
  {
    SpareGroup(c, n);
    BlockStart(q, IntermediateGroups(c, n), c.group);
  }

  lemma {:induction false} ChosenSurvives(c: Config, n: nat, chosen: seq<nat>, q: nat)
    requires FullSelection(c, n, chosen) && q in chosen
    ensures Product(q, c.group) < n && Survives(c, n, chosen, c.start + Product(q, c.group))
  {
    GroupInside(c, n, q);
    InGroup(c.group, q, Product(q, c.group));
    hide Product, IntermediateGroups, TailStart;
  }

  lemma {:induction false} OtherGone(c: Config, n: nat, chosen: seq<nat>, q: nat, x: nat)
    requires FullSelection(c, n, chosen) && q < IntermediateGroups(c, n) && q !in chosen
    requires Product(q, c.group) <= x < Product(q, c.group) + c.group
    ensures !Survives(c, n, chosen, c.start + x)
  {
    GroupInside(c, n, q);
    InGroup(c.group, q, x);
    hide Product, IntermediateGroups, TailStart;
  }

  /** A group keeps a token exactly if it was chosen. */
  lemma {:induction false} GroupKeptIff(c: Config, cache: seq<nat>, chosen: seq<nat>, mask: seq<bool>, q: nat)
    requires |cache| > MaxCache(c) && Ascending(cache) && |mask| == |cache|
    requires FullSelection(c, |cache| - c.start, chosen) && MaskFits(c, |cache| - c.start, chosen, mask)
    requires q < Candidates(c, cache)
    ensures GroupKept(c, cache, MaskedSelect(cache, mask), q) <==> q in chosen
  {
    var n, first := |cache| - c.start, c.start + Product(q, c.group);
    var tokens, after := GroupTokens(c, cache, q), MaskedSelect(cache, mask);
    hide FullSelection, Survives, Product, MaskedSelect, IntermediateGroups;
    FullValid(c, n, chosen);
    GroupInside(c, n, q);
    if q in chosen {
      ChosenSurvives(c, n, chosen, q);
      SelectMember(cache, mask, first);
      assert tokens[0] == cache[first];
    } else if x: nat :| x in tokens && x in after {
      var j :| 0 <= j < |tokens| && tokens[j] == x;
      OtherGone(c, n, chosen, q, Product(q, c.group) + j);
      SelectMember(cache, mask, first + j);
    }
  }

  lemma {:induction false} FullValid(c: Config, n: nat, chosen: seq<nat>)
    requires FullSelection(c, n, chosen)
    ensures Validated(c) && n > c.recent + c.inter
  {}

  // ----- the adaptive split

  /** What all candidate groups are worth, in their order. */
  function Worths(c: Config, cache: seq<nat>, worth: nat -> real): (r: seq<real>)
    requires c.group > 0 && |cache| >= c.start
    ensures |r| == Candidates(c, cache)
  {
    seq(Candidates(c, cache), k requires 0 <= k < Candidates(c, cache) => GroupWorth(c, cache, worth, k))
  }

  lemma {:induction false} IntermediateIs(c: Config, l: Layer, score: nat -> real, count: nat -> nat)
    requires Compressible(c, l) && Aligned(c, l, score, count)
    ensures Intermediate(c, l) == Worths(c, l.cache, WorthOf(c, score, count))
  {
    hide Aligned, WorthOf, GroupWorth, Intermediate, IntermediateGroups;
    var a, b := Intermediate(c, l), Worths(c, l.cache, WorthOf(c, score, count));
    assert |a| == |b| by { IntermediateSize(c, l); }
    forall k | 0 <= k < |a| ensures a[k] == b[k] { RankedWorth(c, l, score, count, k); }
  }

  lemma {:induction false} IntermediateSize(c: Config, l: Layer)
    requires Compressible(c, l)
    ensures |Intermediate(c, l)| == Candidates(c, l.cache)
  {}

  predicate NoneNegative(vals: seq<real>) {
    forall i :: 0 <= i < |vals| ==> vals[i] >= 0.0
  }

  function AllSum(vals: seq<real>): real {
    if vals == [] then 0.0 else AllSum(vals[..|vals| - 1]) + vals[|vals| - 1]
  }

  /** The groups carry 90% of everything. */
  predicate Carries(vals: seq<real>, groups: seq<nat>)
    requires Below(groups, |vals|)
  {
    10.0 * Sum(vals, groups) >= 9.0 * AllSum(vals)
  }

  /** No selection of at least one and fewer than `n` groups carries 90%. */
  ghost predicate NoneCarries(vals: seq<real>, n: nat) {
    forall few: seq<nat> :: 0 < |few| < n && Distinct(few) && Below(few, |vals|) ==> !Carries(vals, few)
  }

  /** The fewest groups that carry 90%, or as many as fit the budget where that takes more. */
  ghost predicate FewestCarry(c: Config, vals: seq<real>, coarse: seq<nat>)
    requires c.group > 0
  {
    && Below(coarse, |vals|)
    && (|| (coarse != [] && Carries(vals, coarse) && NoneCarries(vals, |coarse|))
        || (|coarse| == c.inter / c.group && NoneCarries(vals, c.inter / c.group + 1)))
  }

  lemma {:induction false} AllSumOver(vals: seq<real>, n: nat, s: set<nat>)
    requires n <= |vals| && forall j :: 0 <= j < n ==> j in s
    ensures AllSum(vals[..n]) == SumOver(vals, n, s)
  {
    if n > 0 {
      AllSumOver(vals, n - 1, s);
      assert vals[..n][..n - 1] == vals[..n - 1];
    }
  }

  lemma {:induction false} OrderSum(vals: seq<real>, order: seq<nat>)
    requires |order| == |vals| && Distinct(order) && Below(order, |vals|)
    ensures Sum(vals, order) == AllSum(vals)
  {
    SumIsOver(vals, order);
    forall j | 0 <= j < |vals| ensures j in Elems(order) { var m := Position(order, |vals|, j); }
    AllSumOver(vals, |vals|, Elems(order));
    assert vals[..|vals|] == vals;
  }

  lemma {:induction false} PrefixesFall(vals: seq<real>, order: seq<nat>, n: nat)
    requires IsDescending(vals, order) && n <= |order|
    requires forall j :: 1 <= j < n ==> !Carries(vals, order[..j])
    ensures NoneCarries(vals, n)
  {
    forall few: seq<nat> | 0 < |few| < n && Distinct(few) && Below(few, |vals|) ensures !Carries(vals, few) {
      PrefixIsTop(vals, order, |few|);
      TopSum(vals, |few|, order[..|few|], few);
    }
  }

  /** The cutoff is the fewest leading groups that carry 90%. */
  lemma {:induction false} CutoffCarries(vals: seq<real>, order: seq<nat>)
    requires IsDescending(vals, order) && vals != [] && NoneNegative(vals)
    ensures var k := Cutoff(vals, order, 1);
            1 <= k <= |order| && Carries(vals, order[..k]) && forall n :: 0 <= n <= k ==> NoneCarries(vals, n)
  {
    hide Cutoff, Sum, AllSum, NoneCarries, IsDescending;
    OrderFacts(vals, order);
    CutoffIs(vals, order, 1);
    OrderSum(vals, order);
    var k := Cutoff(vals, order, 1);
    forall n | 0 <= n <= k ensures NoneCarries(vals, n) { PrefixesFall(vals, order, n); }
  }

  lemma {:induction false} OrderFacts(vals: seq<real>, order: seq<nat>)
    requires IsDescending(vals, order)
    ensures |order| == |vals| && Distinct(order) && Below(order, |vals|)
  {}

  lemma {:induction false} AdaptiveSize(c: Config, vals: seq<real>, pick: Pick)
    requires Validated(c) && PickOk(c, vals, pick) && c.refinement != NoRefinement && c.refined == 0
    ensures var k := Cutoff(vals, pick.ranking, 1);
            |pick.coarse| == if k <= c.inter / c.group then k else c.inter / c.group
  {
    CoarseBelow(c, vals, pick);
    hide PickOk, Picked, Cutoff;
    var k := Cutoff(vals, pick.ranking, 1);
    AdaptiveGroups(c, k);
    if k > c.inter / c.group { FewerCoarse(c.inter, c.group, k); }
  }

  lemma {:induction false} AdaptiveCoarse(c: Config, vals: seq<real>, pick: Pick)
    requires Validated(c) && PickOk(c, vals, pick) && c.refinement != NoRefinement && c.refined == 0
    requires NoneNegative(vals)
    ensures FewestCarry(c, vals, pick.coarse)
  {
    hide Picked, Cutoff, IsTopK, Sum, AllSum, IsDescending, NoneCarries, AdaptiveRefined, RefinedTokens, CoarseCount;
    CoarseBelow(c, vals, pick);
    ArgsortDescends(vals, pick.ranking);
    AdaptiveSize(c, vals, pick);
    CutoffCarries(vals, pick.ranking);
    if Cutoff(vals, pick.ranking, 1) <= c.inter / c.group { CoarseCarries(vals, pick.ranking, pick.coarse); }
  }

  lemma {:induction false} CoarseCarries(vals: seq<real>, order: seq<nat>, coarse: seq<nat>)
    requires IsTopK(Unmasked(vals), |coarse|, coarse) && IsDescending(vals, order) && |coarse| <= |order|
    ensures Sum(vals, coarse) >= Sum(vals, order[..|coarse|])
  {
    TopKIsTop(vals, |coarse|, coarse);
    TopSum(vals, |coarse|, coarse, order[..|coarse|]);
  }

  /** A budget of fewer than `k` groups is less than `k` groups' tokens. */
  lemma {:induction false} FewerCoarse(inter: nat, g: nat, k: nat)
    requires g > 0 && inter % g == 0 && k > inter / g
    ensures inter < k * g
  {
    ExactGroups(inter, g);
    BlockStart(inter / g, k, g);
  }

  // ----- one compression

  /** What a compression that does not fail keeps: coarse groups of the highest worth and, unless groups are refined, no
      others.  There are as many of them as the refined tokens leave room for, or, with adaptive refinement, as few as
      carry 90% of the worth. */
  ghost predicate Ranked(c: Config, before: seq<nat>, after: seq<nat>, worth: nat -> real, coarse: seq<nat>)
    requires c.group > 0 && |before| >= c.start
  {
    && KeepsBest(c, before, after, worth, coarse)
    && (|coarse| == c.inter / c.group ==> DropsWorst(c, before, after, worth))
    && (c.refinement == NoRefinement ==> |coarse| == c.inter / c.group)
    && (c.refined > 0 ==> |coarse| == c.inter / c.group - c.refined / c.group)
    && (c.refinement != NoRefinement && c.refined == 0 && NoneNegative(Worths(c, before, worth)) ==>
          FewestCarry(c, Worths(c, before, worth), coarse))
  }

  lemma {:induction false} MaskRanked(c: Config, cache: seq<nat>, chosen: seq<nat>, mask: seq<bool>, worth: nat -> real,
                                      coarse: seq<nat>)
    requires |cache| > MaxCache(c) && Ascending(cache) && |mask| == |cache|
    requires FullSelection(c, |cache| - c.start, chosen) && MaskFits(c, |cache| - c.start, chosen, mask)
    requires Distinct(coarse) && (forall q :: q in coarse ==> q in chosen) && Dominates(c, cache, worth, coarse)
    ensures KeepsBest(c, cache, MaskedSelect(cache, mask), worth, coarse)
    ensures chosen == coarse ==> DropsWorst(c, cache, MaskedSelect(cache, mask), worth)
  {
    hide GroupWorth, GroupKept, MaskFits, MaskedSelect, IntermediateGroups;
    forall q: nat | q < Candidates(c, cache)
      ensures GroupKept(c, cache, MaskedSelect(cache, mask), q) <==> q in chosen
    {
      GroupKeptIff(c, cache, chosen, mask, q);
    }
    forall i | 0 <= i < |coarse| ensures coarse[i] < Candidates(c, cache) { assert coarse[i] in chosen; }
  }

  lemma {:induction false} CoarseDominates(c: Config, l: Layer, pick: Pick, score: nat -> real, count: nat -> nat)
    requires Compressible(c, l) && Aligned(c, l, score, count) && PickOk(c, Intermediate(c, l), pick)
    ensures Dominates(c, l.cache, WorthOf(c, score, count), pick.coarse)
  {
    hide Aligned, WorthOf, GroupWorth, Intermediate, IntermediateGroups, PickOk;
    forall q: nat, d: nat | q in pick.coarse && d < Candidates(c, l.cache) && d !in pick.coarse
      ensures GroupWorth(c, l.cache, WorthOf(c, score, count), d) <= GroupWorth(c, l.cache, WorthOf(c, score, count), q)
    {
      CoarseWorth(c, l, pick, score, count, q, d);
    }
  }

  /** The coarse groups come first, and alone if nothing is refined. */
  lemma {:induction false} CoarseFirst(c: Config, l: Layer, pick: Pick)
    requires Compressible(c, l) && PickOk(c, Intermediate(c, l), pick)
    requires Refines(c, l, pick) ==> c.refinement != NoRefinement
    ensures forall q :: q in pick.coarse ==> q in ChosenGroups(c, l, pick)
    ensures !Refines(c, l, pick) ==> ChosenGroups(c, l, pick) == pick.coarse
  {
    hide Intermediate, PickOk, RefinedCount, IntermediateGroups;
  }

  lemma {:induction false} CoarseSize(c: Config, l: Layer, pick: Pick)
    requires Compressible(c, l) && PickOk(c, Intermediate(c, l), pick)
    requires Refines(c, l, pick) ==> c.refinement != NoRefinement
    ensures Distinct(pick.coarse) && (!Refines(c, l, pick) <==> |pick.coarse| == c.inter / c.group)
    ensures c.refinement == NoRefinement ==> |pick.coarse| == c.inter / c.group
    ensures c.refined > 0 ==> |pick.coarse| == c.inter / c.group - c.refined / c.group
  {
    CoarseBelow(c, Intermediate(c, l), pick);
    hide Intermediate, PickOk, AdaptiveRefined;
  }

  lemma {:induction false} CompressRanked(c: Config, l: Layer, pick: Pick, score: nat -> real, count: nat -> nat)
    requires Compressible(c, l) && PickOk(c, Intermediate(c, l), pick) && c.recent + c.inter > 0
    requires Ascending(l.cache) && Aligned(c, l, score, count) && Compress(c, l, pick).Live?
    ensures Ranked(c, l.cache, Compress(c, l, pick).layer.cache, WorthOf(c, score, count), pick.coarse)
  {
    hide Compress, PickOk, Intermediate, MaskFits, Misplaced, Breakage, FullSelection, KeepsBest, DropsWorst, Aligned,
      WorthOf, Dominates, ChosenGroups, Refines, Distinct, Ascending, Validated, FewestCarry, Worths;
    var chosen, mask := CompressIff(c, l, pick);
    CoarseFirst(c, l, pick);
    CoarseSize(c, l, pick);
    CoarseDominates(c, l, pick, score, count);
    MaskRanked(c, l.cache, chosen, mask, WorthOf(c, score, count), pick.coarse);
    IntermediateIs(c, l, score, count);
    if c.refinement != NoRefinement && c.refined == 0 && NoneNegative(Intermediate(c, l)) {
      AdaptiveCoarse(c, Intermediate(c, l), pick);
    }
  }

  // ----- runs

  /** The cache of the last pass before eviction. */
  function CacheBefore(c: Config, p: nat, prompt: Pass, passes: seq<Pass>): seq<nat>
    requires Validated(c)
  {
    if passes == [] then Range(0, p)
    else
      var earlier := Run(c, p, prompt, passes[..|passes| - 1]);
      (if earlier.Live? then earlier.layer.cache else []) + [p + |passes| - 1]
  }

  function LastPick(prompt: Pass, passes: seq<Pass>): Pick {
    if passes == [] then prompt.pick else passes[|passes| - 1].pick
  }

  /** Of all the attention a token received so far, the average over the rows that could see it when normalising. */
  function WorthIn(c: Config, p: nat, prompt: Pass, passes: seq<Pass>): nat -> real {
    WorthOf(c, EvictionTheorems.Score(p, prompt, passes), Count(c, p, p + |passes|))
  }

  /** Eviction leaves a cache within the limit alone, and of a longer one the groups of the highest worth. */
  ghost predicate RankedOver(c: Config, before: seq<nat>, after: seq<nat>, worth: nat -> real, coarse: seq<nat>)
    requires Validated(c)
  {
    if |before| <= MaxCache(c) then after == before else Ranked(c, before, after, worth, coarse)
  }

  lemma {:induction false} EvictRanked(c: Config, l: Layer, pick: Pick, score: nat -> real, count: nat -> nat)
    requires Validated(c) && c.recent + c.inter > 0 && HeadTail(c, l.cache, l.seen) && Aligned(c, l, score, count)
    requires Evict(c, l, pick).Live?
    ensures RankedOver(c, l.cache, Evict(c, l, pick).layer.cache, WorthOf(c, score, count), pick.coarse)
  {
    hide Compress, PickOk, Intermediate, Ranked, Validated;
    if |l.cache| > MaxCache(c) { CompressRanked(c, l, pick, score, count); }
  }

  lemma {:induction false} PromptRanked(c: Config, p: nat, prompt: Pass)
    requires Validated(c) && c.recent + c.inter > 0 && p > 0 && Run(c, p, prompt, []).Live?
    ensures RankedOver(c, Range(0, p), Run(c, p, prompt, []).layer.cache, WorthIn(c, p, prompt, []), prompt.pick.coarse)
  {
    hide Aggregate, Evict, EvictionTheorems.Score, Count, HeadTail, Aligned, Map, Validated, RankedOver, WorthOf;
    PromptAligned(c, p, prompt);
    PromptHeadTail(c, p);
    assert [] + Range(0, p) == Range(0, p);
    EvictRanked(c, PromptLayer(c, p, prompt).layer, prompt.pick, EvictionTheorems.Score(p, prompt, []), Count(c, p, p));
  }

  lemma {:induction false} StepRanked(c: Config, p: nat, prompt: Pass, passes: seq<Pass>, pass: Pass, l: Layer)
    requires Validated(c) && c.recent + c.inter > 0 && Fits(c, p, prompt, passes, l)
    requires Hook(c, Some(l), 1, pass.row, pass.pick).Live?
    ensures RankedOver(c, l.cache + [l.seen], Hook(c, Some(l), 1, pass.row, pass.pick).layer.cache,
                       WorthIn(c, p, prompt, passes + [pass]), pass.pick.coarse)
  {
    hide Validated, Aggregated, Evict, EvictionTheorems.Score, Count, HeadTail, Aligned, Hook, CacheFits, RankedOver,
      WorthOf;
    AggregateStep(c, l, p, prompt, passes, pass);
    AppendFits(c, l.cache, l.seen);
    HookIs(c, l, pass);
    EvictRanked(c, Aggregated(c, l, pass).layer, pass.pick, EvictionTheorems.Score(p, prompt, passes + [pass]),
                Count(c, p, l.seen + 1));
  }

  lemma {:induction false} RunBefore(c: Config, p: nat, prompt: Pass, before: seq<Pass>, pass: Pass)
    requires Validated(c) && c.recent + c.inter > 0 && p > 0 && Run(c, p, prompt, before + [pass]).Live?
    ensures var earlier := Run(c, p, prompt, before);
            && earlier.Live? && Fits(c, p, prompt, before, earlier.layer)
            && CacheBefore(c, p, prompt, before + [pass]) == earlier.layer.cache + [earlier.layer.seen]
            && Run(c, p, prompt, before + [pass]) == Hook(c, Some(earlier.layer), 1, pass.row, pass.pick)
  {
    hide Hook, Validated, CacheFits, Aligned;
    assert (before + [pass])[..|before|] == before;
    RunFits(c, p, prompt, before);
  }

  /** In every run each eviction, after the prompt and after every later token, keeps the groups whose tokens received
      the most attention. */
  lemma {:induction false} RunRanked(c: Config, p: nat, prompt: Pass, passes: seq<Pass>)
    requires Validated(c) && c.recent + c.inter > 0 && p > 0 && Run(c, p, prompt, passes).Live?
    ensures RankedOver(c, CacheBefore(c, p, prompt, passes), Run(c, p, prompt, passes).layer.cache,
                       WorthIn(c, p, prompt, passes), LastPick(prompt, passes).coarse)
  {
    hide Hook, RankedOver, WorthIn, Validated, Fits, Run, Range, CacheBefore;
    if passes == [] {
      PromptRanked(c, p, prompt);
      assert CacheBefore(c, p, prompt, []) == Range(0, p) by { CacheAtPrompt(c, p, prompt); }
    } else {
      var before, pass := passes[..|passes| - 1], passes[|passes| - 1];
      assert before + [pass] == passes;
      RunBefore(c, p, prompt, before, pass);
      StepRanked(c, p, prompt, before, pass, Run(c, p, prompt, before).layer);
    }
  }

  lemma {:induction false} CacheAtPrompt(c: Config, p: nat, prompt: Pass)
    requires Validated(c)
    ensures CacheBefore(c, p, prompt, []) == Range(0, p)
  {}

  /** Every token was visible to some aggregated row, so its average is defined. */
  lemma {:induction false} TokenSeen(c: Config, p: nat, seen: nat, x: nat)
    requires Validated(c) && 0 < p <= seen && x < seen
    ensures Count(c, p, seen)(x) > 0
  {
    RowsSeeingIs(FirstRow(c, p), seen, x);
  }
}
