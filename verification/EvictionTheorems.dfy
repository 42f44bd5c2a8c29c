/** KV-cache eviction over whole runs: a prompt, then one token per pass, through any number of compressions. */
module EvictionTheorems {
  import opened Options
  import opened Eviction
  import opened Ranking
  import opened EvictionMask
  import opened EvictionSpec
  import opened EvictionCompress

  // ----- reference: what a token's score and counter ought to be

  /** The query rows of the prompt that are aggregated: all of them, or the last window. */
  function FirstRow(c: Config, p: nat): nat {
    if c.window.Some? && c.window.value < p then p - c.window.value else 0
  }

  /** The number of rows from `from` to `to` that could see position `x`. */
  function RowsSeeing(from: nat, to: nat, x: nat): nat {
    if to <= from then 0 else RowsSeeing(from, to - 1, x) + if x <= to - 1 then 1 else 0
  }

  /** Attention received by position `x`, from the prompt and from every later pass at which it existed. */
  function Received(p: nat, prompt: Pass, passes: seq<Pass>, x: nat): real {
    if passes == [] then prompt.row(x)
    else
      var n := |passes| - 1;
      passes[n].row(x) + if x < p + n then Received(p, prompt, passes[..n], x) else 0.0
  }

  function Score(p: nat, prompt: Pass, passes: seq<Pass>): nat -> real {
    (x: nat) => Received(p, prompt, passes, x)
  }

  function Count(c: Config, p: nat, seen: nat): nat -> nat {
    (x: nat) => RowsSeeing(FirstRow(c, p), seen, x)
  }

  lemma {:induction false} RowsSeeingIs(from: nat, to: nat, x: nat)
    ensures RowsSeeing(from, to, x) == if to <= x || to <= from then 0 else if x <= from then to - from else to - x
  {
    if to > from { RowsSeeingIs(from, to - 1, x); }
  }

  // ----- invariants

  /** Bounded, in the original order, beginning with the start tokens, ending with an unbroken stretch of the most
      recent ones. */
  predicate CacheFits(c: Config, cache: seq<nat>, seen: nat) {
    && |cache| <= MaxCache(c) && HeadTail(c, cache, seen)
    && (seen <= MaxCache(c) ==> |cache| == seen)
    && (seen > MaxCache(c) ==> |cache| > MaxCache(c) - c.group)
  }

  predicate HeadTail(c: Config, cache: seq<nat>, seen: nat) {
    && Ascending(cache) && Below(cache, seen)
    && (forall i :: 0 <= i < |cache| && i < c.start ==> cache[i] == i)
    && (forall i :: c.start + c.inter <= i < |cache| ==> cache[i] == seen - |cache| + i)
  }

  /** Scores and counters belong, entry by entry, to the scored part of the cache. */
  predicate Aligned(c: Config, l: Layer, score: nat -> real, count: nat -> nat) {
    && l.scores == Map(score, Scored(c, l.cache))
    && l.counter == if c.normalize then Map(count, Scored(c, l.cache)) else []
  }

  // ----- the prompt

  lemma {:induction false} PromptCounts(c: Config, p: nat, base: nat)
    requires base <= p && (c.window.Some? ==> c.window.value > 0)
    ensures LayerCounter(c, None, p - base) == Map<nat, nat>(Count(c, p, p), Range(base, p - base))
  {
    var r, ref := LayerCounter(c, None, p - base), Map<nat, nat>(Count(c, p, p), Range(base, p - base));
    assert |r| == p - base;
    forall i | 0 <= i < p - base ensures r[i] == ref[i] { RowsSeeingIs(FirstRow(c, p), p, base + i); }
  }

  lemma {:induction false} PromptAligned(c: Config, p: nat, prompt: Pass)
    requires Validated(c) && p > 0
    ensures var cache := Range(0, p);
      var out := Aggregate(c, None, cache, p, Map<nat, real>(prompt.row, cache));
      out.Live? && out.layer.cache == cache && out.layer.seen == p
      && Aligned(c, out.layer, Score(p, prompt, []), Count(c, p, p))
  {
    hide LayerCounter, Count, Score, Map, Range, Scored, Aggregate;
    var cache: seq<nat> := Range(0, p);
    var base := if p > c.start then c.start else 0;
    PromptCounts(c, p, base);
    PromptRow(c, p, prompt, cache);
    ScoredRange(c, p);
    FirstAggregate(c, cache, p, Map<nat, real>(prompt.row, cache));
  }

  lemma {:induction false} FirstAggregate(c: Config, cache: seq<nat>, seen: nat, hh: seq<real>)
    ensures var row := Scored(c, hh);
      Aggregate(c, None, cache, seen, hh)
      == Live(Layer(cache, seen, row, if c.normalize then LayerCounter(c, None, |row|) else []))
  {
    hide Scored, LayerCounter;
  }

  lemma {:induction false} ScoredRange(c: Config, p: nat)
    ensures Scored(c, Range(0, p)) == if p > c.start then Range(c.start, p - c.start) else Range(0, p)
  {}

  /** The first scores are the prompt's own rows. */
  lemma {:induction false} PromptRow(c: Config, p: nat, prompt: Pass, cache: seq<nat>)
    ensures Scored(c, Map<nat, real>(prompt.row, cache)) == Map<nat, real>(Score(p, prompt, []), Scored(c, cache))
    ensures |Scored(c, Map<nat, real>(prompt.row, cache))| == |Scored(c, cache)|
  {}

  lemma {:induction false} PromptHeadTail(c: Config, p: nat)
    ensures HeadTail(c, Range(0, p), p)
  {}

  // ----- one more token

  predicate Overruns(c: Config, l: Layer) {
    |l.cache| == c.start >= 2
  }

  lemma {:induction false} AppendHeadTail(c: Config, cache: seq<nat>, seen: nat)
    requires HeadTail(c, cache, seen) && (|cache| < c.start ==> |cache| == seen)
    ensures HeadTail(c, cache + [seen], seen + 1)
  {}

  lemma {:induction false} ScoreStep(p: nat, prompt: Pass, passes: seq<Pass>, pass: Pass, x: nat)
    requires x <= p + |passes|
    ensures Score(p, prompt, passes + [pass])(x) ==
      pass.row(x) + if x < p + |passes| then Score(p, prompt, passes)(x) else 0.0
  {
    assert (passes + [pass])[..|passes|] == passes;
  }

  lemma {:induction false} CountStep(c: Config, p: nat, seen: nat, x: nat)
    requires FirstRow(c, p) <= seen && x <= seen
    ensures Count(c, p, seen + 1)(x) == Count(c, p, seen)(x) + 1
    ensures x == seen ==> Count(c, p, seen)(x) == 0
  {
    RowsSeeingIs(FirstRow(c, p), seen, x);
  }

  /** The entries a pass adds to: all scored tokens but the new one, or none when the scored part has just begun. */
  lemma {:induction false} ScoredStep(c: Config, cache: seq<nat>, seen: nat)
    requires cache != []
    ensures var more := cache + [seen];
      if |cache| == c.start then Scored(c, more) == [seen] && |Scored(c, cache)| == c.start
      else Scored(c, more) == Scored(c, cache) + [seen]
  {}

  lemma {:induction false} AddedScores(hh: seq<real>, prev: seq<real>)
    requires |hh| == |prev| + 1
    ensures AddScores(hh, 1, prev).Some? && |AddScores(hh, 1, prev).value| == |hh|
    ensures forall i :: 0 <= i < |hh| ==> AddScores(hh, 1, prev).value[i] == hh[i] + if i < |prev| then prev[i] else 0.0
  {}

  lemma {:induction false} MapScored<U>(c: Config, f: nat -> U, cache: seq<nat>)
    ensures Scored(c, Map(f, cache)) == Map(f, Scored(c, cache))
  {}

  lemma {:induction false} StepScores(c: Config, l: Layer, p: nat, prompt: Pass, passes: seq<Pass>, pass: Pass)
    requires l.cache != [] && Below(l.cache, l.seen) && l.seen == p + |passes|
    requires l.scores == Map<nat, real>(Score(p, prompt, passes), Scored(c, l.cache))
    ensures var more := l.cache + [l.seen];
      var row := Scored(c, Map<nat, real>(pass.row, more));
      AddScores(row, |row| - |l.scores|, l.scores) ==
      if Overruns(c, l) then None else Some(Map<nat, real>(Score(p, prompt, passes + [pass]), Scored(c, more)))
  {
    var more := l.cache + [l.seen];
    var row := Scored(c, Map<nat, real>(pass.row, more));
    MapScored(c, pass.row, more);
    ScoredStep(c, l.cache, l.seen);
    var ref := Map<nat, real>(Score(p, prompt, passes + [pass]), Scored(c, more));
    forall i | 0 <= i < |ref| ensures Scored(c, more)[i] <= l.seen && |ref| == |row| &&
      ref[i] == row[i] + if Scored(c, more)[i] < l.seen then Score(p, prompt, passes)(Scored(c, more)[i]) else 0.0
    {
      ScoreStep(p, prompt, passes, pass, Scored(c, more)[i]);
    }
    hide Score, Received;
    if |l.cache| != c.start {
      AddedScores(row, l.scores);
      assert AddScores(row, 1, l.scores).value == ref;
    } else if c.start == 1 {
      assert AddScores(row, 0, l.scores).value == ref;
    }
  }

  /** A pass raises every counter by the one row it aggregates, and starts the new token's at one. */
  lemma {:induction false} CountersStep(c: Config, counts: seq<nat>, i: nat)
    requires Validated(c) && i < |counts| + 1
    ensures |LayerCounter(c, Some(counts), 1)| == |counts| + 1
    ensures LayerCounter(c, Some(counts), 1)[i] == if i < |counts| then counts[i] + 1 else 1
  {}

  lemma {:induction false} StepCounts(c: Config, l: Layer, p: nat)
    requires l.cache != [] && Below(l.cache, l.seen) && |l.cache| != c.start && 0 < p <= l.seen
    requires Validated(c) && l.counter == Map<nat, nat>(Count(c, p, l.seen), Scored(c, l.cache))
    ensures LayerCounter(c, Some(l.counter), 1) == Map<nat, nat>(Count(c, p, l.seen + 1), Scored(c, l.cache + [l.seen]))
  {
    ScoredStep(c, l.cache, l.seen);
    var next, made := Scored(c, l.cache + [l.seen]), LayerCounter(c, Some(l.counter), 1);
    CountersStep(c, l.counter, 0);
    hide LayerCounter;
    forall i | 0 <= i < |next| ensures made[i] == Count(c, p, l.seen + 1)(next[i]) {
      CountersStep(c, l.counter, i);
      CountStep(c, p, l.seen, next[i]);
    }
  }

  lemma {:induction false} FirstStepCounts(c: Config, counts: seq<nat>)
    requires Validated(c) && counts == Map<nat, nat>(Count(c, 1, 1), [0])
    ensures LayerCounter(c, Some(counts), 0) == Map<nat, nat>(Count(c, 1, 2), [1])
  {
    RowsSeeingIs(FirstRow(c, 1), 1, 0);
    RowsSeeingIs(FirstRow(c, 1), 2, 1);
    assert LayerCounter(c, Some(counts), 0) == [1];
  }

  /** What holds of a layer after every hook. */
  predicate Fits(c: Config, p: nat, prompt: Pass, passes: seq<Pass>, l: Layer) {
    && p > 0 && l.cache != [] && l.seen == p + |passes| && CacheFits(c, l.cache, l.seen)
    && Aligned(c, l, Score(p, prompt, passes), Count(c, p, l.seen))
  }

  lemma {:induction false} AscendingSize(s: seq<nat>, n: nat)
    requires Ascending(s) && Below(s, n)
    ensures |s| <= n
  {
    if s != [] { AscendingSize(s[..|s| - 1], s[|s| - 1]); }
  }

  lemma {:induction false} RecentGroupFits(c: Config)
    requires Validated(c) && c.recent + c.inter > 0
    ensures MaxCache(c) >= c.start + c.group
  {
    Whole(c.recent, c.group);
    Whole(c.inter, c.group);
    if c.recent > 0 { BlockStart(0, c.recent / c.group, c.group); }
    if c.inter > 0 { BlockStart(0, c.inter / c.group, c.group); }
  }

  /** A layer holds exactly its start tokens only before anything was evicted. */
  lemma {:induction false} OnlyStart(c: Config, cache: seq<nat>, seen: nat)
    requires Validated(c) && c.recent + c.inter > 0 && CacheFits(c, cache, seen)
    ensures |cache| <= c.start ==> |cache| == seen
  {
    RecentGroupFits(c);
  }

  function Aggregated(c: Config, l: Layer, pass: Pass): Outcome {
    var more := l.cache + [l.seen];
    Aggregate(c, Some(l), more, l.seen + 1, Map<nat, real>(pass.row, more))
  }

  predicate Appended(c: Config, l: Layer, score: nat -> real, count: nat -> nat, out: Outcome) {
    && out.Live? && out.layer.cache == l.cache + [l.seen] && out.layer.seen == l.seen + 1
    && Aligned(c, out.layer, score, count)
  }

  lemma {:induction false} NextAggregate(c: Config, l: Layer, cache: seq<nat>, seen: nat, hh: seq<real>)
    ensures var row := Scored(c, hh);
      var added := |row| - |l.scores|;
      Aggregate(c, Some(l), cache, seen, hh)
      == if AddScores(row, added, l.scores).None? then Failed(ShapeMismatch)
         else Live(Layer(cache, seen, AddScores(row, added, l.scores).value,
                         if c.normalize then LayerCounter(c, Some(l.counter), added) else []))
  {
    hide Scored, AddScores, LayerCounter;
  }

  /** The counters after one more token, whether or not the scored part has just begun. */
  lemma {:induction false} NextCounts(c: Config, l: Layer, p: nat, prompt: Pass, passes: seq<Pass>)
    requires Validated(c) && c.recent + c.inter > 0 && Fits(c, p, prompt, passes, l) && !Overruns(c, l) && c.normalize
    ensures var more := Scored(c, l.cache + [l.seen]);
      LayerCounter(c, Some(l.counter), |more| - |l.scores|) == Map<nat, nat>(Count(c, p, l.seen + 1), more)
  {
    ScoredStep(c, l.cache, l.seen);
    OnlyStart(c, l.cache, l.seen);
    hide Score, LayerCounter, Count;
    if |l.cache| != c.start {
      StepCounts(c, l, p);
    } else {
      assert l.cache == [0] && Scored(c, l.cache) == [0] && Scored(c, l.cache + [l.seen]) == [1];
      FirstStepCounts(c, l.counter);
    }
  }

  lemma {:induction false} AggregateStep(c: Config, l: Layer, p: nat, prompt: Pass, passes: seq<Pass>, pass: Pass)
    requires Validated(c) && c.recent + c.inter > 0 && Fits(c, p, prompt, passes, l)
    ensures Overruns(c, l) ==> Aggregated(c, l, pass) == Failed(ShapeMismatch)
    ensures !Overruns(c, l) ==>
      Appended(c, l, Score(p, prompt, passes + [pass]), Count(c, p, l.seen + 1), Aggregated(c, l, pass))
  {
    hide AddScores, Score, LayerCounter, Count, Scored, Aggregate, Overruns, Map, Validated;
    var more := l.cache + [l.seen];
    StepScores(c, l, p, prompt, passes, pass);
    MapScored(c, pass.row, more);
    NextAggregate(c, l, more, l.seen + 1, Map<nat, real>(pass.row, more));
    if c.normalize && !Overruns(c, l) { NextCounts(c, l, p, prompt, passes); }
  }

  /** A compression that does not fail keeps every invariant, and leaves the limit less the padding of the last group. */
  lemma {:induction false} CompressFits(c: Config, l: Layer, pick: Pick, score: nat -> real, count: nat -> nat)
    requires Compressible(c, l) && PickOk(c, Intermediate(c, l), pick) && c.recent + c.inter > 0
    requires HeadTail(c, l.cache, l.seen) && Aligned(c, l, score, count)
    ensures Breakage(c, l, pick).Some? ==> Compress(c, l, pick) == Failed(Breakage(c, l, pick).value)
    ensures Breakage(c, l, pick).None? ==>
      && Compress(c, l, pick).Live?
      && var r := Compress(c, l, pick).layer;
         r.cache != [] && r.seen == l.seen && CacheFits(c, r.cache, r.seen) && Aligned(c, r, score, count)
         && |r.cache| == MaxCache(c) - Padding(|l.cache|, c.group)
  {
    hide Compress, PickOk, Padding, Intermediate, MaskFits, Misplaced, Breakage;
    var chosen, mask := CompressIff(c, l, pick);
    if Breakage(c, l, pick).None? {
      CutFits(c, l.cache, l.seen, chosen, mask);
      CutAligned(c, l, chosen, mask, score, count, Compress(c, l, pick).layer);
    }
  }

  /** A mask that a compression can use on a cache above its limit. */
  predicate Cuts(c: Config, n: nat, chosen: seq<nat>, mask: seq<bool>) {
    FullSelection(c, n, chosen) && MaskFits(c, n, chosen, mask) && !Misplaced(c, n, chosen)
  }

  lemma {:induction false} CutParts(c: Config, cache: seq<nat>, chosen: seq<nat>, mask: seq<bool>)
      returns (middle: seq<nat>, t: nat)
    requires |cache| > MaxCache(c) && c.recent > 0
    requires FullSelection(c, |cache| - c.start, chosen) && |mask| == |cache| && MaskFits(c, |cache| - c.start, chosen, mask)
    ensures |middle| == c.inter && c.start + c.inter <= t <= |cache|
    ensures MaskedSelect(cache, mask) == cache[..c.start] + (middle + cache[t..])
  {
    var n := |cache| - c.start;
    SelectRecent(c, n, chosen, cache, mask);
    TailSize(c, n);
    hide MaskFits, FullSelection, Padding, TailStart, MaskedSelect, IntermediateGroups, Groups;
    t := TailStart(c, n);
    middle := MaskedSelect(cache[c.start..t], Middle(c, n, mask));
  }

  lemma {:induction false} CutSize(c: Config, cache: seq<nat>, chosen: seq<nat>, mask: seq<bool>)
    requires |cache| > MaxCache(c) && c.recent + c.inter > 0 && |mask| == |cache| && Cuts(c, |cache| - c.start, chosen, mask)
    ensures |MaskedSelect(cache, mask)| == MaxCache(c) - Padding(|cache|, c.group)
    ensures MaskedSelect(cache, mask) == cache[..c.start] + MaskedSelect(cache[c.start..], mask[c.start..])
    ensures c.start <= |MaskedSelect(cache, mask)|
  {
    SelectParts(c, |cache| - c.start, chosen, cache, mask);
    PaddingAfterStart(c, |cache| - c.start);
    hide MaskFits, Misplaced, Padding, MaskedSelect;
  }

  lemma {:induction false} CutFits(c: Config, cache: seq<nat>, seen: nat, chosen: seq<nat>, mask: seq<bool>)
    requires |cache| > MaxCache(c) && HeadTail(c, cache, seen) && c.recent + c.inter > 0
    requires |mask| == |cache| && Cuts(c, |cache| - c.start, chosen, mask)
    ensures var r := MaskedSelect(cache, mask);
      r != [] && CacheFits(c, r, seen) && |r| == MaxCache(c) - Padding(|cache|, c.group)
  {
    hide MaskFits, FullSelection, Padding, MaskedSelect, Misplaced, Cuts;
    assert Validated(c) by { CutsValid(c, |cache| - c.start, chosen, mask); }
    CutSize(c, cache, chosen, mask);
    RecentGroupFits(c);
    AscendingSize(cache, seen);
    SelectAscending(cache, mask);
    var r := MaskedSelect(cache, mask);
    forall i | 0 <= i < |r| ensures r[i] < seen { assert r[i] in r; }
    forall i | 0 <= i < |r| && i < c.start ensures r[i] == i {}
    if c.recent > 0 {
      CutsValid(c, |cache| - c.start, chosen, mask);
      var middle, t := CutParts(c, cache, chosen, mask);
      CutTail(c, cache, seen, t, r, middle);
    }
  }

  lemma {:induction false} CutsValid(c: Config, n: nat, chosen: seq<nat>, mask: seq<bool>)
    requires Cuts(c, n, chosen, mask)
    ensures Validated(c) && FullSelection(c, n, chosen) && MaskFits(c, n, chosen, mask)
  {
    hide MaskFits, Misplaced, Validated;
  }

  lemma {:induction false} CutTail(c: Config, cache: seq<nat>, seen: nat, t: nat, r: seq<nat>, middle: seq<nat>)
    requires c.start + c.inter <= t <= |cache| && HeadTail(c, cache, seen) && |middle| == c.inter
    requires r == cache[..c.start] + (middle + cache[t..])
    ensures forall i :: 0 <= i < |r| && i < c.start ==> r[i] == i
    ensures forall i :: c.start + c.inter <= i < |r| ==> r[i] == seen - |r| + i
  {
    forall i | c.start + c.inter <= i < |r| ensures r[i] == seen - |r| + i {
      assert r[i] == cache[t..][i - c.start - c.inter];
    }
  }

  /** The same mask on a row computed from the cache leaves that row of the new cache. */
  lemma {:induction false} CutRow<U>(c: Config, cache: seq<nat>, chosen: seq<nat>, mask: seq<bool>, f: nat -> U)
    requires |cache| > MaxCache(c) && c.recent + c.inter > 0 && |mask| == |cache|
    requires Cuts(c, |cache| - c.start, chosen, mask)
    ensures MaskedSelect(Map(f, cache[c.start..]), mask[c.start..]) == Map(f, Scored(c, MaskedSelect(cache, mask)))
  {
    hide MaskFits, FullSelection, Padding, MaskedSelect, Misplaced, Cuts;
    CutSize(c, cache, chosen, mask);
    CutsValid(c, |cache| - c.start, chosen, mask);
    RecentGroupFits(c);
    var rest, m := cache[c.start..], mask[c.start..];
    SelectMap(f, rest, m);
    assert MaskedSelect(cache, mask)[c.start..] == MaskedSelect(rest, m);
  }

  lemma {:induction false} CutAligned(c: Config, l: Layer, chosen: seq<nat>, mask: seq<bool>, score: nat -> real,
                                      count: nat -> nat, r: Layer)
    requires Compressible(c, l) && c.recent + c.inter > 0 && |mask| == |l.cache| && Aligned(c, l, score, count)
    requires Cuts(c, |l.scores|, chosen, mask) && CompressedTo(c, l, mask, r)
    ensures Aligned(c, r, score, count)
  {
    hide Cuts, MaskedSelect;
    CutRow(c, l.cache, chosen, mask, score);
    CutRow(c, l.cache, chosen, mask, count);
  }

  /** The error of evicting from this layer, if its cache is above the limit. */
  function EvictError(c: Config, l: Layer, pick: Pick): Option<Error> {
    if Compressible(c, l) && PickOk(c, Intermediate(c, l), pick) then Breakage(c, l, pick) else None
  }

  /** What each error takes. */
  predicate Reason(c: Config, error: Error) {
    match error
    case ShapeMismatch => false
    case NoRefinementAlgorithm => Unrefinable(c)
    case RankMismatch => c.refinement == KvCrush && c.perToken
    case MaskMismatch => c.refinement == DiverseKv && c.recent == 0 && c.group > 1
    case IndexOutOfRange => !Unrefinable(c) && c.recent == 0 && c.group > 1
  }

  lemma {:induction false} ErrorReason(c: Config, l: Layer, pick: Pick)
    ensures EvictError(c, l, pick).Some? ==> |l.cache| > MaxCache(c) && Reason(c, EvictError(c, l, pick).value)
  {
    hide PickOk, Intermediate, ChosenGroups, IntermediateGroups;
  }

  /** Eviction of `l` raises the stated error, or else keeps the invariants. */
  predicate EvictedFits(c: Config, l: Layer, pick: Pick, score: nat -> real, count: nat -> nat, out: Outcome) {
    && (out.Failed? ==> EvictError(c, l, pick) == Some(out.error))
    && (out.Live? ==>
          && EvictError(c, l, pick).None? && (Unrefinable(c) ==> |l.cache| <= MaxCache(c))
          && out.layer.cache != [] && out.layer.seen == l.seen && CacheFits(c, out.layer.cache, l.seen)
          && Aligned(c, out.layer, score, count))
  }

  /** The second half of a hook keeps the invariants. */
  lemma {:induction false} EvictFits(c: Config, l: Layer, pick: Pick, score: nat -> real, count: nat -> nat)
    requires Validated(c) && c.recent + c.inter > 0 && l.cache != []
    requires HeadTail(c, l.cache, l.seen) && Aligned(c, l, score, count)
    requires l.seen <= MaxCache(c) ==> |l.cache| == l.seen
    requires l.seen > MaxCache(c) ==> |l.cache| > MaxCache(c) - c.group
    ensures EvictedFits(c, l, pick, score, count, Evict(c, l, pick))
  {
    hide Compress, PickOk, Intermediate, HeadTail, MisplacedBy, RefinedCount;
    if |l.cache| > MaxCache(c) {
      assert Compressible(c, l);
      if PickOk(c, Intermediate(c, l), pick) { CompressFits(c, l, pick, score, count); }
    }
  }

  /** A pass that left the layer `a` before eviction. */
  predicate PassFits(c: Config, p: nat, prompt: Pass, passes: seq<Pass>, a: Layer, pick: Pick, out: Outcome) {
    && (out.Failed? ==> EvictError(c, a, pick) == Some(out.error))
    && (out.Live? ==>
          && EvictError(c, a, pick).None? && (Unrefinable(c) ==> |a.cache| <= MaxCache(c))
          && Fits(c, p, prompt, passes, out.layer))
  }

  predicate StepFits(c: Config, l: Layer, p: nat, prompt: Pass, passes: seq<Pass>, pass: Pass, out: Outcome) {
    if Overruns(c, l) then out == Failed(ShapeMismatch) && Aggregated(c, l, pass).Failed?
    else
      && Aggregated(c, l, pass).Live? && |Aggregated(c, l, pass).layer.cache| == |l.cache| + 1
      && PassFits(c, p, prompt, passes + [pass], Aggregated(c, l, pass).layer, pass.pick, out)
  }

  lemma {:induction false} HookIs(c: Config, l: Layer, pass: Pass)
    requires Validated(c)
    ensures var out := Aggregated(c, l, pass);
      Hook(c, Some(l), 1, pass.row, pass.pick) == if out.Live? then Evict(c, out.layer, pass.pick) else out
  {
    hide Aggregate, Evict, Map;
    assert l.cache + Range(l.seen, 1) == l.cache + [l.seen];
  }

  /** A cache that fitted, with one token more, is what eviction asks for. */
  lemma {:induction false} AppendFits(c: Config, cache: seq<nat>, seen: nat)
    requires Validated(c) && c.recent + c.inter > 0 && CacheFits(c, cache, seen)
    ensures var more := cache + [seen];
      && HeadTail(c, more, seen + 1)
      && (seen + 1 <= MaxCache(c) ==> |more| == seen + 1)
      && (seen + 1 > MaxCache(c) ==> |more| > MaxCache(c) - c.group)
  {
    OnlyStart(c, cache, seen);
    RecentGroupFits(c);
    AppendHeadTail(c, cache, seen);
  }

  lemma {:induction false} HookStep(c: Config, l: Layer, p: nat, prompt: Pass, passes: seq<Pass>, pass: Pass)
    requires Validated(c) && c.recent + c.inter > 0 && Fits(c, p, prompt, passes, l)
    ensures StepFits(c, l, p, prompt, passes, pass, Hook(c, Some(l), 1, pass.row, pass.pick))
  {
    hide Validated, Aggregated, Evict, Score, Count, HeadTail, Aligned, Hook, CacheFits, EvictError;
    AggregateStep(c, l, p, prompt, passes, pass);
    AppendFits(c, l.cache, l.seen);
    HookIs(c, l, pass);
    if !Overruns(c, l) {
      EvictFits(c, Aggregated(c, l, pass).layer, pass.pick, Score(p, prompt, passes + [pass]), Count(c, p, l.seen + 1));
    }
  }

  /** The layer after the prompt, before eviction. */
  function PromptLayer(c: Config, p: nat, prompt: Pass): Outcome {
    Aggregate(c, None, Range(0, p), p, Map<nat, real>(prompt.row, Range(0, p)))
  }

  lemma {:induction false} HookPrompt(c: Config, p: nat, prompt: Pass)
    requires Validated(c) && c.recent + c.inter > 0 && p > 0
    ensures PromptLayer(c, p, prompt).Live? && |PromptLayer(c, p, prompt).layer.cache| == p
    ensures PassFits(c, p, prompt, [], PromptLayer(c, p, prompt).layer, prompt.pick, Hook(c, None, p, prompt.row, prompt.pick))
  {
    hide Aggregate, Evict, Score, Count, HeadTail, Aligned, Map, Validated, EvictError;
    PromptAligned(c, p, prompt);
    PromptHeadTail(c, p);
    var cache: seq<nat> := Range(0, p);
    assert [] + Range(0, p) == cache;
    var next := PromptLayer(c, p, prompt).layer;
    EvictFits(c, next, prompt.pick, Score(p, prompt, []), Count(c, p, p));
  }

  // ----- runs

  /** A prompt no longer than the start tokens, outgrown later. */
  predicate ShortPrompt(c: Config, p: nat, n: nat) {
    c.start >= 2 && p <= c.start < p + n
  }

  /** Refined tokens without a refinement algorithm, once something must be evicted. */
  predicate Unrefined(c: Config, p: nat, n: nat) {
    Unrefinable(c) && p + n > MaxCache(c)
  }

  /** The error of the eviction in the last hook of the run. */
  function LastError(c: Config, p: nat, prompt: Pass, passes: seq<Pass>): Option<Error>
    requires Validated(c)
  {
    if passes == [] then
      if PromptLayer(c, p, prompt).Live? then EvictError(c, PromptLayer(c, p, prompt).layer, prompt.pick) else None
    else
      var before, pass := Run(c, p, prompt, passes[..|passes| - 1]), passes[|passes| - 1];
      if before.Live? && Aggregated(c, before.layer, pass).Live?
      then EvictError(c, Aggregated(c, before.layer, pass).layer, pass.pick) else None
  }

  /** The first error of an eviction. */
  function FirstError(c: Config, p: nat, prompt: Pass, passes: seq<Pass>): Option<Error>
    requires Validated(c)
  {
    if passes == [] then LastError(c, p, prompt, passes)
    else
      var earlier := FirstError(c, p, prompt, passes[..|passes| - 1]);
      if earlier.Some? then earlier else LastError(c, p, prompt, passes)
  }

  /** What a run comes to: a layer that fits, or the error of its first failing hook. */
  predicate RunOutcome(c: Config, p: nat, prompt: Pass, passes: seq<Pass>, out: Outcome)
    requires Validated(c)
  {
    && (out.Live? ==> Fits(c, p, prompt, passes, out.layer))
    && (out == Failed(ShapeMismatch) <==> ShortPrompt(c, p, |passes|))
    && (out == Failed(NoRefinementAlgorithm) <==> !ShortPrompt(c, p, |passes|) && Unrefined(c, p, |passes|))
    && (forall e :: e != ShapeMismatch ==> (out == Failed(e) <==> FirstError(c, p, prompt, passes) == Some(e)))
    && (FirstError(c, p, prompt, passes).Some? ==>
          p + |passes| > MaxCache(c) && Reason(c, FirstError(c, p, prompt, passes).value))
  }

  lemma {:induction false} RunNext(c: Config, p: nat, prompt: Pass, before: seq<Pass>, pass: Pass)
    requires Validated(c) && c.recent + c.inter > 0 && p > 0 && Run(c, p, prompt, before).Live?
    requires RunOutcome(c, p, prompt, before, Run(c, p, prompt, before))
    requires Run(c, p, prompt, before + [pass]) != NotARun
    ensures RunOutcome(c, p, prompt, before + [pass], Run(c, p, prompt, before + [pass]))
  {
    hide Hook, Fits, EvictError, Aggregated, Validated;
    var l, passes := Run(c, p, prompt, before).layer, before + [pass];
    assert passes[..|passes| - 1] == before;
    RecentGroupFits(c);
    HookStep(c, l, p, prompt, before, pass);
    LengthOf(c, p, prompt, before, l);
    if Aggregated(c, l, pass).Live? { ErrorReason(c, Aggregated(c, l, pass).layer, pass.pick); }
  }

  /** A failed run stays failed. */
  lemma {:induction false} RunFailed(c: Config, p: nat, prompt: Pass, before: seq<Pass>, pass: Pass)
    requires Validated(c) && c.recent + c.inter > 0 && p > 0 && Run(c, p, prompt, before).Failed?
    requires RunOutcome(c, p, prompt, before, Run(c, p, prompt, before))
    ensures RunOutcome(c, p, prompt, before + [pass], Run(c, p, prompt, before + [pass]))
  {
    hide Hook, Fits, EvictError, Aggregated;
    var passes := before + [pass];
    assert passes[..|passes| - 1] == before;
    RecentGroupFits(c);
    if Run(c, p, prompt, before).error == ShapeMismatch {
      assert ShortPrompt(c, p, |before|);
    } else {
      assert FirstError(c, p, prompt, before) == Some(Run(c, p, prompt, before).error);
    }
  }

  /** After every hook of every run the cache fits its limit, keeps the start tokens and an unbroken recent tail in the
      original order, and scores and counters are exactly those of the tokens kept.  A run fails exactly on a short prompt
      that is outgrown, or with the error of its first failing eviction. */
  lemma {:induction false} RunFits(c: Config, p: nat, prompt: Pass, passes: seq<Pass>)
    requires Validated(c) && c.recent + c.inter > 0 && p > 0 && Run(c, p, prompt, passes) != NotARun
    ensures RunOutcome(c, p, prompt, passes, Run(c, p, prompt, passes))
  {
    hide RunOutcome, Hook, Validated;
    if passes == [] {
      RunPrompt(c, p, prompt);
    } else {
      var before, pass := passes[..|passes| - 1], passes[|passes| - 1];
      RunFits(c, p, prompt, before);
      assert before + [pass] == passes;
      if Run(c, p, prompt, before).Live? {
        RunNext(c, p, prompt, before, pass);
      } else {
        RunFailed(c, p, prompt, before, pass);
      }
    }
  }

  lemma {:induction false} RunPrompt(c: Config, p: nat, prompt: Pass)
    requires Validated(c) && c.recent + c.inter > 0 && p > 0 && Run(c, p, prompt, []) != NotARun
    ensures RunOutcome(c, p, prompt, [], Run(c, p, prompt, []))
  {
    hide Hook, Fits, EvictError, PromptLayer, Validated;
    RecentGroupFits(c);
    HookPrompt(c, p, prompt);
    ErrorReason(c, PromptLayer(c, p, prompt).layer, prompt.pick);
  }

  lemma {:induction false} LengthOf(c: Config, p: nat, prompt: Pass, passes: seq<Pass>, l: Layer)
    requires Validated(c) && c.recent + c.inter > 0 && Fits(c, p, prompt, passes, l)
    ensures Overruns(c, l) <==> c.start >= 2 && p + |passes| == c.start
    ensures l.seen == p + |passes| && (l.seen <= MaxCache(c) ==> |l.cache| == l.seen) && |l.cache| <= l.seen
  {
    OnlyStart(c, l.cache, l.seen);
    RecentGroupFits(c);
  }

  /** Once something was evicted, the unbroken recent tail is longer than the recent tokens less one group, and no counter
      is zero, so normalised scores are defined. */
  lemma {:induction false} RecentTailLong(c: Config, p: nat, prompt: Pass, passes: seq<Pass>, l: Layer)
    requires Validated(c) && c.recent + c.inter > 0 && Fits(c, p, prompt, passes, l) && l.seen > MaxCache(c)
    ensures |l.cache| - (c.start + c.inter) > c.recent - c.group && (c.recent > 0 ==> c.recent >= c.group)
    ensures forall i :: 0 <= i < |l.counter| ==> l.counter[i] > 0
  {
    RecentGroupFits(c);
    Whole(c.recent, c.group);
    if c.recent > 0 { BlockStart(0, c.recent / c.group, c.group); }
    forall i | 0 <= i < |l.counter| ensures l.counter[i] > 0 {
      var x := Scored(c, l.cache)[i];
      RowsSeeingIs(FirstRow(c, p), l.seen, x);
    }
  }
}
