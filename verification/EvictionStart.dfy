/** A cache of start tokens only: with neither recent nor intermediate tokens every eviction cuts the start itself. */
module EvictionStart {
  import opened Options
  import opened Eviction
  import opened Ranking
  import opened EvictionMask
  import opened EvictionSpec
  import opened EvictionCompress
  import opened EvictionTheorems

  predicate StartOnly(c: Config) {
    Validated(c) && c.recent + c.inter == 0
  }

  // ----- one compression

  /** A mask of the first `k` entries. */
  lemma {:induction false} SelectFirst<T>(xs: seq<T>, mask: seq<bool>, k: nat)
    requires |xs| == |mask| && k <= |xs| && forall i :: 0 <= i < |mask| ==> (mask[i] <==> i < k)
    ensures MaskedSelect(xs, mask) == xs[..k]
  {
    hide MaskedSelect;
    SelectSplit(xs, mask, k);
    SelectAll(xs[..k], mask[..k]);
    SelectCount(xs[k..], mask[k..]);
    CountTrueConstant(mask[k..], false);
  }

  lemma {:induction false} NothingChosen(c: Config, l: Layer, pick: Pick)
    requires StartOnly(c) && Compressible(c, l) && PickOk(c, Intermediate(c, l), pick)
    ensures RefinementOf(c, l, pick).None? && !Refines(c, l, pick) && ChosenGroups(c, l, pick) == []
  {
    hide Intermediate, RefinedCount;
    assert CoarseCount(c, Intermediate(c, l), pick) == 0;
  }

  /** A compression leaves the start tokens, less the padding of the scored part, and no scores. */
  lemma {:induction false} StartCompress(c: Config, l: Layer, pick: Pick)
    requires StartOnly(c) && Compressible(c, l) && PickOk(c, Intermediate(c, l), pick)
    ensures Padding(|l.scores|, c.group) < c.start
    ensures Compress(c, l, pick)
            == Live(Layer(l.cache[..c.start - Padding(|l.scores|, c.group)], l.seen, [], []))
  {
    hide PickOk, Intermediate, RefinementOf, Refines, ChosenGroups, TokenIndices, KeptGroups, Padding, MaskedSelect;
    NothingChosen(c, l, pick);
    var n, k := |l.scores|, c.start - Padding(|l.scores|, c.group);
    StartPart(c, n);
    StartIndices(c, n);
    var indices := Indices(c, n, []);
    var mask := Mask(indices, |l.cache|);
    SelectFirst(l.cache, mask, k);
    SelectFirst(l.scores, mask[c.start..], 0);
    if c.normalize { SelectFirst(l.counter, mask[c.start..], 0); }
  }

  lemma {:induction false} StartIndices(c: Config, n: nat)
    requires StartOnly(c) && n > 0
    ensures Below(Indices(c, n, []), c.start)
    ensures forall i: nat :: i in Indices(c, n, []) <==> i < c.start - Padding(n, c.group)
  {
    hide Indices, Padding;
    forall i: nat ensures i in Indices(c, n, []) <==> i < c.start - Padding(n, c.group) { StartOnlyTrimmed(c, n, i); }
    forall j | 0 <= j < |Indices(c, n, [])| ensures Indices(c, n, [])[j] < c.start {
      assert Indices(c, n, [])[j] in Indices(c, n, []);
    }
  }

  // ----- one hook

  /** How a layer stands between hooks: its scores cover the cache, or nothing since an eviction. */
  predicate Between(c: Config, l: Layer) {
    && 0 < |l.cache| <= c.start && (|l.scores| == 0 || |l.scores| == |l.cache|)
    && (c.normalize && (|l.scores| == 0 || (c.start == 1 && |l.scores| == 1)) ==> |l.counter| == |l.scores|)
    && (!c.normalize ==> l.counter == [])
  }

  /** What one token more makes of it before eviction. */
  predicate Grown(c: Config, l: Layer, out: Outcome) {
    && out.Live? && out.layer.cache == l.cache + [l.seen] && out.layer.seen == l.seen + 1
    && |out.layer.scores| == (if |l.cache| < c.start then |l.cache| + 1 else 1)
    && (c.normalize && |l.cache| == c.start ==> |out.layer.counter| == 1)
    && (!c.normalize ==> out.layer.counter == [])
  }

  lemma {:induction false} StartGrows(c: Config, l: Layer, pass: Pass)
    requires StartOnly(c) && Between(c, l)
    ensures if |l.cache| == |l.scores| == c.start >= 2 then Aggregated(c, l, pass) == Failed(ShapeMismatch)
            else Grown(c, l, Aggregated(c, l, pass))
  {
    var more := l.cache + [l.seen];
    var row := Scored(c, Map<nat, real>(pass.row, more));
    assert |row| == if |l.cache| < c.start then |l.cache| + 1 else 1;
  }

  /** Eviction after one token more than the start tokens. */
  lemma {:induction false} StartEvicts(c: Config, l: Layer, pick: Pick)
    requires StartOnly(c) && |l.cache| == c.start + 1 && |l.scores| == 1 && (c.normalize ==> |l.counter| == 1)
    requires Evict(c, l, pick) != NotARun
    ensures Padding(1, c.group) < c.start
    ensures Evict(c, l, pick) == Live(Layer(l.cache[..c.start - Padding(1, c.group)], l.seen, [], []))
  {
    hide PickOk, Intermediate, Compress, Padding;
    StartCompress(c, l, pick);
  }

  /** One decode step: growth up to the start tokens, then an addition that is refused, or an eviction. */
  predicate StartStepped(c: Config, l: Layer, out: Outcome)
    requires StartOnly(c)
  {
    if |l.cache| < c.start then
      && out.Live? && out.layer.cache == l.cache + [l.seen] && out.layer.seen == l.seen + 1
      && |out.layer.scores| == |l.cache| + 1 && Between(c, out.layer)
    else if |l.scores| == c.start >= 2 then out == Failed(ShapeMismatch)
    else
      Padding(1, c.group) < c.start
      && out == Live(Layer(l.cache[..c.start - Padding(1, c.group)], l.seen + 1, [], []))
  }

  lemma {:induction false} StartStep(c: Config, l: Layer, pass: Pass)
    requires StartOnly(c) && Between(c, l) && Hook(c, Some(l), 1, pass.row, pass.pick) != NotARun
    ensures StartStepped(c, l, Hook(c, Some(l), 1, pass.row, pass.pick))
  {
    hide Hook, Aggregated, PickOk, Intermediate, Compress, Padding;
    StartGrows(c, l, pass);
    HookIs(c, l, pass);
    var out := Aggregated(c, l, pass);
    if |l.cache| == c.start && out.Live? {
      StartEvicts(c, out.layer, pass.pick);
      assert out.layer.cache[..c.start - Padding(1, c.group)] == l.cache[..c.start - Padding(1, c.group)];
    }
  }

  // ----- runs

  /** Decode steps after which the scored part covers the start tokens again, for a prompt above the limit. */
  function Refill(c: Config, p: nat): nat
    requires c.group > 0
  {
    if Padding(p, c.group) > 0 then Padding(p, c.group) else c.group
  }

  /** The run is over: a short prompt was outgrown, or a cut start was filled up and outgrown. */
  predicate StartFails(c: Config, p: nat, n: nat)
    requires c.group > 0
  {
    if p <= c.start then c.start >= 2 && p + n > c.start else c.group > 1 && n > Refill(c, p)
  }

  /** The tokens a run holds: the start as long as the padding spares it, and the ones that came after the last cut. */
  function StartCache(c: Config, p: nat, n: nat): seq<nat>
    requires c.group > 0
  {
    if p + n <= c.start then Range(0, p + n)
    else if p <= c.start || c.group == 1 then Range(0, c.start)
    else if Padding(p, c.group) > 0 then Range(0, Less(c.start, Padding(p, c.group))) + Range(p, n)
    else if n == 0 then Range(0, c.start)
    else Range(0, Less(c.start, c.group - 1)) + Range(p + 1, n - 1)
  }

  function Less(a: nat, b: nat): nat {
    if a >= b then a - b else 0
  }

  /** The last hook evicted. */
  predicate JustCut(c: Config, p: nat, n: nat)
    requires c.group > 0
  {
    p + n > c.start && (p <= c.start || c.group == 1 || n == 0 || (n == 1 && Padding(p, c.group) == 0))
  }

  predicate StartHeld(c: Config, p: nat, n: nat, l: Layer)
    requires c.group > 0
  {
    && l.seen == p + n && l.cache == StartCache(c, p, n) && Between(c, l)
    && |l.scores| == (if JustCut(c, p, n) then 0 else |l.cache|)
  }

  /** What a run comes to. */
  predicate StartOutcome(c: Config, p: nat, n: nat, out: Outcome)
    requires c.group > 0
  {
    if StartFails(c, p, n) then out == Failed(ShapeMismatch) else out.Live? && StartHeld(c, p, n, out.layer)
  }

  /** The layer a prompt leaves before eviction. */
  lemma {:induction false} PromptStands(c: Config, p: nat, prompt: Pass)
    requires StartOnly(c) && p > 0
    ensures PromptLayer(c, p, prompt).Live?
    ensures var a := PromptLayer(c, p, prompt).layer;
            && a.cache == Range(0, p) && a.seen == p && |a.scores| == (if p > c.start then p - c.start else p)
            && |a.counter| == if c.normalize then |a.scores| else 0
  {}

  lemma {:induction false} PromptHook(c: Config, p: nat, prompt: Pass)
    requires StartOnly(c) && p > 0 && PromptLayer(c, p, prompt).Live?
    ensures Run(c, p, prompt, []) == Evict(c, PromptLayer(c, p, prompt).layer, prompt.pick)
  {
    hide Aggregate, Evict, Map;
    assert [] + Range(0, p) == Range(0, p);
  }

  lemma {:induction false} StartPrompt(c: Config, p: nat, prompt: Pass)
    requires StartOnly(c) && p > 0 && Run(c, p, prompt, []) != NotARun
    ensures StartOutcome(c, p, 0, Run(c, p, prompt, []))
  {
    hide PickOk, Intermediate, Compress, Padding, Aggregate, PromptLayer, Run;
    PromptStands(c, p, prompt);
    PromptHook(c, p, prompt);
    var a := PromptLayer(c, p, prompt).layer;
    if p > c.start {
      PaddingAfterStart(c, p - c.start);
      StartCompress(c, a, prompt.pick);
      assert a.cache[..c.start - Padding(p, c.group)] == Range(0, c.start - Padding(p, c.group));
    }
  }

  lemma {:induction false} StartNext(c: Config, p: nat, n: nat, l: Layer, out: Outcome)
    requires StartOnly(c) && p > 0 && StartHeld(c, p, n, l) && !StartFails(c, p, n) && StartStepped(c, l, out)
    ensures StartOutcome(c, p, n + 1, out)
  {
    hide StartOutcome, StartHeld, StartStepped, StartFails;
    if p <= c.start || c.group == 1 { StepWhole(c, p, n, l, out); } else { StepCut(c, p, n, l, out); }
  }

  /** A start that was never cut. */
  lemma {:induction false} StepWhole(c: Config, p: nat, n: nat, l: Layer, out: Outcome)
    requires StartOnly(c) && p > 0 && StartHeld(c, p, n, l) && !StartFails(c, p, n) && StartStepped(c, l, out)
    requires p <= c.start || c.group == 1
    ensures StartOutcome(c, p, n + 1, out)
  {
    hide Padding;
    OnePadding(c);
  }

  /** A start that is cut, by the prompt or by the first step after it. */
  lemma {:induction false} StepCut(c: Config, p: nat, n: nat, l: Layer, out: Outcome)
    requires StartOnly(c) && StartHeld(c, p, n, l) && !StartFails(c, p, n) && StartStepped(c, l, out)
    requires p > c.start && c.group > 1
    ensures StartOutcome(c, p, n + 1, out)
  {
    hide Padding;
    OnePadding(c);
  }

  /** The padding of a single token. */
  lemma {:induction false} OnePadding(c: Config)
    requires StartOnly(c)
    ensures Padding(1, c.group) == c.group - 1 && c.group <= c.start
  {
    Whole(c.start, c.group);
    BlockStart(0, c.start / c.group, c.group);
  }

  /** With start tokens only, a run holds exactly `StartCache`, until it fails at a point the prompt's length determines:
      a short prompt that is outgrown, or, with groups of several tokens, a start that was cut and outgrown again. */
  lemma {:induction false} StartRunIff(c: Config, p: nat, prompt: Pass, passes: seq<Pass>)
    requires StartOnly(c) && p > 0 && Run(c, p, prompt, passes) != NotARun
    ensures StartOutcome(c, p, |passes|, Run(c, p, prompt, passes))
  {
    hide Hook, StartHeld, StartStepped, StartFails;
    if passes == [] {
      StartPrompt(c, p, prompt);
    } else {
      var before, pass := passes[..|passes| - 1], passes[|passes| - 1];
      StartRunIff(c, p, prompt, before);
      if StartFails(c, p, |before|) {
        FailsOn(c, p, |before|);
      } else {
        var l := Run(c, p, prompt, before).layer;
        HeldBetween(c, p, |before|, l);
        StartStep(c, l, pass);
        StartNext(c, p, |before|, l, Run(c, p, prompt, passes));
      }
    }
  }

  lemma {:induction false} FailsOn(c: Config, p: nat, n: nat)
    requires c.group > 0 && StartFails(c, p, n)
    ensures StartFails(c, p, n + 1)
  {
    hide Padding;
  }

  lemma {:induction false} HeldBetween(c: Config, p: nat, n: nat, l: Layer)
    requires c.group > 0 && StartHeld(c, p, n, l)
    ensures Between(c, l)
  {
    hide StartCache;
  }
}
