/** Refinement of a fixed number of tokens: for two valid configurations the run fails at a point that the configuration and
    the prompt's length alone determine. */
module EvictionRefined {
  import opened Arithmetic
  import opened Options
  import opened Eviction
  import opened EvictionMask
  import opened EvictionSpec
  import opened EvictionCompress
  import opened EvictionTheorems

  /** A fixed number of refined tokens is refined at every compression, whatever it picks. */
  lemma {:induction false} FixedBreaks(c: Config, l: Layer, pick: Pick)
    requires Compressible(c, l) && PickOk(c, Intermediate(c, l), pick) && c.refined > 0
    ensures c.refinement == KvCrush && c.perToken ==> Breakage(c, l, pick) == Some(RankMismatch)
    ensures c.refinement == DiverseKv && c.recent == 0 ==>
      Breakage(c, l, pick) == if Padding(|l.scores|, c.group) > 0 then Some(MaskMismatch) else None
  {
    hide PickOk, Intermediate, ChosenGroups, Padding, IntermediateGroups;
    Whole(c.refined, c.group);
  }

  /** The last hook of a live run left its cache alone or compressed it without an error. */
  predicate Passed(c: Config, a: Layer, pick: Pick) {
    |a.cache| > MaxCache(c) ==>
      Compressible(c, a) && PickOk(c, Intermediate(c, a), pick) && Breakage(c, a, pick).None?
  }

  lemma {:induction false} EvictPassed(c: Config, a: Layer, pick: Pick)
    requires Validated(c) && Evict(c, a, pick).Live? && EvictError(c, a, pick).None?
    ensures Passed(c, a, pick)
  {
    hide PickOk, Intermediate, Compress, Breakage;
  }

  lemma {:induction false} PromptPassed(c: Config, p: nat, prompt: Pass)
    requires Validated(c) && c.recent + c.inter > 0 && p > 0 && Run(c, p, prompt, []).Live?
    ensures PromptLayer(c, p, prompt).Live?
    ensures var a := PromptLayer(c, p, prompt).layer;
            |a.cache| == p && Passed(c, a, prompt.pick) && Run(c, p, prompt, []) == Evict(c, a, prompt.pick)
  {
    hide Aggregate, Evict, Fits, EvictError, Passed, Map;
    HookPrompt(c, p, prompt);
    assert [] + Range(0, p) == Range(0, p);
    EvictPassed(c, PromptLayer(c, p, prompt).layer, prompt.pick);
  }

  lemma {:induction false} StepPassed(c: Config, p: nat, prompt: Pass, passes: seq<Pass>)
    requires Validated(c) && c.recent + c.inter > 0 && p > 0 && passes != [] && Run(c, p, prompt, passes).Live?
    ensures var before, pass := Run(c, p, prompt, passes[..|passes| - 1]), passes[|passes| - 1];
            && before.Live? && Fits(c, p, prompt, passes[..|passes| - 1], before.layer)
            && Aggregated(c, before.layer, pass).Live?
            && var a := Aggregated(c, before.layer, pass).layer;
               |a.cache| == |before.layer.cache| + 1 && Passed(c, a, pass.pick)
  {
    hide Hook, Fits, EvictError, Aggregated, Evict, Passed;
    var before, pass := passes[..|passes| - 1], passes[|passes| - 1];
    RunFits(c, p, prompt, before);
    var l := Run(c, p, prompt, before).layer;
    HookStep(c, l, p, prompt, before, pass);
    HookIs(c, l, pass);
    assert !Overruns(c, l);
    EvictPassed(c, Aggregated(c, l, pass).layer, pass.pick);
  }

  // ----- KVCrush per token

  lemma {:induction false} CrushLive(c: Config, p: nat, prompt: Pass, passes: seq<Pass>)
    requires Validated(c) && c.recent + c.inter > 0 && p > 0 && Run(c, p, prompt, passes).Live?
    requires c.refinement == KvCrush && c.perToken && c.refined > 0
    ensures p + |passes| <= MaxCache(c)
  {
    hide Run, Aggregated, PromptLayer, PickOk, Intermediate, Breakage, Fits, Aligned;
    if passes == [] {
      PromptPassed(c, p, prompt);
      var a := PromptLayer(c, p, prompt).layer;
      if p > MaxCache(c) { FixedBreaks(c, a, prompt.pick); }
    } else {
      var before, pass := passes[..|passes| - 1], passes[|passes| - 1];
      StepPassed(c, p, prompt, passes);
      CrushLive(c, p, prompt, before);
      var l := Run(c, p, prompt, before).layer;
      LengthOf(c, p, prompt, before, l);
      if p + |passes| > MaxCache(c) { FixedBreaks(c, Aggregated(c, l, pass).layer, pass.pick); }
    }
  }

  /** Per token, KVCrush refines nothing: the run fails as soon as the limit is passed. */
  lemma {:induction false} CrushRunIff(c: Config, p: nat, prompt: Pass, passes: seq<Pass>)
    requires Validated(c) && p > 0 && Run(c, p, prompt, passes) != NotARun
    requires c.refinement == KvCrush && c.perToken && c.refined > 0
    ensures Run(c, p, prompt, passes) == Failed(RankMismatch)
            <==> !ShortPrompt(c, p, |passes|) && p + |passes| > MaxCache(c)
  {
    hide Run, FirstError, Fits, ShortPrompt;
    RunFits(c, p, prompt, passes);
    if Run(c, p, prompt, passes).Live? { CrushLive(c, p, prompt, passes); }
  }

  // ----- DiverseKV without recent tokens

  /** A full cache and one token more are padded. */
  lemma {:induction false} FullPadded(c: Config)
    requires Validated(c) && c.recent == 0 && c.group > 1
    ensures Padding(c.inter + 1, c.group) > 0
  {
    Whole(c.inter, c.group);
    DivMod(c.inter / c.group, 1, c.group);
  }

  lemma {:induction false} FullFails(c: Config, a: Layer, pick: Pick)
    requires Validated(c) && c.recent == 0 && c.group > 1 && c.refinement == DiverseKv && c.refined > 0
    requires |a.cache| == MaxCache(c) + 1
    ensures !Passed(c, a, pick)
  {
    hide PickOk, Intermediate, Breakage, Padding;
    FullPadded(c);
    if Passed(c, a, pick) { FixedBreaks(c, a, pick); }
  }

  /** A prompt above the limit is cut to it, less the padding. */
  lemma {:induction false} PromptCut(c: Config, p: nat, prompt: Pass)
    requires Validated(c) && c.recent + c.inter > 0 && p > MaxCache(c) && Run(c, p, prompt, []).Live?
    requires c.recent == 0 && c.refinement == DiverseKv && c.refined > 0
    ensures Padding(p, c.group) == 0 && |Run(c, p, prompt, []).layer.cache| == MaxCache(c)
  {
    hide Run, PickOk, Intermediate, Breakage, Padding, Compress, HeadTail, Aggregate, Map, Count;
    PromptPassed(c, p, prompt);
    PromptAligned(c, p, prompt);
    PromptHeadTail(c, p);
    var a := PromptLayer(c, p, prompt).layer;
    FixedBreaks(c, a, prompt.pick);
    PaddingAfterStart(c, |a.scores|);
    CompressFits(c, a, prompt.pick, EvictionTheorems.Score(p, prompt, []), Count(c, p, p));
  }

  lemma {:induction false} DiverseLive(c: Config, p: nat, prompt: Pass, passes: seq<Pass>)
    requires Validated(c) && c.recent + c.inter > 0 && p > 0 && Run(c, p, prompt, passes).Live?
    requires c.recent == 0 && c.group > 1 && c.refinement == DiverseKv && c.refined > 0
    ensures p + |passes| <= MaxCache(c) || (passes == [] && Padding(p, c.group) == 0)
  {
    hide Run, Aggregated, PromptLayer, Passed, Padding, Aligned, Fits;
    if passes == [] {
      if p > MaxCache(c) { PromptCut(c, p, prompt); }
    } else {
      var before, pass := passes[..|passes| - 1], passes[|passes| - 1];
      StepPassed(c, p, prompt, passes);
      DiverseLive(c, p, prompt, before);
      var l := Run(c, p, prompt, before).layer;
      LengthOf(c, p, prompt, before, l);
      if p + |before| > MaxCache(c) { PromptCut(c, p, prompt); }
      if p + |passes| > MaxCache(c) { FullFails(c, Aggregated(c, l, pass).layer, pass.pick); }
    }
  }

  /** No other error comes first. */
  lemma {:induction false} DiverseError(c: Config, p: nat, prompt: Pass, passes: seq<Pass>)
    requires Validated(c) && p > 0 && FirstError(c, p, prompt, passes).Some?
    requires c.recent == 0 && c.refinement == DiverseKv && c.refined > 0
    ensures FirstError(c, p, prompt, passes) == Some(MaskMismatch) && (passes == [] ==> Padding(p, c.group) > 0)
  {
    hide Run, Aggregated, PromptLayer, PickOk, Intermediate, Breakage, Padding;
    if passes == [] {
      var a := PromptLayer(c, p, prompt).layer;
      FixedBreaks(c, a, prompt.pick);
      PromptAligned(c, p, prompt);
      assert |a.cache| == p by { PromptSize(c, p, prompt); }
      PaddingAfterStart(c, |a.scores|);
    } else {
      var before, pass := passes[..|passes| - 1], passes[|passes| - 1];
      if FirstError(c, p, prompt, before).Some? {
        DiverseError(c, p, prompt, before);
      } else {
        FixedBreaks(c, Aggregated(c, Run(c, p, prompt, before).layer, pass).layer, pass.pick);
      }
    }
  }

  lemma {:induction false} PromptSize(c: Config, p: nat, prompt: Pass)
    requires Validated(c) && p > 0
    ensures PromptLayer(c, p, prompt).Live? && |PromptLayer(c, p, prompt).layer.cache| == p
  {
    hide Aggregate, Map, Aligned;
    PromptAligned(c, p, prompt);
  }

  /** Without recent tokens, DiverseKV fails as soon as a decode step passes the limit, and on a padded prompt above it. */
  lemma {:induction false} DiverseRunIff(c: Config, p: nat, prompt: Pass, passes: seq<Pass>)
    requires Validated(c) && p > 0 && Run(c, p, prompt, passes) != NotARun
    requires c.recent == 0 && c.group > 1 && c.refinement == DiverseKv && c.refined > 0
    ensures Run(c, p, prompt, passes) == Failed(MaskMismatch)
            <==> !ShortPrompt(c, p, |passes|) && p + |passes| > MaxCache(c) && (passes == [] ==> Padding(p, c.group) > 0)
  {
    hide Run, FirstError, Fits, ShortPrompt, Padding;
    RunFits(c, p, prompt, passes);
    if Run(c, p, prompt, passes).Live? {
      DiverseLive(c, p, prompt, passes);
    } else if FirstError(c, p, prompt, passes).Some? {
      DiverseError(c, p, prompt, passes);
    }
  }
}
