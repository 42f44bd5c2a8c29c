/** KV-cache eviction, one layer: score aggregation, counters, compression, and the hook run after every forward pass. */
module EvictionSpec {
  import opened Arithmetic
  import opened Options
  import opened Eviction
  import opened Ranking
  import opened EvictionMask

  /** ShapeMismatch is raised where scores are added up, RankMismatch where lists of different ranks are concatenated,
      MaskMismatch where the similarities are masked by longer scores, IndexOutOfRange where the mask is scattered. */
  datatype Error = ShapeMismatch | NoRefinementAlgorithm | RankMismatch | MaskMismatch | IndexOutOfRange

  /** A layer's cache as the original positions of its tokens, out of `seen` positions, with its aggregated scores and,
      when normalising, its counters. */
  datatype Layer = Layer(cache: seq<nat>, seen: nat, scores: seq<real>, counter: seq<nat>)

  /** NotARun: the choices given are not ones the tensor operations can make. */
  datatype Outcome = NotARun | Failed(error: Error) | Live(layer: Layer)

  // ----- aggregation

  /** The frozen start tokens are skipped, but only once the cache is longer than they are. */
  function Scored<T>(c: Config, xs: seq<T>): seq<T> {
    if |xs| > c.start then xs[c.start..] else xs
  }

  /** The length of the slice `[:-added]` of a row of `n` entries. */
  function Overlap(n: nat, added: int): nat {
    if added > 0 then (if n >= added then n - added else 0)
    else if -added < n then -added else n
  }

  /** `hh[:, :-added] += prev`, an in-place addition that broadcasts a single entry and refuses other lengths. */
  function AddScores(hh: seq<real>, added: int, prev: seq<real>): Option<seq<real>> {
    var n := Overlap(|hh|, added);
    if |prev| != n && |prev| != 1 then None
    else Some(seq(|hh|, i requires 0 <= i < |hh| =>
                hh[i] + if i >= n then 0.0 else if |prev| == n then prev[i] else prev[0]))
  }

  /** torch.arange(n, 0, -1) */
  function Countdown(n: int): (r: seq<nat>)
    ensures |r| == if n > 0 then n else 0
  {
    if n <= 0 then [] else seq(n, i requires 0 <= i < n => n - i)
  }

  function NewCounts(c: Config, added: int): int {
    if c.window.Some? && c.window.value < added then c.window.value else added
  }

  /** _calculate_layer_counter */
  function LayerCounter(c: Config, prev: Option<seq<nat>>, added: int): seq<nat> {
    var n := NewCounts(c, added);
    match prev
    case Some(counts) => seq(|counts|, i requires 0 <= i < |counts| => AddCount(counts[i], n)) + Countdown(n)
    case None => (if c.window.Some? && added > c.window.value
                  then seq(added - c.window.value, _ => c.window.value) else []) + Countdown(n)
  }

  function AddCount(a: nat, n: int): nat {
    if a + n >= 0 then a + n else 0
  }

  /** aggregate_scores after a pass that left `cache` and summed the attention rows into `hh`, one entry per token. */
  function Aggregate(c: Config, prior: Option<Layer>, cache: seq<nat>, seen: nat, hh: seq<real>): Outcome {
    var row := Scored(c, hh);
    match prior
    case None => Live(Layer(cache, seen, row, if c.normalize then LayerCounter(c, None, |row|) else []))
    case Some(l) =>
      var added := |row| - |l.scores|;
      match AddScores(row, added, l.scores)
      case None => Failed(ShapeMismatch)
      case Some(scores) =>
        Live(Layer(cache, seen, scores, if c.normalize then LayerCounter(c, Some(l.counter), added) else []))
  }

  // ----- group scores

  function TokenScore(c: Config, l: Layer, i: nat): real {
    if i >= |l.scores| then 0.0
    else if c.normalize && i < |l.counter| && l.counter[i] > 0 then l.scores[i] / l.counter[i] as real
    else l.scores[i]
  }

  function GroupSum(c: Config, l: Layer, first: nat, n: nat): real {
    if n == 0 then 0.0 else GroupSum(c, l, first, n - 1) + TokenScore(c, l, first + n - 1)
  }

  /** The groups of the scored part, less the recent ones. */
  function IntermediateGroups(c: Config, n: nat): nat
    requires c.group > 0
  {
    if Groups(n, c.group) < c.recent / c.group then 0 else Groups(n, c.group) - c.recent / c.group
  }

  function Product(k: nat, g: nat): nat {
    k * g
  }

  function Intermediate(c: Config, l: Layer): (r: seq<real>)
    requires c.group > 0
    ensures |r| == IntermediateGroups(c, |l.scores|)
  {
    seq(IntermediateGroups(c, |l.scores|), 
        k requires 0 <= k < IntermediateGroups(c, |l.scores|) => GroupSum(c, l, Product(k, c.group), c.group))
  }

  function RefinedTokens(c: Config, vals: seq<real>, pick: Pick): nat
    requires Below(pick.ranking, |vals|) && pick.ranking != []
  {
    if c.refinement != NoRefinement && c.refined == 0 then AdaptiveRefined(c, vals, pick.ranking) else c.refined
  }

  function RefinedCount(c: Config, vals: seq<real>, pick: Pick): nat
    requires c.group > 0 && Below(pick.ranking, |vals|) && pick.ranking != []
  {
    RefinedTokens(c, vals, pick) / c.group
  }

  function CoarseCount(c: Config, vals: seq<real>, pick: Pick): (n: nat)
    requires Validated(c) && Below(pick.ranking, |vals|) && pick.ranking != []
    ensures n + RefinedCount(c, vals, pick) == c.inter / c.group
  {
    Quotients(RefinedTokens(c, vals, pick), c.inter, c.group);
    c.inter / c.group - RefinedCount(c, vals, pick)
  }

  lemma {:induction false} Quotients(a: nat, b: nat, g: nat)
    requires g > 0 && a <= b
    ensures a / g <= b / g
  {
    Cancel(g, a / g, b / g);
  }

  predicate PickOk(c: Config, vals: seq<real>, pick: Pick)
    requires Validated(c)
  {
    && vals != [] && IsArgsort(Unmasked(vals), pick.ranking)
    && Picked(c, vals, pick, CoarseCount(c, vals, pick), RefinedCount(c, vals, pick))
  }

  // ----- compression

  /** The lists of groups, in the order they are concatenated. */
  function KeptGroups(c: Config, n: nat, chosen: seq<nat>): seq<nat>
    requires c.group > 0
  {
    var start := c.start / c.group;
    Range(0, start) + Shift(chosen, start) + Range(start + IntermediateGroups(c, n), c.recent / c.group)
  }

  function Range(from: nat, n: nat): (r: seq<nat>)
    ensures |r| == n && forall i :: 0 <= i < n ==> r[i] == from + i
  {
    seq(n, i => from + i)
  }

  function Shift(groups: seq<nat>, offset: nat): (r: seq<nat>)
    ensures |r| == |groups| && forall i :: 0 <= i < |r| ==> r[i] == groups[i] + offset
  {
    seq(|groups|, i requires 0 <= i < |groups| => groups[i] + offset)
  }

  /** A cache above its limit has at least one group more than the intermediate part keeps. */
  lemma {:induction false} SpareGroup(c: Config, n: nat)
    requires Validated(c) && n > c.recent + c.inter
    ensures Groups(n, c.group) >= c.recent / c.group
    ensures IntermediateGroups(c, n) > c.inter / c.group
    ensures IntermediateGroups(c, n) * c.group == n + Padding(n, c.group) - c.recent
  {
    GroupsTile(n, c.group);
    Whole(c.recent, c.group);
    Whole(c.inter, c.group);
    SpareBlocks(Groups(n, c.group), c.recent / c.group, c.inter / c.group, n, c.group);
  }

  lemma {:induction false} Whole(n: nat, g: nat)
    requires g > 0 && n % g == 0
    ensures n == (n / g) * g
  {}

  lemma {:induction false} SpareBlocks(total: nat, rec: nat, mid: nat, n: nat, g: nat)
    requires g > 0 && total * g >= n > rec * g + mid * g
    ensures total >= rec + mid + 1 && (total - rec) * g == total * g - rec * g
  {
    assert (rec + mid) * g == rec * g + mid * g;
    Cancel(g, rec + mid + 1, total);
    LessGroups(total, rec, g);
  }

  /** A layer whose scores and counters match its cache above the start tokens, and whose cache is too long. */
  predicate Compressible(c: Config, l: Layer) {
    && Validated(c) && |l.cache| > MaxCache(c)
    && |l.scores| == |l.cache| - c.start && (c.normalize ==> |l.counter| == |l.scores|)
  }

  /** What get_refined_indices and its caller trip over, asked for `refined` groups of `n` scored tokens.  KVCrush per token
      returns a row where the other lists are flat.  DiverseKV compares the keys of the `n` tokens, and masks them by the
      scores of whole groups. */
  function RefinementError(c: Config, n: nat, refined: nat): Option<Error>
    requires c.group > 0
  {
    if refined == 0 then None
    else
      match c.refinement
      case NoRefinement => Some(NoRefinementAlgorithm)
      case KvCrush => if c.perToken then Some(RankMismatch) else None
      case DiverseKv => if Product(IntermediateGroups(c, n), c.group) > n then Some(MaskMismatch) else None
  }

  predicate Refines(c: Config, l: Layer, pick: Pick)
    requires Compressible(c, l) && PickOk(c, Intermediate(c, l), pick)
  {
    RefinedCount(c, Intermediate(c, l), pick) > 0
  }

  function RefinementOf(c: Config, l: Layer, pick: Pick): (error: Option<Error>)
    requires Compressible(c, l) && PickOk(c, Intermediate(c, l), pick)
  {
    RefinementError(c, |l.scores|, RefinedCount(c, Intermediate(c, l), pick))
  }

  function ChosenGroups(c: Config, l: Layer, pick: Pick): (r: seq<nat>)
    requires Compressible(c, l) && PickOk(c, Intermediate(c, l), pick)
    requires Refines(c, l, pick) ==> c.refinement != NoRefinement
  {
    var vals := Intermediate(c, l);
    SpareGroup(c, |l.scores|);
    pick.coarse + Refined(c, pick, RefinedCount(c, vals, pick), |vals| - CoarseCount(c, vals, pick))
  }

  function Compress(c: Config, l: Layer, pick: Pick): Outcome
    requires Compressible(c, l) && PickOk(c, Intermediate(c, l), pick)
  {
    var error := RefinementOf(c, l, pick);
    if error.Some? then Failed(error.value)
    else
      var groups := KeptGroups(c, |l.scores|, ChosenGroups(c, l, pick));
      var indices := TokenIndices(groups, |l.cache|, c.group);
      if exists i :: 0 <= i < |indices| && indices[i] >= |l.cache| then Failed(IndexOutOfRange)
      else
        var mask := Mask(indices, |l.cache|);
        Live(l.(cache := MaskedSelect(l.cache, mask),
                scores := MaskedSelect(l.scores, mask[c.start..]),
                counter := if c.normalize then MaskedSelect(l.counter, mask[c.start..]) else []))
  }

  /** forward_hook after a pass that appended `added` tokens; `row` is the attention each position received, summed over
      the aggregated query rows. */
  function Hook(c: Config, prior: Option<Layer>, added: nat, row: nat -> real, pick: Pick): Outcome
    requires Validated(c)
  {
    var prev, seen := if prior.Some? then prior.value.cache else [], if prior.Some? then prior.value.seen else 0;
    HookOn(c, prior, prev + Range(seen, added), seen + added, row, pick)
  }

  /** The same, given the cache with its new tokens. */
  function HookOn(c: Config, prior: Option<Layer>, cache: seq<nat>, seen: nat, row: nat -> real, pick: Pick): Outcome
    requires Validated(c)
  {
    match Aggregate(c, prior, cache, seen, Map<nat, real>(row, cache))
    case NotARun => NotARun
    case Failed(e) => Failed(e)
    case Live(l) => Evict(c, l, pick)
  }

  /** A cache above its limit is compressed. */
  function Evict(c: Config, l: Layer, pick: Pick): Outcome
    requires Validated(c)
  {
    if |l.cache| <= MaxCache(c) then Live(l)
    else if !Compressible(c, l) then Failed(ShapeMismatch)
    else if !PickOk(c, Intermediate(c, l), pick) then NotARun
    else Compress(c, l, pick)
  }

  /** One hook: the attention rows it aggregates and the choices its compression makes. */
  datatype Pass = Pass(row: nat -> real, pick: Pick)

  /** A prompt of `p` tokens, then one token per pass. */
  function Run(c: Config, p: nat, prompt: Pass, passes: seq<Pass>): Outcome
    requires Validated(c)
  {
    if passes == [] then Hook(c, None, p, prompt.row, prompt.pick)
    else
      match Run(c, p, prompt, passes[..|passes| - 1])
      case NotARun => NotARun
      case Failed(e) => Failed(e)
      case Live(l) => Hook(c, Some(l), 1, passes[|passes| - 1].row, passes[|passes| - 1].pick)
  }
}
