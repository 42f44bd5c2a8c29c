/** KV-cache eviction, the choice of tokens: group arithmetic, coarse top-k, refined selection, and the mask they make. */
module Eviction {
  import opened Arithmetic
  import opened Options
  import opened Ranking

  /** A score or distance; selected groups are masked with minus infinity. */
  datatype Score = NegInf | Finite(value: real)

  predicate AtMost(a: Score, b: Score) {
    a.NegInf? || (b.Finite? && a.value <= b.value)
  }

  datatype Refinement = NoRefinement | KvCrush | DiverseKv

  /** `perToken` is the granularity, whose groups are single tokens. */
  datatype Config = Config(
    start: nat, recent: nat, inter: nat, refined: nat, group: nat, perToken: bool,
    window: Option<nat>, refinement: Refinement, normalize: bool)

  /** _validate_arguments for the H2O (no window) and SnapKV modes. */
  predicate Validated(c: Config) {
    && c.group > 0 && c.refined <= c.inter && c.start + c.recent + c.inter > 0
    && c.start % c.group == 0 && c.recent % c.group == 0 && c.inter % c.group == 0 && c.refined % c.group == 0
    && (c.perToken ==> c.group == 1) && (c.window.Some? ==> c.window.value > 0)
  }

  function MaxCache(c: Config): nat {
    c.start + c.recent + c.inter
  }

  // ----- groups

  function Padding(n: nat, g: nat): (p: nat)
    requires g > 0
    ensures p < g && (n + p) % g == 0
  {
    PaddingMultiple(n, g);
    if n % g == 0 then 0 else g - n % g
  }

  function Groups(n: nat, g: nat): nat
    requires g > 0
  {
    (n + Padding(n, g)) / g
  }

  lemma {:induction false} PaddingMultiple(n: nat, g: nat)
    requires g > 0
    ensures n % g == 0 || (n + (g - n % g)) % g == 0
  {
    var q := n / g;
    assert n + (g - n % g) == (q + 1) * g;
    Multiple(q + 1, g);
  }

  lemma {:induction false} Multiple(q: nat, g: nat)
    requires g > 0
    ensures (q * g) % g == 0 && (q * g) / g == q
  {
    DivMod(q, 0, g);
  }

  /** A length is its groups times the group size, less the padding of the last group. */
  lemma {:induction false} GroupsTile(n: nat, g: nat)
    requires g > 0
    ensures Groups(n, g) * g == n + Padding(n, g)
  {}

  // ----- top-k, sorting, even spacing

  /** Any result of torch.topk: `k` distinct positions, none of the others larger. */
  predicate IsTopK(vals: seq<Score>, k: nat, top: seq<nat>) {
    && |top| == k && Distinct(top) && Below(top, |vals|)
    && forall i, j :: 0 <= i < |top| && 0 <= j < |vals| && j !in top ==> AtMost(vals[j], vals[top[i]])
  }

  /** Any result of torch.argsort(descending=True). */
  predicate IsArgsort(vals: seq<Score>, order: seq<nat>) {
    && |order| == |vals| && Distinct(order) && Below(order, |vals|)
    && forall i, j :: 0 <= i < j < |order| ==> AtMost(vals[order[j]], vals[order[i]])
  }

  /** torch.linspace(0, last, steps) truncated to integers. */
  function Linspace(last: nat, steps: nat, i: nat): nat
    requires i < steps
  {
    if steps == 1 then 0 else (i * last) / (steps - 1)
  }

  lemma {:induction false} DivMonotone(a: int, b: int, d: nat)
    requires d > 0 && a + d <= b
    ensures a / d + 1 <= b / d
  {
    Cancel(d, a / d + 1, b / d);
  }

  /** Evenly spaced positions are distinct as soon as there is one more candidate than there are steps. */
  lemma {:induction false} LinspaceIncreasing(last: nat, steps: nat, i: nat)
    requires i + 1 < steps <= last
    ensures Linspace(last, steps, i) < Linspace(last, steps, i + 1) <= last
  {
    assert (i + 1) * last == i * last + last;
    DivMonotone(i * last, (i + 1) * last, steps - 1);
    assert (i + 1) * last <= (steps - 1) * last;
    DivUpper((i + 1) * last, last, steps - 1);
  }

  lemma {:induction false} DivUpper(a: nat, m: nat, d: nat)
    requires d > 0 && a <= d * m
    ensures a / d <= m
  {
    Cancel(d, a / d, m);
  }

  lemma {:induction false} LinspaceOrdered(last: nat, steps: nat, i: nat, j: nat)
    requires i < j < steps <= last
    ensures Linspace(last, steps, i) < Linspace(last, steps, j) <= last
    decreases j - i
  {
    LinspaceIncreasing(last, steps, j - 1);
    if i < j - 1 { LinspaceOrdered(last, steps, i, j - 1); }
  }

  // ----- one selection

  /** The tensors a compression step chooses: the descending ranking of the group scores, the coarse groups (topk, then
      sorted), and, for refinement, the sort order of the masked distances (KVCrush) or the top-k of the masked
      diversities (DiverseKV). */
  datatype Pick = Pick(ranking: seq<nat>, coarse: seq<nat>, measure: seq<real>, order: seq<nat>)

  function Masked(measure: seq<real>, coarse: seq<nat>): (m: seq<Score>)
    ensures |m| == |measure|
    ensures forall i :: 0 <= i < |m| ==> m[i] == if i in coarse then NegInf else Finite(measure[i])
  {
    seq(|measure|, i requires 0 <= i < |measure| => if i in coarse then NegInf else Finite(measure[i]))
  }

  function Unmasked(vals: seq<real>): seq<Score> {
    seq(|vals|, i requires 0 <= i < |vals| => Finite(vals[i]))
  }

  /** The refined groups of a step keeping `size` of them beside the coarse ones; `valid` groups are unselected. */
  function RefinedGroups(c: Config, pick: Pick, size: nat, valid: nat): seq<nat>
    requires size < valid <= |pick.order| || c.refinement != KvCrush
  {
    match c.refinement
    case NoRefinement => []
    case DiverseKv => pick.order
    case KvCrush =>
      seq(size, i requires 0 <= i < size => pick.order[LinspaceIndex(valid, size, i)])
  }

  function LinspaceIndex(valid: nat, size: nat, i: nat): (p: nat)
    requires i < size < valid
    ensures p < valid
  {
    LinspaceRange(valid - 1, size, i);
    Linspace(valid - 1, size, i)
  }

  lemma {:induction false} LinspaceRange(last: nat, steps: nat, i: nat)
    requires i < steps <= last
    ensures Linspace(last, steps, i) <= last
  {
    if i > 0 { LinspaceOrdered(last, steps, 0, i); }
  }

  /** The step's choices are ones the tensor operations can make, over `v` intermediate groups scored `vals`. */
  predicate Picked(c: Config, vals: seq<real>, pick: Pick, coarse: nat, refined: nat) {
    && Ascending(pick.coarse) && IsTopK(Unmasked(vals), coarse, pick.coarse)
    && (refined > 0 && c.refinement == KvCrush ==>
          |pick.measure| == |vals| && IsArgsort(Masked(pick.measure, pick.coarse), pick.order))
    && (refined > 0 && c.refinement == DiverseKv ==>
          |pick.measure| == |vals| && IsTopK(Masked(pick.measure, pick.coarse), refined, pick.order))
  }

  lemma {:induction false} PrefixValid(vals: seq<Score>, order: seq<nat>, coarse: seq<nat>, measure: seq<real>, p: nat)
    requires vals == Masked(measure, coarse) && IsArgsort(vals, order)
    requires Distinct(coarse) && Below(coarse, |vals|) && p < |vals| - |coarse|
    ensures order[p] !in coarse
  {
    if order[p] in coarse {
      var rest := order[p..];
      forall k | 0 <= k < |rest| ensures rest[k] in coarse {
        assert rest[k] == order[p + k] && (k == 0 || AtMost(vals[order[p + k]], vals[order[p]]));
      }
      Pigeonhole(rest, coarse);
    }
  }

  // ----- coarse and refined groups together

  function Refined(c: Config, pick: Pick, refined: nat, valid: nat): seq<nat>
    requires refined > 0 ==> c.refinement != NoRefinement
    requires refined > 0 && c.refinement == KvCrush ==> refined < valid <= |pick.order|
  {
    if refined == 0 then [] else RefinedGroups(c, pick, refined, valid)
  }

  /** Coarse and refined groups never overlap, and are as many distinct groups as asked for, whenever a group is left
      over. */
  lemma {:induction false} SelectionSplits(c: Config, vals: seq<real>, pick: Pick, coarse: nat, refined: nat)
    requires Picked(c, vals, pick, coarse, refined) && coarse + refined < |vals|
    requires refined > 0 ==> c.refinement != NoRefinement
    ensures refined > 0 && c.refinement == KvCrush ==> refined < |vals| - coarse <= |pick.order|
    ensures var groups := pick.coarse + Refined(c, pick, refined, |vals| - coarse);
      |groups| == coarse + refined && Distinct(groups) && Below(groups, |vals|)
  {
    if refined > 0 {
      if c.refinement == KvCrush {
        CrushSplits(c, vals, pick, coarse, refined);
      } else {
        DiverseSplits(Masked(pick.measure, pick.coarse), pick, coarse, refined);
      }
    } else {
      assert pick.coarse + [] == pick.coarse;
    }
  }

  lemma {:induction false} CrushSplits(c: Config, vals: seq<real>, pick: Pick, coarse: nat, refined: nat)
    requires Picked(c, vals, pick, coarse, refined) && coarse + refined < |vals|
    requires refined > 0 && c.refinement == KvCrush
    ensures var groups := pick.coarse + Refined(c, pick, refined, |vals| - coarse);
      |groups| == coarse + refined && Distinct(groups) && Below(groups, |vals|)
  {
    var valid := |vals| - coarse;
    var r := Refined(c, pick, refined, valid);
    forall i | 0 <= i < refined ensures r[i] !in pick.coarse {
      PrefixValid(Masked(pick.measure, pick.coarse), pick.order, pick.coarse, pick.measure,
                  LinspaceIndex(valid, refined, i));
    }
    forall i, j | 0 <= i < j < refined ensures r[i] != r[j] { LinspaceOrdered(valid - 1, refined, i, j); }
  }

  lemma {:induction false} DiverseSplits(vals: seq<Score>, pick: Pick, coarse: nat, refined: nat)
    requires vals == Masked(pick.measure, pick.coarse) && coarse + refined < |vals|
    requires |pick.coarse| == coarse && Distinct(pick.coarse) && Below(pick.coarse, |vals|)
    requires IsTopK(vals, refined, pick.order)
    ensures Distinct(pick.coarse + pick.order) && Below(pick.coarse + pick.order, |vals|)
  {
    var spare := Spare(pick.coarse + pick.order, |vals|);
    forall i | 0 <= i < refined ensures pick.order[i] !in pick.coarse {
      assert AtMost(vals[spare], vals[pick.order[i]]);
    }
  }

  predicate IsQuotient(m: nat, d: nat, q: nat) {
    q * d <= m < (q + 1) * d
  }

  /** Position `p` is i steps of the even division of 0 to `last`, rounded down. */
  predicate EvenStep(last: nat, steps: nat, i: nat, p: nat) {
    if steps <= 1 then p == 0 else IsQuotient(i * last, steps - 1, p)
  }

  lemma {:induction false} LinspaceEven(last: nat, steps: nat, i: nat)
    requires i < steps
    ensures EvenStep(last, steps, i, Linspace(last, steps, i))
  {
    hide IsQuotient;
    if steps > 1 { RoundedDown(i * last, steps - 1); }
  }

  lemma {:induction false} LinspaceEnds(last: nat, steps: nat)
    requires steps > 1
    ensures Linspace(last, steps, steps - 1) == last
  {
    WholeSteps(last, steps - 1);
  }

  lemma {:induction false} WholeSteps(last: nat, d: nat)
    requires d > 0
    ensures (d * last) / d == last
  {
    assert last * d == d * last;
    Multiple(last, d);
  }

  lemma {:induction false} RoundedDown(m: nat, d: nat)
    requires d > 0
    ensures IsQuotient(m, d, m / d)
  {
    Successor(m / d, d);
  }

  lemma {:induction false} Successor(q: nat, d: nat)
    ensures (q + 1) * d == q * d + d
  {}

  /** Of the groups beside the coarse ones, KVCrush takes evenly spaced ones by descending distance, the first and the
      last included, and DiverseKV the most diverse. */
  lemma {:induction false} RefinedIs(c: Config, vals: seq<real>, pick: Pick, coarse: nat, refined: nat, i: nat)
      returns (p: nat)
    requires Picked(c, vals, pick, coarse, refined) && coarse + refined < |vals| && i < refined
    requires c.refinement != NoRefinement
    requires c.refinement == KvCrush ==> refined < |vals| - coarse <= |pick.order|
    ensures var groups := Refined(c, pick, refined, |vals| - coarse);
            && |groups| == refined
            && (c.refinement == KvCrush ==>
                  && p < |vals| - coarse && EvenStep(|vals| - coarse - 1, refined, i, p)
                  && (refined > 1 && i == refined - 1 ==> p == |vals| - coarse - 1)
                  && groups[i] == pick.order[p] && groups[i] !in pick.coarse)
            && (c.refinement == DiverseKv ==>
                  forall d: nat :: d < |vals| && d !in pick.coarse && d !in groups ==>
                    AtMost(Masked(pick.measure, pick.coarse)[d], Masked(pick.measure, pick.coarse)[groups[i]]))
  {
    p := 0;
    if c.refinement == KvCrush {
      var valid := |vals| - coarse;
      p := LinspaceIndex(valid, refined, i);
      LinspaceEven(valid - 1, refined, i);
      if refined > 1 { LinspaceEnds(valid - 1, refined); }
      hide Linspace, EvenStep;
      PrefixValid(Masked(pick.measure, pick.coarse), pick.order, pick.coarse, pick.measure, p);
    }
  }

  /** Fewer positions than there are leave one out. */
  lemma {:induction false} Spare(s: seq<nat>, n: nat) returns (p: nat)
    requires |s| < n
    ensures p < n && p !in s
  {
    var all := seq(n, i requires 0 <= i < n => i);
    p := 0;
    if p' :| 0 <= p' < n && p' !in s {
      p := p';
    } else {
      Pigeonhole(all, Once(s));
    }
  }

  /** The members of `s` without repetition. */
  function Once(s: seq<nat>): (r: seq<nat>)
    ensures |r| <= |s| && Distinct(r) && forall x :: x in r <==> x in s
  {
    if s == [] then []
    else
      var r := Once(s[..|s| - 1]);
      assert forall x :: x in s <==> x in s[..|s| - 1] || x == s[|s| - 1];
      if s[|s| - 1] in r then r else r + [s[|s| - 1]]
  }

  // ----- the adaptive split

  lemma {:induction false} TopKIsTop(vals: seq<real>, k: nat, top: seq<nat>)
    requires IsTopK(Unmasked(vals), k, top)
    ensures IsTop(vals, k, top)
  {
    forall i, j | 0 <= i < |top| && 0 <= j < |vals| && j !in top ensures vals[j] <= vals[top[i]] {
      assert AtMost(Unmasked(vals)[j], Unmasked(vals)[top[i]]);
    }
  }

  lemma {:induction false} ArgsortDescends(vals: seq<real>, order: seq<nat>)
    requires IsArgsort(Unmasked(vals), order)
    ensures IsDescending(vals, order)
  {
    forall i, j | 0 <= i < j < |order| ensures vals[order[j]] <= vals[order[i]] {
      assert AtMost(Unmasked(vals)[order[j]], Unmasked(vals)[order[i]]);
    }
  }

  /** _set_balanced_refined_size: the fewest leading groups of the descending order carrying 90% of the mass. */
  function Cutoff(vals: seq<real>, order: seq<nat>, k: nat): nat
    requires Below(order, |vals|) && k <= |order|
    decreases |order| - k
  {
    if k == |order| || 10.0 * Sum(vals, order[..k]) >= 9.0 * Sum(vals, order) then k else Cutoff(vals, order, k + 1)
  }

  function AdaptiveRefined(c: Config, vals: seq<real>, order: seq<nat>): nat
    requires Below(order, |vals|) && order != []
  {
    var k := Cutoff(vals, order, 1);
    if c.inter >= k * c.group then c.inter - k * c.group else 0
  }

  lemma {:induction false} CutoffIs(vals: seq<real>, order: seq<nat>, k: nat)
    requires Below(order, |vals|) && k <= |order|
    requires forall i :: 0 <= i < |vals| ==> vals[i] >= 0.0
    ensures k <= Cutoff(vals, order, k) <= |order|
    ensures 10.0 * Sum(vals, order[..Cutoff(vals, order, k)]) >= 9.0 * Sum(vals, order)
    ensures forall j :: k <= j < Cutoff(vals, order, k) ==> 10.0 * Sum(vals, order[..j]) < 9.0 * Sum(vals, order)
    decreases |order| - k
  {
    SumNonNegative(vals, order);
    if k == |order| {
      assert order[..k] == order;
    } else if 10.0 * Sum(vals, order[..k]) < 9.0 * Sum(vals, order) {
      CutoffIs(vals, order, k + 1);
    }
  }

  /** No set of fewer than `n` groups carries 90% of the mass. */
  ghost predicate NoneFewer(vals: seq<real>, order: seq<nat>, n: nat)
    requires Below(order, |vals|)
  {
    forall few: seq<nat> :: 0 < |few| < n && Distinct(few) && Below(few, |vals|) ==>
      10.0 * Sum(vals, few) < 9.0 * Sum(vals, order)
  }

  /** With the adaptive split, the coarse groups carry at least 90% of the intermediate mass whenever the budget allows,
      and then no fewer groups, however chosen, would. */
  lemma {:induction false} AdaptiveCovers(c: Config, vals: seq<real>, order: seq<nat>, top: seq<nat>)
    requires Validated(c) && vals != [] && forall i :: 0 <= i < |vals| ==> vals[i] >= 0.0
    requires IsArgsort(Unmasked(vals), order)
    requires IsTopK(Unmasked(vals), |top|, top)
    requires |top| == c.inter / c.group - AdaptiveRefined(c, vals, order) / c.group
    ensures AdaptiveRefined(c, vals, order) % c.group == 0
    ensures Cutoff(vals, order, 1) <= c.inter / c.group ==>
      10.0 * Sum(vals, top) >= 9.0 * Sum(vals, order) && NoneFewer(vals, order, |top|)
  {
    var k := Cutoff(vals, order, 1);
    ArgsortDescends(vals, order);
    CutoffIs(vals, order, 1);
    AdaptiveGroups(c, k);
    if k <= c.inter / c.group {
      assert |top| == k;
      TopKIsTop(vals, k, top);
      TopSum(vals, k, top, order[..k]);
      forall few: seq<nat> | 0 < |few| < |top| && Distinct(few) && Below(few, |vals|)
        ensures 10.0 * Sum(vals, few) < 9.0 * Sum(vals, order)
      {
        var j := |few|;
        PrefixIsTop(vals, order, j);
        TopSum(vals, j, order[..j], few);
      }
    }
  }

  lemma {:induction false} AdaptiveGroups(c: Config, k: nat)
    requires Validated(c)
    ensures var r := if c.inter >= k * c.group then c.inter - k * c.group else 0;
      r % c.group == 0 && (k <= c.inter / c.group ==> c.inter / c.group - r / c.group == k)
  {
    AdaptiveRest(c.inter, c.group, k);
  }

  lemma {:induction false} AdaptiveRest(n: nat, g: nat, k: nat)
    requires g > 0 && n % g == 0
    ensures var r := if n >= k * g then n - k * g else 0;
      r % g == 0 && (k <= n / g ==> n / g - r / g == k)
  {
    var q := n / g;
    ExactGroups(n, g);
    if k <= q {
      RestGroups(q, k, g);
      assert n - k * g == q * g - k * g;
    } else {
      LessGroups(k, q, g);
      AtLeast(k - q, g);
      assert n < k * g;
    }
  }

  lemma {:induction false} ExactGroups(n: nat, g: nat)
    requires g > 0 && n % g == 0
    ensures n == n / g * g
  {}

  lemma {:induction false} RestGroups(q: nat, k: nat, g: nat)
    requires k <= q && g > 0
    ensures q * g >= k * g && (q * g - k * g) % g == 0 && (q * g - k * g) / g == q - k
  {
    LessGroups(q, k, g);
    Multiple(q - k, g);
  }

  lemma {:induction false} LessGroups(q: nat, k: nat, g: nat)
    requires k <= q
    ensures (q - k) * g == q * g - k * g >= 0
  {}

  lemma {:induction false} AtLeast(d: nat, g: nat)
    requires d >= 1 && g >= 1
    ensures d * g >= g
  {}
}
