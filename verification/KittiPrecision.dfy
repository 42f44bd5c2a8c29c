/** KITTI average precision: when the evaluation counts nothing at a threshold, and what it computes otherwise. */
module KittiPrecision {
  import opened Options
  import opened KittiEval

  // ----- average precision

  function Max(a: real, b: real): real {
    if a >= b then a else b
  }

  /** np.max(s[i:]) */
  function SuffixMax(s: seq<real>, i: nat): real
    requires i < |s|
    decreases |s| - i
  {
    if i == |s| - 1 then s[i] else Max(s[i], SuffixMax(s, i + 1))
  }

  lemma {:induction false} SuffixMaxSame(a: seq<real>, b: seq<real>, i: nat)
    requires |a| == |b| && i < |a| && forall k :: i <= k < |a| ==> a[k] == b[k]
    ensures SuffixMax(a, i) == SuffixMax(b, i)
    decreases |a| - i
  {
    if i < |a| - 1 { SuffixMaxSame(a, b, i + 1); }
  }

  /** The suffix maximum is attained, and nothing after it is larger. */
  lemma {:induction false} SuffixMaxIs(s: seq<real>, i: nat) returns (at: nat)
    requires i < |s|
    ensures i <= at < |s| && s[at] == SuffixMax(s, i)
    ensures forall k :: i <= k < |s| ==> s[k] <= SuffixMax(s, i)
    decreases |s| - i
  {
    at := i;
    if i < |s| - 1 {
      var next := SuffixMaxIs(s, i + 1);
      if s[i] < s[next] { at := next; }
    }
  }

  method SuffixMaximum(s: array<real>, i: nat) returns (m: real)
    requires i < s.Length
    ensures m == SuffixMax(s[..], i)
  {
    var k := s.Length - 1;
    m := s[k];
    while k > i
      invariant i <= k < s.Length && m == SuffixMax(s[..], k)
    {
      k := k - 1;
      m := Max(s[k], m);
    }
  }

  function Precision(tp: nat, fp: nat): real
    requires tp + fp > 0
  {
    tp as real / (tp + fp) as real
  }

  /** The share of the hits among all that was counted. */
  lemma {:induction false} PrecisionIs(tp: nat, fp: nat)
    requires tp + fp > 0
    ensures Precision(tp, fp) * (tp + fp) as real == tp as real && 0.0 <= Precision(tp, fp) <= 1.0
  {
    DivAtMost(tp as real, (tp + fp) as real);
  }

  /** Every fourth of the first `n` entries. */
  function EveryFourth(s: seq<real>, n: nat): real
    requires n <= |s|
  {
    if n == 0 then 0.0 else EveryFourth(s, n - 1) + if (n - 1) % 4 == 0 then s[n - 1] else 0.0
  }

  lemma {:induction false} FourthsSkip(s: seq<real>, n: nat, m: nat)
    requires n <= m <= |s| && (n == m || (n % 4 == 1 && m <= n + 3))
    ensures EveryFourth(s, n) == EveryFourth(s, m)
    decreases m
  {
    if n < m { FourthsSkip(s, n, m - 1); }
  }

  function Precisions(tps: seq<nat>, fps: seq<nat>): (r: seq<real>)
    requires |tps| == |fps| && forall i :: 0 <= i < |tps| ==> tps[i] + fps[i] > 0
    ensures |r| == |tps| && forall i :: 0 <= i < |r| ==> r[i] == Precision(tps[i], fps[i])
  {
    seq(|tps|, k requires 0 <= k < |tps| => Precision(tps[k], fps[k]))
  }

  lemma {:induction false} PrecisionsRange(tps: seq<nat>, fps: seq<nat>)
    requires |tps| == |fps| && forall i :: 0 <= i < |tps| ==> tps[i] + fps[i] > 0
    ensures forall i :: 0 <= i < |tps| ==> 0.0 <= Precisions(tps, fps)[i] <= 1.0
  {
    hide Precision;
    forall i | 0 <= i < |tps| ensures 0.0 <= Precisions(tps, fps)[i] <= 1.0 { PrecisionIs(tps[i], fps[i]); }
  }

  /** `ap` averages every fourth of the running maxima of the precisions, where all of them are defined. */
  ghost predicate AverageOf(tps: seq<nat>, fps: seq<nat>, ap: Option<real>, maxima: seq<real>) {
    && |tps| == |fps|
    && (ap.None? <==> exists i :: 0 <= i < |tps| && tps[i] + fps[i] == 0)
    && (ap.Some? ==>
          && |maxima| == |tps| && NonIncreasing(maxima) && ap.value == EveryFourth(maxima, |maxima|) / 11.0 * 100.0
          && forall i :: 0 <= i < |tps| ==> maxima[i] == SuffixMax(Precisions(tps, fps), i))
  }

  /** Precisions made non-increasing in place, every fourth averaged over 11 points.  A threshold at which nothing is
      counted divides zero by zero, and the maxima carry the undefined value to the first point: None. */
  method AveragePrecision(tps: seq<nat>, fps: seq<nat>) returns (ap: Option<real>, maxima: seq<real>)
    requires |tps| == |fps| <= 41
    ensures AverageOf(tps, fps, ap, maxima) && (ap.Some? ==> 0.0 <= ap.value <= 100.0)
  {
    var n := |tps|;
    for i := 0 to n
      invariant forall k :: 0 <= k < i ==> tps[k] + fps[k] > 0
    {
      if tps[i] + fps[i] == 0 { return None, []; }
    }
    ghost var raw := Precisions(tps, fps);
    var precisions := new real[n](k requires 0 <= k < n => Precision(tps[k], fps[k]));
    for i := 0 to n
      invariant forall k :: i <= k < n ==> precisions[k] == raw[k]
      invariant forall k :: 0 <= k < i ==> precisions[k] == SuffixMax(raw, k)
    {
      var m := SuffixMaximum(precisions, i);
      SuffixMaxSame(precisions[..], raw, i);
      precisions[i] := m;
    }
    maxima := precisions[..];
    forall i, k | 0 <= i < k < n ensures maxima[i] >= maxima[k] { SuffixMaxOrder(raw, i, k); }
    PrecisionsRange(tps, fps);
    forall i | 0 <= i < n ensures 0.0 <= maxima[i] <= 1.0 { var at := SuffixMaxIs(raw, i); }
    var sum := SumFourths(maxima);
    ap := Some(sum / 11.0 * 100.0);
  }

  method SumFourths(s: seq<real>) returns (sum: real)
    requires |s| <= 41 && forall i :: 0 <= i < |s| ==> 0.0 <= s[i] <= 1.0
    ensures sum == EveryFourth(s, |s|) && 0.0 <= sum <= 11.0
  {
    var points, i := 0, 0;
    sum := 0.0;
    while i < |s|
      invariant i == 4 * points && (points > 0 ==> i - 4 < |s|)
      invariant sum == EveryFourth(s, if i <= |s| then i else |s|)
      invariant 0.0 <= sum <= points as real
    {
      sum := sum + s[i];
      assert EveryFourth(s, i + 1) == sum;
      FourthsSkip(s, i + 1, if i + 4 <= |s| then i + 4 else |s|);
      i := i + 4;
      points := points + 1;
    }
  }

  lemma {:induction false} SuffixMaxOrder(s: seq<real>, i: nat, k: nat)
    requires i <= k < |s|
    ensures SuffixMax(s, i) >= SuffixMax(s, k)
    decreases k - i
  {
    if i < k { SuffixMaxOrder(s, i + 1, k); }
  }

  // ----- when nothing is counted

  /** A valid detection above the threshold that overlaps ground truth `j`. */
  predicate Overlaps(f: Frame, minIou: real, threshold: real, j: nat, k: nat)
    requires WellFormed(f) && j < |f.gt| && k < |f.det|
  {
    f.det[k] == 0 && f.scores[k] >= threshold && f.iou[j][k] > minIou
  }

  /** Of the first `n` detections, the one outside `used` that overlaps ground truth `j` most; -1 without one. */
  function Favourite(f: Frame, minIou: real, threshold: real, used: set<int>, j: nat, n: nat): (b: int)
    requires WellFormed(f) && j < |f.gt| && n <= |f.det|
    ensures -1 <= b < n
    ensures b == -1 ==> forall k :: 0 <= k < n && Overlaps(f, minIou, threshold, j, k) ==> k in used
    ensures b >= 0 ==>
      && Overlaps(f, minIou, threshold, j, b) && b !in used
      && (forall k :: 0 <= k < n && Overlaps(f, minIou, threshold, j, k) && k !in used ==> f.iou[j][k] <= f.iou[j][b])
      && (forall k :: 0 <= k < b && Overlaps(f, minIou, threshold, j, k) && k !in used ==> f.iou[j][k] < f.iou[j][b])
  {
    if n == 0 then -1
    else
      var b := Favourite(f, minIou, threshold, used, j, n - 1);
      if Overlaps(f, minIou, threshold, j, n - 1) && n - 1 !in used && (b == -1 || f.iou[j][n - 1] > f.iou[j][b])
      then n - 1
      else b
  }

  /** The valid detections above the threshold that ignored ground truths among the first `j` take away, each its favourite
      of those left. */
  function Stolen(f: Frame, minIou: real, threshold: real, j: nat): (s: set<int>)
    requires WellFormed(f) && j <= |f.gt|
    ensures forall k :: k in s ==> 0 <= k < |f.det| && f.det[k] == 0
  {
    if j == 0 then {}
    else
      var before := Stolen(f, minIou, threshold, j - 1);
      var b := Favourite(f, minIou, threshold, before, j - 1, |f.det|);
      if f.gt[j - 1] == 1 && b >= 0 then before + {b} else before
  }

  /** Every valid ground truth among the first `n` finds the valid detections it overlaps taken away. */
  predicate Robbed(f: Frame, minIou: real, threshold: real, n: nat)
    requires WellFormed(f) && n <= |f.gt|
  {
    forall j, k :: 0 <= j < n && f.gt[j] == 0 && 0 <= k < |f.det| && Overlaps(f, minIou, threshold, j, k) ==>
      k in Stolen(f, minIou, threshold, j)
  }

  /** Every valid detection above the threshold is taken away, or covered where that is considered. */
  predicate Unseen(f: Frame, minIou: real, threshold: real, useDontCare: bool)
    requires WellFormed(f)
  {
    forall k :: 0 <= k < |f.det| && f.det[k] == 0 && f.scores[k] >= threshold ==>
      k in Stolen(f, minIou, threshold, |f.gt|) || (useDontCare && Covered(f, minIou, |f.dontCare|, k))
  }

  predicate NothingCounted(f: Frame, minIou: real, threshold: real, useDontCare: bool)
    requires WellFormed(f)
  {
    Robbed(f, minIou, threshold, |f.gt|) && Unseen(f, minIou, threshold, useDontCare)
  }

  /** `ids` takes exactly the stolen ones among the valid detections. */
  ghost predicate TakesStolen(f: Frame, minIou: real, threshold: real, ids: seq<int>, n: nat)
    requires WellFormed(f) && n <= |f.gt| && n <= |ids|
  {
    forall k :: 0 <= k < |f.det| && f.det[k] == 0 ==> (k in ids[..n] <==> k in Stolen(f, minIou, threshold, n))
  }

  lemma {:induction false} ValidIs(f: Frame, minIou: real, threshold: real, ids: seq<int>, j: nat, k: nat)
    requires WellFormed(f) && j < |f.gt| && j < |ids| && k < |f.det| && TakesStolen(f, minIou, threshold, ids, j)
    ensures ValidCandidate(f, minIou, threshold, Taken(|f.det|, ids, j), j, k) <==>
            Overlaps(f, minIou, threshold, j, k) && k !in Stolen(f, minIou, threshold, j)
  {
    hide Stolen;
  }

  /** A ground truth that does not end as a hit takes a valid detection only if it is ignored, and then its favourite. */
  lemma {:induction false} TakesNext(f: Frame, minIou: real, threshold: real, ids: seq<int>, j: nat)
    requires WellFormed(f) && Labelled(f) && j < |f.gt| && |ids| == |f.gt| && MatchedAt(f, minIou, threshold, ids, j)
    requires TakesStolen(f, minIou, threshold, ids, j) && !Hit(f, ids, j)
    ensures TakesStolen(f, minIou, threshold, ids, j + 1)
  {
    hide Overlaps, ValidCandidate, Candidate;
    assert ids[..j + 1] == ids[..j] + [ids[j]];
    var used, taken := Stolen(f, minIou, threshold, j), Taken(|f.det|, ids, j);
    var b := Favourite(f, minIou, threshold, used, j, |f.det|);
    forall k: nat | k < |f.det|
      ensures ValidCandidate(f, minIou, threshold, taken, j, k) <==> Overlaps(f, minIou, threshold, j, k) && k !in used
    {
      ValidIs(f, minIou, threshold, ids, j, k);
    }
    if f.gt[j] == 1 { TakesFavourite(f, minIou, threshold, ids, j, b); }
  }

  lemma {:induction false} TakesFavourite(f: Frame, minIou: real, threshold: real, ids: seq<int>, j: nat, b: int)
    requires WellFormed(f) && Labelled(f) && j < |f.gt| && |ids| == |f.gt| && f.gt[j] == 1
    requires MatchedAt(f, minIou, threshold, ids, j) && TakesStolen(f, minIou, threshold, ids, j)
    requires b == Favourite(f, minIou, threshold, Stolen(f, minIou, threshold, j), j, |f.det|)
    ensures if b >= 0 then ids[j] == b else !(0 <= ids[j] < |f.det| && f.det[ids[j]] == 0)
  {
    var taken := Taken(|f.det|, ids, j);
    hide Stolen, Overlaps, Taken, TakesStolen;
    forall k: nat | k < |f.det|
      ensures ValidCandidate(f, minIou, threshold, taken, j, k) <==>
              Overlaps(f, minIou, threshold, j, k) && k !in Stolen(f, minIou, threshold, j)
    {
      ValidIs(f, minIou, threshold, ids, j, k);
    }
    if b >= 0 {
      assert ValidCandidate(f, minIou, threshold, taken, j, b);
    }
  }

  /** A valid ground truth is a hit exactly when it overlaps a valid detection that has not been taken away. */
  lemma {:induction false} HitIff(f: Frame, minIou: real, threshold: real, ids: seq<int>, j: nat)
    requires WellFormed(f) && Labelled(f) && j < |f.gt| && |ids| == |f.gt| && f.gt[j] == 0
    requires MatchedAt(f, minIou, threshold, ids, j) && TakesStolen(f, minIou, threshold, ids, j)
    ensures Hit(f, ids, j) <==>
      exists k :: 0 <= k < |f.det| && Overlaps(f, minIou, threshold, j, k) && k !in Stolen(f, minIou, threshold, j)
  {
    var taken := Taken(|f.det|, ids, j);
    hide Stolen, Overlaps, Taken, TakesStolen;
    forall k: nat | k < |f.det|
      ensures ValidCandidate(f, minIou, threshold, taken, j, k) <==>
              Overlaps(f, minIou, threshold, j, k) && k !in Stolen(f, minIou, threshold, j)
    {
      ValidIs(f, minIou, threshold, ids, j, k);
    }
    if Hit(f, ids, j) {
      assert ValidCandidate(f, minIou, threshold, taken, j, ids[j]);
    }
  }

  /** No hit at a threshold if and only if every valid ground truth is robbed. */
  lemma {:induction false} NoHitIff(f: Frame, minIou: real, threshold: real, ids: seq<int>, n: nat)
    requires WellFormed(f) && Labelled(f) && n <= |f.gt| && CountMatches(f, minIou, threshold, ids)
    ensures Hits(f, ids, n) == 0 <==> Robbed(f, minIou, threshold, n)
    ensures Hits(f, ids, n) == 0 ==> TakesStolen(f, minIou, threshold, ids, n)
  {
    hide MatchedAt, Overlaps, Stolen;
    if n == 0 {
      NothingStolen(f, minIou, threshold, ids);
    } else {
      NoHitIff(f, minIou, threshold, ids, n - 1);
      assert MatchedAt(f, minIou, threshold, ids, n - 1);
      if Hits(f, ids, n - 1) == 0 {
        if f.gt[n - 1] == 0 { HitIff(f, minIou, threshold, ids, n - 1); }
        if !Hit(f, ids, n - 1) { TakesNext(f, minIou, threshold, ids, n - 1); }
      }
    }
  }

  lemma {:induction false} NothingStolen(f: Frame, minIou: real, threshold: real, ids: seq<int>)
    requires WellFormed(f)
    ensures TakesStolen(f, minIou, threshold, ids, 0)
  {}

  lemma {:induction false} NoneSet(bits: seq<bool>)
    ensures CountIf(bits) == 0 <==> forall k :: 0 <= k < |bits| ==> !bits[k]
  {
    if bits != [] {
      NoneSet(bits[..|bits| - 1]);
      assert forall k :: 0 <= k < |bits| - 1 ==> bits[..|bits| - 1][k] == bits[k];
    }
  }

  /** One image counts neither a true nor a false positive at a threshold if and only if its valid ground truths are robbed
      and its other valid detections covered. */
  lemma {:induction false} NothingCountedIff(f: Frame, minIou: real, threshold: real, useDontCare: bool, ids: seq<int>)
    requires WellFormed(f) && Labelled(f) && CountMatches(f, minIou, threshold, ids)
    ensures Hits(f, ids, |f.gt|) + FalsePositives(f, minIou, threshold, useDontCare, ids) == 0 <==>
            NothingCounted(f, minIou, threshold, useDontCare)
  {
    hide MatchedAt, Stolen, CountIf, Covered, Robbed;
    NoHitIff(f, minIou, threshold, ids, |f.gt|);
    assert ids[..|f.gt|] == ids;
    var open := Both(Flags(f, threshold), Not(Taken(|f.det|, ids, |f.gt|)));
    NoneSet(if useDontCare then Both(open, Uncovered(f, minIou)) else open);
  }

  /** Nothing is counted over all images exactly when nothing is counted in any. */
  lemma {:induction false} TotalIff(frames: seq<Frame>, minIou: real, threshold: real, useDontCare: bool,
                                    matches: seq<seq<int>>)
    requires Paired(frames, matches) && forall f :: f in frames ==> Labelled(f)
    requires forall i :: 0 <= i < |frames| ==> CountMatches(frames[i], minIou, threshold, matches[i])
    ensures TotalHits(frames, matches) + TotalFalse(frames, minIou, threshold, useDontCare, matches) == 0 <==>
            forall i :: 0 <= i < |frames| ==> NothingCounted(frames[i], minIou, threshold, useDontCare)
  {
    hide NothingCounted, CountMatches, Hits, FalsePositives;
    if frames != [] {
      var n := |frames| - 1;
      TotalIff(frames[..n], minIou, threshold, useDontCare, matches[..n]);
      NothingCountedIff(frames[n], minIou, threshold, useDontCare, matches[n]);
      assert forall i :: 0 <= i < n ==> frames[..n][i] == frames[i];
    }
  }

  // ----- a guard under which every threshold counts something

  /** No ignored ground truth overlaps a valid detection. */
  predicate NoThieves(f: Frame, minIou: real)
    requires WellFormed(f)
  {
    forall j, k :: 0 <= j < |f.gt| && f.gt[j] == 1 && 0 <= k < |f.det| && f.det[k] == 0 ==> f.iou[j][k] <= minIou
  }

  lemma {:induction false} NothingTaken(f: Frame, minIou: real, threshold: real, j: nat)
    requires WellFormed(f) && NoThieves(f, minIou) && j <= |f.gt|
    ensures Stolen(f, minIou, threshold, j) == {}
  {
    if j > 0 { NothingTaken(f, minIou, threshold, j - 1); }
  }

  /** A true-positive score comes from a valid pair of its image. */
  lemma {:induction false} ScorePair(f: Frame, minIou: real, ids: seq<int>, n: nat, t: real) returns (j: nat, k: nat)
    requires WellFormed(f) && RecallMatches(f, minIou, ids) && n <= |f.gt| && t in HitScores(f, ids, n)
    ensures j < |f.gt| && k < |f.det| && f.gt[j] == 0 && Overlaps(f, minIou, t, j, k) && f.scores[k] == t
  {
    hide MatchedByScore;
    if Hit(f, ids, n - 1) && f.scores[ids[n - 1]] == t {
      j, k := n - 1, ids[n - 1];
      HitOverlaps(f, minIou, ids, j);
    } else {
      j, k := ScorePair(f, minIou, ids, n - 1, t);
    }
  }

  lemma {:induction false} HitOverlaps(f: Frame, minIou: real, ids: seq<int>, j: nat)
    requires WellFormed(f) && RecallMatches(f, minIou, ids) && j < |f.gt| && Hit(f, ids, j)
    ensures f.iou[j][ids[j]] > minIou
  {
    assert MatchedByScore(f, minIou, ids, j);
  }

  lemma {:induction false} ScoreImage(frames: seq<Frame>, matches: seq<seq<int>>, t: real) returns (i: nat)
    requires Paired(frames, matches) && t in AllHitScores(frames, matches)
    ensures i < |frames| && t in HitScores(frames[i], matches[i], |frames[i].gt|)
  {
    hide HitScores;
    var n := |frames| - 1;
    if t in HitScores(frames[n], matches[n], |frames[n].gt|) { i := n; }
    else { i := ScoreImage(frames[..n], matches[..n], t); }
  }

  /** Without ignored ground truths over valid detections, a true-positive score counts something when it becomes the
      threshold. */
  lemma {:induction false} ThresholdCounts(frames: seq<Frame>, minIou: real, useDontCare: bool, matches: seq<seq<int>>, t: real)
    requires Paired(frames, matches) && t in AllHitScores(frames, matches)
    requires forall i :: 0 <= i < |frames| ==> RecallMatches(frames[i], minIou, matches[i]) && NoThieves(frames[i], minIou)
    ensures !forall i :: 0 <= i < |frames| ==> NothingCounted(frames[i], minIou, t, useDontCare)
  {
    hide RecallMatches, HitScores, Overlaps, NoThieves, Unseen;
    var i := ScoreImage(frames, matches, t);
    var j, k := ScorePair(frames[i], minIou, matches[i], |frames[i].gt|, t);
    NothingTaken(frames[i], minIou, t, j);
    assert !Robbed(frames[i], minIou, t, |frames[i].gt|);
  }

  // ----- the evaluation of one class at one difficulty

  /** What one evaluation goes through: matches of the recall pass, thresholds, matches and counts at each of them. */
  datatype Trail = Trail(recall: seq<seq<int>>, sorted: seq<real>, picks: seq<nat>, thresholds: seq<real>,
                         counting: seq<seq<seq<int>>>, tps: seq<nat>, fps: seq<nat>, maxima: seq<real>)

  predicate Images(frames: seq<Frame>) {
    forall f :: f in frames ==> WellFormed(f) && Labelled(f)
  }

  /** Nothing is counted in any image. */
  predicate NothingAt(frames: seq<Frame>, minIou: real, threshold: real, useDontCare: bool)
    requires Images(frames)
  {
    forall i :: 0 <= i < |frames| ==> NothingCounted(frames[i], minIou, threshold, useDontCare)
  }

  ghost predicate RecallOf(frames: seq<Frame>, minIou: real, recall: seq<seq<int>>) {
    Paired(frames, recall) && forall i :: 0 <= i < |frames| ==> RecallMatches(frames[i], minIou, recall[i])
  }

  ghost predicate CountOf(frames: seq<Frame>, minIou: real, threshold: real, useDontCare: bool, matches: seq<seq<int>>,
                          tp: nat, fp: nat)
  {
    && Paired(frames, matches)
    && (forall i :: 0 <= i < |frames| ==> CountMatches(frames[i], minIou, threshold, matches[i]))
    && tp == TotalHits(frames, matches) && fp == TotalFalse(frames, minIou, threshold, useDontCare, matches)
  }

  ghost predicate TrailOf(frames: seq<Frame>, minIou: real, useDontCare: bool, trail: Trail, ap: Option<real>) {
    && RecallOf(frames, minIou, trail.recall)
    && (AllHitScores(frames, trail.recall) != [] ==> TotalValidGts(frames) > 0)
    && ThresholdsOf(AllHitScores(frames, trail.recall), TotalValidGts(frames), 41, trail.thresholds, trail.sorted, trail.picks)
    && |trail.thresholds| == |trail.counting| == |trail.tps| == |trail.fps|
    && (forall p :: 0 <= p < |trail.thresholds| ==>
          CountOf(frames, minIou, trail.thresholds[p], useDontCare, trail.counting[p], trail.tps[p], trail.fps[p]))
    && AverageOf(trail.tps, trail.fps, ap, trail.maxima)
  }

  lemma {:induction false} CountIs(frames: seq<Frame>, minIou: real, threshold: real, useDontCare: bool,
                                   matches: seq<seq<int>>, tp: nat, fp: nat)
    requires Images(frames) && CountOf(frames, minIou, threshold, useDontCare, matches, tp, fp)
    ensures tp + fp == 0 <==> NothingAt(frames, minIou, threshold, useDontCare)
  {
    hide NothingCounted, CountMatches, Labelled;
    TotalIff(frames, minIou, threshold, useDontCare, matches);
  }

  lemma {:induction false} ThresholdIsScore(scores: seq<real>, validGts: nat, thresholds: seq<real>, sorted: seq<real>,
                                            picks: seq<nat>, p: nat)
    requires (scores != [] ==> validGts > 0) && ThresholdsOf(scores, validGts, 41, thresholds, sorted, picks)
    requires p < |thresholds|
    ensures thresholds[p] in scores
  {
    assert thresholds[p] in multiset(sorted);
  }

  /** The recall pass, the thresholds, the counts at each of them and the average precision: undefined exactly when at some
      threshold nothing is counted in any image, else within [0, 100]. */
  method Evaluate(frames: seq<Frame>, minIou: real, useDontCare: bool) returns (ap: Option<real>, trail: Trail)
    requires Images(frames) && minIou >= 0.0
    ensures TrailOf(frames, minIou, useDontCare, trail, ap) && |trail.thresholds| <= 41
    ensures ap.None? <==>
            exists p :: 0 <= p < |trail.thresholds| && NothingAt(frames, minIou, trail.thresholds[p], useDontCare)
    ensures ap.Some? ==> 0.0 <= ap.value <= 100.0
    ensures (forall f :: f in frames ==> NoThieves(f, minIou)) ==> ap.Some?
  {
    hide NothingAt, RecallMatches, CountOf, NoThieves, AllHitScores, ThresholdsOf, AverageOf;
    var scores, recall := AllTruePositiveScores(frames, minIou);
    var validGts := CountValidGts(frames);
    var thresholds, sorted, picks := ScoreThresholds(scores, validGts, 41);
    var counting, tps, fps := CountThresholds(frames, minIou, useDontCare, thresholds);
    var maxima;
    ap, maxima := AveragePrecision(tps, fps);
    trail := Trail(recall, sorted, picks, thresholds, counting, tps, fps, maxima);
    AverageDefined(tps, fps, ap, maxima);
    forall p | 0 <= p < |thresholds|
      ensures tps[p] + fps[p] == 0 <==> NothingAt(frames, minIou, thresholds[p], useDontCare)
    {
      CountIs(frames, minIou, thresholds[p], useDontCare, counting[p], tps[p], fps[p]);
    }
    if forall f :: f in frames ==> NoThieves(f, minIou) {
      forall p | 0 <= p < |thresholds| ensures !NothingAt(frames, minIou, thresholds[p], useDontCare) {
        ThresholdIsScore(scores, validGts, thresholds, sorted, picks, p);
        ThresholdCounts(frames, minIou, useDontCare, recall, thresholds[p]);
        AtLeastOne(frames, minIou, thresholds[p], useDontCare);
      }
    }
  }

  lemma {:induction false} AverageDefined(tps: seq<nat>, fps: seq<nat>, ap: Option<real>, maxima: seq<real>)
    requires AverageOf(tps, fps, ap, maxima)
    ensures |tps| == |fps| && (ap.None? <==> exists i :: 0 <= i < |tps| && tps[i] + fps[i] == 0)
  {}

  lemma {:induction false} AtLeastOne(frames: seq<Frame>, minIou: real, threshold: real, useDontCare: bool)
    requires Images(frames)
    ensures NothingAt(frames, minIou, threshold, useDontCare) <==>
            forall i :: 0 <= i < |frames| ==> NothingCounted(frames[i], minIou, threshold, useDontCare)
  {
    hide NothingCounted;
  }

  method CountThresholds(frames: seq<Frame>, minIou: real, useDontCare: bool, thresholds: seq<real>)
      returns (counting: seq<seq<seq<int>>>, tps: seq<nat>, fps: seq<nat>)
    requires Images(frames) && minIou >= 0.0
    ensures |thresholds| == |counting| == |tps| == |fps|
    ensures forall p :: 0 <= p < |thresholds| ==>
      CountOf(frames, minIou, thresholds[p], useDontCare, counting[p], tps[p], fps[p])
  {
    hide CountMatches, TotalHits, TotalFalse;
    counting, tps, fps := [], [], [];
    for p := 0 to |thresholds|
      invariant |counting| == |tps| == |fps| == p
      invariant forall q :: 0 <= q < p ==>
        CountOf(frames, minIou, thresholds[q], useDontCare, counting[q], tps[q], fps[q])
    {
      var tp, fn, fp, matches := CountAll(frames, minIou, thresholds[p], useDontCare);
      counting, tps, fps := counting + [matches], tps + [tp], fps + [fp];
    }
  }

  method CountValidGts(frames: seq<Frame>) returns (n: nat)
    ensures n == TotalValidGts(frames)
  {
    n := 0;
    for i := 0 to |frames|
      invariant n == TotalValidGts(frames[..i])
    {
      assert frames[..i + 1][..i] == frames[..i];
      var f := frames[i];
      ghost var before := n;
      for j := 0 to |f.gt|
        invariant n == before + ValidGts(f, j)
      {
        if f.gt[j] == 0 { n := n + 1; }
      }
    }
    assert frames[..|frames|] == frames;
  }

  // ----- a threshold at which nothing is counted

  /** An ignored ground truth overlapping an ignored and a valid detection, and a valid ground truth overlapping the valid
      one. */
  function Contested(): Frame {
    Frame([1, 0], [1, 0], [0.9, 0.8], [[0.8, 0.9], [0.0, 0.9]], [])
  }

  lemma {:induction false} ContestedFirst()
    ensures var f := Contested(); WellFormed(f) && Labelled(f) && MatchedByScore(f, 0.5, [0, 1], 0)
  {
    var f := Contested();
    var first := Taken(2, [0, 1], 0);
    assert first == [false, false];
    assert ByScore(f, 0.5, first, 0, 0) && ByScore(f, 0.5, first, 0, 1);
  }

  lemma {:induction false} ContestedSecond()
    ensures var f := Contested();
      WellFormed(f) && MatchedByScore(f, 0.5, [0, 1], 1) && HitScores(f, [0, 1], 2) == [0.8]
  {
    var f := Contested();
    assert [0, 1][..1] == [0];
    var second := Taken(2, [0, 1], 1);
    assert second == [true, false];
    assert !ByScore(f, 0.5, second, 1, 0) && ByScore(f, 0.5, second, 1, 1);
    hide ByScore, Taken;
    assert HitScores(f, [0, 1], 0) == [] && HitScores(f, [0, 1], 1) == [];
  }

  lemma {:induction false} ContestedCounting()
    ensures var f := Contested();
      WellFormed(f) && Labelled(f)
      && MatchedAt(f, 0.5, 0.8, [1, -1], 0) && MatchedAt(f, 0.5, 0.8, [1, -1], 1) && Hits(f, [1, -1], 2) == 0
  {
    var f := Contested();
    assert [1, -1][..1] == [1];
    var first, second := Taken(2, [1, -1], 0), Taken(2, [1, -1], 1);
    assert first == [false, false] && second == [false, true];
    assert ValidCandidate(f, 0.5, 0.8, first, 0, 1) && !ValidCandidate(f, 0.5, 0.8, first, 0, 0);
    assert !Candidate(f, 0.5, 0.8, second, 1, 0) && !Candidate(f, 0.5, 0.8, second, 1, 1);
    assert Hits(f, [1, -1], 1) == 0;
  }

  /** The recall pass prefers scores, so the valid pair yields a threshold; the counting pass prefers valid detections, so
      the ignored ground truth takes it away: no true and no false positive, and the precision is 0 / 0. */
  lemma {:induction false} ContestedCountsNothing()
    ensures var f := Contested();
      && WellFormed(f) && Labelled(f)
      && MatchedByScore(f, 0.5, [0, 1], 0) && MatchedByScore(f, 0.5, [0, 1], 1) && HitScores(f, [0, 1], 2) == [0.8]
      && MatchedAt(f, 0.5, 0.8, [1, -1], 0) && MatchedAt(f, 0.5, 0.8, [1, -1], 1)
      && Hits(f, [1, -1], 2) == 0 && CountIf(Both(Flags(f, 0.8), Not(Taken(2, [1, -1], 2)))) == 0
      && NothingCounted(f, 0.5, 0.8, false)
  {
    var f := Contested();
    ContestedFirst();
    ContestedSecond();
    ContestedCounting();
    hide MatchedByScore, MatchedAt, HitScores, Hits;
    assert [1, -1][..2] == [1, -1];
    assert Both(Flags(f, 0.8), Not(Taken(2, [1, -1], 2))) == [false, false];
    assert CountIf([false]) == 0 && [false, false][..1] == [false];
    assert CountMatches(f, 0.5, 0.8, [1, -1]);
    NothingCountedIff(f, 0.5, 0.8, false, [1, -1]);
  }
}
