/** KITTI evaluation: matching detections to ground truths, score thresholds, and counting. */
module KittiEval {
  /** One image: how each ground truth and detection counts (0 valid, 1 ignored, -1 of another class), the detection
      scores, the overlaps of ground truths and of DontCare regions with detections. */
  datatype Frame = Frame(gt: seq<int>, det: seq<int>, scores: seq<real>, iou: seq<seq<real>>, dontCare: seq<seq<real>>)

  predicate WellFormed(f: Frame) {
    && |f.scores| == |f.det| && |f.iou| == |f.gt|
    && (forall j :: 0 <= j < |f.iou| ==> |f.iou[j]| == |f.det|)
    && (forall j :: 0 <= j < |f.dontCare| ==> |f.dontCare[j]| == |f.det|)
  }

  function CountIf(bits: seq<bool>): nat {
    if bits == [] then 0 else CountIf(bits[..|bits| - 1]) + if bits[|bits| - 1] then 1 else 0
  }

  function ValidGts(f: Frame, n: nat): nat
    requires n <= |f.gt|
  {
    if n == 0 then 0 else ValidGts(f, n - 1) + if f.gt[n - 1] == 0 then 1 else 0
  }

  // ----- recall phase: the scores of true positives

  predicate ByScore(f: Frame, minIou: real, taken: seq<bool>, j: nat, k: nat)
    requires WellFormed(f) && |taken| == |f.det| && j < |f.gt| && k < |f.det|
  {
    !taken[k] && f.det[k] >= 0 && f.iou[j][k] > minIou && f.scores[k] > -1.0
  }

  /** The free overlapping detection of highest score, the first of equals; -1 without one. */
  predicate BestByScore(f: Frame, minIou: real, taken: seq<bool>, j: nat, id: int)
    requires WellFormed(f) && |taken| == |f.det| && j < |f.gt|
  {
    && -1 <= id < |f.det|
    && (id == -1 <==> forall k :: 0 <= k < |f.det| ==> !ByScore(f, minIou, taken, j, k))
    && (id >= 0 ==>
          && ByScore(f, minIou, taken, j, id)
          && (forall k :: 0 <= k < |f.det| && ByScore(f, minIou, taken, j, k) ==> f.scores[k] <= f.scores[id])
          && (forall k :: 0 <= k < id && ByScore(f, minIou, taken, j, k) ==> f.scores[k] < f.scores[id]))
  }

  method MatchByScore(f: Frame, minIou: real, taken: array<bool>, j: nat) returns (id: int)
    requires WellFormed(f) && taken.Length == |f.det| && j < |f.gt|
    ensures -1 <= id < |f.det| && BestByScore(f, minIou, taken[..], j, id)
  {
    var score := -1.0;
    id := -1;
    for k := 0 to |f.det|
      invariant -1 <= id < k
      invariant score == if id == -1 then -1.0 else f.scores[id]
      invariant id == -1 ==> forall i :: 0 <= i < k ==> !ByScore(f, minIou, taken[..], j, i)
      invariant id >= 0 ==>
        && ByScore(f, minIou, taken[..], j, id)
        && (forall i :: 0 <= i < k && ByScore(f, minIou, taken[..], j, i) ==> f.scores[i] <= score)
        && (forall i :: 0 <= i < id && ByScore(f, minIou, taken[..], j, i) ==> f.scores[i] < score)
    {
      if !taken[k] && f.det[k] >= 0 && f.iou[j][k] > minIou && f.scores[k] > score {
        id, score := k, f.scores[k];
      }
    }
  }

  /** The detections matched to the first `j` ground truths. */
  function Taken(n: nat, ids: seq<int>, j: nat): (t: seq<bool>)
    requires j <= |ids|
    ensures |t| == n && forall k :: 0 <= k < n ==> (t[k] <==> k in ids[..j])
  {
    seq(n, k => k in ids[..j])
  }

  /** `ids` matches each ground truth of the class to a detection not matched before, or to none. */
  ghost predicate MatchedByScore(f: Frame, minIou: real, ids: seq<int>, j: nat)
    requires WellFormed(f) && j < |f.gt| && j < |ids|
  {
    if f.gt[j] == -1 then ids[j] == -1 else BestByScore(f, minIou, Taken(|f.det|, ids, j), j, ids[j])
  }

  lemma {:induction false} TakenFrom(n: nat, a: seq<int>, b: seq<int>, j: nat)
    requires j <= |a| && j <= |b| && a[..j] == b[..j]
    ensures Taken(n, a, j) == Taken(n, b, j)
  {}

  lemma {:induction false} NoneTaken(n: nat)
    ensures Taken(n, [], 0) == seq(n, _ => false)
  {}

  lemma {:induction false} TakenMore(n: nat, ids: seq<int>, id: int)
    requires -1 <= id < n
    ensures var t := Taken(n, ids, |ids|);
      Taken(n, ids + [id], |ids| + 1) == if id >= 0 then t[id := true] else t
  {
    assert ids[..|ids|] == ids && (ids + [id])[..|ids| + 1] == ids + [id];
  }

  lemma {:induction false} MatchedFrom(f: Frame, minIou: real, was: seq<int>, ids: seq<int>, n: nat)
    requires WellFormed(f) && n <= |f.gt| && n == |was| <= |ids| && ids[..n] == was
    requires forall j: nat :: j < n ==> MatchedByScore(f, minIou, was, j)
    ensures forall j: nat :: j < n ==> MatchedByScore(f, minIou, ids, j)
  {
    hide BestByScore, Taken;
    forall j: nat | j < n ensures MatchedByScore(f, minIou, ids, j) {
      assert ids[j] == was[j] && MatchedByScore(f, minIou, was, j);
      assert ids[..j] == ids[..n][..j];
      TakenFrom(|f.det|, ids, was, j);
    }
  }

  function Hit(f: Frame, ids: seq<int>, j: nat): bool
    requires j < |f.gt| && j < |ids|
  {
    f.gt[j] == 0 && 0 <= ids[j] < |f.det| && f.det[ids[j]] == 0
  }

  /** The scores of the hits among the first `n` ground truths. */
  function HitScores(f: Frame, ids: seq<int>, n: nat): (r: seq<real>)
    requires WellFormed(f) && n <= |f.gt| && n <= |ids|
    ensures |r| <= ValidGts(f, n)
  {
    if n == 0 then []
    else
      HitScores(f, ids, n - 1) + if Hit(f, ids, n - 1) then [f.scores[ids[n - 1]]] else []
  }

  lemma {:induction false} HitScoresFrom(f: Frame, a: seq<int>, b: seq<int>, n: nat)
    requires WellFormed(f) && n <= |f.gt| && n <= |a| && n <= |b| && a[..n] == b[..n]
    ensures HitScores(f, a, n) == HitScores(f, b, n)
  {
    if n > 0 {
      assert a[n - 1] == a[..n][n - 1] && a[..n - 1] == a[..n][..n - 1] && b[..n - 1] == b[..n][..n - 1];
      HitScoresFrom(f, a, b, n - 1);
    }
  }

  /** The recall pass over one image: every ground truth of the class takes its best free detection, and the valid hits
      yield their scores, never more than there are valid ground truths. */
  method TruePositiveScores(f: Frame, minIou: real) returns (scores: seq<real>, ids: seq<int>)
    requires WellFormed(f)
    ensures |ids| == |f.gt| && forall j: nat :: j < |f.gt| ==> MatchedByScore(f, minIou, ids, j)
    ensures scores == HitScores(f, ids, |f.gt|)
  {
    hide BestByScore, Taken;
    var taken := new bool[|f.det|](_ => false);
    scores, ids := [], [];
    NoneTaken(|f.det|);
    assert taken[..] == Taken(|f.det|, [], 0);
    for j := 0 to |f.gt|
      invariant |ids| == j && taken[..] == Taken(|f.det|, ids, j)
      invariant forall i: nat :: i < j ==> MatchedByScore(f, minIou, ids, i)
      invariant scores == HitScores(f, ids, j)
    {
      var id := -1;
      if f.gt[j] != -1 {
        id := MatchByScore(f, minIou, taken, j);
        if id != -1 {
          taken[id] := true;
          if f.det[id] == 0 && f.gt[j] == 0 { scores := scores + [f.scores[id]]; }
        }
      }
      ghost var was := ids;
      TakenMore(|f.det|, was, id);
      ids := ids + [id];
      assert ids[..j] == was && was[..j] == was;
      HitScoresFrom(f, was, ids, j);
      TakenFrom(|f.det|, ids, was, j);
      MatchedFrom(f, minIou, was, ids, j);
    }
  }

  // ----- thresholds

  predicate NonIncreasing(s: seq<real>) {
    forall i, j :: 0 <= i < j < |s| ==> s[i] >= s[j]
  }

  /** sorted(...)[::-1] */
  method SortDescending(scores: seq<real>) returns (sorted: seq<real>)
    ensures NonIncreasing(sorted) && multiset(sorted) == multiset(scores) && |sorted| == |scores|
  {
    sorted := [];
    for i := 0 to |scores|
      invariant NonIncreasing(sorted) && multiset(sorted) == multiset(scores[..i]) && |sorted| == i
    {
      assert scores[..i + 1] == scores[..i] + [scores[i]];
      sorted := InsertDescending(sorted, scores[i]);
    }
    assert scores[..|scores|] == scores;
  }

  method InsertDescending(s: seq<real>, x: real) returns (r: seq<real>)
    requires NonIncreasing(s)
    ensures NonIncreasing(r) && multiset(r) == multiset(s) + multiset{x} && |r| == |s| + 1
  {
    var k := 0;
    while k < |s| && s[k] >= x
      invariant k <= |s| && forall i :: 0 <= i < k ==> s[i] >= x
    {
      k := k + 1;
    }
    r := s[..k] + [x] + s[k..];
    assert s == s[..k] + s[k..];
    forall i, j | 0 <= i < j < |r| ensures r[i] >= r[j] {
      Inserted(s, x, k, i, j);
    }
  }

  lemma {:induction false} Inserted(s: seq<real>, x: real, k: nat, i: nat, j: nat)
    requires NonIncreasing(s) && k <= |s| && i < j <= |s|
    requires (forall m :: 0 <= m < k ==> s[m] >= x) && (k < |s| ==> s[k] < x)
    ensures var r := s[..k] + [x] + s[k..]; r[i] >= r[j]
  {}

  /** The recall between the i-th score and the next. */
  function Midpoint(i: nat, validGts: nat): real
    requires validGts > 0
  {
    ((i + 1) as real / validGts as real + (i + 2) as real / validGts as real) / 2.0
  }

  function Aim(points: nat, samplePoints: nat): real
    requires samplePoints >= 2
  {
    points as real / (samplePoints - 1) as real
  }

  /** The midpoint recall reaches a sample point unless the recall of the next score is nearer to it; in whole numbers,
      2i + 3 halves of a ground truth against the point's share of all of them. */
  lemma {:induction false} ReachesIff(i: nat, validGts: nat, points: nat, samplePoints: nat)
    requires validGts > 0 && samplePoints >= 2
    ensures Midpoint(i, validGts) >= Aim(points, samplePoints) <==>
      (2 * i + 3) * (samplePoints - 1) >= 2 * points * validGts
    ensures var left, right := (i + 1) as real / validGts as real, (i + 2) as real / validGts as real;
            var aim := points as real / (samplePoints - 1) as real;
            Midpoint(i, validGts) < Aim(points, samplePoints) <==> right - aim < aim - left
  {
    var v, s, a, m := validGts, samplePoints - 1, 2 * i + 3, 2 * points;
    SumOver((i + 1) as real, (i + 2) as real, v as real);
    assert (i + 1) as real + (i + 2) as real == a as real;
    assert Midpoint(i, validGts) * 2.0 == a as real / v as real;
    assert Aim(points, samplePoints) * 2.0 == m as real / s as real by {
      SumOver(points as real, points as real, s as real);
      assert points as real + points as real == m as real;
    }
    Fractions(a, v, m, s);
    assert a * s >= m * v <==> (2 * i + 3) * (samplePoints - 1) >= 2 * points * validGts;
  }

  lemma {:induction false} SumOver(a: real, b: real, v: real)
    requires v > 0.0
    ensures a / v + b / v == (a + b) / v
  {}

  /** Fractions compare as their cross products do. */
  lemma {:induction false} Fractions(a: nat, v: nat, m: nat, s: nat)
    requires v > 0 && s > 0
    ensures a as real / v as real >= m as real / s as real <==> a * s >= m * v
  {
    var x, y, vr, sr := a as real / v as real, m as real / s as real, v as real, s as real;
    assert x * vr == a as real && y * sr == m as real;
    Cross(x, y, vr, sr);
    assert (x * vr) * sr == (a * s) as real;
    assert (y * sr) * vr == (m * v) as real;
  }

  lemma {:induction false} Cross(x: real, y: real, v: real, s: real)
    requires v > 0.0 && s > 0.0
    ensures x >= y <==> (x * v) * s >= (y * s) * v
  {
    Positive(v, s);
    assert (x * v) * s - (y * s) * v == (x - y) * (v * s);
    SameSign(x - y, v * s);
  }

  lemma {:induction false} Positive(v: real, s: real)
    requires v > 0.0 && s > 0.0
    ensures v * s > 0.0
  {}

  lemma {:induction false} SameSign(d: real, p: real)
    requires p > 0.0
    ensures d >= 0.0 <==> d * p >= 0.0
  {}

  /** `picks` are increasing positions; the p-th is the first after its predecessor whose midpoint recall reaches the p-th
      sample point. */
  ghost predicate Picks(picks: seq<nat>, validGts: nat, samplePoints: nat)
    requires validGts > 0 && samplePoints >= 2
  {
    && (forall p :: 0 <= p < |picks| - 1 ==> picks[p] < picks[p + 1])
    && (forall p: nat, i: nat :: p < |picks| && i < picks[p] && (p == 0 || picks[p - 1] < i) ==>
          Midpoint(i, validGts) < Aim(p, samplePoints))
    && (forall p :: 0 <= p < |picks| - 1 ==> Midpoint(picks[p], validGts) >= Aim(p, samplePoints))
  }

  lemma {:induction false} PicksOrder(picks: seq<nat>, p: nat, q: nat)
    requires p < q < |picks| && forall i :: 0 <= i < |picks| - 1 ==> picks[i] < picks[i + 1]
    ensures picks[p] < picks[q]
    decreases q
  {
    if p < q - 1 { PicksOrder(picks, p, q - 1); }
  }

  /** `thresholds` are the picked ones of the scores in descending order, the smallest score included. */
  ghost predicate ThresholdsOf(scores: seq<real>, validGts: nat, samplePoints: nat, thresholds: seq<real>,
                               sorted: seq<real>, picks: seq<nat>)
    requires samplePoints >= 2 && (scores != [] ==> validGts > 0)
  {
    && NonIncreasing(sorted) && multiset(sorted) == multiset(scores) && |sorted| == |scores|
    && |picks| == |thresholds|
    && (forall p :: 0 <= p < |picks| ==> picks[p] < |sorted| && thresholds[p] == sorted[picks[p]])
    && (if scores == [] then picks == []
        else picks != [] && picks[|picks| - 1] == |sorted| - 1 && Picks(picks, validGts, samplePoints))
  }

  /** get_score_thresholds: of the scores in descending order, the first to reach each sample point of recall, and the
      last; never more than the sample points when the true positives are no more than the valid ground truths. */
  method ScoreThresholds(scores: seq<real>, validGts: nat, samplePoints: nat)
      returns (thresholds: seq<real>, sorted: seq<real>, picks: seq<nat>)
    requires samplePoints >= 2 && (scores != [] ==> validGts > 0)
    ensures ThresholdsOf(scores, validGts, samplePoints, thresholds, sorted, picks)
    ensures |scores| <= validGts ==> |thresholds| <= samplePoints
  {
    hide Picking, Midpoint, Aim, NonIncreasing;
    sorted := SortDescending(scores);
    thresholds, picks := [], [];
    if scores == [] { return; }
    NothingPicked(validGts, samplePoints);
    for i := 0 to |sorted|
      invariant i < |sorted| && |thresholds| == |picks| && Picking(picks, validGts, samplePoints, i)
      invariant forall p :: 0 <= p < |picks| ==> picks[p] < i && thresholds[p] == sorted[picks[p]]
      invariant |sorted| <= validGts ==> |picks| <= samplePoints - 1
    {
      var recall := Aim(|picks|, samplePoints);
      if i == |sorted| - 1 {
        PickLast(picks, validGts, samplePoints, i);
        thresholds, picks := thresholds + [sorted[i]], picks + [i];
        return;
      }
      if Midpoint(i, validGts) < recall {
        PickSkip(picks, validGts, samplePoints, i);
      } else {
        if |sorted| <= validGts { RecallBelowOne(i, |sorted|, validGts, |picks|, samplePoints); }
        PickNext(picks, validGts, samplePoints, i);
        thresholds, picks := thresholds + [sorted[i]], picks + [i];
      }
    }
  }

  /** `picks` is right for the positions below `i`: the last one reached its sample point, none since reached the next. */
  ghost predicate Picking(picks: seq<nat>, validGts: nat, samplePoints: nat, i: nat)
    requires validGts > 0 && samplePoints >= 2
  {
    && Picks(picks, validGts, samplePoints)
    && (picks != [] ==> picks[|picks| - 1] < i && Midpoint(picks[|picks| - 1], validGts) >= Aim(|picks| - 1, samplePoints))
    && (forall j: nat :: j < i && (picks == [] || picks[|picks| - 1] < j) ==>
          Midpoint(j, validGts) < Aim(|picks|, samplePoints))
  }

  lemma {:induction false} NothingPicked(validGts: nat, samplePoints: nat)
    requires validGts > 0 && samplePoints >= 2
    ensures Picking([], validGts, samplePoints, 0)
  {}

  lemma {:induction false} GapBefore(picks: seq<nat>, validGts: nat, samplePoints: nat, i: nat, p: nat, q: nat)
    requires validGts > 0 && samplePoints >= 2 && Picking(picks, validGts, samplePoints, i)
    requires p < |picks| && q < picks[p] && (p == 0 || picks[p - 1] < q)
    ensures Midpoint(q, validGts) < Aim(p, samplePoints)
  {
    assert Picks(picks, validGts, samplePoints);
  }

  lemma {:induction false} GapAfter(picks: seq<nat>, validGts: nat, samplePoints: nat, i: nat, q: nat)
    requires validGts > 0 && samplePoints >= 2 && Picking(picks, validGts, samplePoints, i)
    requires q < i && (picks == [] || picks[|picks| - 1] < q)
    ensures Midpoint(q, validGts) < Aim(|picks|, samplePoints)
  {
    hide Picks;
  }

  lemma {:induction false} PickReaches(picks: seq<nat>, validGts: nat, samplePoints: nat, i: nat, p: nat)
    requires validGts > 0 && samplePoints >= 2 && Picking(picks, validGts, samplePoints, i) && p < |picks|
    ensures picks[p] < (picks + [i])[p + 1] && Midpoint(picks[p], validGts) >= Aim(p, samplePoints)
  {
    hide Midpoint, Aim;
    if p < |picks| - 1 { assert picks[p] < picks[p + 1]; }
  }

  lemma {:induction false} PickLast(picks: seq<nat>, validGts: nat, samplePoints: nat, i: nat)
    requires validGts > 0 && samplePoints >= 2 && Picking(picks, validGts, samplePoints, i)
    ensures Picks(picks + [i], validGts, samplePoints)
  {
    hide Midpoint, Aim, Picking;
    var after := picks + [i];
    forall p: nat, q: nat | p < |after| && q < after[p] && (p == 0 || after[p - 1] < q)
      ensures Midpoint(q, validGts) < Aim(p, samplePoints)
    {
      if p < |picks| {
        GapBefore(picks, validGts, samplePoints, i, p, q);
      } else {
        GapAfter(picks, validGts, samplePoints, i, q);
      }
    }
    forall p | 0 <= p < |after| - 1 ensures after[p] < after[p + 1] && Midpoint(after[p], validGts) >= Aim(p, samplePoints) {
      PickReaches(picks, validGts, samplePoints, i, p);
    }
  }

  lemma {:induction false} PickSkip(picks: seq<nat>, validGts: nat, samplePoints: nat, i: nat)
    requires validGts > 0 && samplePoints >= 2 && Picking(picks, validGts, samplePoints, i)
    requires Midpoint(i, validGts) < Aim(|picks|, samplePoints)
    ensures Picking(picks, validGts, samplePoints, i + 1)
  {
    hide Midpoint, Aim;
  }

  lemma {:induction false} PickNext(picks: seq<nat>, validGts: nat, samplePoints: nat, i: nat)
    requires validGts > 0 && samplePoints >= 2 && Picking(picks, validGts, samplePoints, i)
    requires Midpoint(i, validGts) >= Aim(|picks|, samplePoints)
    ensures Picking(picks + [i], validGts, samplePoints, i + 1)
  {
    hide Midpoint, Aim, Picks;
    PickLast(picks, validGts, samplePoints, i);
  }

  /** Before the last score, the recall aimed at is still below one. */
  lemma {:induction false} RecallBelowOne(i: nat, n: nat, validGts: nat, points: nat, samplePoints: nat)
    requires i + 1 < n <= validGts && samplePoints >= 2
    requires Aim(points, samplePoints) <= Midpoint(i, validGts)
    ensures points < samplePoints - 1
  {
    var v, s := validGts as real, (samplePoints - 1) as real;
    DivBelow((i + 1) as real, v);
    assert (i + 2) as real / v <= 1.0 by { DivAtMost((i + 2) as real, v); }
    assert points as real / s < 1.0;
    BelowOne(points as real, s);
  }

  lemma {:induction false} DivBelow(a: real, v: real)
    requires v > 0.0 && a < v
    ensures a / v < 1.0
  {}

  lemma {:induction false} DivAtMost(a: real, v: real)
    requires v > 0.0 && a <= v
    ensures a / v <= 1.0
  {}

  lemma {:induction false} BelowOne(a: real, s: real)
    requires s > 0.0 && a / s < 1.0
    ensures a < s
  {}

  function TotalValidGts(frames: seq<Frame>): nat {
    if frames == [] then 0
    else TotalValidGts(frames[..|frames| - 1]) + ValidGts(frames[|frames| - 1], |frames[|frames| - 1].gt|)
  }

  /** One list of matches per image. */
  predicate Paired(frames: seq<Frame>, matches: seq<seq<int>>) {
    && |frames| == |matches|
    && forall i :: 0 <= i < |frames| ==> WellFormed(frames[i]) && |matches[i]| == |frames[i].gt|
  }

  ghost predicate RecallMatches(f: Frame, minIou: real, ids: seq<int>)
    requires WellFormed(f)
  {
    |ids| == |f.gt| && forall j: nat :: j < |f.gt| ==> MatchedByScore(f, minIou, ids, j)
  }

  /** The scores of the hits of all images, image by image. */
  function AllHitScores(frames: seq<Frame>, matches: seq<seq<int>>): (r: seq<real>)
    requires Paired(frames, matches)
    ensures |r| <= TotalValidGts(frames)
  {
    if frames == [] then []
    else
      var n := |frames| - 1;
      AllHitScores(frames[..n], matches[..n]) + HitScores(frames[n], matches[n], |frames[n].gt|)
  }

  /** The recall pass over all images: exactly the scores of every image's hits, never more than there are valid ground
      truths, so that the thresholds stay within the sample points. */
  method AllTruePositiveScores(frames: seq<Frame>, minIou: real) returns (scores: seq<real>, matches: seq<seq<int>>)
    requires forall f :: f in frames ==> WellFormed(f)
    ensures Paired(frames, matches) && forall i :: 0 <= i < |frames| ==> RecallMatches(frames[i], minIou, matches[i])
    ensures scores == AllHitScores(frames, matches) && |scores| <= TotalValidGts(frames)
  {
    hide HitScores, MatchedByScore;
    scores, matches := [], [];
    for i := 0 to |frames|
      invariant Paired(frames[..i], matches) && scores == AllHitScores(frames[..i], matches)
      invariant forall k :: 0 <= k < i ==> RecallMatches(frames[k], minIou, matches[k])
    {
      assert frames[..i + 1][..i] == frames[..i] && (matches + [[]])[..i] == matches;
      var more, ids := TruePositiveScores(frames[i], minIou);
      scores, matches := scores + more, matches + [ids];
      assert matches[..i] + [ids] == matches;
    }
    assert frames[..|frames|] == frames;
  }

  // ----- counting at one threshold

  predicate Candidate(f: Frame, minIou: real, threshold: real, taken: seq<bool>, j: nat, k: nat)
    requires WellFormed(f) && |taken| == |f.det| && j < |f.gt| && k < |f.det|
  {
    !taken[k] && f.det[k] >= 0 && f.scores[k] >= threshold && f.iou[j][k] > minIou
  }

  predicate ValidCandidate(f: Frame, minIou: real, threshold: real, taken: seq<bool>, j: nat, k: nat)
    requires WellFormed(f) && |taken| == |f.det| && j < |f.gt| && k < |f.det|
  {
    Candidate(f, minIou, threshold, taken, j, k) && f.det[k] == 0
  }

  predicate Labelled(f: Frame) {
    (forall k :: 0 <= k < |f.det| ==> -1 <= f.det[k] <= 1) && (forall j :: 0 <= j < |f.gt| ==> -1 <= f.gt[j] <= 1)
  }

  /** What a ground truth is matched to: the valid candidate of largest overlap, the first of equals; without one, an
      ignored one, the last; -1 without any. */
  predicate Matched(f: Frame, minIou: real, threshold: real, taken: seq<bool>, j: nat, id: int)
    requires WellFormed(f) && |taken| == |f.det| && j < |f.gt|
  {
    && -1 <= id < |f.det|
    && (id == -1 ==> forall k :: 0 <= k < |f.det| ==> !Candidate(f, minIou, threshold, taken, j, k))
    && (id >= 0 ==> Candidate(f, minIou, threshold, taken, j, id))
    && (id >= 0 && f.det[id] != 0 ==>
          && (forall k :: 0 <= k < |f.det| ==> !ValidCandidate(f, minIou, threshold, taken, j, k))
          && (forall k :: id < k < |f.det| ==> !Candidate(f, minIou, threshold, taken, j, k)))
    && (id >= 0 && f.det[id] == 0 ==>
          && (forall k :: 0 <= k < |f.det| && ValidCandidate(f, minIou, threshold, taken, j, k) ==>
                f.iou[j][k] <= f.iou[j][id])
          && (forall k :: 0 <= k < id && ValidCandidate(f, minIou, threshold, taken, j, k) ==>
                f.iou[j][k] < f.iou[j][id]))
  }

  method MatchByIou(f: Frame, minIou: real, threshold: real, taken: array<bool>, j: nat) returns (id: int)
    requires WellFormed(f) && Labelled(f) && minIou >= 0.0 && taken.Length == |f.det| && j < |f.gt|
    ensures -1 <= id < |f.det| && Matched(f, minIou, threshold, taken[..], j, id)
  {
    var best := -1.0;
    id := -1;
    for k := 0 to |f.det|
      invariant -1 <= id < k
      invariant best == if id >= 0 && f.det[id] == 0 then f.iou[j][id] else -1.0
      invariant id == -1 ==> forall i :: 0 <= i < k ==> !Candidate(f, minIou, threshold, taken[..], j, i)
      invariant id >= 0 ==> Candidate(f, minIou, threshold, taken[..], j, id)
      invariant id >= 0 && f.det[id] != 0 ==>
        && (forall i :: 0 <= i < k ==> !ValidCandidate(f, minIou, threshold, taken[..], j, i))
        && (forall i :: id < i < k ==> !Candidate(f, minIou, threshold, taken[..], j, i))
      invariant id >= 0 && f.det[id] == 0 ==>
        && (forall i :: 0 <= i < k && ValidCandidate(f, minIou, threshold, taken[..], j, i) ==> f.iou[j][i] <= best)
        && (forall i :: 0 <= i < id && ValidCandidate(f, minIou, threshold, taken[..], j, i) ==> f.iou[j][i] < best)
    {
      if !taken[k] && f.det[k] >= 0 && f.scores[k] >= threshold && f.iou[j][k] > minIou {
        if f.det[k] == 0 && f.iou[j][k] > best {
          best, id := f.iou[j][k], k;
        } else if f.det[k] == 1 && best == -1.0 {
          id := k;
        }
      }
    }
  }

  // ----- counting with flags

  function Flags(f: Frame, threshold: real): (b: seq<bool>)
    requires WellFormed(f)
    ensures |b| == |f.det| && forall k :: 0 <= k < |b| ==> (b[k] <==> f.det[k] == 0 && f.scores[k] >= threshold)
  {
    seq(|f.det|, k requires 0 <= k < |f.det| => f.det[k] == 0 && f.scores[k] >= threshold)
  }

  function Both(a: seq<bool>, b: seq<bool>): (r: seq<bool>)
    requires |a| == |b|
    ensures |r| == |a| && forall k :: 0 <= k < |r| ==> (r[k] <==> a[k] && b[k])
  {
    seq(|a|, k requires 0 <= k < |a| => a[k] && b[k])
  }

  function Not(a: seq<bool>): (r: seq<bool>)
    ensures |r| == |a| && forall k :: 0 <= k < |r| ==> (r[k] <==> !a[k])
  {
    seq(|a|, k requires 0 <= k < |a| => !a[k])
  }

  lemma {:induction false} CountFlip(a: seq<bool>, k: nat, b: bool)
    requires k < |a|
    ensures CountIf(a[k := b]) == CountIf(a) - (if a[k] then 1 else 0) + (if b then 1 else 0)
  {
    var n := |a| - 1;
    assert a[k := b][..n] == if k == n then a[..n] else a[..n][k := b];
    if k < n { CountFlip(a[..n], k, b); }
  }

  lemma {:induction false} CountSplit(a: seq<bool>, b: seq<bool>)
    requires |a| == |b|
    ensures CountIf(Both(a, b)) + CountIf(Both(a, Not(b))) == CountIf(a)
  {
    if a != [] {
      var n := |a| - 1;
      CountSplit(a[..n], b[..n]);
      assert Both(a, b)[..n] == Both(a[..n], b[..n]) && Both(a, Not(b))[..n] == Both(a[..n], Not(b[..n]));
    }
  }

  /** Detections covered by some of the first `n` DontCare regions. */
  predicate Covered(f: Frame, minIou: real, n: nat, k: nat)
    requires WellFormed(f) && n <= |f.dontCare| && k < |f.det|
  {
    exists j :: 0 <= j < n && f.dontCare[j][k] > minIou
  }

  function Uncovered(f: Frame, minIou: real): (b: seq<bool>)
    requires WellFormed(f)
    ensures |b| == |f.det| && forall k :: 0 <= k < |b| ==> (b[k] <==> !Covered(f, minIou, |f.dontCare|, k))
  {
    seq(|f.det|, k requires 0 <= k < |f.det| => !Covered(f, minIou, |f.dontCare|, k))
  }

  /** Hits and misses among the first `n` ground truths. */
  function Hits(f: Frame, ids: seq<int>, n: nat): nat
    requires n <= |f.gt| && n <= |ids|
  {
    if n == 0 then 0 else Hits(f, ids, n - 1) + if Hit(f, ids, n - 1) then 1 else 0
  }

  function Misses(f: Frame, ids: seq<int>, n: nat): nat
    requires n <= |f.gt| && n <= |ids|
  {
    if n == 0 then 0 else Misses(f, ids, n - 1) + if f.gt[n - 1] == 0 && ids[n - 1] == -1 then 1 else 0
  }

  /** `ids` matches each ground truth of the class at this threshold. */
  ghost predicate MatchedAt(f: Frame, minIou: real, threshold: real, ids: seq<int>, j: nat)
    requires WellFormed(f) && j < |f.gt| && j < |ids|
  {
    if f.gt[j] == -1 then ids[j] == -1
    else Matched(f, minIou, threshold, Taken(|f.det|, ids, j), j, ids[j])
  }

  lemma {:induction false} CountsFrom(f: Frame, a: seq<int>, b: seq<int>, n: nat)
    requires n <= |f.gt| && n <= |a| && n <= |b| && a[..n] == b[..n]
    ensures Hits(f, a, n) == Hits(f, b, n) && Misses(f, a, n) == Misses(f, b, n)
  {
    if n > 0 {
      assert a[n - 1] == a[..n][n - 1] && a[..n - 1] == a[..n][..n - 1] && b[..n - 1] == b[..n][..n - 1];
      CountsFrom(f, a, b, n - 1);
    }
  }

  lemma {:induction false} MatchedAtFrom(f: Frame, minIou: real, threshold: real, was: seq<int>, ids: seq<int>, n: nat)
    requires WellFormed(f) && n <= |f.gt| && n == |was| <= |ids| && ids[..n] == was
    requires forall j: nat :: j < n ==> MatchedAt(f, minIou, threshold, was, j)
    ensures forall j: nat :: j < n ==> MatchedAt(f, minIou, threshold, ids, j)
  {
    hide Matched, Taken;
    forall j: nat | j < n ensures MatchedAt(f, minIou, threshold, ids, j) {
      assert ids[j] == was[j] && MatchedAt(f, minIou, threshold, was, j);
      assert ids[..j] == ids[..n][..j];
      TakenFrom(|f.det|, ids, was, j);
    }
  }

  /** The matching pass over one image at one threshold. */
  method MatchFrame(f: Frame, minIou: real, threshold: real)
      returns (tp: nat, fn: nat, taken: array<bool>, ids: seq<int>)
    requires WellFormed(f) && Labelled(f) && minIou >= 0.0
    ensures |ids| == |f.gt| && forall j: nat :: j < |f.gt| ==> MatchedAt(f, minIou, threshold, ids, j)
    ensures tp == Hits(f, ids, |f.gt|) && fn == Misses(f, ids, |f.gt|)
    ensures fresh(taken) && taken.Length == |f.det| && taken[..] == Taken(|f.det|, ids, |f.gt|)
  {
    hide Matched, Taken;
    taken := new bool[|f.det|](_ => false);
    tp, fn, ids := 0, 0, [];
    NoneTaken(|f.det|);
    assert taken[..] == Taken(|f.det|, [], 0);
    for j := 0 to |f.gt|
      invariant |ids| == j && taken[..] == Taken(|f.det|, ids, j)
      invariant forall i: nat :: i < j ==> MatchedAt(f, minIou, threshold, ids, i)
      invariant tp == Hits(f, ids, j) && fn == Misses(f, ids, j)
    {
      var id := -1;
      if f.gt[j] != -1 {
        id := MatchByIou(f, minIou, threshold, taken, j);
        if id != -1 {
          taken[id] := true;
          if f.det[id] == 0 && f.gt[j] == 0 { tp := tp + 1; }
        } else if f.gt[j] == 0 {
          fn := fn + 1;
        }
      }
      ghost var was := ids;
      TakenMore(|f.det|, was, id);
      ids := ids + [id];
      assert ids[..j] == was && was[..j] == was;
      CountsFrom(f, was, ids, j);
      TakenFrom(|f.det|, ids, was, j);
      MatchedAtFrom(f, minIou, threshold, was, ids, j);
    }
  }

  /** One more matched detection adds at most one to the valid ones taken. */
  lemma {:induction false} TakenStep(f: Frame, threshold: real, ids: seq<int>, n: nat)
    requires WellFormed(f) && 0 < n <= |ids| && -1 <= ids[n - 1] < |f.det|
    requires ids[n - 1] >= 0 ==> ids[n - 1] !in ids[..n - 1]
    ensures var id, before := ids[n - 1], CountIf(Both(Flags(f, threshold), Taken(|f.det|, ids, n - 1)));
      CountIf(Both(Flags(f, threshold), Taken(|f.det|, ids, n))) ==
      if id >= 0 && Flags(f, threshold)[id] then before + 1 else before
  {
    var flags, id, t := Flags(f, threshold), ids[n - 1], Taken(|f.det|, ids, n - 1);
    assert ids[..n] == ids[..n - 1] + [id];
    if id >= 0 {
      assert Taken(|f.det|, ids, n) == t[id := true];
      assert Both(flags, t[id := true]) == Both(flags, t)[id := flags[id]];
      CountFlip(Both(flags, t), id, flags[id]);
    } else {
      assert Taken(|f.det|, ids, n) == t;
    }
  }

  /** True positives are distinct valid detections above the threshold; with the misses they are at most the valid ground
      truths, and exactly those unless a valid ground truth took an ignored detection. */
  lemma {:induction false} MatchingBounds(f: Frame, minIou: real, threshold: real, ids: seq<int>, n: nat)
    requires WellFormed(f) && Labelled(f) && n <= |f.gt| == |ids|
    requires forall j: nat :: j < n ==> MatchedAt(f, minIou, threshold, ids, j)
    ensures Hits(f, ids, n) <= CountIf(Both(Flags(f, threshold), Taken(|f.det|, ids, n)))
    ensures Hits(f, ids, n) + Misses(f, ids, n) <= ValidGts(f, n)
    ensures Hits(f, ids, n) + Misses(f, ids, n) == ValidGts(f, n) <==>
      forall j :: 0 <= j < n && f.gt[j] == 0 && 0 <= ids[j] < |f.det| ==> f.det[ids[j]] == 0
  {
    if n > 0 {
      MatchingBounds(f, minIou, threshold, ids, n - 1);
      assert MatchedAt(f, minIou, threshold, ids, n - 1);
      hide MatchedAt;
      MatchedFree(f, minIou, threshold, ids, n - 1);
      TakenStep(f, threshold, ids, n);
    }
  }

  lemma {:induction false} MatchedFree(f: Frame, minIou: real, threshold: real, ids: seq<int>, j: nat)
    requires WellFormed(f) && j < |f.gt| == |ids| && MatchedAt(f, minIou, threshold, ids, j)
    ensures -1 <= ids[j] < |f.det|
    ensures ids[j] >= 0 ==> ids[j] !in ids[..j] && f.scores[ids[j]] >= threshold
  {
    if ids[j] >= 0 { assert Candidate(f, minIou, threshold, Taken(|f.det|, ids, j), j, ids[j]); }
  }

  /** One image at one threshold: false positives are exactly the unmatched valid detections outside every DontCare region;
      removing the covered ones never drives the count below zero. */
  method CountFrame(f: Frame, minIou: real, threshold: real, useDontCare: bool)
      returns (tp: nat, fn: nat, fp: int, ids: seq<int>)
    requires WellFormed(f) && Labelled(f) && minIou >= 0.0
    ensures |ids| == |f.gt| && forall j: nat :: j < |f.gt| ==> MatchedAt(f, minIou, threshold, ids, j)
    ensures tp == Hits(f, ids, |f.gt|) && fn == Misses(f, ids, |f.gt|)
    ensures var open := Both(Flags(f, threshold), Not(Taken(|f.det|, ids, |f.gt|)));
      fp == CountIf(if useDontCare then Both(open, Uncovered(f, minIou)) else open)
    ensures 0 <= fp && tp + fp <= CountIf(Flags(f, threshold)) && tp + fn <= ValidGts(f, |f.gt|)
  {
    var taken;
    tp, fn, taken, ids := MatchFrame(f, minIou, threshold);
    MatchingBounds(f, minIou, threshold, ids, |f.gt|);
    CountSplit(Flags(f, threshold), taken[..]);
    fp := UnmatchedCount(f, threshold, taken);
    CountSplit(Both(Flags(f, threshold), Not(taken[..])), Uncovered(f, minIou));
    if useDontCare {
      fp := RemoveDontCare(f, minIou, threshold, taken, fp);
    }
  }

  function TotalValidDets(frames: seq<Frame>, threshold: real): nat
    requires forall f :: f in frames ==> WellFormed(f)
  {
    if frames == [] then 0
    else TotalValidDets(frames[..|frames| - 1], threshold) + CountIf(Flags(frames[|frames| - 1], threshold))
  }

  /** Unmatched valid detections outside every DontCare region, where those are considered. */
  function FalsePositives(f: Frame, minIou: real, threshold: real, useDontCare: bool, ids: seq<int>): nat
    requires WellFormed(f) && |ids| == |f.gt|
  {
    var open := Both(Flags(f, threshold), Not(Taken(|f.det|, ids, |f.gt|)));
    CountIf(if useDontCare then Both(open, Uncovered(f, minIou)) else open)
  }

  ghost predicate CountMatches(f: Frame, minIou: real, threshold: real, ids: seq<int>)
    requires WellFormed(f)
  {
    |ids| == |f.gt| && forall j: nat :: j < |f.gt| ==> MatchedAt(f, minIou, threshold, ids, j)
  }

  function TotalHits(frames: seq<Frame>, matches: seq<seq<int>>): nat
    requires Paired(frames, matches)
  {
    if frames == [] then 0
    else
      var n := |frames| - 1;
      TotalHits(frames[..n], matches[..n]) + Hits(frames[n], matches[n], |frames[n].gt|)
  }

  function TotalMisses(frames: seq<Frame>, matches: seq<seq<int>>): nat
    requires Paired(frames, matches)
  {
    if frames == [] then 0
    else
      var n := |frames| - 1;
      TotalMisses(frames[..n], matches[..n]) + Misses(frames[n], matches[n], |frames[n].gt|)
  }

  function TotalFalse(frames: seq<Frame>, minIou: real, threshold: real, useDontCare: bool, matches: seq<seq<int>>): nat
    requires Paired(frames, matches)
  {
    if frames == [] then 0
    else
      var n := |frames| - 1;
      TotalFalse(frames[..n], minIou, threshold, useDontCare, matches[..n])
      + FalsePositives(frames[n], minIou, threshold, useDontCare, matches[n])
  }

  /** One more image adds its counts to the sums. */
  lemma {:induction false} TotalsStep(frames: seq<Frame>, minIou: real, threshold: real, useDontCare: bool,
                                      matches: seq<seq<int>>, ids: seq<int>)
    requires |frames| == |matches| + 1 && Paired(frames[..|matches|], matches)
    requires (forall f :: f in frames ==> WellFormed(f)) && |ids| == |frames[|matches|].gt|
    ensures var i, more := |matches|, matches + [ids];
            && Paired(frames, more)
            && TotalHits(frames, more) == TotalHits(frames[..i], matches) + Hits(frames[i], ids, |ids|)
            && TotalMisses(frames, more) == TotalMisses(frames[..i], matches) + Misses(frames[i], ids, |ids|)
            && TotalFalse(frames, minIou, threshold, useDontCare, more)
               == TotalFalse(frames[..i], minIou, threshold, useDontCare, matches)
                  + FalsePositives(frames[i], minIou, threshold, useDontCare, ids)
            && TotalValidDets(frames, threshold)
               == TotalValidDets(frames[..i], threshold) + CountIf(Flags(frames[i], threshold))
            && TotalValidGts(frames) == TotalValidGts(frames[..i]) + ValidGts(frames[i], |ids|)
  {
    hide Hits, Misses, FalsePositives, Flags, CountIf, ValidGts, WellFormed;
    assert (matches + [ids])[..|matches|] == matches;
  }

  lemma {:induction false} NoTotals(minIou: real, threshold: real, useDontCare: bool)
    ensures TotalHits([], []) == 0 && TotalMisses([], []) == 0 && TotalFalse([], minIou, threshold, useDontCare, []) == 0
    ensures TotalValidDets([], threshold) == 0 && TotalValidGts([]) == 0
  {}

  /** All images at one threshold: the sums of every image's hits, misses and false positives.  What is counted as a
      detection never exceeds the valid detections above the threshold, what is counted as a ground truth never exceeds the
      valid ones. */
  method CountAll(frames: seq<Frame>, minIou: real, threshold: real, useDontCare: bool)
      returns (tp: nat, fn: nat, fp: nat, matches: seq<seq<int>>)
    requires (forall f :: f in frames ==> WellFormed(f) && Labelled(f)) && minIou >= 0.0
    ensures Paired(frames, matches)
    ensures forall i :: 0 <= i < |frames| ==> CountMatches(frames[i], minIou, threshold, matches[i])
    ensures tp == TotalHits(frames, matches) && fn == TotalMisses(frames, matches)
    ensures fp == TotalFalse(frames, minIou, threshold, useDontCare, matches)
    ensures tp + fp <= TotalValidDets(frames, threshold) && tp + fn <= TotalValidGts(frames)
  {
    hide Flags, ValidGts, CountIf, MatchedAt, Taken, Hits, Misses, Both, Not, Uncovered, TotalHits, TotalMisses, TotalFalse,
      TotalValidDets, TotalValidGts;
    NoTotals(minIou, threshold, useDontCare);
    tp, fn, fp, matches := 0, 0, 0, [];
    for i := 0 to |frames|
      invariant Paired(frames[..i], matches)
      invariant forall k :: 0 <= k < i ==> CountMatches(frames[k], minIou, threshold, matches[k])
      invariant tp == TotalHits(frames[..i], matches) && fn == TotalMisses(frames[..i], matches)
      invariant fp == TotalFalse(frames[..i], minIou, threshold, useDontCare, matches)
      invariant tp + fp <= TotalValidDets(frames[..i], threshold) && tp + fn <= TotalValidGts(frames[..i])
    {
      assert frames[..i + 1][..i] == frames[..i];
      var t, n, p, ids := CountFrame(frames[i], minIou, threshold, useDontCare);
      TotalsStep(frames[..i + 1], minIou, threshold, useDontCare, matches, ids);
      tp, fn, fp, matches := tp + t, fn + n, fp + p, matches + [ids];
    }
    assert frames[..|frames|] == frames;
  }

  method UnmatchedCount(f: Frame, threshold: real, taken: array<bool>) returns (fp: int)
    requires WellFormed(f) && taken.Length == |f.det|
    ensures fp == CountIf(Both(Flags(f, threshold), Not(taken[..])))
  {
    var open := Both(Flags(f, threshold), Not(taken[..]));
    fp := 0;
    for k := 0 to |f.det|
      invariant fp == CountIf(open[..k])
    {
      assert open[..k + 1][..k] == open[..k];
      if f.det[k] == 0 && f.scores[k] >= threshold && !taken[k] { fp := fp + 1; }
    }
    assert open[..|f.det|] == open;
  }

  /** What remains of `open` after the first `j` regions, and the next region for the first `k` detections. */
  function Remaining(f: Frame, minIou: real, open: seq<bool>, j: nat, k: nat): (r: seq<bool>)
    requires WellFormed(f) && |open| == |f.det| && j <= |f.dontCare| && (j == |f.dontCare| ==> k == 0)
    ensures |r| == |open|
  {
    seq(|open|, i requires 0 <= i < |open| => open[i] && !Covered(f, minIou, if i < k then j + 1 else j, i))
  }

  lemma {:induction false} RemainingStep(f: Frame, minIou: real, open: seq<bool>, j: nat, k: nat)
    requires WellFormed(f) && |open| == |f.det| && j < |f.dontCare| && k < |f.det|
    ensures var r := Remaining(f, minIou, open, j, k);
      Remaining(f, minIou, open, j, k + 1) == r[k := r[k] && !(f.dontCare[j][k] > minIou)]
  {
    CoveredNext(f, minIou, j, k);
    hide Covered;
  }

  lemma {:induction false} CoveredNext(f: Frame, minIou: real, n: nat, k: nat)
    requires WellFormed(f) && n < |f.dontCare| && k < |f.det|
    ensures Covered(f, minIou, n + 1, k) <==> Covered(f, minIou, n, k) || f.dontCare[n][k] > minIou
  {}

  lemma {:induction false} RemainingEnds(f: Frame, minIou: real, open: seq<bool>)
    requires WellFormed(f) && |open| == |f.det|
    ensures Remaining(f, minIou, open, 0, 0) == open
    ensures Remaining(f, minIou, open, |f.dontCare|, 0) == Both(open, Uncovered(f, minIou))
    ensures forall j: nat :: j < |f.dontCare| ==>
      Remaining(f, minIou, open, j, |f.det|) == Remaining(f, minIou, open, j + 1, 0)
  {}

  /** Each unmatched valid detection leaves the count at most once, at the first region covering it. */
  method RemoveDontCare(f: Frame, minIou: real, threshold: real, taken: array<bool>, unmatched: int) returns (fp: int)
    requires WellFormed(f) && taken.Length == |f.det|
    requires unmatched == CountIf(Both(Flags(f, threshold), Not(taken[..])))
    modifies taken
    ensures fp == CountIf(Both(Both(Flags(f, threshold), Not(old(taken[..]))), Uncovered(f, minIou)))
  {
    hide Remaining, Covered, CountIf;
    var flags := Flags(f, threshold);
    ghost var open := Both(flags, Not(taken[..]));
    RemainingEnds(f, minIou, open);
    fp := unmatched;
    for j := 0 to |f.dontCare|
      invariant Both(flags, Not(taken[..])) == Remaining(f, minIou, open, j, 0)
      invariant fp == CountIf(Remaining(f, minIou, open, j, 0))
    {
      for k := 0 to |f.det|
        invariant Both(flags, Not(taken[..])) == Remaining(f, minIou, open, j, k)
        invariant fp == CountIf(Remaining(f, minIou, open, j, k))
      {
        ghost var now := Remaining(f, minIou, open, j, k);
        RemainingStep(f, minIou, open, j, k);
        if f.det[k] == 0 && f.scores[k] >= threshold && !taken[k] {
          assert now[k];
          if f.dontCare[j][k] > minIou {
            CountFlip(now, k, false);
            assert Both(flags, Not(taken[..][k := true])) == now[k := false];
            fp := fp - 1;
            taken[k] := true;
          } else {
            assert now[k := now[k]] == now;
          }
        } else {
          assert !now[k] && now[k := false] == now;
        }
      }
    }
  }
}
