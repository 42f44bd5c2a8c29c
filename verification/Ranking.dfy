/** Top-k selections, descending orders, and the sums they carry. */
module Ranking {
  predicate Distinct(s: seq<nat>) {
    forall i, j :: 0 <= i < j < |s| ==> s[i] != s[j]
  }

  predicate Ascending(s: seq<nat>) {
    forall i, j :: 0 <= i < j < |s| ==> s[i] < s[j]
  }

  predicate Below(s: seq<nat>, n: nat) {
    forall i :: 0 <= i < |s| ==> s[i] < n
  }

  function Elems(s: seq<nat>): set<nat> {
    set x | x in s
  }

  lemma {:induction false} ElemsSize(s: seq<nat>)
    requires Distinct(s)
    ensures |Elems(s)| == |s|
  {
    if s != [] {
      var front, last := s[..|s| - 1], s[|s| - 1];
      ElemsSize(front);
      assert s == front + [last];
      assert Elems(s) == Elems(front) + {last};
      assert last !in front;
    }
  }

  lemma {:induction false} SubsetSize(a: set<nat>, b: set<nat>)
    requires a <= b
    ensures |a| <= |b|
  {
    assert b == a + (b - a);
  }

  lemma {:induction false} Pigeonhole(a: seq<nat>, b: seq<nat>)
    requires Distinct(a) && Distinct(b) && forall k :: 0 <= k < |a| ==> a[k] in b
    ensures |a| <= |b|
  {
    ElemsSize(a);
    ElemsSize(b);
    SubsetSize(Elems(a), Elems(b));
  }

  lemma {:induction false} Position(order: seq<nat>, n: nat, x: nat) returns (m: nat)
    requires |order| == n && Distinct(order) && Below(order, n) && x < n
    ensures m < n && order[m] == x
  {
    m := 0;
    if x in order {
      m :| 0 <= m < |order| && order[m] == x;
    } else {
      var all, ids := order + [x], seq(n, i requires 0 <= i < n => i);
      forall k | 0 <= k < |all| ensures all[k] in ids { assert ids[all[k]] == all[k]; }
      Pigeonhole(all, ids);
    }
  }

  function Sum(vals: seq<real>, s: seq<nat>): real
    requires Below(s, |vals|)
  {
    if s == [] then 0.0 else Sum(vals, s[..|s| - 1]) + vals[s[|s| - 1]]
  }

  function SumOver(vals: seq<real>, n: nat, s: set<nat>): real
    requires n <= |vals|
  {
    if n == 0 then 0.0 else SumOver(vals, n - 1, s) + if n - 1 in s then vals[n - 1] else 0.0
  }

  function CountOver(n: nat, s: set<nat>): nat {
    if n == 0 then 0 else CountOver(n - 1, s) + if n - 1 in s then 1 else 0
  }

  lemma {:induction false} SumOverAdd(vals: seq<real>, n: nat, s: set<nat>, x: nat)
    requires n <= |vals| && x < |vals| && x !in s
    ensures SumOver(vals, n, s + {x}) == SumOver(vals, n, s) + if x < n then vals[x] else 0.0
    ensures CountOver(n, s + {x}) == CountOver(n, s) + if x < n then 1 else 0
  {
    if n > 0 { SumOverAdd(vals, n - 1, s, x); }
  }

  lemma {:induction false} SumOverNone(vals: seq<real>, n: nat)
    requires n <= |vals|
    ensures SumOver(vals, n, {}) == 0.0 && CountOver(n, {}) == 0
  {
    if n > 0 { SumOverNone(vals, n - 1); }
  }

  lemma {:induction false} SumIsOver(vals: seq<real>, s: seq<nat>)
    requires Distinct(s) && Below(s, |vals|)
    ensures Sum(vals, s) == SumOver(vals, |vals|, Elems(s)) && CountOver(|vals|, Elems(s)) == |s|
  {
    if s == [] {
      assert Elems(s) == {};
      SumOverNone(vals, |vals|);
    } else {
      var front, last := s[..|s| - 1], s[|s| - 1];
      SumIsOver(vals, front);
      assert s == front + [last] && Elems(s) == Elems(front) + {last};
      SumOverAdd(vals, |vals|, Elems(front), last);
    }
  }

  function Times(t: real, k: int): real {
    t * k as real
  }

  lemma {:induction false} TimesStep(t: real, k: int)
    ensures Times(t, 0) == 0.0 && Times(t, k + 1) == Times(t, k) + t && Times(t, k - 1) == Times(t, k) - t
  {
    assert (k + 1) as real == k as real + 1.0 && (k - 1) as real == k as real - 1.0;
  }

  /** Members of `a` outside `b` are at least `t`, members of `b` outside `a` at most `t`. */
  lemma {:induction false} Exchange(vals: seq<real>, n: nat, a: set<nat>, b: set<nat>, t: real)
    requires n <= |vals|
    requires forall i :: 0 <= i < n && i in a && i !in b ==> vals[i] >= t
    requires forall i :: 0 <= i < n && i in b && i !in a ==> vals[i] <= t
    ensures SumOver(vals, n, a) - SumOver(vals, n, b) >= Times(t, CountOver(n, a) - CountOver(n, b))
  {
    hide Times;
    TimesStep(t, 0);
    if n > 0 {
      Exchange(vals, n - 1, a, b, t);
      TimesStep(t, CountOver(n - 1, a) - CountOver(n - 1, b));
    }
  }

  lemma {:induction false} Least(vals: seq<real>, s: seq<nat>) returns (k: nat)
    requires s != [] && Below(s, |vals|)
    ensures k < |s| && forall i :: 0 <= i < |s| ==> vals[s[k]] <= vals[s[i]]
  {
    k := 0;
    if |s| > 1 {
      var front := s[..|s| - 1];
      var p := Least(vals, front);
      k := if vals[s[|s| - 1]] < vals[s[p]] then |s| - 1 else p;
      assert forall i :: 0 <= i < |front| ==> front[i] == s[i];
    }
  }

  lemma {:induction false} SumNonNegative(vals: seq<real>, s: seq<nat>)
    requires Below(s, |vals|) && forall i :: 0 <= i < |vals| ==> vals[i] >= 0.0
    ensures Sum(vals, s) >= 0.0
  {
    if s != [] { SumNonNegative(vals, s[..|s| - 1]); }
  }

  /** `top` are `k` distinct positions, none of the others larger: any result of a top-k selection. */
  predicate IsTop(vals: seq<real>, k: nat, top: seq<nat>) {
    && |top| == k && Distinct(top) && Below(top, |vals|)
    && forall i, j :: 0 <= i < |top| && 0 <= j < |vals| && j !in top ==> vals[j] <= vals[top[i]]
  }

  /** `order` lists all positions by descending value: any result of a descending sort. */
  predicate IsDescending(vals: seq<real>, order: seq<nat>) {
    && |order| == |vals| && Distinct(order) && Below(order, |vals|)
    && forall i, j :: 0 <= i < j < |order| ==> vals[order[j]] <= vals[order[i]]
  }

  /** Any top-k carries at least the sum of any k positions. */
  lemma {:induction false} TopSum(vals: seq<real>, k: nat, top: seq<nat>, other: seq<nat>)
    requires IsTop(vals, k, top) && |other| == k && Distinct(other) && Below(other, |vals|)
    ensures Sum(vals, top) >= Sum(vals, other)
  {
    if k > 0 {
      var m := Least(vals, top);
      SumIsOver(vals, top);
      SumIsOver(vals, other);
      Exchange(vals, |vals|, Elems(top), Elems(other), vals[top[m]]);
    }
  }

  lemma {:induction false} PrefixIsTop(vals: seq<real>, order: seq<nat>, k: nat)
    requires IsDescending(vals, order) && k <= |order|
    ensures IsTop(vals, k, order[..k])
  {
    forall i, j | 0 <= i < k && 0 <= j < |vals| && j !in order[..k] ensures vals[j] <= vals[order[..k][i]] {
      assert forall m :: 0 <= m < k ==> order[m] in order[..k];
      var m := Position(order, |vals|, j);
    }
  }
}
