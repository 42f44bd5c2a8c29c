/** The flat-vector LRU cache: most recently used entries in front. */
module LruCache {
  import opened Options

  datatype Entry<K, V> = Entry(key: K, value: V)

  function KeysOf<K, V>(entries: seq<Entry<K, V>>): (ks: seq<K>)
    ensures |ks| == |entries| && forall i :: 0 <= i < |ks| ==> ks[i] == entries[i].key
  {
    seq(|entries|, i requires 0 <= i < |entries| => entries[i].key)
  }

  predicate DistinctKeys<K(==)>(ks: seq<K>) {
    forall i, j :: 0 <= i < j < |ks| ==> ks[i] != ks[j]
  }

  function IndexOf<K(==)>(ks: seq<K>, k: K): (i: nat)
    ensures i <= |ks| && (i < |ks| <==> k in ks) && (i < |ks| ==> ks[i] == k) && k !in ks[..i]
  {
    if ks == [] then 0 else if ks[0] == k then 0 else 1 + IndexOf(ks[1..], k)
  }

  /** std::rotate of the prefix ending at `i`: that entry comes to the front. */
  function Promote<T>(s: seq<T>, i: nat): seq<T>
    requires i < |s|
  {
    [s[i]] + s[..i] + s[i + 1..]
  }

  function Find<K(==), V>(entries: seq<Entry<K, V>>, k: K): (seq<Entry<K, V>>, Option<V>) {
    var i := IndexOf(KeysOf(entries), k);
    if i == |entries| then (entries, None) else (Promote(entries, i), Some(entries[i].value))
  }

  function Insert<K(==), V>(entries: seq<Entry<K, V>>, capacity: nat, k: K, v: V): seq<Entry<K, V>> {
    var i := IndexOf(KeysOf(entries), k);
    if i < |entries| then Promote(entries[i := Entry(k, v)], i)
    else [Entry(k, v)] + (if |entries| >= capacity && |entries| > 0 then entries[..|entries| - 1] else entries)
  }

  class Cache<K(==), V> {
    const capacity: nat
    var entries: seq<Entry<K, V>>

    /** A capacity of zero is raised to one. */
    constructor (requested: nat)
      ensures capacity == (if requested == 0 then 1 else requested) && entries == []
    {
      capacity := if requested == 0 then 1 else requested;
      entries := [];
    }

    method Locate(k: K) returns (i: nat)
      ensures i == IndexOf(KeysOf(entries), k)
    {
      i := 0;
      while i < |entries| && entries[i].key != k
        invariant i <= |entries| && IndexOf(KeysOf(entries), k) == i + IndexOf(KeysOf(entries)[i..], k)
      {
        i := i + 1;
      }
    }

    method Lookup(k: K) returns (found: Option<V>)
      modifies this
      ensures (entries, found) == Find(old(entries), k)
    {
      var i := Locate(k);
      if i == |entries| { return None; }
      found := Some(entries[i].value);
      entries := Promote(entries, i);
    }

    method Store(k: K, v: V) returns (stored: V)
      modifies this
      ensures entries == Insert(old(entries), capacity, k, v) && |entries| > 0 && stored == entries[0].value == v
    {
      var i := Locate(k);
      if i < |entries| {
        entries := Promote(entries[i := Entry(k, v)], i);
      } else {
        if |entries| >= capacity && |entries| > 0 { entries := entries[..|entries| - 1]; }
        entries := [Entry(k, v)] + entries;
      }
      stored := entries[0].value;
    }
  }

  // ----- which entries survive

  /** The distinct keys of an access history, most recent first. */
  function Recency<K(==)>(history: seq<K>): seq<K> {
    if history == [] then []
    else
      var k, before := history[|history| - 1], Recency(history[..|history| - 1]);
      var i := IndexOf(before, k);
      if i < |before| then Promote(before, i) else [k] + before
  }

  function Take<T>(s: seq<T>, n: nat): seq<T> {
    if |s| <= n then s else s[..n]
  }

  datatype Operation<K, V> = Lookup(key: K) | Store(key: K, value: V)

  /** The entries after a history of lookups and stores on an empty cache. */
  function After<K(==), V>(capacity: nat, history: seq<Operation<K, V>>): seq<Entry<K, V>> {
    if history == [] then []
    else
      var before, last := After(capacity, history[..|history| - 1]), history[|history| - 1];
      match last
      case Lookup(k) => Find(before, k).0
      case Store(k, v) => Insert(before, capacity, k, v)
  }

  /** The keys in use along a history: those stored, and those looked up while the cache held them. */
  function Uses<K(==), V>(capacity: nat, history: seq<Operation<K, V>>): seq<K> {
    if history == [] then []
    else
      var before, last := Uses(capacity, history[..|history| - 1]), history[|history| - 1];
      if last.Store? || last.key in Take(Recency(before), capacity) then before + [last.key] else before
  }

  lemma {:induction false} PromoteDistinct<K>(s: seq<K>, i: nat)
    requires i < |s| && DistinctKeys(s)
    ensures DistinctKeys(Promote(s, i)) && forall k :: k in Promote(s, i) <==> k in s
  {
    var p := Promote(s, i);
    forall m | 0 <= m < |p| ensures p[m] == s[if m == 0 then i else if m <= i then m - 1 else m] {}
    forall m | 0 <= m < |s| ensures s[m] == p[if m == i then 0 else if m < i then m + 1 else m] {}
  }

  lemma {:induction false} RecencyDistinct<K>(history: seq<K>)
    ensures DistinctKeys(Recency(history))
    ensures forall k :: k in Recency(history) <==> k in history
  {
    if history != [] {
      hide IndexOf, Promote;
      var h := history[..|history| - 1];
      RecencyDistinct(h);
      var k, before := history[|history| - 1], Recency(h);
      assert history == h + [k];
      var i := IndexOf(before, k);
      if i < |before| { PromoteDistinct(before, i); }
    }
  }

  lemma {:induction false} PromoteKeys<K, V>(entries: seq<Entry<K, V>>, i: nat)
    requires i < |entries|
    ensures KeysOf(Promote(entries, i)) == Promote(KeysOf(entries), i)
  {}

  lemma {:induction false} FrontKeys<K, V>(e: Entry<K, V>, rest: seq<Entry<K, V>>)
    ensures KeysOf([e] + rest) == [e.key] + KeysOf(rest)
  {}

  lemma {:induction false} FindKeys<K, V>(entries: seq<Entry<K, V>>, k: K)
    ensures var ks := KeysOf(entries);
            var i := IndexOf(ks, k);
            KeysOf(Find(entries, k).0) == if i < |ks| then Promote(ks, i) else ks
  {
    hide Promote;
    var i := IndexOf(KeysOf(entries), k);
    if i < |entries| { PromoteKeys(entries, i); }
  }

  lemma {:induction false} InsertKeys<K, V>(entries: seq<Entry<K, V>>, capacity: nat, k: K, v: V)
    ensures var ks := KeysOf(entries);
            var i := IndexOf(ks, k);
            KeysOf(Insert(entries, capacity, k, v))
            == if i < |ks| then Promote(ks, i) else [k] + (if |ks| >= capacity && |ks| > 0 then ks[..|ks| - 1] else ks)
  {
    hide Promote;
    var ks := KeysOf(entries);
    var i := IndexOf(ks, k);
    if i < |entries| {
      assert KeysOf(entries[i := Entry(k, v)]) == ks;
      PromoteKeys(entries[i := Entry(k, v)], i);
    } else {
      var rest := if |entries| >= capacity && |entries| > 0 then entries[..|entries| - 1] else entries;
      FrontKeys(Entry(k, v), rest);
      assert KeysOf(rest) == if |ks| >= capacity && |ks| > 0 then ks[..|ks| - 1] else ks;
    }
  }

  lemma {:induction false} TakePromoted<K>(s: seq<K>, i: nat, capacity: nat)
    requires i < |s|
    ensures i < capacity ==> Take(Promote(s, i), capacity) == Promote(Take(s, capacity), i)
    ensures 0 < capacity <= i ==> Take(Promote(s, i), capacity) == [s[i]] + s[..capacity - 1]
  {}

  lemma {:induction false} IndexInPrefix<K>(s: seq<K>, capacity: nat, k: K)
    ensures IndexOf(s, k) < |Take(s, capacity)| ==> IndexOf(Take(s, capacity), k) == IndexOf(s, k)
    ensures IndexOf(s, k) >= |Take(s, capacity)| ==> IndexOf(Take(s, capacity), k) == |Take(s, capacity)|
  {
    var i, j := IndexOf(s, k), IndexOf(Take(s, capacity), k);
    var t := Take(s, capacity);
    if j < |t| {
      assert s[j] == k;
    } else if i < |t| {
      assert t[i] in t;
    }
  }

  lemma {:induction false} RecencyNext<K>(history: seq<K>, k: K)
    ensures var before := Recency(history);
            var i := IndexOf(before, k);
            Recency(history + [k]) == if i < |before| then Promote(before, i) else [k] + before
  {
    assert (history + [k])[..|history|] == history;
  }

  /** Promoting a key the cache holds is one more use of it. */
  lemma {:induction false} PromotedUse<K>(history: seq<K>, capacity: nat, k: K)
    requires capacity > 0 && k in Take(Recency(history), capacity)
    ensures var ks := Take(Recency(history), capacity);
            Take(Recency(history + [k]), capacity) == Promote(ks, IndexOf(ks, k))
  {
    hide Recency, Promote, IndexOf;
    RecencyNext(history, k);
    var before := Recency(history);
    var ks := Take(before, capacity);
    IndexInPrefix(before, capacity, k);
    var i := IndexOf(ks, k);
    assert i < |ks|;
    if IndexOf(before, k) >= |ks| { assert false; }
    TakePromoted(before, i, capacity);
  }

  /** Putting a key in front that the cache does not hold is one more use of it, and drops the least recent. */
  lemma {:induction false} FreshUse<K>(history: seq<K>, capacity: nat, k: K)
    requires capacity > 0 && k !in Take(Recency(history), capacity)
    ensures var ks := Take(Recency(history), capacity);
            Take(Recency(history + [k]), capacity) == [k] + (if |ks| >= capacity then ks[..|ks| - 1] else ks)
  {
    hide Recency, Promote, IndexOf;
    RecencyNext(history, k);
    var before := Recency(history);
    var ks := Take(before, capacity);
    IndexInPrefix(before, capacity, k);
    var i := IndexOf(before, k);
    if i < |before| {
      assert IndexOf(ks, k) == |ks|;
      TakePromoted(before, i, capacity);
      assert ks[..|ks| - 1] == before[..capacity - 1];
    } else {
      assert Take([k] + before, capacity) == [k] + (if |ks| >= capacity then ks[..|ks| - 1] else ks);
    }
  }

  lemma {:induction false} FindRecent<K, V>(entries: seq<Entry<K, V>>, capacity: nat, history: seq<K>, k: K)
    requires capacity > 0 && KeysOf(entries) == Take(Recency(history), capacity)
    ensures KeysOf(Find(entries, k).0)
            == Take(Recency(if k in KeysOf(entries) then history + [k] else history), capacity)
    ensures Find(entries, k).1.Some? <==> k in KeysOf(entries)
  {
    FindKeys(entries, k);
    hide Recency, Promote;
    if k in KeysOf(entries) { PromotedUse(history, capacity, k); }
  }

  lemma {:induction false} InsertRecent<K, V>(entries: seq<Entry<K, V>>, capacity: nat, history: seq<K>, k: K, v: V)
    requires capacity > 0 && KeysOf(entries) == Take(Recency(history), capacity)
    ensures KeysOf(Insert(entries, capacity, k, v)) == Take(Recency(history + [k]), capacity)
  {
    InsertKeys(entries, capacity, k, v);
    hide Recency, Promote, Insert;
    if k in KeysOf(entries) { PromotedUse(history, capacity, k); } else { FreshUse(history, capacity, k); }
  }

  /** After any history of lookups and stores the cache holds exactly the `capacity` most recently used keys, in order of
      use. */
  lemma {:induction false} HoldsMostRecent<K, V>(capacity: nat, history: seq<Operation<K, V>>)
    requires capacity > 0
    ensures KeysOf(After(capacity, history)) == Take(Recency(Uses(capacity, history)), capacity)
    ensures |After(capacity, history)| <= capacity
  {
    hide Recency, Find, Insert;
    if history == [] {
      NoUses<K>(capacity);
    } else {
      var before, last := history[..|history| - 1], history[|history| - 1];
      HoldsMostRecent(capacity, before);
      match last {
        case Lookup(k) => FindRecent(After(capacity, before), capacity, Uses(capacity, before), k);
        case Store(k, v) => InsertRecent(After(capacity, before), capacity, Uses(capacity, before), k, v);
      }
    }
    assert |KeysOf(After(capacity, history))| <= capacity;
  }

  lemma {:induction false} NoUses<K>(capacity: nat)
    ensures Take(Recency<K>([]), capacity) == []
  {}
}
