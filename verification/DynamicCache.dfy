/** The model-global operation cache under concurrent requests: double-checked locking over the LRU cache. */
module DynamicCache {
  import opened Graphs
  import opened TensorValues
  import opened DynamicRun
  import LRU = LruCache

  type Thread = nat

  datatype GlobalKey = GlobalKey(node: nat, key: ShapeKey)

  /** One call of getOrCreate: the node and the tensors its inputs point at. */
  datatype Request = Request(node: nat, inputs: seq<TensorValue>)

  /** Where a thread is inside getOrCreate. */
  datatype Phase =
    | Outside
    | Missed(request: Request)                       // first lookup failed, lock released
    | Built(request: Request, variant: Variant)      // factory() done, lock not yet retaken
    | Returned(request: Request, variant: Variant)

  datatype State = State(entries: seq<LRU.Entry<GlobalKey, Variant>>, phases: map<Thread, Phase>)

  predicate Proper(g: Graph, r: Request) {
    r.node < |g| && |r.inputs| == |g[r.node].inputs|
  }

  function KeyOf(g: Graph, env: Env, r: Request): GlobalKey
    requires Proper(g, r)
  {
    GlobalKey(r.node, MakeKey(g, env, r.node, r.inputs))
  }

  /** What createCachedOperation would build for this very request. */
  function Afresh(g: Graph, env: Env, r: Request): Variant
    requires Proper(g, r)
  {
    CreateVariant(g, env, r.node, MakeKey(g, env, r.node, r.inputs), r.inputs)
  }

  function PhaseOf(s: State, t: Thread): Phase {
    if t in s.phases then s.phases[t] else Outside
  }

  datatype Step =
    | Look(thread: Thread, request: Request)   // first critical section
    | Build(thread: Thread)                    // factory(), outside the lock
    | Publish(thread: Thread)                  // second critical section
    | Leave(thread: Thread)

  function Next(g: Graph, env: Env, capacity: nat, s: State, step: Step): State {
    match step
    case Look(t, r) =>
      if PhaseOf(s, t) != Outside || !Proper(g, r) then s
      else
        var (entries, found) := LRU.Find(s.entries, KeyOf(g, env, r));
        State(entries, s.phases[t := match found case Some(v) => Returned(r, v) case None => Missed(r)])
    case Build(t) =>
      (match PhaseOf(s, t)
       case Missed(r) =>
         if Proper(g, r) then s.(phases := s.phases[t := Built(r, Afresh(g, env, r))]) else s
       case _ => s)
    case Publish(t) =>
      (match PhaseOf(s, t)
       case Built(r, v) =>
         if !Proper(g, r) then s
         else
           var (entries, found) := LRU.Find(s.entries, KeyOf(g, env, r));
           (match found
            case Some(w) => State(entries, s.phases[t := Returned(r, w)])
            case None => State(LRU.Insert(s.entries, capacity, KeyOf(g, env, r), v), s.phases[t := Returned(r, v)]))
       case _ => s)
    case Leave(t) =>
      if PhaseOf(s, t).Returned? then s.(phases := s.phases[t := Outside]) else s
  }

  /** Any interleaving of any threads' steps. */
  function Run(g: Graph, env: Env, capacity: nat, steps: seq<Step>): State {
    if steps == [] then State([], map[])
    else Next(g, env, capacity, Run(g, env, capacity, steps[..|steps| - 1]), steps[|steps| - 1])
  }

  /** The entry was built by some request with the entry's key. */
  ghost predicate Genuine(g: Graph, env: Env, e: LRU.Entry<GlobalKey, Variant>) {
    exists r :: Proper(g, r) && KeyOf(g, env, r) == e.key && Afresh(g, env, r) == e.value
  }

  ghost predicate EntriesGenuine(g: Graph, env: Env, entries: seq<LRU.Entry<GlobalKey, Variant>>) {
    forall i :: 0 <= i < |entries| ==> Genuine(g, env, entries[i])
  }

  ghost predicate Transparent(g: Graph, env: Env, s: State) {
    && EntriesGenuine(g, env, s.entries)
    && (forall t :: t in s.phases ==>
          match s.phases[t]
          case Outside => true
          case Missed(r) => Proper(g, r)
          case Built(r, v) => Proper(g, r) && v == Afresh(g, env, r)
          case Returned(r, v) => Proper(g, r) && v == Afresh(g, env, r))
  }

  /** A genuine entry holds what any request with its key would build. */
  lemma {:induction false} GenuineValue(g: Graph, env: Env, e: LRU.Entry<GlobalKey, Variant>, r: Request)
    requires Genuine(g, env, e) && Proper(g, r) && KeyOf(g, env, r) == e.key
    ensures e.value == Afresh(g, env, r)
  {
    hide MakeKey, CreateVariant;
    var maker :| Proper(g, maker) && KeyOf(g, env, maker) == e.key && Afresh(g, env, maker) == e.value;
    KeyDeterminesVariant(g, env, r.node, r.inputs, maker.inputs);
  }

  lemma {:induction false} FindGenuine(g: Graph, env: Env, entries: seq<LRU.Entry<GlobalKey, Variant>>, r: Request)
    requires EntriesGenuine(g, env, entries) && Proper(g, r)
    ensures EntriesGenuine(g, env, LRU.Find(entries, KeyOf(g, env, r)).0)
    ensures LRU.Find(entries, KeyOf(g, env, r)).1.Some? ==> LRU.Find(entries, KeyOf(g, env, r)).1.value == Afresh(g, env, r)
  {
    hide Genuine, KeyOf, Afresh, Proper;
    var i := LRU.IndexOf(LRU.KeysOf(entries), KeyOf(g, env, r));
    if i < |entries| { GenuineValue(g, env, entries[i], r); }
  }

  lemma {:induction false} InsertGenuine(g: Graph, env: Env, entries: seq<LRU.Entry<GlobalKey, Variant>>, capacity: nat,
                                         r: Request)
    requires EntriesGenuine(g, env, entries) && Proper(g, r) && LRU.Find(entries, KeyOf(g, env, r)).1.None?
    ensures EntriesGenuine(g, env, LRU.Insert(entries, capacity, KeyOf(g, env, r), Afresh(g, env, r)))
  {
    assert Genuine(g, env, LRU.Entry(KeyOf(g, env, r), Afresh(g, env, r)));
    hide Genuine, KeyOf, Afresh, Proper;
  }

  lemma {:induction false} StepTransparent(g: Graph, env: Env, capacity: nat, s: State, step: Step)
    requires Transparent(g, env, s)
    ensures Transparent(g, env, Next(g, env, capacity, s, step))
  {
    hide MakeKey, CreateVariant, KeyOf, Afresh, EntriesGenuine, LRU.Find, LRU.Insert;
    match step {
      case Look(t, r) => if Proper(g, r) { FindGenuine(g, env, s.entries, r); }
      case Build(t) =>
      case Publish(t) =>
        if PhaseOf(s, t).Built? {
          FindGenuine(g, env, s.entries, PhaseOf(s, t).request);
          if LRU.Find(s.entries, KeyOf(g, env, PhaseOf(s, t).request)).1.None? {
            InsertGenuine(g, env, s.entries, capacity, PhaseOf(s, t).request);
          }
        }
      case Leave(t) =>
    }
  }

  /** Under every interleaving and every eviction, what getOrCreate returns to a thread is what createCachedOperation
      would have built for that thread's own node and inputs. */
  lemma {:induction false} CacheIsTransparent(g: Graph, env: Env, capacity: nat, steps: seq<Step>)
    ensures Transparent(g, env, Run(g, env, capacity, steps))
    ensures forall t :: PhaseOf(Run(g, env, capacity, steps), t).Returned? ==>
      var p := PhaseOf(Run(g, env, capacity, steps), t);
      Proper(g, p.request) && p.variant == Afresh(g, env, p.request)
  {
    hide Next, Afresh, EntriesGenuine;
    if steps != [] {
      CacheIsTransparent(g, env, capacity, steps[..|steps| - 1]);
      StepTransparent(g, env, capacity, Run(g, env, capacity, steps[..|steps| - 1]), steps[|steps| - 1]);
    } else {
      EmptyGenuine(g, env);
    }
  }

  lemma {:induction false} EmptyGenuine(g: Graph, env: Env)
    ensures EntriesGenuine(g, env, [])
  {}

  // ----- the LRU discipline is kept as well

  lemma {:induction false} FindDistinct<K, V>(entries: seq<LRU.Entry<K, V>>, k: K)
    requires LRU.DistinctKeys(LRU.KeysOf(entries))
    ensures LRU.DistinctKeys(LRU.KeysOf(LRU.Find(entries, k).0)) && |LRU.Find(entries, k).0| == |entries|
  {
    var i := LRU.IndexOf(LRU.KeysOf(entries), k);
    if i < |entries| {
      LRU.PromoteDistinct(LRU.KeysOf(entries), i);
      assert LRU.KeysOf(LRU.Promote(entries, i)) == LRU.Promote(LRU.KeysOf(entries), i);
    }
  }

  lemma {:induction false} InsertDistinct<K, V>(entries: seq<LRU.Entry<K, V>>, capacity: nat, k: K, v: V)
    requires LRU.DistinctKeys(LRU.KeysOf(entries)) && LRU.Find(entries, k).1.None? && |entries| <= capacity && capacity > 0
    ensures var after := LRU.Insert(entries, capacity, k, v);
            LRU.DistinctKeys(LRU.KeysOf(after)) && |after| <= capacity
  {
    var ks := LRU.KeysOf(entries);
    assert k !in ks;
    forall i | 0 <= i < |ks| ensures ks[i] != k {
      assert ks[i] in ks;
    }
  }

  /** At most one entry per key and never more than `capacity` of them, however the threads race. */
  lemma {:induction false} CacheStaysBounded(g: Graph, env: Env, capacity: nat, steps: seq<Step>)
    requires capacity > 0
    ensures var entries := Run(g, env, capacity, steps).entries;
            LRU.DistinctKeys(LRU.KeysOf(entries)) && |entries| <= capacity
  {
    hide MakeKey, CreateVariant, KeyOf, Afresh, LRU.Find, LRU.Insert, LRU.DistinctKeys;
    if steps == [] {
      NoKeys<GlobalKey, Variant>();
    } else {
      CacheStaysBounded(g, env, capacity, steps[..|steps| - 1]);
      var s := Run(g, env, capacity, steps[..|steps| - 1]);
      match steps[|steps| - 1] {
        case Look(t, r) => if Proper(g, r) { FindDistinct(s.entries, KeyOf(g, env, r)); }
        case Build(t) =>
        case Publish(t) =>
          if PhaseOf(s, t).Built? && Proper(g, PhaseOf(s, t).request) {
            var r := PhaseOf(s, t).request;
            FindDistinct(s.entries, KeyOf(g, env, r));
            if LRU.Find(s.entries, KeyOf(g, env, r)).1.None? {
              InsertDistinct(s.entries, capacity, KeyOf(g, env, r), PhaseOf(s, t).variant);
            }
          }
        case Leave(t) =>
      }
    }
  }

  lemma {:induction false} NoKeys<K, V>()
    ensures LRU.DistinctKeys(LRU.KeysOf<K, V>([]))
  {}

  // ----- which entries are kept

  /** The keys used along an interleaving: by every lookup that hits and by every publication. */
  function UsedKeys(g: Graph, env: Env, capacity: nat, steps: seq<Step>): seq<GlobalKey> {
    if steps == [] then []
    else
      var s, before := Run(g, env, capacity, steps[..|steps| - 1]), UsedKeys(g, env, capacity, steps[..|steps| - 1]);
      match steps[|steps| - 1]
      case Look(t, r) =>
        if PhaseOf(s, t) == Outside && Proper(g, r) && KeyOf(g, env, r) in LRU.KeysOf(s.entries)
        then before + [KeyOf(g, env, r)] else before
      case Publish(t) =>
        (match PhaseOf(s, t)
         case Built(r, v) => if Proper(g, r) then before + [KeyOf(g, env, r)] else before
         case _ => before)
      case Build(t) => before
      case Leave(t) => before
  }

  lemma {:induction false} PublishRecent(g: Graph, env: Env, capacity: nat, s: State, t: Thread, uses: seq<GlobalKey>)
    requires capacity > 0 && LRU.KeysOf(s.entries) == LRU.Take(LRU.Recency(uses), capacity)
    requires PhaseOf(s, t).Built? && Proper(g, PhaseOf(s, t).request)
    ensures LRU.KeysOf(Next(g, env, capacity, s, Publish(t)).entries)
            == LRU.Take(LRU.Recency(uses + [KeyOf(g, env, PhaseOf(s, t).request)]), capacity)
  {
    hide LRU.Find, LRU.Insert, LRU.Recency, KeyOf, LRU.Take;
    var r, v := PhaseOf(s, t).request, PhaseOf(s, t).variant;
    LRU.FindRecent(s.entries, capacity, uses, KeyOf(g, env, r));
    if LRU.Find(s.entries, KeyOf(g, env, r)).1.None? {
      LRU.InsertRecent(s.entries, capacity, uses, KeyOf(g, env, r), v);
    }
  }

  /** Whatever the threads do, the shared cache holds exactly the `capacity` most recently used keys, in order of use. */
  lemma {:induction false} CacheHoldsMostRecent(g: Graph, env: Env, capacity: nat, steps: seq<Step>)
    requires capacity > 0
    ensures LRU.KeysOf(Run(g, env, capacity, steps).entries)
            == LRU.Take(LRU.Recency(UsedKeys(g, env, capacity, steps)), capacity)
  {
    hide LRU.Find, LRU.Insert, LRU.Recency, KeyOf, LRU.Take, Afresh;
    if steps == [] {
      LRU.NoUses<GlobalKey>(capacity);
      NoEntries();
    } else {
      var front := steps[..|steps| - 1];
      CacheHoldsMostRecent(g, env, capacity, front);
      var s, uses := Run(g, env, capacity, front), UsedKeys(g, env, capacity, front);
      match steps[|steps| - 1] {
        case Look(t, r) => if Proper(g, r) { LRU.FindRecent(s.entries, capacity, uses, KeyOf(g, env, r)); }
        case Build(t) =>
        case Publish(t) =>
          if PhaseOf(s, t).Built? && Proper(g, PhaseOf(s, t).request) {
            PublishRecent(g, env, capacity, s, t, uses);
          }
        case Leave(t) =>
      }
    }
  }

  lemma {:induction false} NoEntries()
    ensures LRU.KeysOf<GlobalKey, Variant>([]) == []
  {}
}
