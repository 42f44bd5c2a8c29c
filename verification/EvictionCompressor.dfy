/** The compressor object: one dictionary of scores and one of counters for all layers, updated hook by hook. */
module EvictionCompressor {
  import opened Options
  import opened Eviction
  import opened EvictionMask
  import opened EvictionSpec

  /** The keys and values of a model, as the original positions of the tokens each layer still holds. */
  class KVCache {
    var layers: map<nat, seq<nat>>
    var seen: map<nat, nat>

    constructor ()
      ensures layers == map[] && seen == map[]
    {
      layers, seen := map[], map[];
    }
  }

  class KVCacheCompressor {
    const config: Config
    var scores: map<nat, seq<real>>
    var counter: map<nat, seq<nat>>

    /** The layers hooked so far are the first `n`. */
    ghost predicate Hooked(n: nat)
      reads this
    {
      && Validated(config)
      && (forall k: nat :: k in scores <==> k < n)
      && (forall k: nat :: k in counter <==> config.normalize && k < n)
    }

    ghost function State(cache: KVCache, layer: nat): Option<Layer>
      reads this, cache
    {
      if layer in scores && layer in cache.layers && layer in cache.seen then
        Some(Layer(cache.layers[layer], cache.seen[layer], scores[layer],
                   if layer in counter then counter[layer] else []))
      else None
    }

    constructor (c: Config)
      requires Validated(c)
      ensures config == c && Hooked(0)
    {
      config := c;
      scores, counter := map[], map[];
    }

    method Clean()
      requires Validated(config)
      modifies this
      ensures scores == map[] && counter == map[] && Hooked(0)
    {
      scores, counter := map[], map[];
    }

    /** The length of the dictionary tells whether the layer was counted before, as long as every layer is hooked. */
    method CalculateLayerCounter(layer: nat, added: int, ghost n: nat) returns (counts: seq<nat>)
      requires Hooked(n) && layer <= n
      ensures counts == if !config.normalize then []
                        else LayerCounter(config, if layer < n then Some(counter[layer]) else None, added)
    {
      if !config.normalize { return []; }
      KeysBelow(counter.Keys, n);
      var size := NewCounts(config, added);
      if |counter| > layer {
        counts := LayerCounter(config, Some(counter[layer]), added);
      } else if config.window.Some? && added > config.window.value {
        counts := seq(added - config.window.value, _ => config.window.value) + Countdown(size);
      } else {
        counts := [] + Countdown(size);
      }
    }

    /** What the dictionaries hold for a layer. */
    ghost function Stored(layer: nat): Option<Layer>
      reads this
    {
      if layer !in scores then None
      else Some(Layer([], 0, scores[layer], if layer in counter then counter[layer] else []))
    }

    method AggregateScores(layer: nat, hh: seq<real>, ghost n: nat) returns (ok: bool)
      requires Hooked(n) && layer <= n
      modifies this
      ensures var out := old(Aggregate(config, Stored(layer), [], 0, hh));
        && (ok <==> out.Live?) && (out.Failed? ==> out == Failed(ShapeMismatch))
        && (ok ==>
              && scores == old(scores)[layer := out.layer.scores]
              && counter == if config.normalize then old(counter)[layer := out.layer.counter] else old(counter))
        && (!ok ==> scores == old(scores) && counter == old(counter))
      ensures ok ==> Hooked(if layer == n then n + 1 else n)
    {
      hide Scored, AddScores, LayerCounter, Validated;
      var row := Scored(config, hh);
      var added := |row| - if layer in scores then |scores[layer]| else 0;
      if layer in scores {
        match AddScores(row, added, scores[layer])
        case None => return false;
        case Some(sum) => row := sum;
      }
      var counts := CalculateLayerCounter(layer, added, n);
      scores := scores[layer := row];
      if config.normalize { counter := counter[layer := counts]; }
      ok := true;
    }

    /** compress: one mask prunes the cache, the scores and the counters of the layer. */
    method Compress(layer: nat, cache: KVCache, pick: Pick, ghost l: Layer) returns (error: Option<Error>)
      requires State(cache, layer) == Some(l) && l == Layer(cache.layers[layer], cache.seen[layer], scores[layer],
                                                           if config.normalize && layer in counter then counter[layer] else [])
      requires config.normalize ==> layer in counter
      requires Compressible(config, l) && PickOk(config, Intermediate(config, l), pick)
      modifies this, cache
      ensures error.None? <==> EvictionSpec.Compress(config, l, pick).Live?
      ensures error.Some? ==> EvictionSpec.Compress(config, l, pick) == Failed(error.value)
      ensures error.None? ==>
        var r := EvictionSpec.Compress(config, l, pick).layer;
        && (config.normalize || layer !in counter ==> State(cache, layer) == Some(r))
        && scores == old(scores)[layer := r.scores] && cache.layers == old(cache.layers)[layer := r.cache]
        && counter == if config.normalize then old(counter)[layer := r.counter] else old(counter)
      ensures error.Some? ==> scores == old(scores) && counter == old(counter)
      ensures cache.seen == old(cache.seen)
    {
      var keys := cache.layers[layer];
      var now := Layer(keys, cache.seen[layer], scores[layer], if config.normalize then counter[layer] else []);
      hide PickOk, Intermediate, RefinedCount, KeptGroups, TokenIndices, MaskedSelect;
      var refined := RefinedCount(config, Intermediate(config, now), pick);
      error := RefinementError(config, |now.scores|, refined);
      if error.Some? { return error; }
      var groups := KeptGroups(config, |now.scores|, ChosenGroups(config, now, pick));
      var indices := TokenIndices(groups, |keys|, config.group);
      if exists i :: 0 <= i < |indices| && indices[i] >= |keys| { return Some(IndexOutOfRange); }
      var mask := Mask(indices, |keys|);
      cache.layers := cache.layers[layer := MaskedSelect(keys, mask)];
      scores := scores[layer := MaskedSelect(scores[layer], mask[config.start..])];
      if config.normalize { counter := counter[layer := MaskedSelect(counter[layer], mask[config.start..])]; }
      error := None;
    }

    /** What the hook finds stored for a layer; a prompt at the first layer wipes the dictionaries first. */
    ghost function Prior(layer: nat, queries: nat): Option<Layer>
      reads this
    {
      if layer == 0 && queries != 1 then None else Stored(layer)
    }

    /** forward_hook, after the layer has appended its new keys. */
    method ForwardHook(layer: nat, cache: KVCache, queries: nat, row: nat -> real, pick: Pick, ghost n: nat)
        returns (error: Option<Error>)
      requires Hooked(n) && layer <= n && layer in cache.layers && layer in cache.seen
      requires HookOn(config, Prior(layer, queries), cache.layers[layer], cache.seen[layer], row, pick) != NotARun
      modifies this, cache
      ensures var out := old(HookOn(config, Prior(layer, queries), cache.layers[layer], cache.seen[layer], row, pick));
        && (error.Some? <==> out.Failed?) && (error.Some? ==> out == Failed(error.value))
        && (error.None? ==>
              && State(cache, layer) == Some(out.layer)
              && cache.layers == old(cache.layers)[layer := out.layer.cache]
              && Hooked(if layer == 0 && queries != 1 then 1 else if layer == n then n + 1 else n))
      ensures forall k :: k != layer && k in scores ==> k in old(scores) && scores[k] == old(scores[k])
      ensures forall k :: k != layer && k in counter ==> k in old(counter) && counter[k] == old(counter[k])
    {
      hide PickOk, Intermediate, LayerCounter, AddScores, MaskedSelect, EvictionSpec.Compress, Scored, Validated, Map, Aggregate;
      ghost var m := n;
      if layer == 0 && queries != 1 {
        Clean();
        m := 0;
      }
      var keys := cache.layers[layer];
      ghost var out := Aggregate(config, Stored(layer), keys, cache.seen[layer], Map<nat, real>(row, keys));
      assert Stored(layer) == old(Prior(layer, queries));
      AggregateParts(config, Stored(layer), keys, cache.seen[layer], Map<nat, real>(row, keys));
      var aggregated := AggregateScores(layer, Map<nat, real>(row, keys), m);
      if !aggregated { return Some(ShapeMismatch); }
      error := None;
      assert State(cache, layer) == Some(out.layer);
      if |keys| > MaxCache(config) {
        ghost var l := Layer(keys, cache.seen[layer], scores[layer], if config.normalize then counter[layer] else []);
        if |scores[layer]| != |keys| - config.start || (config.normalize && |counter[layer]| != |scores[layer]|) {
          return Some(ShapeMismatch);
        }
        assert Compressible(config, l);
        error := Compress(layer, cache, pick, l);
      }
    }
  }

  lemma {:induction false} AggregateParts(c: Config, prior: Option<Layer>, cache: seq<nat>, seen: nat, hh: seq<real>)
    ensures var out, bare := Aggregate(c, prior, cache, seen, hh), Aggregate(c, prior, [], 0, hh);
      if bare.Live? then out == Live(Layer(cache, seen, bare.layer.scores, bare.layer.counter)) else out == bare
    ensures var bare := Aggregate(c, prior, [], 0, hh); bare.Live? && !c.normalize ==> bare.layer.counter == []
  {}

  lemma {:induction false} KeysBelow(keys: set<nat>, n: nat)
    requires forall k: nat :: k in keys <==> k < n
    ensures |keys| == n
  {
    if n > 0 {
      KeysBelow(keys - {n - 1}, n - 1);
    } else {
      assert keys == {};
    }
  }
}
