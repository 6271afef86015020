/** The layered configuration store: an ordered list of key/value layers in
    which a later layer overrides an earlier one. */
module Layers {
  import opened Wrappers

  /** The keys of every layer, each once. */
  function KeysOf<V>(layers: seq<map<string, V>>): set<string> {
    if |layers| == 0 then {} else KeysOf(layers[..|layers| - 1]) + layers[|layers| - 1].Keys
  }

  /** `get(key)`: the value of the most recently loaded layer that defines `key`. */
  function Lookup<V>(layers: seq<map<string, V>>, key: string): (r: Option<V>)
    ensures r.Some? <==> key in KeysOf(layers)
  {
    if |layers| == 0 then None
    else if key in layers[|layers| - 1] then Some(layers[|layers| - 1][key])
    else Lookup(layers[..|layers| - 1], key)
  }

  /** The layers folded into one map, each layer overriding what came before. */
  function Merged<V>(layers: seq<map<string, V>>): map<string, V> {
    if |layers| == 0 then map[] else Merged(layers[..|layers| - 1]) + layers[|layers| - 1]
  }

  /** Loading one more layer: it overrides the merged earlier layers. */
  lemma MergedAppend<V>(layers: seq<map<string, V>>, layer: map<string, V>)
    ensures Merged(layers + [layer]) == Merged(layers) + layer
    ensures KeysOf(layers + [layer]) == KeysOf(layers) + layer.Keys
  {
    assert (layers + [layer])[..|layers|] == layers;
  }

  /** The keys of the store are exactly the keys that some layer defines. */
  lemma {:induction false} KeysOfUnion<V>(layers: seq<map<string, V>>, key: string)
    ensures key in KeysOf(layers) <==> exists i :: 0 <= i < |layers| && key in layers[i]
  {
    if |layers| > 0 {
      var init := layers[..|layers| - 1];
      KeysOfUnion(init, key);
      if key in KeysOf(init) {
        var i :| 0 <= i < |init| && key in init[i];
        assert layers[i] == init[i];
      }
      if i :| 0 <= i < |layers| && key in layers[i] {
        if i < |layers| - 1 {
          assert init[i] == layers[i];
        }
      }
    }
  }

  /** The merged map and the store's `keys()`/`get(key)` agree: same keys, and
      every key maps to the value of the last layer defining it. */
  lemma {:induction false} MergedAgrees<V>(layers: seq<map<string, V>>)
    ensures Merged(layers).Keys == KeysOf(layers)
    ensures forall k | k in Merged(layers) :: Lookup(layers, k) == Some(Merged(layers)[k])
  {
    if |layers| > 0 {
      MergedAgrees(layers[..|layers| - 1]);
    }
  }

  /** Later wins: the value of a key is the one given by the last layer that defines it. */
  lemma {:induction false} LastDefinerWins<V>(layers: seq<map<string, V>>, i: nat, key: string)
    requires i < |layers| && key in layers[i]
    requires forall j | i < j < |layers| :: key !in layers[j]
    ensures key in Merged(layers) && Merged(layers)[key] == layers[i][key]
    ensures Lookup(layers, key) == Some(layers[i][key])
  {
    var init := layers[..|layers| - 1];
    if i < |layers| - 1 {
      assert key !in layers[|layers| - 1];
      forall j | i < j < |init| ensures key !in init[j] {
        assert init[j] == layers[j];
      }
      assert init[i] == layers[i];
      LastDefinerWins(init, i, key);
    }
  }

  /** Updating one key is loading a one-key layer. */
  lemma UpdateIsOverride<V>(m: map<string, V>, k: string, v: V)
    ensures m[k := v] == m + map[k := v]
  {
  }

  /** Updating one key adds exactly that key. */
  lemma KeysAfterUpdate<V>(m: map<string, V>, k: string, v: V)
    ensures m[k := v].Keys == m.Keys + {k}
  {
  }

  /** One layer loaded. */
  lemma MergedOfOne<V>(a: map<string, V>)
    ensures Merged([a]) == a
    ensures KeysOf([a]) == a.Keys
  {
    MergedAppend([], a);
    assert [] + [a] == [a];
  }

  /** Two layers loaded in order. */
  lemma MergedOfTwo<V>(a: map<string, V>, b: map<string, V>)
    ensures Merged([a, b]) == a + b
  {
    MergedAppend([a], b);
    MergedAppend([], a);
    assert [a] + [b] == [a, b];
    assert [] + [a] == [a];
  }

  /** Three layers loaded in order. */
  lemma MergedOfThree<V>(a: map<string, V>, b: map<string, V>, c: map<string, V>)
    ensures Merged([a, b, c]) == a + b + c
  {
    MergedOfTwo(a, b);
    MergedAppend([a, b], c);
    assert [a, b] + [c] == [a, b, c];
  }

  /** Four layers loaded in order. */
  lemma MergedOfFour<V>(a: map<string, V>, b: map<string, V>, c: map<string, V>, d: map<string, V>)
    ensures Merged([a, b, c, d]) == a + b + c + d
  {
    MergedOfThree(a, b, c);
    MergedAppend([a, b, c], d);
    assert [a, b, c] + [d] == [a, b, c, d];
  }

  /** Layer `i` defines `key` and no later layer does. */
  predicate DefinedLastBy<V>(layers: seq<map<string, V>>, i: int, key: string) {
    && 0 <= i < |layers|
    && key in layers[i]
    && forall j | i < j < |layers| :: key !in layers[j]
  }

  /** A key the store holds has a last layer defining it, and `get` returns that layer's value. */
  lemma {:induction false} LookupFindsLastDefiner<V>(layers: seq<map<string, V>>, key: string)
    requires key in KeysOf(layers)
    ensures exists i :: DefinedLastBy(layers, i, key) && Lookup(layers, key) == Some(layers[i][key])
  {
    var n := |layers| - 1;
    if key in layers[n] {
      assert DefinedLastBy(layers, n, key);
    } else {
      var init := layers[..n];
      LookupFindsLastDefiner(init, key);
      var i :| DefinedLastBy(init, i, key) && Lookup(init, key) == Some(init[i][key]);
      assert init[i] == layers[i];
      forall j | i < j < |layers| ensures key !in layers[j] {
        if j < n {
          assert init[j] == layers[j];
        }
      }
      assert DefinedLastBy(layers, i, key);
    }
  }

  /** The configuration object of `lib-config`: `load` appends a layer. */
  class Config<V> {
    var layers: seq<map<string, V>>

    constructor ()
      ensures layers == []
    {
      layers := [];
    }

    /** `config.load(layer)`. */
    method Load(layer: map<string, V>)
      modifies this
      ensures layers == old(layers) + [layer]
    {
      layers := layers + [layer];
    }

    /** `config.keys()`: every key some loaded layer defines, and no other. */
    function Keys(): (keys: set<string>)
      reads this
      ensures forall k | k in keys :: exists i :: 0 <= i < |layers| && k in layers[i]
      ensures forall i, k | 0 <= i < |layers| && k in layers[i] :: k in keys
    {
      forall k ensures k in KeysOf(layers) <==> exists i :: 0 <= i < |layers| && k in layers[i] {
        KeysOfUnion(layers, k);
      }
      KeysOf(layers)
    }

    /** `config.get(key)` for a key the store holds: the value given by the
        last loaded layer that defines it. */
    function Get(key: string): (v: V)
      reads this
      requires key in Keys()
      ensures exists i :: DefinedLastBy(layers, i, key) && v == layers[i][key]
    {
      LookupFindsLastDefiner(layers, key);
      Lookup(layers, key).value
    }
  }
}
