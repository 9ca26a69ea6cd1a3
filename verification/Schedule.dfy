/** In which order a build calls constructors, and for how long it waits for them: told from the wiring and user code alone. */
module Schedule {
  import opened Types
  import opened Digraph

  /** The keys of one layer that are pending, in the layer's order. */
  function PendingOf(layer: seq<Key>, pending: set<Key>): (r: seq<Key>)
    ensures forall k :: k in r <==> k in layer && k in pending
    ensures NoDup(layer) ==> NoDup(r)
  {
    if layer == [] then []
    else
      var rest := PendingOf(layer[1..], pending);
      assert forall k :: k in layer <==> k == layer[0] || k in layer[1..];
      assert NoDup(layer) ==> NoDup(layer[1..]) && layer[0] !in layer[1..];
      if layer[0] in pending then [layer[0]] + rest else rest
  }

  lemma {:induction false} PendingInOrder(layer: seq<Key>, pending: set<Key>)
    requires NoDup(layer)
    ensures Subsequence(PendingOf(layer, pending), layer)
  {
    if layer != [] {
      assert NoDup(layer[1..]);
      PendingInOrder(layer[1..], pending);
      var rest := PendingOf(layer[1..], pending);
      if rest != [] {
        assert rest[0] in rest;
        assert rest[0] != layer[0];
      }
      if layer[0] in pending {
        assert PendingOf(layer, pending)[1..] == rest;
      }
    }
  }

  lemma {:induction false} SamePending(layer: seq<Key>, a: set<Key>, b: set<Key>)
    requires forall k :: k in layer ==> (k in a <==> k in b)
    ensures PendingOf(layer, a) == PendingOf(layer, b)
  {
    if layer != [] {
      assert forall k :: k in layer[1..] ==> k in layer;
      SamePending(layer[1..], a, b);
    }
  }

  lemma {:induction false} NonePending(layer: seq<Key>, keys: set<Key>)
    requires forall k :: k in layer ==> k !in keys
    ensures PendingOf(layer, keys) == []
  {
    if layer != [] {
      assert forall k :: k in layer[1..] ==> k in layer;
      NonePending(layer[1..], keys);
    }
  }

  /** The keys of `keys` layer by layer: the order in which they are called. */
  function InLayers(layers: seq<seq<Key>>, keys: set<Key>): seq<Key> {
    if layers == [] then [] else InLayers(layers[..|layers|-1], keys) + PendingOf(layers[|layers|-1], keys)
  }

  // ---------- waiting ----------

  /** How often the future of `k` answers "pending"; not at all if its constructor is not asynchronous. */
  function WaitOf(w: Wiring, user: UserCode, k: Key): nat {
    if k in w.providers && w.providers[k].body.Constructor? && w.providers[k].body.isAsync then user.constructorWaits(k) else 0
  }

  /** A wave is waited for until its slowest constructor is done. */
  function WaveTime(w: Wiring, user: UserCode, keys: seq<Key>): (t: nat)
    ensures forall k :: k in keys ==> WaitOf(w, user, k) <= t
    ensures t == 0 || exists k :: k in keys && WaitOf(w, user, k) == t
  {
    if keys == [] then 0
    else
      var rest := WaveTime(w, user, keys[1..]);
      assert keys[0] in keys && forall k :: k in keys <==> k == keys[0] || k in keys[1..];
      if WaitOf(w, user, keys[0]) > rest then WaitOf(w, user, keys[0]) else rest
  }

  /** Waves are waited for one after another. */
  function LayersTime(w: Wiring, user: UserCode, layers: seq<seq<Key>>, keys: set<Key>): nat {
    if layers == [] then 0
    else LayersTime(w, user, layers[..|layers|-1], keys) + WaveTime(w, user, PendingOf(layers[|layers|-1], keys))
  }

  lemma OneMoreLayer(w: Wiring, user: UserCode, layers: seq<seq<Key>>, keys: set<Key>, i: nat)
    requires i < |layers|
    ensures LayersTime(w, user, layers[..i+1], keys) == LayersTime(w, user, layers[..i], keys) + WaveTime(w, user, PendingOf(layers[i], keys))
    ensures InLayers(layers[..i+1], keys) == InLayers(layers[..i], keys) + PendingOf(layers[i], keys)
  {
    assert layers[..i+1][..i] == layers[..i];
  }

  lemma {:induction false} MoreLayersMoreTime(w: Wiring, user: UserCode, layers: seq<seq<Key>>, keys: set<Key>, i: nat)
    requires i <= |layers|
    ensures LayersTime(w, user, layers[..i], keys) <= LayersTime(w, user, layers, keys)
  {
    if i < |layers| {
      assert layers[..|layers|-1][..i] == layers[..i];
      MoreLayersMoreTime(w, user, layers[..|layers|-1], keys, i);
    } else {
      assert layers[..i] == layers;
    }
  }

  /** Layers without a key of `keys` take no time. */
  lemma {:induction false} RestIsIdle(w: Wiring, user: UserCode, layers: seq<seq<Key>>, keys: set<Key>, i: nat)
    requires i <= |layers| && forall j :: i <= j < |layers| ==> PendingOf(layers[j], keys) == []
    ensures LayersTime(w, user, layers, keys) == LayersTime(w, user, layers[..i], keys)
    ensures InLayers(layers, keys) == InLayers(layers[..i], keys)
  {
    if i < |layers| {
      var before := layers[..|layers|-1];
      assert before[..i] == layers[..i];
      forall j | i <= j < |before|
        ensures PendingOf(before[j], keys) == []
      {
        assert before[j] == layers[j];
      }
      RestIsIdle(w, user, before, keys, i);
    } else {
      assert layers[..i] == layers;
    }
  }
}
