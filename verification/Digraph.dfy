/**
 * Dependency multigraphs: ranks, walks, and layering by repeatedly peeling off the nodes whose
 * dependencies are all done. `Peel` is the specification of the layers that
 * `Container::freeze_layers` computes (`src/container/graph.rs`).
 */
module Digraph {
  import opened Types

  /** `deps[k]` lists what `k` depends on, with multiplicity; `order` lists the nodes. */
  datatype Graph = Graph(order: seq<Key>, deps: map<Key, seq<Key>>) {
    ghost predicate WellFormed() {
      && NoDup(order)
      && (forall k :: k in deps <==> k in order)
      && (forall k, e :: k in deps && e in deps[k] ==> e in deps)
    }
  }

  // ---------- ranks and walks ----------

  /** `s` is closed under dependencies, and every dependency has a smaller rank. */
  ghost predicate Ranked(g: Graph, s: set<Key>, rank: map<Key, nat>) {
    && s <= g.deps.Keys
    && s <= rank.Keys
    && forall k, e :: k in s && e in g.deps[k] ==> e in s && rank[e] < rank[k]
  }

  ghost predicate Acyclic(g: Graph) {
    exists rank: map<Key, nat> :: Ranked(g, g.deps.Keys, rank)
  }

  /** `p` follows dependencies: each node is a dependency of the one before it. */
  ghost predicate Walk(g: Graph, p: seq<Key>) {
    && |p| > 0
    && p[0] in g.deps
    && (|p| > 1 ==> p[1] in g.deps[p[0]] && Walk(g, p[1..]))
  }

  ghost predicate ClosedWalk(g: Graph, p: seq<Key>) {
    |p| >= 2 && Walk(g, p) && p[0] == p[|p|-1]
  }

  lemma {:induction false} RankFallsAlongWalk(g: Graph, s: set<Key>, rank: map<Key, nat>, p: seq<Key>)
    requires Ranked(g, s, rank) && Walk(g, p) && p[0] in s
    ensures p[|p|-1] in s
    ensures rank[p[|p|-1]] + |p| - 1 <= rank[p[0]]
  {
    if |p| > 1 {
      RankFallsAlongWalk(g, s, rank, p[1..]);
    }
  }

  lemma RankedHasNoClosedWalk(g: Graph, s: set<Key>, rank: map<Key, nat>, p: seq<Key>)
    requires Ranked(g, s, rank) && ClosedWalk(g, p)
    ensures p[0] !in s
  {
    if p[0] in s {
      RankFallsAlongWalk(g, s, rank, p);
    }
  }

  lemma AcyclicHasNoClosedWalk(g: Graph, p: seq<Key>)
    requires Acyclic(g)
    ensures !ClosedWalk(g, p)
  {
    if ClosedWalk(g, p) {
      var rank: map<Key, nat> :| Ranked(g, g.deps.Keys, rank);
      RankedHasNoClosedWalk(g, g.deps.Keys, rank, p);
    }
  }

  lemma {:induction false} ExtendWalk(g: Graph, p: seq<Key>, k: Key)
    requires Walk(g, p) && p[|p|-1] in g.deps && k in g.deps[p[|p|-1]]
    requires k in g.deps
    ensures Walk(g, p + [k])
  {
    if |p| == 1 {
      assert (p + [k])[1..] == [k];
    } else {
      ExtendWalk(g, p[1..], k);
      assert (p + [k])[1..] == p[1..] + [k];
    }
  }

  lemma PrependWalk(g: Graph, k: Key, p: seq<Key>)
    requires Walk(g, p) && k in g.deps && p[0] in g.deps[k]
    ensures Walk(g, [k] + p)
  {
    assert ([k] + p)[1..] == p;
  }

  lemma {:induction false} WalkTail(g: Graph, p: seq<Key>, i: nat)
    requires Walk(g, p) && i < |p|
    ensures Walk(g, p[i..])
  {
    if i == 0 {
      assert p[0..] == p;
    } else {
      WalkTail(g, p[1..], i - 1);
      assert p[1..][i-1..] == p[i..];
    }
  }

  /** Some walk leads from a member of `roots` to `k`. */
  ghost predicate Reachable(g: Graph, roots: set<Key>, k: Key) {
    exists p: seq<Key> :: Walk(g, p) && p[0] in roots && p[|p|-1] == k
  }

  ghost predicate Closed(g: Graph, s: set<Key>) {
    forall k, e :: k in s && k in g.deps && e in g.deps[k] ==> e in s
  }

  lemma {:induction false} ClosedContainsWalk(g: Graph, s: set<Key>, p: seq<Key>)
    requires Closed(g, s) && Walk(g, p) && p[0] in s
    ensures p[|p|-1] in s
  {
    if |p| > 1 {
      ClosedContainsWalk(g, s, p[1..]);
    }
  }

  /** A closed set that holds the roots holds everything reachable from them. */
  lemma ClosedContainsReachable(g: Graph, s: set<Key>, roots: set<Key>)
    requires Closed(g, s) && roots <= s
    ensures forall k :: Reachable(g, roots, k) ==> k in s
  {
    forall k | Reachable(g, roots, k)
      ensures k in s
    {
      var p: seq<Key> :| Walk(g, p) && p[0] in roots && p[|p|-1] == k;
      ClosedContainsWalk(g, s, p);
    }
  }

  // ---------- layers ----------

  /** The nodes of `keys`, in order, that are not in `done` while all their dependencies are. */
  ghost function ReadyIn(g: Graph, keys: seq<Key>, done: set<Key>): seq<Key>
    requires forall k :: k in keys ==> k in g.deps
  {
    if keys == [] then []
    else
      var rest := ReadyIn(g, keys[1..], done);
      if keys[0] !in done && Elems(g.deps[keys[0]]) <= done then [keys[0]] + rest else rest
  }

  lemma {:induction false} ReadyInElems(g: Graph, keys: seq<Key>, done: set<Key>)
    requires forall k :: k in keys ==> k in g.deps
    requires NoDup(keys)
    ensures forall k :: k in ReadyIn(g, keys, done) <==>
                        k in keys && k !in done && Elems(g.deps[k]) <= done
    ensures NoDup(ReadyIn(g, keys, done))
  {
    if keys != [] {
      var rest := keys[1..];
      assert NoDup(rest);
      assert forall k :: k in rest ==> k in keys;
      ReadyInElems(g, rest, done);
      assert keys[0] !in rest;
      assert forall k :: k in keys <==> k == keys[0] || k in rest;
    }
  }

  ghost function Ready(g: Graph, done: set<Key>): seq<Key>
    requires g.WellFormed()
  {
    ReadyIn(g, g.order, done)
  }

  /** The layers above `done`: all ready nodes, then all that become ready after them, and so on. */
  ghost function Peel(g: Graph, done: set<Key>): seq<seq<Key>>
    requires g.WellFormed()
    decreases |g.deps.Keys - done|
  {
    var ready := Ready(g, done);
    if ready == [] then []
    else
      ReadyInElems(g, g.order, done);
      assert ready[0] in ready;
      assert ready[0] in g.deps.Keys - done;
      assert g.deps.Keys - (done + Elems(ready)) < g.deps.Keys - done;
      SmallerSet(g.deps.Keys - (done + Elems(ready)), g.deps.Keys - done);
      [ready] + Peel(g, done + Elems(ready))
  }

  lemma SmallerSet<T>(a: set<T>, b: set<T>)
    requires a < b
    ensures |a| < |b|
  {
    assert b == a + (b - a);
    assert |b| == |a| + |b - a|;
    assert b - a != {};
  }

  /** The union of the first `i` layers. */
  ghost function Before(layers: seq<seq<Key>>, i: nat): set<Key>
    requires i <= |layers|
  {
    if i == 0 then {} else Before(layers, i - 1) + Elems(layers[i-1])
  }

  ghost function Layers(g: Graph): seq<seq<Key>>
    requires g.WellFormed()
  {
    Peel(g, {})
  }

  /** Peeling got through the whole graph. */
  ghost predicate Complete(g: Graph)
    requires g.WellFormed()
  {
    Before(Layers(g), |Layers(g)|) == g.deps.Keys
  }

  lemma {:induction false} BeforeCons(first: seq<Key>, rest: seq<seq<Key>>, i: nat)
    requires i <= |rest|
    ensures Before([first] + rest, i + 1) == Elems(first) + Before(rest, i)
  {
    var all := [first] + rest;
    if i == 0 {
      assert Before(all, 1) == Before(all, 0) + Elems(all[0]);
    } else {
      BeforeCons(first, rest, i - 1);
      assert all[i] == rest[i-1];
    }
  }

  lemma {:induction false} BeforePrefix(a: seq<seq<Key>>, b: seq<seq<Key>>, i: nat)
    requires i <= |a|
    ensures Before(a + b, i) == Before(a, i)
  {
    if i > 0 {
      BeforePrefix(a, b, i - 1);
      assert (a + b)[i-1] == a[i-1];
    }
  }

  lemma BeforeAppend(layers: seq<seq<Key>>, layer: seq<Key>)
    ensures Before(layers + [layer], |layers| + 1) == Before(layers, |layers|) + Elems(layer)
  {
    BeforePrefix(layers, [layer], |layers|);
  }

  lemma PeelUnfolds(g: Graph, done: set<Key>)
    requires g.WellFormed() && Ready(g, done) != []
    ensures Peel(g, done) == [Ready(g, done)] + Peel(g, done + Elems(Ready(g, done)))
    ensures g.deps.Keys - (done + Elems(Ready(g, done))) < g.deps.Keys - done
  {
    var ready := Ready(g, done);
    ReadyInElems(g, g.order, done);
    assert ready[0] in ready;
    assert ready[0] in g.deps.Keys - done;
  }

  lemma {:induction false} BeforeGrows(layers: seq<seq<Key>>, i: nat, j: nat)
    requires i <= j <= |layers|
    ensures Before(layers, i) <= Before(layers, j)
    decreases j
  {
    if i < j {
      BeforeGrows(layers, i, j - 1);
    }
  }

  lemma {:induction false} InSomeLayer(layers: seq<seq<Key>>, i: nat, k: Key)
    requires i <= |layers| && k in Before(layers, i)
    ensures exists j :: 0 <= j < i && k in layers[j]
  {
    if k in Elems(layers[i-1]) {
      assert k in layers[i-1];
    } else {
      InSomeLayer(layers, i - 1, k);
    }
  }

  /** Each layer is what is ready once the earlier layers are done; after the last, nothing is. */
  lemma {:induction false} PeelStep(g: Graph, done: set<Key>, i: nat)
    requires g.WellFormed()
    requires i <= |Peel(g, done)|
    ensures var layers := Peel(g, done);
            if i < |layers| then layers[i] != [] && layers[i] == Ready(g, done + Before(layers, i))
            else Ready(g, done + Before(layers, i)) == []
    decreases i
  {
    var layers := Peel(g, done);
    if i == 0 {
      assert done + Before(layers, 0) == done;
    } else {
      var ready := Ready(g, done);
      var rest := Peel(g, done + Elems(ready));
      assert layers == [ready] + rest;
      PeelStep(g, done + Elems(ready), i - 1);
      BeforeCons(ready, rest, i - 1);
      assert done + Before(layers, i) == done + Elems(ready) + Before(rest, i - 1);
    }
  }

  /** What membership in a layer means. */
  lemma LayerMembers(g: Graph, i: nat)
    requires g.WellFormed() && i < |Layers(g)|
    ensures NoDup(Layers(g)[i])
    ensures forall k :: k in Layers(g)[i] <==>
                        k in g.deps && k !in Before(Layers(g), i) && Elems(g.deps[k]) <= Before(Layers(g), i)
  {
    PeelStep(g, {}, i);
    var d := Before(Layers(g), i);
    assert {} + d == d;
    ReadyInElems(g, g.order, d);
  }

  lemma {:induction false} BeforeWithinNodes(g: Graph, i: nat)
    requires g.WellFormed() && i <= |Layers(g)|
    ensures Before(Layers(g), i) <= g.deps.Keys
  {
    if i > 0 {
      BeforeWithinNodes(g, i - 1);
      LayerMembers(g, i - 1);
    }
  }

  /** No node lies in two layers. */
  lemma LayersDisjoint(g: Graph, i: nat, j: nat, k: Key)
    requires g.WellFormed() && i < |Layers(g)| && j < |Layers(g)|
    requires k in Layers(g)[i] && k in Layers(g)[j]
    ensures i == j
  {
    LayerMembers(g, i);
    LayerMembers(g, j);
    if i < j {
      BeforeGrows(Layers(g), i + 1, j);
    } else if j < i {
      BeforeGrows(Layers(g), j + 1, i);
    }
  }

  /** The index of the layer that holds `k`. */
  ghost function LayerOf(g: Graph, k: Key): (i: nat)
    requires g.WellFormed() && k in Before(Layers(g), |Layers(g)|)
    ensures i < |Layers(g)| && k in Layers(g)[i]
  {
    InSomeLayer(Layers(g), |Layers(g)|, k);
    var j :| 0 <= j < |Layers(g)| && k in Layers(g)[j];
    j
  }

  lemma DependencyInEarlierLayer(g: Graph, k: Key, e: Key)
    requires g.WellFormed() && k in Before(Layers(g), |Layers(g)|)
    requires k in g.deps && e in g.deps[k]
    ensures e in Before(Layers(g), |Layers(g)|)
    ensures LayerOf(g, e) < LayerOf(g, k)
  {
    var layers := Layers(g);
    var i := LayerOf(g, k);
    LayerMembers(g, i);
    assert e in Elems(g.deps[k]);
    BeforeGrows(layers, i, |layers|);
    InSomeLayer(layers, i, e);
    var j :| 0 <= j < i && e in layers[j];
    LayersDisjoint(g, j, LayerOf(g, e), e);
  }

  /** The layer index is a rank on what was peeled. */
  lemma LayerRank(g: Graph) returns (rank: map<Key, nat>)
    requires g.WellFormed()
    ensures rank.Keys == Before(Layers(g), |Layers(g)|)
    ensures forall k :: k in rank ==> rank[k] == LayerOf(g, k)
    ensures Ranked(g, rank.Keys, rank)
  {
    var all := Before(Layers(g), |Layers(g)|);
    BeforeWithinNodes(g, |Layers(g)|);
    rank := map k | k in all :: LayerOf(g, k);
    forall k, e | k in all && e in g.deps[k]
      ensures e in all && rank[e] < rank[k]
    {
      DependencyInEarlierLayer(g, k, e);
    }
  }

  /** A node left unpeeled always depends on another one left unpeeled. */
  lemma StuckNodeHasStuckDependency(g: Graph, k: Key)
    requires g.WellFormed() && k in g.deps && k !in Before(Layers(g), |Layers(g)|)
    ensures exists e :: e in g.deps[k] && e !in Before(Layers(g), |Layers(g)|)
  {
    var all := Before(Layers(g), |Layers(g)|);
    PeelStep(g, {}, |Layers(g)|);
    assert {} + all == all;
    ReadyInElems(g, g.order, all);
    assert k !in Ready(g, all);
    assert !(Elems(g.deps[k]) <= all);
    var e :| e in Elems(g.deps[k]) && e !in all;
  }

  lemma {:induction false} RankedNodeIsPeeled(g: Graph, s: set<Key>, rank: map<Key, nat>, k: Key)
    requires g.WellFormed() && Ranked(g, s, rank) && k in s
    ensures k in Before(Layers(g), |Layers(g)|)
    decreases rank[k]
  {
    if k !in Before(Layers(g), |Layers(g)|) {
      StuckNodeHasStuckDependency(g, k);
      var e :| e in g.deps[k] && e !in Before(Layers(g), |Layers(g)|);
      RankedNodeIsPeeled(g, s, rank, e);
    }
  }

  /** Peeling gets through the whole graph exactly when the graph is acyclic. */
  lemma CompleteIffAcyclic(g: Graph)
    requires g.WellFormed()
    ensures Complete(g) <==> Acyclic(g)
  {
    BeforeWithinNodes(g, |Layers(g)|);
    if Complete(g) {
      var rank := LayerRank(g);
    }
    if Acyclic(g) {
      var rank: map<Key, nat> :| Ranked(g, g.deps.Keys, rank);
      forall k | k in g.deps.Keys
        ensures k in Before(Layers(g), |Layers(g)|)
      {
        RankedNodeIsPeeled(g, g.deps.Keys, rank, k);
      }
    }
  }

  /** A node in layer `i` starts a walk of `i + 1` nodes. */
  lemma {:induction false} WalkFromLayer(g: Graph, k: Key, i: nat) returns (p: seq<Key>)
    requires g.WellFormed() && i < |Layers(g)| && k in Layers(g)[i]
    ensures Walk(g, p) && p[0] == k && |p| == i + 1
    decreases i
  {
    LayerMembers(g, i);
    if i == 0 {
      p := [k];
    } else {
      LayerMembers(g, i - 1);
      var layers := Layers(g);
      assert Before(layers, i) == Before(layers, i - 1) + Elems(layers[i-1]);
      BeforeGrows(layers, i - 1, i);
      assert !(Elems(g.deps[k]) <= Before(layers, i - 1));
      var e :| e in Elems(g.deps[k]) && e !in Before(layers, i - 1);
      assert e in Elems(layers[i-1]);
      var q := WalkFromLayer(g, e, i - 1);
      PrependWalk(g, k, q);
      p := [k] + q;
    }
  }

  /**
   * Layers are canonical: a node sits in layer `i` exactly when the longest dependency chain
   * that starts at it has `i` steps.
   */
  lemma LayerIsLongestChain(g: Graph, k: Key)
    requires g.WellFormed() && k in Before(Layers(g), |Layers(g)|)
    ensures exists p: seq<Key> :: Walk(g, p) && p[0] == k && |p| == LayerOf(g, k) + 1
    ensures forall p: seq<Key> :: Walk(g, p) && p[0] == k ==> |p| <= LayerOf(g, k) + 1
  {
    var chain := WalkFromLayer(g, k, LayerOf(g, k));
    var rank := LayerRank(g);
    forall p: seq<Key> | Walk(g, p) && p[0] == k
      ensures |p| <= LayerOf(g, k) + 1
    {
      RankFallsAlongWalk(g, rank.Keys, rank, p);
    }
  }

  /** No schedule that respects dependencies runs a node in an earlier wave than its layer. */
  lemma LayersAreMinimal(g: Graph, schedule: map<Key, nat>, k: Key)
    requires g.WellFormed() && Ranked(g, g.deps.Keys, schedule) && k in g.deps
    ensures k in Before(Layers(g), |Layers(g)|) && LayerOf(g, k) <= schedule[k]
  {
    RankedNodeIsPeeled(g, g.deps.Keys, schedule, k);
    var p := WalkFromLayer(g, k, LayerOf(g, k));
    RankFallsAlongWalk(g, g.deps.Keys, schedule, p);
  }

  /** The layers hold each node of an acyclic graph once, in registration order within a layer. */
  lemma LayersPartition(g: Graph)
    requires g.WellFormed() && Acyclic(g)
    ensures forall k :: k in g.order <==> exists i :: 0 <= i < |Layers(g)| && k in Layers(g)[i]
    ensures forall i, j, k :: 0 <= i < |Layers(g)| && 0 <= j < |Layers(g)| && k in Layers(g)[i] && k in Layers(g)[j] ==> i == j
    ensures forall i :: 0 <= i < |Layers(g)| ==> NoDup(Layers(g)[i]) && Layers(g)[i] != []
    ensures forall i :: 0 <= i < |Layers(g)| ==> Subsequence(Layers(g)[i], g.order)
  {
    CompleteIffAcyclic(g);
    var layers := Layers(g);
    forall k
      ensures k in g.order <==> exists i :: 0 <= i < |layers| && k in layers[i]
    {
      if k in g.order {
        InSomeLayer(layers, |layers|, k);
      }
      if i :| 0 <= i < |layers| && k in layers[i] {
        LayerMembers(g, i);
      }
    }
    forall i, j, k | 0 <= i < |layers| && 0 <= j < |layers| && k in layers[i] && k in layers[j]
      ensures i == j
    {
      LayersDisjoint(g, i, j, k);
    }
    forall i | 0 <= i < |layers|
      ensures NoDup(layers[i]) && layers[i] != [] && Subsequence(layers[i], g.order)
    {
      LayerMembers(g, i);
      PeelStep(g, {}, i);
      ReadyIsSubsequence(g, g.order, {} + Before(layers, i));
    }
  }

  ghost predicate Subsequence(a: seq<Key>, b: seq<Key>) {
    if a == [] then true
    else b != [] && (if a[0] == b[0] then Subsequence(a[1..], b[1..]) else Subsequence(a, b[1..]))
  }

  lemma {:induction false} ReadyIsSubsequence(g: Graph, keys: seq<Key>, done: set<Key>)
    requires forall k :: k in keys ==> k in g.deps
    requires NoDup(keys)
    ensures Subsequence(ReadyIn(g, keys, done), keys)
  {
    if keys != [] {
      assert NoDup(keys[1..]);
      ReadyIsSubsequence(g, keys[1..], done);
      ReadyInElems(g, keys[1..], done);
      var rest := ReadyIn(g, keys[1..], done);
      if rest != [] {
        assert rest[0] in rest;
        assert rest[0] != keys[0];
      }
      if keys[0] !in done && Elems(g.deps[keys[0]]) <= done {
        assert ReadyIn(g, keys, done)[1..] == rest;
      }
    }
  }
}
