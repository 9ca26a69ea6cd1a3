/**
 * Kahn's algorithm on the dependency multigraph, as `freeze_layers` runs it: in-degrees counted
 * with multiplicity, dependents listed once per edge (`src/container/graph.rs`).
 */
module Layering {
  import opened Types
  import opened Digraph
  import opened Resolution
  import opened Registration

  function At(m: map<Key, seq<Key>>, k: Key): seq<Key> {
    if k in m then m[k] else []
  }

  /** How often `k` occurs in `s`. */
  ghost function Times(s: seq<Key>, k: Key): nat {
    if s == [] then 0 else Times(s[..|s|-1], k) + if s[|s|-1] == k then 1 else 0
  }

  lemma TimesAppend(s: seq<Key>, x: Key)
    ensures forall k :: Times(s + [x], k) == Times(s, k) + if x == k then 1 else 0
  {
    assert (s + [x])[..|s|] == s;
  }

  lemma {:induction false} TimesPrefix(s: seq<Key>, i: nat, k: Key)
    requires i <= |s|
    ensures Times(s[..i], k) <= Times(s, k)
    decreases |s| - i
  {
    if i == |s| {
      assert s[..i] == s;
    } else {
      TimesPrefix(s, i + 1, k);
      assert s[..i+1] == s[..i] + [s[i]];
      TimesAppend(s[..i], s[i]);
    }
  }

  lemma {:induction false} TimesPositive(s: seq<Key>, k: Key)
    ensures Times(s, k) > 0 <==> k in s
  {
    if s != [] {
      TimesPositive(s[..|s|-1], k);
      assert s == s[..|s|-1] + [s[|s|-1]];
    }
  }

  /** `dependents` holds each edge of `deps` turned around, as many times as it occurs there. */
  ghost predicate Mirror(deps: map<Key, seq<Key>>, dependents: map<Key, seq<Key>>) {
    forall a, b :: Times(At(dependents, a), b) == Times(At(deps, b), a)
  }

  function Push(m: map<Key, seq<Key>>, k: Key, x: Key): map<Key, seq<Key>> {
    m[k := At(m, k) + [x]]
  }

  /** Recording one more edge on both sides. */
  lemma MirrorPush(deps: map<Key, seq<Key>>, dependents: map<Key, seq<Key>>, from: Key, to: Key)
    requires Mirror(deps, dependents)
    ensures Mirror(Push(deps, from, to), Push(dependents, to, from))
  {
    TimesAppend(At(deps, from), to);
    TimesAppend(At(dependents, to), from);
    var deps', dependents' := Push(deps, from, to), Push(dependents, to, from);
    forall a, b
      ensures Times(At(dependents', a), b) == Times(At(deps', b), a)
    {
      assert Times(At(dependents, a), b) == Times(At(deps, b), a);
      assert At(deps', b) == if b == from then At(deps, from) + [to] else At(deps, b);
      assert At(dependents', a) == if a == to then At(dependents, to) + [from] else At(dependents, a);
    }
  }

  lemma MirrorWithin(deps: map<Key, seq<Key>>, dependents: map<Key, seq<Key>>, a: Key)
    requires Mirror(deps, dependents)
    ensures forall b :: b in At(dependents, a) ==> b in deps && a in deps[b]
  {
    forall b | b in At(dependents, a)
      ensures b in deps && a in deps[b]
    {
      TimesPositive(At(dependents, a), b);
      TimesPositive(At(deps, b), a);
    }
  }

  // ---------- unprocessed edges ----------

  /** How many entries of `s`, counted with multiplicity, are not in `done`. */
  ghost function CountOutside(s: seq<Key>, done: set<Key>): nat {
    if s == [] then 0
    else CountOutside(s[..|s|-1], done) + if s[|s|-1] in done then 0 else 1
  }

  lemma {:induction false} CountOutsideMore(s: seq<Key>, done: set<Key>, k: Key)
    requires k !in done
    ensures CountOutside(s, done) == CountOutside(s, done + {k}) + Times(s, k)
  {
    if s != [] {
      CountOutsideMore(s[..|s|-1], done, k);
    }
  }

  lemma {:induction false} CountOutsideZero(s: seq<Key>, done: set<Key>)
    ensures CountOutside(s, done) == 0 <==> Elems(s) <= done
  {
    if s != [] {
      var t := s[..|s|-1];
      assert s == t + [s[|s|-1]];
      CountOutsideZero(t, done);
      assert Elems(s) == Elems(t) + {s[|s|-1]};
    }
  }

  lemma {:induction false} CountOutsideNothing(s: seq<Key>)
    ensures CountOutside(s, {}) == |s|
  {
    if s != [] {
      CountOutsideNothing(s[..|s|-1]);
    }
  }

  // ---------- ordering a wave ----------

  ghost predicate Increasing(s: seq<Key>, index: map<Key, nat>) {
    s == [] || (Below(s[0], s[1..], index) && Increasing(s[1..], index))
  }

  ghost predicate Below(k: Key, s: seq<Key>, index: map<Key, nat>) {
    k in index && forall x :: x in s ==> x in index && index[k] < index[x]
  }

  function Insert(k: Key, s: seq<Key>, index: map<Key, nat>): seq<Key>
    requires k in index && forall x :: x in s ==> x in index
  {
    if s == [] || index[k] <= index[s[0]] then [k] + s else [s[0]] + Insert(k, s[1..], index)
  }

  /** `sort_by_key` on the registration index. */
  function SortByIndex(s: seq<Key>, index: map<Key, nat>): (r: seq<Key>)
    requires forall x :: x in s ==> x in index
    ensures forall x :: x in r <==> x in s
  {
    if s == [] then []
    else
      var rest := SortByIndex(s[1..], index);
      InsertElems(s[0], rest, index);
      Insert(s[0], rest, index)
  }

  lemma {:induction false} InsertElems(k: Key, s: seq<Key>, index: map<Key, nat>)
    requires k in index && forall x :: x in s ==> x in index
    ensures forall x :: x in Insert(k, s, index) <==> x == k || x in s
  {
    if s != [] && index[k] > index[s[0]] {
      InsertElems(k, s[1..], index);
      assert forall x :: x in s <==> x == s[0] || x in s[1..];
    }
  }

  lemma {:induction false} InsertIncreasing(k: Key, s: seq<Key>, index: map<Key, nat>)
    requires k in index && (forall x :: x in s ==> x in index && index[x] != index[k])
    requires Increasing(s, index)
    ensures Increasing(Insert(k, s, index), index)
  {
    if s != [] {
      assert s == [s[0]] + s[1..];
      if index[k] <= index[s[0]] {
        assert Below(k, s, index);
        assert ([k] + s)[1..] == s;
      } else {
        InsertIncreasing(k, s[1..], index);
        InsertElems(k, s[1..], index);
        assert Insert(k, s, index)[1..] == Insert(k, s[1..], index);
      }
    }
  }

  lemma {:induction false} SortIsIncreasing(s: seq<Key>, index: map<Key, nat>)
    requires forall x :: x in s ==> x in index
    requires NoDup(s) && forall x, y :: x in index && y in index && index[x] == index[y] ==> x == y
    ensures Increasing(SortByIndex(s, index), index)
  {
    if s != [] {
      assert NoDup(s[1..]);
      assert s[0] !in s[1..];
      SortIsIncreasing(s[1..], index);
      InsertIncreasing(s[0], SortByIndex(s[1..], index), index);
    }
  }

  /** Sorted lists with the same elements are the same list. */
  lemma {:induction false} IncreasingUnique(s: seq<Key>, t: seq<Key>, index: map<Key, nat>)
    requires Increasing(s, index) && Increasing(t, index) && forall x :: x in s <==> x in t
    ensures s == t
  {
    if t != [] {
      assert t[0] in t;
    }
    if s != [] {
      assert s[0] in s;
      assert s == [s[0]] + s[1..] && t == [t[0]] + t[1..];
      assert s[0] == t[0];
      assert forall x :: x in s[1..] <==> x in s && x != s[0];
      assert forall x :: x in t[1..] <==> x in t && x != t[0];
      IncreasingUnique(s[1..], t[1..], index);
    }
  }

  /** What is ready comes in registration order, so sorting a wave restores exactly that. */
  lemma {:induction false} ReadyIsIncreasing(g: Graph, keys: seq<Key>, done: set<Key>, index: map<Key, nat>)
    requires NoDup(keys) && forall k :: k in keys ==> k in g.deps
    requires Increasing(keys, index)
    ensures Increasing(ReadyIn(g, keys, done), index)
  {
    if keys != [] {
      var rest := ReadyIn(g, keys[1..], done);
      assert NoDup(keys[1..]);
      ReadyIsIncreasing(g, keys[1..], done, index);
      ReadyInElems(g, keys[1..], done);
      assert ([keys[0]] + rest)[1..] == rest;
    }
  }

  lemma {:induction false} PositionsIncrease(order: seq<Key>, index: map<Key, nat>, from: nat)
    requires from <= |order| && forall i :: 0 <= i < |order| ==> order[i] in index && index[order[i]] == i
    ensures Increasing(order[from..], index)
    decreases |order| - from
  {
    if from < |order| {
      PositionsIncrease(order, index, from + 1);
      assert order[from..][1..] == order[from+1..];
      forall x | x in order[from+1..]
        ensures x in index && index[order[from]] < index[x]
      {
        var m :| 0 <= m < |order[from+1..]| && order[from+1..][m] == x;
        assert order[from+1+m] == x;
      }
    }
  }

  lemma SortedWaveIsReady(g: Graph, index: map<Key, nat>, done: set<Key>, next: seq<Key>)
    requires g.WellFormed() && OrderListWf(g.order, index, g.deps.Keys)
    requires NoDup(next) && forall k :: k in next <==> k in g.deps && k !in done && Elems(g.deps[k]) <= done
    ensures forall k :: k in next ==> k in index
    ensures SortByIndex(next, index) == Ready(g, done)
  {
    PositionsIncrease(g.order, index, 0);
    assert g.order[0..] == g.order;
    ReadyInElems(g, g.order, done);
    ReadyIsIncreasing(g, g.order, done, index);
    forall x, y | x in index && y in index && index[x] == index[y]
      ensures x == y
    {
      PositionBelow(g.order, index, g.deps.Keys, x);
      PositionBelow(g.order, index, g.deps.Keys, y);
    }
    SortIsIncreasing(next, index);
    IncreasingUnique(SortByIndex(next, index), Ready(g, done), index);
  }

  // ---------- the waves ----------

  /** In-degrees equal the number of incoming edges whose source is not yet processed. */
  ghost predicate DegreesCount(g: Graph, indegree: map<Key, nat>, done: set<Key>) {
    && indegree.Keys == g.deps.Keys
    && forall k :: k in g.deps ==> indegree[k] == CountOutside(g.deps[k], done)
  }

  lemma NoneReady(g: Graph)
    requires g.WellFormed()
    ensures ReadyIn(g, g.order[|g.order|..], {}) == []
  {
  }

  lemma ReadyInStep(g: Graph, i: nat)
    requires g.WellFormed() && i < |g.order|
    ensures g.order[i] in g.deps
    ensures ReadyIn(g, g.order[i..], {}) ==
            (if Elems(g.deps[g.order[i]]) <= {} then [g.order[i]] else []) + ReadyIn(g, g.order[i+1..], {})
  {
    assert g.order[i..][0] == g.order[i] && g.order[i..][1..] == g.order[i+1..];
  }

  /** The nodes with no dependency at all, in registration order. */
  method InitialReady(ghost g: Graph, order: seq<Key>, indegree: map<Key, nat>) returns (ready: seq<Key>)
    requires g.WellFormed() && order == g.order && DegreesCount(g, indegree, {})
    ensures ready == Ready(g, {})
  {
    hide ReadyIn, CountOutside, Elems;
    ready := [];
    var i := 0;
    assert order[0..] == order;
    NoneReady(g);
    while i < |order|
      invariant i <= |order|
      invariant ready + ReadyIn(g, order[i..], {}) == Ready(g, {})
    {
      var key := order[i];
      ReadyInStep(g, i);
      CountOutsideZero(g.deps[key], {});
      if indegree[key] == 0 {
        ready := ready + [key];
      }
      i := i + 1;
    }
  }

  /** Degrees while the first `j` edges out of a node have been taken off, the rest not yet. */
  ghost predicate PartlyReleased(g: Graph, indegree: map<Key, nat>, released: seq<Key>, done: set<Key>) {
    && indegree.Keys == g.deps.Keys
    && forall k :: k in g.deps ==> indegree[k] + Times(released, k) == CountOutside(g.deps[k], done)
  }

  /** An edge still to be released keeps its target's in-degree positive: no underflow. */
  lemma DegreeLeft(g: Graph, indegree: map<Key, nat>, dependents: map<Key, seq<Key>>, key: Key, j: nat, done: set<Key>)
    requires Mirror(g.deps, dependents) && key !in done && j < |At(dependents, key)|
    requires PartlyReleased(g, indegree, At(dependents, key)[..j], done)
    ensures var k := At(dependents, key)[j]; k in g.deps && indegree[k] > 0
  {
    var targets := At(dependents, key);
    var k := targets[j];
    MirrorWithin(g.deps, dependents, key);
    assert k in targets;
    TimesPrefix(targets, j + 1, k);
    assert targets[..j+1] == targets[..j] + [k];
    TimesAppend(targets[..j], k);
    CountOutsideMore(g.deps[k], done, key);
    assert Times(At(dependents, key), k) == Times(At(g.deps, k), key);
  }

  lemma FullyReleased(g: Graph, indegree: map<Key, nat>, dependents: map<Key, seq<Key>>, key: Key, done: set<Key>)
    requires Mirror(g.deps, dependents) && key !in done
    requires PartlyReleased(g, indegree, At(dependents, key), done)
    ensures DegreesCount(g, indegree, done + {key})
  {
    forall k | k in g.deps
      ensures indegree[k] == CountOutside(g.deps[k], done + {key})
    {
      CountOutsideMore(g.deps[k], done, key);
      assert Times(At(dependents, key), k) == Times(At(g.deps, k), key);
    }
  }

  /** Processes the edges out of `key`: each dependent loses one in-degree per edge. */
  method Release(ghost g: Graph, dependents: map<Key, seq<Key>>, key: Key, ghost done: set<Key>, ghost start: set<Key>,
                 indegree0: map<Key, nat>, next0: seq<Key>)
    returns (indegree: map<Key, nat>, next: seq<Key>)
    requires Mirror(g.deps, dependents) && key !in done
    requires DegreesCount(g, indegree0, done)
    requires NextIs(g, indegree0, start, next0) && DegreesWithin(g, indegree0, start)
    ensures DegreesCount(g, indegree, done + {key})
    ensures NextIs(g, indegree, start, next) && DegreesWithin(g, indegree, start)
  {
    hide Mirror, CountOutside;
    indegree, next := indegree0, next0;
    var targets := At(dependents, key);
    var j := 0;
    assert PartlyReleased(g, indegree, targets[..0], done);
    while j < |targets|
      invariant j <= |targets|
      invariant PartlyReleased(g, indegree, targets[..j], done)
      invariant NextIs(g, indegree, start, next) && DegreesWithin(g, indegree, start)
    {
      var dependent := targets[j];
      DegreeLeft(g, indegree, dependents, key, j, done);
      assert targets[..j+1] == targets[..j] + [dependent];
      TimesAppend(targets[..j], dependent);
      indegree := indegree[dependent := indegree[dependent] - 1];
      if indegree[dependent] == 0 {
        next := next + [dependent];
      }
      j := j + 1;
    }
    assert targets[..j] == targets;
    FullyReleased(g, indegree, dependents, key, done);
  }

  /** `next` lists, once each, the nodes whose in-degree fell to zero since `start`. */
  ghost predicate NextIs(g: Graph, indegree: map<Key, nat>, start: set<Key>, next: seq<Key>)
    requires indegree.Keys == g.deps.Keys
  {
    && NoDup(next)
    && forall k :: k in next <==> k in g.deps && indegree[k] == 0 && CountOutside(g.deps[k], start) > 0
  }

  ghost predicate DegreesWithin(g: Graph, indegree: map<Key, nat>, start: set<Key>)
    requires indegree.Keys == g.deps.Keys
  {
    forall k :: k in g.deps ==> indegree[k] <= CountOutside(g.deps[k], start)
  }

  /** One wave: processes every ready node, and collects what becomes ready. */
  method Wave(ghost g: Graph, dependents: map<Key, seq<Key>>, ready: seq<Key>, ghost done: set<Key>, indegree0: map<Key, nat>)
    returns (indegree: map<Key, nat>, next: seq<Key>)
    requires Mirror(g.deps, dependents) && DegreesCount(g, indegree0, done)
    requires NoDup(ready) && forall k :: k in ready ==> k !in done
    ensures DegreesCount(g, indegree, done + Elems(ready))
    ensures NextIs(g, indegree, done, next)
  {
    hide Mirror, CountOutside;
    indegree, next := indegree0, [];
    var i := 0;
    assert done + Elems(ready[..0]) == done;
    while i < |ready|
      invariant i <= |ready|
      invariant DegreesCount(g, indegree, done + Elems(ready[..i]))
      invariant NextIs(g, indegree, done, next) && DegreesWithin(g, indegree, done)
    {
      assert ready[i] in ready;
      assert ready[i] !in ready[..i];
      assert done + Elems(ready[..i]) + {ready[i]} == done + Elems(ready[..i+1]);
      indegree, next := Release(g, dependents, ready[i], done + Elems(ready[..i]), done, indegree, next);
      i := i + 1;
    }
    assert ready[..i] == ready;
  }

  ghost predicate ClosedUnder(g: Graph, done: set<Key>) {
    forall k :: k in done ==> k in g.deps && Elems(g.deps[k]) <= done
  }

  /**
   * Peels the graph in waves. In-degrees never underflow, each node enters one wave, and the
   * waves are the layers of the graph whatever order the edges were listed in.
   */
  method Waves(ghost g: Graph, order: seq<Key>, index: map<Key, nat>, indegree0: map<Key, nat>, dependents: map<Key, seq<Key>>)
    returns (layers: seq<seq<Key>>, built: nat, indegree: map<Key, nat>)
    requires g.WellFormed() && order == g.order && OrderListWf(order, index, g.deps.Keys)
    requires Mirror(g.deps, dependents) && DegreesCount(g, indegree0, {})
    ensures layers == Layers(g)
    ensures built == |Before(Layers(g), |Layers(g)|)|
    ensures indegree.Keys == g.deps.Keys
    ensures forall k :: k in g.deps ==> (indegree[k] > 0 <==> k !in Before(Layers(g), |Layers(g)|))
  {
    hide Mirror, OrderListWf, DegreesCount, Graph.WellFormed, Ready, Elems, NoDup, ClosedUnder, NextIs;
    indegree := indegree0;
    EmptyIsClosed(g);
    var ready := InitialReady(g, order, indegree);
    layers := [];
    built := 0;
    ghost var done: set<Key> := {};
    while ready != []
      invariant ready == Ready(g, done)
      invariant layers + Peel(g, done) == Layers(g)
      invariant done == Before(layers, |layers|)
      invariant built == |done|
      invariant ClosedUnder(g, done)
      invariant DegreesCount(g, indegree, done)
      decreases g.deps.Keys - done
    {
      ReadyAreNew(g, done);
      var next;
      built := built + |ready|;
      indegree, next := Wave(g, dependents, ready, done, indegree);
      NextLayer(g, index, layers, done, indegree, next);
      layers := layers + [ready];
      done := done + Elems(ready);
      ready := SortByIndex(next, index);
    }
    assert layers + [] == layers;
    StuckDegrees(g, indegree, done);
  }

  lemma EmptyIsClosed(g: Graph)
    ensures ClosedUnder(g, {})
  {
  }

  lemma ReadyAreNew(g: Graph, done: set<Key>)
    requires g.WellFormed()
    ensures NoDup(Ready(g, done)) && forall k :: k in Ready(g, done) ==> k in g.deps && k !in done
  {
    ReadyInElems(g, g.order, done);
  }

  /** Appending the wave just processed extends the layers by exactly the next one. */
  lemma NextLayer(g: Graph, index: map<Key, nat>, layers: seq<seq<Key>>, done: set<Key>, indegree: map<Key, nat>, next: seq<Key>)
    requires g.WellFormed() && OrderListWf(g.order, index, g.deps.Keys)
    requires ClosedUnder(g, done) && done == Before(layers, |layers|) && Ready(g, done) != []
    requires layers + Peel(g, done) == Layers(g)
    requires DegreesCount(g, indegree, done + Elems(Ready(g, done))) && NextIs(g, indegree, done, next)
    ensures forall k :: k in next ==> k in index
    ensures var ready := Ready(g, done);
            var done' := done + Elems(ready);
            && SortByIndex(next, index) == Ready(g, done')
            && layers + [ready] + Peel(g, done') == Layers(g)
            && done' == Before(layers + [ready], |layers| + 1)
            && |done'| == |done| + |ready|
            && ClosedUnder(g, done')
            && g.deps.Keys - done' < g.deps.Keys - done
  {
    hide *;
    var ready := Ready(g, done);
    var done' := done + Elems(ready);
    PeelUnfolds(g, done);
    ReadyAreNew(g, done);
    DisjointUnionSize(done, ready);
    NextAreReady(g, indegree, done, ready, next);
    SortedWaveIsReady(g, index, done', next);
    assert layers + ([ready] + Peel(g, done')) == layers + [ready] + Peel(g, done');
    BeforeAppend(layers, ready);
  }

  lemma DisjointUnionSize(done: set<Key>, ready: seq<Key>)
    requires NoDup(ready) && forall k :: k in ready ==> k !in done
    ensures |done + Elems(ready)| == |done| + |ready|
  {
    ElemsSize(ready);
    assert done !! Elems(ready);
  }

  lemma {:induction false} ElemsSize(s: seq<Key>)
    requires NoDup(s)
    ensures |Elems(s)| == |s|
  {
    if s != [] {
      ElemsSize(s[1..]);
      assert NoDup(s[1..]);
      assert Elems(s) == {s[0]} + Elems(s[1..]);
      assert s[0] !in s[1..];
    }
  }

  lemma NextAreReady(g: Graph, indegree: map<Key, nat>, done: set<Key>, ready: seq<Key>, next: seq<Key>)
    requires g.WellFormed() && ready == Ready(g, done) && ClosedUnder(g, done)
    requires DegreesCount(g, indegree, done + Elems(ready)) && NextIs(g, indegree, done, next)
    ensures forall k :: k in next <==> k in g.deps && k !in done + Elems(ready) && Elems(g.deps[k]) <= done + Elems(ready)
    ensures NoDup(next) && ClosedUnder(g, done + Elems(ready))
  {
    ReadyInElems(g, g.order, done);
    forall k | k in g.deps
      ensures CountOutside(g.deps[k], done) == 0 <==> Elems(g.deps[k]) <= done
      ensures CountOutside(g.deps[k], done + Elems(ready)) == 0 <==> Elems(g.deps[k]) <= done + Elems(ready)
    {
      CountOutsideZero(g.deps[k], done);
      CountOutsideZero(g.deps[k], done + Elems(ready));
    }
  }

  lemma StuckDegrees(g: Graph, indegree: map<Key, nat>, done: set<Key>)
    requires g.WellFormed() && Ready(g, done) == [] && DegreesCount(g, indegree, done)
    requires ClosedUnder(g, done)
    ensures indegree.Keys == g.deps.Keys
    ensures forall k :: k in g.deps ==> (indegree[k] > 0 <==> k !in done)
  {
    ReadyInElems(g, g.order, done);
    forall k | k in g.deps
      ensures indegree[k] > 0 <==> k !in done
    {
      CountOutsideZero(g.deps[k], done);
      assert k !in Ready(g, done);
    }
  }
}
