/** `freeze_layers` and the memo tables it shares with `validate` (`src/container/graph.rs`). */
module Freezing {
  import opened Types
  import opened Errors
  import opened Digraph
  import opened Scopes
  import opened Resolution
  import opened Containers
  import opened Lookups
  import opened Layering

  type Memo<V> = map<(Ty, ScopeId), V>

  // ---------- memo tables ----------

  ghost predicate BoundMemo(w: Wiring, v: Values, m: Memo<bool>) {
    forall id, s: ScopeId :: (id, s) in m ==> s < |w.chains| && (m[(id, s)] <==> !Bind(w, v, id, s).Unbound?)
  }

  ghost predicate ValueMemo(w: Wiring, v: Values, m: Memo<bool>) {
    forall id, s: ScopeId :: (id, s) in m ==> s < |w.chains| && (m[(id, s)] <==> Bind(w, v, id, s).Cached?)
  }

  ghost predicate ProviderMemo(w: Wiring, m: Memo<Option<Key>>) {
    forall id, s: ScopeId :: (id, s) in m ==> s < |w.chains| && m[(id, s)] == ProviderFor(w, id, s)
  }

  method CanResolveCached(c: Container, id: Ty, from: ScopeId, cache0: Memo<bool>) returns (hit: bool, cache: Memo<bool>)
    requires c.Consistent() && from < |c.scopes.ancestors| && BoundMemo(c.W(), c.V(), cache0)
    ensures hit <==> !Bind(c.W(), c.V(), id, from).Unbound?
    ensures BoundMemo(c.W(), c.V(), cache)
  {
    hide Wf, SuppliedWf, MarksWf;
    cache := cache0;
    if (id, from) in cache {
      return cache[(id, from)], cache;
    }
    hit := CanResolve(c, id, from);
    cache := cache[(id, from) := hit];
  }

  method ValueSatisfiesCached(c: Container, id: Ty, from: ScopeId, cache0: Memo<bool>) returns (hit: bool, cache: Memo<bool>)
    requires c.Consistent() && from < |c.scopes.ancestors| && ValueMemo(c.W(), c.V(), cache0)
    ensures hit <==> Bind(c.W(), c.V(), id, from).Cached?
    ensures ValueMemo(c.W(), c.V(), cache)
  {
    hide Wf, SuppliedWf, MarksWf;
    cache := cache0;
    if (id, from) in cache {
      return cache[(id, from)], cache;
    }
    var binding := ResolveValueBinding(c, id, from);
    hit := binding.Some?;
    cache := cache[(id, from) := hit];
  }

  method ResolveProviderKeyCached(c: Container, id: Ty, from: ScopeId, cache0: Memo<Option<Key>>)
    returns (hit: Option<Key>, cache: Memo<Option<Key>>)
    requires c.Consistent() && from < |c.scopes.ancestors| && ProviderMemo(c.W(), cache0)
    ensures hit == ProviderFor(c.W(), id, from)
    ensures ProviderMemo(c.W(), cache)
  {
    hide Wf, SuppliedWf, MarksWf;
    cache := cache0;
    if (id, from) in cache {
      return cache[(id, from)], cache;
    }
    hit := ResolveProvider(c, id, from);
    cache := cache[(id, from) := hit];
  }

  // ---------- edges ----------

  lemma DepTargetsAppend(w: Wiring, v: Values, deps: seq<Ty>, i: nat, from: ScopeId)
    requires from < |w.chains| && i < |deps|
    ensures DepTargets(w, v, deps[..i+1], from) ==
            DepTargets(w, v, deps[..i], from) + (if Bind(w, v, deps[i], from).ProvidedBy? then [Bind(w, v, deps[i], from).key] else [])
  {
    assert deps[..i+1] == deps[..i] + [deps[i]];
    DepTargetsConcat(w, v, deps[..i], deps[i], from);
  }

  lemma {:induction false} DepTargetsConcat(w: Wiring, v: Values, deps: seq<Ty>, last: Ty, from: ScopeId)
    requires from < |w.chains|
    ensures DepTargets(w, v, deps + [last], from) ==
            DepTargets(w, v, deps, from) + (if Bind(w, v, last, from).ProvidedBy? then [Bind(w, v, last, from).key] else [])
  {
    if deps == [] {
      assert deps + [last] == [last];
      assert [last][1..] == [];
    } else {
      assert (deps + [last])[1..] == deps[1..] + [last];
      DepTargetsConcat(w, v, deps[1..], last, from);
    }
  }

  /** In-degree and dependents agree with the edges recorded so far. */
  ghost predicate Recorded(edges: map<Key, seq<Key>>, indegree: map<Key, nat>, dependents: map<Key, seq<Key>>) {
    && Mirror(edges, dependents)
    && indegree.Keys == edges.Keys
    && forall k :: k in edges ==> indegree[k] == |edges[k]|
  }

  lemma RecordedPush(edges: map<Key, seq<Key>>, indegree: map<Key, nat>, dependents: map<Key, seq<Key>>, from: Key, to: Key)
    requires Recorded(edges, indegree, dependents) && from in edges
    ensures Recorded(Push(edges, from, to), indegree[from := indegree[from] + 1], Push(dependents, to, from))
  {
    MirrorPush(edges, dependents, from, to);
  }

  lemma RecordedNew(edges: map<Key, seq<Key>>, indegree: map<Key, nat>, dependents: map<Key, seq<Key>>, k: Key)
    requires Recorded(edges, indegree, dependents) && k !in edges
    ensures Recorded(edges[k := []], indegree[k := 0], dependents)
  {
    forall a, b
      ensures Times(At(dependents, a), b) == Times(At(edges[k := []], b), a)
    {
      assert At(edges[k := []], b) == At(edges, b);
    }
  }

  /** The edges out of one provider: one per dependency that no ready value satisfies. */
  method ProviderEdges(c: Container, key: Key, ghost edges0: map<Key, seq<Key>>, indegree0: map<Key, nat>,
                       dependents0: map<Key, seq<Key>>, satisfied0: Memo<bool>, keys0: Memo<Option<Key>>)
    returns (indegree: map<Key, nat>, dependents: map<Key, seq<Key>>, satisfied: Memo<bool>, keys: Memo<Option<Key>>)
    requires c.Consistent() && key in c.providers && key.scope < |c.scopes.ancestors|
    requires Recorded(edges0, indegree0, dependents0) && key !in edges0
    requires ValueMemo(c.W(), c.V(), satisfied0) && ProviderMemo(c.W(), keys0)
    ensures Recorded(edges0[key := DepTargets(c.W(), c.V(), c.providers[key].deps, key.scope)], indegree, dependents)
    ensures ValueMemo(c.W(), c.V(), satisfied) && ProviderMemo(c.W(), keys)
  {
    hide Wf, SuppliedWf, MarksWf, Recorded, ValueMemo, ProviderMemo;
    dependents, satisfied, keys := dependents0, satisfied0, keys0;
    var deps := c.providers[key].deps;
    ghost var w, v := c.W(), c.V();
    RecordedNew(edges0, indegree0, dependents0, key);
    var degree := 0;
    var i := 0;
    while i < |deps|
      invariant i <= |deps|
      invariant Recorded(edges0[key := DepTargets(w, v, deps[..i], key.scope)], indegree0[key := degree], dependents)
      invariant ValueMemo(w, v, satisfied) && ProviderMemo(w, keys)
    {
      var hit;
      DepTargetsAppend(w, v, deps, i, key.scope);
      WalksAgree(w, v, deps[i], key.scope);
      hit, satisfied := ValueSatisfiesCached(c, deps[i], key.scope, satisfied);
      if hit {
        assert DepTargets(w, v, deps[..i+1], key.scope) == DepTargets(w, v, deps[..i], key.scope);
        i := i + 1;
        continue;
      }
      var target;
      target, keys := ResolveProviderKeyCached(c, deps[i], key.scope, keys);
      if target.Some? {
        ghost var edges := edges0[key := DepTargets(w, v, deps[..i], key.scope)];
        RecordedPush(edges, indegree0[key := degree], dependents, key, target.value);
        assert Push(edges, key, target.value) == edges0[key := DepTargets(w, v, deps[..i+1], key.scope)];
        assert indegree0[key := degree][key := degree + 1] == indegree0[key := degree + 1];
        degree := degree + 1;
        dependents := Push(dependents, target.value, key);
      } else {
        assert DepTargets(w, v, deps[..i+1], key.scope) == DepTargets(w, v, deps[..i], key.scope);
      }
      i := i + 1;
    }
    assert deps[..i] == deps;
    indegree := indegree0[key := degree];
  }

  lemma NextInOrder(w: Wiring, i: nat)
    requires Wf(w) && i < |w.order|
    ensures var k := w.order[i];
            && k in w.providers && k.scope < |w.chains| && k !in w.order[..i]
            && Elems(w.order[..i+1]) == Elems(w.order[..i]) + {k}
  {
    hide PublicIndexWf, PrivateAliasWf, AggregatesWf, MembersWf, ChainsWf;
    var k := w.order[i];
    assert k in w.order;
    assert ProviderWf(k, w.providers[k], |w.chains|);
  }

  lemma WholeOrder(w: Wiring)
    requires Wf(w)
    ensures Elems(w.order) == w.providers.Keys
  {
    hide PublicIndexWf, PrivateAliasWf, AggregatesWf, MembersWf, ChainsWf, ProvidersWf;
  }

  /** The edges out of every provider. */
  method AllProviderEdges(c: Container, satisfied0: Memo<bool>, keys0: Memo<Option<Key>>)
    returns (indegree: map<Key, nat>, dependents: map<Key, seq<Key>>, ghost edges: map<Key, seq<Key>>)
    requires c.Consistent()
    requires ValueMemo(c.W(), c.V(), satisfied0) && ProviderMemo(c.W(), keys0)
    ensures edges.Keys == c.providers.Keys && Recorded(edges, indegree, dependents)
    ensures forall k :: k in c.providers ==>
                          k.scope < |c.scopes.ancestors| && edges[k] == DepTargets(c.W(), c.V(), c.providers[k].deps, k.scope)
  {
    hide Wf, SuppliedWf, MarksWf, Recorded, ValueMemo, ProviderMemo, DepTargets;
    var satisfied, keys := satisfied0, keys0;
    indegree, dependents, edges := map[], map[], map[];
    NothingRecorded();
    ghost var w, v := c.W(), c.V();
    WholeOrder(w);
    var i := 0;
    while i < |c.providerOrder|
      invariant i <= |c.providerOrder|
      invariant edges.Keys == Elems(c.providerOrder[..i]) && Recorded(edges, indegree, dependents)
      invariant forall k :: k in edges ==>
                              && k in c.providers && k.scope < |w.chains|
                              && edges[k] == DepTargets(w, v, c.providers[k].deps, k.scope)
      invariant ValueMemo(w, v, satisfied) && ProviderMemo(w, keys)
    {
      var key := c.providerOrder[i];
      NextInOrder(w, i);
      indegree, dependents, satisfied, keys := ProviderEdges(c, key, edges, indegree, dependents, satisfied, keys);
      edges := edges[key := DepTargets(w, v, c.providers[key].deps, key.scope)];
      i := i + 1;
    }
    assert c.providerOrder[..i] == c.providerOrder;
  }

  lemma NothingRecorded()
    ensures Recorded(map[], map[], map[])
  {
  }

  /** Adds an edge from each aggregate to each of its members, group by group in any order. */
  method AddGroupVirtualEdges(c: Container, ghost edges0: map<Key, seq<Key>>, indegree0: map<Key, nat>, dependents0: map<Key, seq<Key>>)
    returns (indegree: map<Key, nat>, dependents: map<Key, seq<Key>>, ghost edges: map<Key, seq<Key>>)
    requires c.Consistent() && edges0.Keys == c.providers.Keys && Recorded(edges0, indegree0, dependents0)
    ensures edges.Keys == edges0.Keys && Recorded(edges, indegree, dependents)
    ensures forall k :: k in edges ==> edges[k] == edges0[k] + GroupTargets(c.W(), k)
  {
    hide Wf, SuppliedWf, MarksWf, Recorded, GroupTargets;
    indegree, dependents, edges := indegree0, dependents0, edges0;
    var todo := c.groups.registrations.Keys;
    ghost var w := c.W();
    AllGroupsToDo(w, edges);
    while todo != {}
      invariant todo <= c.groups.registrations.Keys
      invariant edges.Keys == edges0.Keys && Recorded(edges, indegree, dependents)
      invariant EdgesBut(w, edges0, edges, todo)
      decreases todo
    {
      var element :| element in todo;
      RegistrationIs(w, element);
      var virtualKey := c.groups.registrations[element];
      ghost var before := edges;
      indegree, dependents, edges := MemberEdges(virtualKey, MembersOf(c.groups, element), edges, indegree, dependents);
      GroupDone(w, edges0, before, edges, todo, element);
      todo := todo - {element};
    }
    AllGroupsDone(w, edges0, edges);
  }

  lemma RegistrationIs(w: Wiring, e: Ty)
    requires Wf(w) && e in w.groups.registrations
    ensures w.groups.registrations[e] == VirtualKey(e) && VirtualKey(e) in w.providers
    ensures VirtualKey(e) in w.groups.virtualToElement && w.groups.virtualToElement[VirtualKey(e)] == e
    ensures w.providers[VirtualKey(e)] == Provider(GroupOf(e), [], AggregateOf(e))
  {
    assert RegistrationWf(w.groups, w.providers, e);
  }

  /** The members `k` waits for, leaving out the groups in `todo`. */
  ghost function GroupTargetsBut(w: Wiring, k: Key, todo: set<Ty>): seq<Key> {
    if k in w.groups.virtualToElement && w.groups.virtualToElement[k] in todo then [] else GroupTargets(w, k)
  }

  ghost predicate EdgesBut(w: Wiring, edges0: map<Key, seq<Key>>, edges: map<Key, seq<Key>>, todo: set<Ty>)
    requires edges.Keys == edges0.Keys
  {
    forall k :: k in edges ==> edges[k] == edges0[k] + GroupTargetsBut(w, k, todo)
  }

  lemma AllGroupsToDo(w: Wiring, edges: map<Key, seq<Key>>)
    requires Wf(w)
    ensures EdgesBut(w, edges, edges, w.groups.registrations.Keys)
  {
    hide ProvidersWf, OrderListWf, PublicIndexWf, PrivateAliasWf, MemberListsWf, AggregateBodiesWf, RegistrationsWf;
    forall k | k in edges
      ensures edges[k] == edges[k] + GroupTargetsBut(w, k, w.groups.registrations.Keys)
    {
      assert GroupTargetsBut(w, k, w.groups.registrations.Keys) == [];
    }
  }

  lemma GroupDone(w: Wiring, edges0: map<Key, seq<Key>>, edges: map<Key, seq<Key>>, edges': map<Key, seq<Key>>, todo: set<Ty>, element: Ty)
    requires Wf(w) && element in todo && element in w.groups.registrations
    requires edges.Keys == edges0.Keys && EdgesBut(w, edges0, edges, todo) && VirtualKey(element) in edges
    requires edges' == edges[VirtualKey(element) := edges[VirtualKey(element)] + MembersOf(w.groups, element)]
    ensures EdgesBut(w, edges0, edges', todo - {element})
  {
    hide ProvidersWf, OrderListWf, PublicIndexWf, PrivateAliasWf, MemberListsWf, AggregateBodiesWf, RegistrationsWf, MembersOf;
    RegistrationIs(w, element);
    forall k | k in edges'
      ensures edges'[k] == edges0[k] + GroupTargetsBut(w, k, todo - {element})
    {
      assert edges[k] == edges0[k] + GroupTargetsBut(w, k, todo);
    }
  }

  lemma AllGroupsDone(w: Wiring, edges0: map<Key, seq<Key>>, edges: map<Key, seq<Key>>)
    requires edges.Keys == edges0.Keys && EdgesBut(w, edges0, edges, {})
    ensures forall k :: k in edges ==> edges[k] == edges0[k] + GroupTargets(w, k)
  {
    forall k | k in edges
      ensures edges[k] == edges0[k] + GroupTargets(w, k)
    {
      assert GroupTargetsBut(w, k, {}) == GroupTargets(w, k);
    }
  }

  method MemberEdges(virtualKey: Key, members: seq<Key>, ghost edges0: map<Key, seq<Key>>, indegree0: map<Key, nat>, dependents0: map<Key, seq<Key>>)
    returns (indegree: map<Key, nat>, dependents: map<Key, seq<Key>>, ghost edges: map<Key, seq<Key>>)
    requires virtualKey in edges0 && Recorded(edges0, indegree0, dependents0)
    ensures edges == edges0[virtualKey := edges0[virtualKey] + members] && Recorded(edges, indegree, dependents)
  {
    hide Mirror;
    indegree, dependents, edges := indegree0, dependents0, edges0;
    assert edges0[virtualKey] + members[..0] == edges0[virtualKey];
    var i := 0;
    while i < |members|
      invariant i <= |members|
      invariant edges == edges0[virtualKey := edges0[virtualKey] + members[..i]] && Recorded(edges, indegree, dependents)
    {
      RecordedPush(edges, indegree, dependents, virtualKey, members[i]);
      edges := Push(edges, virtualKey, members[i]);
      indegree := indegree[virtualKey := indegree[virtualKey] + 1];
      dependents := Push(dependents, members[i], virtualKey);
      assert edges0[virtualKey] + members[..i+1] == edges0[virtualKey] + members[..i] + [members[i]];
      i := i + 1;
    }
    assert members[..i] == members;
  }

  // ---------- freezing ----------

  function CycleError(key: Key, path: seq<Key>): Error {
    Cycle(path[PositionOf(key, path)..] + [key])
  }

  /** The first position of `key` on `path`, 0 when it is not there. */
  function PositionOf(key: Key, path: seq<Key>): (i: nat)
    ensures i <= |path|
    ensures key in path ==> i < |path| && path[i] == key && key !in path[..i]
    ensures key !in path ==> i == 0
  {
    if key !in path then 0 else FirstPosition(key, path)
  }

  function FirstPosition(key: Key, path: seq<Key>): (i: nat)
    requires key in path
    ensures i < |path| && path[i] == key && key !in path[..i]
  {
    if path[0] == key then 0
    else
      var i := 1 + FirstPosition(key, path[1..]);
      assert path[..i] == [path[0]] + path[1..][..i-1];
      i
  }

  /**
   * Freezes the layers of the dependency graph, or reports some cycle when peeling gets stuck.
   * Stuck nodes always leave one with positive in-degree to name.
   */
  method FreezeLayers(c: Container, satisfied: Memo<bool>, keys: Memo<Option<Key>>) returns (r: Outcome)
    requires c.Consistent()
    requires ValueMemo(c.W(), c.V(), satisfied) && ProviderMemo(c.W(), keys)
    modifies c`layers
    ensures GraphOf(c.W(), c.V()).WellFormed()
    ensures r.Ok? <==> Complete(GraphOf(c.W(), c.V()))
    ensures r.Ok? ==> c.layers == Layers(GraphOf(c.W(), c.V()))
    ensures r.Err? ==> r.error.Cycle? && c.layers == old(c.layers)
  {
    hide Wf, SuppliedWf, MarksWf, Recorded, ValueMemo, ProviderMemo, GroupTargets, Layers, Before, Complete, Mirror, DegreesCount, OrderListWf, Graph.WellFormed;
    ghost var w, v := c.W(), c.V();
    GraphIsWellFormed(w, v);
    ghost var g := GraphOf(w, v);
    ghost var depEdges, edges;
    var indegree, dependents;
    indegree, dependents, depEdges := AllProviderEdges(c, satisfied, keys);
    indegree, dependents, edges := AddGroupVirtualEdges(c, depEdges, indegree, dependents);
    EdgesAreGraph(w, v, depEdges, edges);
    RecordedDegrees(g, indegree, dependents);
    var layers, built;
    layers, built, indegree := Waves(g, c.providerOrder, c.providerOrderIndex, indegree, dependents);
    BuiltIsComplete(g, built);
    if built != |c.providerOrder| {
      StuckKeyExists(g);
      var key := FindStuck(c.providerOrder, indegree);
      return Err(CycleError(key, []));
    }
    c.layers := layers;
    r := DONE;
  }

  lemma EdgesAreGraph(w: Wiring, v: Values, depEdges: map<Key, seq<Key>>, edges: map<Key, seq<Key>>)
    requires Wf(w) && depEdges.Keys == w.providers.Keys == edges.Keys
    requires forall k :: k in w.providers ==> k.scope < |w.chains| && depEdges[k] == DepTargets(w, v, w.providers[k].deps, k.scope)
    requires forall k :: k in edges ==> edges[k] == depEdges[k] + GroupTargets(w, k)
    ensures edges == GraphOf(w, v).deps
    ensures OrderListWf(w.order, w.orderIndex, GraphOf(w, v).deps.Keys)
  {
    hide PublicIndexWf, PrivateAliasWf, MemberListsWf, AggregatesWf, OrderListWf;
    assert GraphOf(w, v).deps.Keys == w.providers.Keys;
  }

  /** The first key, in registration order, whose in-degree never fell to zero. */
  method FindStuck(order: seq<Key>, indegree: map<Key, nat>) returns (key: Key)
    requires forall k :: k in order ==> k in indegree
    requires exists i :: 0 <= i < |order| && indegree[order[i]] > 0
    ensures exists i :: 0 <= i < |order| && key == order[i] && indegree[key] > 0 && forall j :: 0 <= j < i ==> indegree[order[j]] == 0
  {
    var i := 0;
    while indegree[order[i]] == 0
      invariant i < |order|
      invariant forall j :: 0 <= j < i ==> indegree[order[j]] == 0
      invariant exists j :: i <= j < |order| && indegree[order[j]] > 0
      decreases |order| - i
    {
      i := i + 1;
    }
    key := order[i];
  }

  lemma RecordedDegrees(g: Graph, indegree: map<Key, nat>, dependents: map<Key, seq<Key>>)
    requires Recorded(g.deps, indegree, dependents)
    ensures Mirror(g.deps, dependents) && DegreesCount(g, indegree, {})
  {
    forall k | k in g.deps
      ensures indegree[k] == CountOutside(g.deps[k], {})
    {
      CountOutsideNothing(g.deps[k]);
    }
  }

  /** The count of built keys is the length of the registration order exactly when all are built. */
  lemma BuiltIsComplete(g: Graph, built: nat)
    requires g.WellFormed() && built == |Before(Layers(g), |Layers(g)|)|
    ensures built == |g.order| <==> Complete(g)
  {
    var all := Before(Layers(g), |Layers(g)|);
    BeforeWithinNodes(g, |Layers(g)|);
    ElemsSize(g.order);
    assert Elems(g.order) == g.deps.Keys;
    if all != g.deps.Keys {
      SmallerSet(all, g.deps.Keys);
    }
  }

  lemma StuckKeyExists(g: Graph)
    requires g.WellFormed() && !Complete(g)
    ensures forall k :: k in g.order <==> k in g.deps
    ensures exists i :: 0 <= i < |g.order| && g.order[i] !in Before(Layers(g), |Layers(g)|)
  {
    BeforeWithinNodes(g, |Layers(g)|);
    var k :| k in g.deps.Keys && k !in Before(Layers(g), |Layers(g)|);
    var i :| 0 <= i < |g.order| && g.order[i] == k;
  }
}
