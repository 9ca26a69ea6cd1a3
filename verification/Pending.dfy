/**
 * `collect_pending` and its two helpers: which providers a request still needs
 * (`src/container/graph.rs`). The graph here is the residual one, of the dependencies that no
 * cached value satisfies at the moment of the call.
 */
module Pending {
  import opened Types
  import opened Errors
  import opened Digraph
  import opened Scopes
  import opened Resolution
  import opened Containers
  import opened Lookups
  import opened Freezing

  /** The keys added to `before` depend on nothing outside `after`. */
  ghost predicate AddedClosed(g: Graph, before: set<Key>, after: set<Key>) {
    forall k, e :: k in after && k !in before && k in g.deps && e in g.deps[k] ==> e in after
  }

  /** The keys added to `before` can all be reached from `root`. */
  ghost predicate AddedReachable(g: Graph, root: Key, before: set<Key>, after: set<Key>) {
    forall k :: k in after && k !in before ==> Reachable(g, {root}, k)
  }

  /** Part of what `root` needs has been added to `start`. */
  ghost predicate Gathering(g: Graph, root: Key, start: set<Key>, now: set<Key>) {
    start <= now && AddedClosed(g, start, now) && AddedReachable(g, root, start, now)
  }

  ghost predicate Collected(g: Graph, root: Key, before: set<Key>, after: set<Key>) {
    && before <= after <= g.deps.Keys
    && AddedClosed(g, before, after)
    && AddedReachable(g, root, before, after)
  }

  lemma ReachSelf(g: Graph, k: Key)
    requires k in g.deps
    ensures Reachable(g, {k}, k)
  {
    assert Walk(g, [k]);
  }

  lemma ReachThrough(g: Graph, root: Key, mid: Key, k: Key)
    requires root in g.deps && mid in g.deps[root] && Reachable(g, {mid}, k)
    ensures Reachable(g, {root}, k)
  {
    var p: seq<Key> :| Walk(g, p) && p[0] in {mid} && p[|p|-1] == k;
    PrependWalk(g, root, p);
    var q := [root] + p;
    assert q[0] in {root} && q[|q|-1] == k;
  }

  /** Collecting through one dependency after another of the same node. */
  lemma CollectMore(g: Graph, root: Key, before: set<Key>, middle: set<Key>, after: set<Key>, mid: Key)
    requires root in g.deps && mid in g.deps[root]
    requires before <= middle && AddedReachable(g, root, before, middle) && Collected(g, mid, middle, after)
    ensures before <= after && AddedReachable(g, root, before, after)
  {
    forall k | k in after && k !in before
      ensures Reachable(g, {root}, k)
    {
      if k !in middle {
        ReachThrough(g, root, mid, k);
      }
    }
  }

  /** Once all dependencies of `root` are in, adding `root` itself has been completed. */
  lemma RootCollected(g: Graph, root: Key, before: set<Key>, after: set<Key>)
    requires root in g.deps && root !in before && before + {root} <= after <= g.deps.Keys
    requires Gathering(g, root, before + {root}, after)
    requires forall e :: e in g.deps[root] ==> e in after
    ensures Collected(g, root, before, after)
  {
    ReachSelf(g, root);
  }

  /** What a dependency on `id` is waiting for, if anything, is in `pending`. */
  ghost predicate Awaited(w: Wiring, v: Values, id: Ty, from: ScopeId, pending: set<Key>)
    requires from < |w.chains|
  {
    var b := Bind(w, v, id, from);
    !b.Unbound? && (b.ProvidedBy? ==> b.key in pending)
  }

  /** Whether nothing can go wrong below: all provider dependencies are bound, nothing is running. */
  ghost predicate Smooth(c: Container)
    reads c, c.scopes
  {
    c.constructing == {} && forall k, i :: k in c.providers && k.scope < |c.scopes.ancestors| && 0 <= i < |c.providers[k].deps| ==>
      !Bind(c.W(), c.V(), c.providers[k].deps[i], k.scope).Unbound?
  }

  /**
   * Adds what `id` needs from `from`: on success nothing that was added waits for anything
   * outside, and nothing unreachable was added.
   */
  method CollectPending(c: Container, id: Ty, from: ScopeId, pending0: set<Key>) returns (r: Outcome, pending: set<Key>)
    requires c.Consistent() && KeysWf(c.W()) && from < |c.scopes.ancestors| && pending0 <= c.providers.Keys
    ensures pending0 <= pending <= c.providers.Keys
    ensures r.Ok? ==> Awaited(c.W(), c.V(), id, from, pending)
    ensures r.Ok? && Bind(c.W(), c.V(), id, from).Cached? ==> pending == pending0
    ensures r.Ok? && Bind(c.W(), c.V(), id, from).ProvidedBy? ==>
              Collected(GraphOf(c.W(), c.V()), Bind(c.W(), c.V(), id, from).key, pending0, pending)
    ensures Smooth(c) && !Bind(c.W(), c.V(), id, from).Unbound? ==> r.Ok?
    decreases c.providers.Keys - pending0, 2
  {
    hide Wf, SuppliedWf, ProvidersWf, Collected, Smooth;
    pending := pending0;
    ghost var w, v := c.W(), c.V();
    WalksAgree(w, v, id, from);
    var cached := LookupValueRefFrom(c, id, from);
    if cached.Some? {
      return DONE, pending;
    }
    var key := ResolveProvider(c, id, from);
    if key.None? {
      return Err(MissingProvider(id, from)), pending;
    }
    GroupKeyIsVirtual(w, id);
    AggregateHasGroupType(w, id, key.value);
    if id in c.groups.byType && c.groups.registrations[c.groups.byType[id]] == key.value {
      r, pending := CollectGroupPending(c, c.groups.byType[id], pending);
      return;
    }
    r, pending := CollectProviderPending(c, key.value, pending);
  }

  lemma GroupKeyIsVirtual(w: Wiring, id: Ty)
    requires Wf(w)
    ensures id in w.groups.byType ==>
              && w.groups.byType[id] in w.groups.registrations
              && w.groups.registrations[w.groups.byType[id]] == VirtualKey(w.groups.byType[id])
  {
    if id in w.groups.byType {
      GroupTypeIsIndexed(w, id);
    }
  }

  /** An aggregate reached by one of its types is reached through the group tables. */
  lemma AggregateHasGroupType(w: Wiring, id: Ty, k: Key)
    requires Wf(w) && (id == k.ty || id == ArcOf(k.ty))
    ensures k in w.groups.virtualToElement ==>
              && id in w.groups.byType && w.groups.byType[id] in w.groups.registrations
              && w.groups.registrations[w.groups.byType[id]] == k
  {
    hide ProvidersWf, OrderListWf, PublicIndexWf, PrivateAliasWf, MemberListsWf, AggregateBodiesWf;
    if k in w.groups.virtualToElement {
      assert RegistrationWf(w.groups, w.providers, w.groups.virtualToElement[k]);
    }
  }

  /** Adds the aggregate of a group and everything its members need. */
  method CollectGroupPending(c: Container, element: Ty, pending0: set<Key>) returns (r: Outcome, pending: set<Key>)
    requires c.Consistent() && KeysWf(c.W()) && element in c.groups.registrations && pending0 <= c.providers.Keys
    ensures pending0 <= pending <= c.providers.Keys
    ensures r.Ok? ==> VirtualKey(element) in pending && Collected(GraphOf(c.W(), c.V()), VirtualKey(element), pending0, pending)
    ensures Smooth(c) ==> r.Ok?
    decreases c.providers.Keys - pending0, 1
  {
    hide Wf, SuppliedWf, MarksWf, ProvidersWf, Collected, Smooth, Gathering;
    ghost var g := GraphOf(c.W(), c.V());
    pending := pending0;
    RegistrationIs(c.W(), element);
    AggregateTargets(c.W(), c.V(), element);
    var virtualKey := c.groups.registrations[element];
    if virtualKey in pending {
      NothingCollected(g, virtualKey, pending);
      return DONE, pending;
    }
    pending := pending + {virtualKey};
    NothingAdded(g, virtualKey, pending);
    var members := MembersOf(c.groups, element);
    var i := 0;
    while i < |members|
      invariant i <= |members|
      invariant pending0 + {virtualKey} <= pending <= c.providers.Keys
      invariant Gathering(g, virtualKey, pending0 + {virtualKey}, pending)
      invariant forall j :: 0 <= j < i ==> members[j] in pending
    {
      var m := members[i];
      assert m in members;
      ghost var middle := pending;
      r, pending := CollectProviderPending(c, m, pending);
      if r.Err? {
        return;
      }
      StillCollecting(g, virtualKey, pending0 + {virtualKey}, middle, pending, m);
      i := i + 1;
    }
    RootCollected(g, virtualKey, pending0, pending);
    r := DONE;
  }

  lemma NothingCollected(g: Graph, root: Key, s: set<Key>)
    requires s <= g.deps.Keys
    ensures Collected(g, root, s, s)
  {
  }

  lemma NothingAdded(g: Graph, root: Key, s: set<Key>)
    ensures Gathering(g, root, s, s)
  {
  }

  lemma StillCollecting(g: Graph, root: Key, start: set<Key>, middle: set<Key>, after: set<Key>, mid: Key)
    requires root in g.deps && mid in g.deps[root]
    requires Gathering(g, root, start, middle) && Collected(g, mid, middle, after)
    ensures Gathering(g, root, start, after)
  {
    CollectMore(g, root, start, middle, after, mid);
  }

  lemma AggregateTargets(w: Wiring, v: Values, e: Ty)
    requires Wf(w) && KeysWf(w) && e in w.groups.registrations
    ensures VirtualKey(e) in w.providers
    ensures GraphOf(w, v).deps[VirtualKey(e)] == MembersOf(w.groups, e)
    ensures forall m :: m in MembersOf(w.groups, e) ==> m in w.providers && m !in w.groups.virtualToElement
  {
    hide Wf, ProvidersWf;
    RegistrationIs(w, e);
    assert DepTargets(w, v, [], ROOT) == [] by { assert ProviderWf(VirtualKey(e), w.providers[VirtualKey(e)], |w.chains|) by { KeyIsWf(w, VirtualKey(e)); } }
    MembersAreNoAggregates(w, e);
  }

  lemma KeyIsWf(w: Wiring, k: Key)
    requires KeysWf(w) && k in w.providers
    ensures ProviderWf(k, w.providers[k], |w.chains|)
  {
  }

  lemma MembersAreNoAggregates(w: Wiring, e: Ty)
    requires Wf(w)
    ensures forall m :: m in MembersOf(w.groups, e) ==> m in w.providers && m !in w.groups.virtualToElement
  {
    hide PublicIndexWf, PrivateAliasWf, ProvidersWf, AggregateBodiesWf, RegistrationsWf;
    MemberListWf(w, e);
  }

  /** Adds a provider that is no aggregate, and everything its dependencies need. */
  method CollectProviderPending(c: Container, key: Key, pending0: set<Key>) returns (r: Outcome, pending: set<Key>)
    requires c.Consistent() && KeysWf(c.W()) && key in c.providers && key !in c.groups.virtualToElement
    requires pending0 <= c.providers.Keys
    ensures pending0 <= pending <= c.providers.Keys
    ensures r.Ok? ==> key in pending && Collected(GraphOf(c.W(), c.V()), key, pending0, pending)
    ensures Smooth(c) ==> r.Ok?
    decreases c.providers.Keys - pending0, 1
  {
    hide Wf, SuppliedWf, MarksWf, Collected, Gathering;
    ghost var w, v := c.W(), c.V();
    ghost var g := GraphOf(w, v);
    pending := pending0;
    if key in c.constructing {
      return Err(Cycle([key])), pending;
    }
    if key in pending {
      NothingCollected(g, key, pending);
      return DONE, pending;
    }
    pending := pending + {key};
    NothingAdded(g, key, pending);
    assert ProviderWf(key, c.providers[key], |w.chains|);
    var deps := c.providers[key].deps;
    assert g.deps[key] == DepTargets(w, v, deps, key.scope);
    var i := 0;
    while i < |deps|
      invariant i <= |deps|
      invariant pending0 + {key} <= pending <= c.providers.Keys
      invariant Gathering(g, key, pending0 + {key}, pending)
      invariant forall e :: e in DepTargets(w, v, deps[..i], key.scope) ==> e in pending
    {
      DepTargetsAppend(w, v, deps, i, key.scope);
      ghost var middle := pending;
      ghost var b := Bind(w, v, deps[i], key.scope);
      r, pending := CollectPending(c, deps[i], key.scope, pending);
      if r.Err? {
        return;
      }
      if b.ProvidedBy? {
        BoundIsTarget(w, v, key, i);
        StillCollecting(g, key, pending0 + {key}, middle, pending, b.key);
      }
      i := i + 1;
    }
    assert deps[..i] == deps;
    RootCollected(g, key, pending0, pending);
    r := DONE;
  }

  lemma BoundIsTarget(w: Wiring, v: Values, k: Key, i: nat)
    requires Wf(w) && KeysWf(w) && k in w.providers && k.scope < |w.chains| && i < |w.providers[k].deps|
    requires Bind(w, v, w.providers[k].deps[i], k.scope).ProvidedBy?
    ensures Bind(w, v, w.providers[k].deps[i], k.scope).key in GraphOf(w, v).deps[k]
  {
    hide OrderListWf, MemberListsWf, AggregatesWf;
    DepTargetsAre(w, v, w.providers[k].deps, k.scope);
  }
}
