/** `validate`: what a container must satisfy before anything is constructed (`src/container/graph.rs`). */
module Validation {
  import opened Types
  import opened Errors
  import opened Digraph
  import opened Scopes
  import opened Resolution
  import opened Containers
  import opened Lookups
  import opened Freezing
  import opened Cycles

  ghost predicate DepsBound(w: Wiring, v: Values, deps: seq<Ty>, from: ScopeId) {
    from < |w.chains| && forall i :: 0 <= i < |deps| ==> !Bind(w, v, deps[i], from).Unbound?
  }

  ghost predicate ProvidersBound(w: Wiring, v: Values) {
    forall k :: k in w.providers ==> DepsBound(w, v, w.providers[k].deps, k.scope)
  }

  ghost predicate InvokersBound(w: Wiring, v: Values, invokers: seq<Invoker>) {
    forall i :: 0 <= i < |invokers| ==> DepsBound(w, v, invokers[i].deps, invokers[i].scope)
  }

  ghost predicate RequiredFilled(g: Groups) {
    forall e :: e in g.required ==> MembersOf(g, e) != []
  }

  /** Every dependency resolves, required groups have members, and the graph has no cycle. */
  ghost predicate WellWired(w: Wiring, v: Values, invokers: seq<Invoker>)
    requires KeysWf(w)
  {
    ProvidersBound(w, v) && InvokersBound(w, v, invokers) && RequiredFilled(w.groups) && Acyclic(GraphOf(w, v))
  }

  /** `d` is the first of `deps` that nothing can satisfy. */
  ghost predicate FirstMissing(w: Wiring, v: Values, deps: seq<Ty>, from: ScopeId, d: Ty) {
    && from < |w.chains|
    && exists i :: 0 <= i < |deps| && deps[i] == d && Bind(w, v, d, from).Unbound?
                   && forall j :: 0 <= j < i ==> !Bind(w, v, deps[j], from).Unbound?
  }

  /** Provider `i` in registration order has all its dependencies. */
  ghost predicate ProviderBound(w: Wiring, v: Values, i: nat) {
    i < |w.order| && w.order[i] in w.providers && DepsBound(w, v, w.providers[w.order[i]].deps, w.order[i].scope)
  }

  /** Provider `i` is the first that misses a dependency, and `e` says which. */
  ghost predicate ProviderMisses(w: Wiring, v: Values, i: nat, p: Ty, s: ScopeId, d: Ty) {
    && i < |w.order| && w.order[i] in w.providers
    && w.providers[w.order[i]].result == p && w.order[i].scope == s
    && FirstMissing(w, v, w.providers[w.order[i]].deps, s, d)
    && forall j: nat :: j < i ==> ProviderBound(w, v, j)
  }

  ghost predicate InvokerMisses(w: Wiring, v: Values, invokers: seq<Invoker>, i: nat, s: ScopeId, d: Ty) {
    && i < |invokers| && invokers[i].scope == s
    && FirstMissing(w, v, invokers[i].deps, s, d)
    && forall j: nat :: j < i ==> DepsBound(w, v, invokers[j].deps, invokers[j].scope)
  }

  /** The reported error names a defect that is really there, and the first; earlier checks have passed. */
  ghost predicate Explains(w: Wiring, v: Values, invokers: seq<Invoker>, e: Error)
    requires KeysWf(w)
  {
    match e
    case ProviderMissingDep(p, s, d) => exists i: nat :: ProviderMisses(w, v, i, p, s, d)
    case InvokerMissingDep(s, d) => ProvidersBound(w, v) && exists i: nat :: InvokerMisses(w, v, invokers, i, s, d)
    case EmptyGroup(g) =>
      ProvidersBound(w, v) && InvokersBound(w, v, invokers) && g in w.groups.required && MembersOf(w.groups, g) == []
    case Cycle(keys) =>
      ProvidersBound(w, v) && InvokersBound(w, v, invokers) && RequiredFilled(w.groups) && ClosedWalk(GraphOf(w, v), keys)
    case _ => false
  }

  /** The first of `deps` that nothing can satisfy from `from`. */
  method FirstUnbound(c: Container, deps: seq<Ty>, from: ScopeId, cache0: Memo<bool>) returns (missing: Option<Ty>, cache: Memo<bool>)
    requires c.Consistent() && from < |c.scopes.ancestors| && BoundMemo(c.W(), c.V(), cache0)
    ensures BoundMemo(c.W(), c.V(), cache)
    ensures missing.None? <==> DepsBound(c.W(), c.V(), deps, from)
    ensures missing.Some? ==> FirstMissing(c.W(), c.V(), deps, from, missing.value)
  {
    hide Wf, SuppliedWf, MarksWf, BoundMemo;
    cache := cache0;
    var i := 0;
    while i < |deps|
      invariant i <= |deps| && BoundMemo(c.W(), c.V(), cache)
      invariant forall j :: 0 <= j < i ==> !Bind(c.W(), c.V(), deps[j], from).Unbound?
    {
      var hit;
      hit, cache := CanResolveCached(c, deps[i], from, cache);
      if !hit {
        return Some(deps[i]), cache;
      }
      i := i + 1;
    }
    missing := None;
  }

  method CheckProviders(c: Container, cache0: Memo<bool>) returns (r: Outcome, cache: Memo<bool>)
    requires c.Consistent() && BoundMemo(c.W(), c.V(), cache0) && KeysWf(c.W())
    ensures BoundMemo(c.W(), c.V(), cache)
    ensures r.Ok? <==> ProvidersBound(c.W(), c.V())
    ensures r.Err? ==> r.error.ProviderMissingDep? &&
                       exists i: nat :: ProviderMisses(c.W(), c.V(), i, r.error.provider, r.error.scope, r.error.dependency)
  {
    hide Wf, SuppliedWf, MarksWf, BoundMemo, DepsBound, FirstMissing;
    cache := cache0;
    ghost var w, v := c.W(), c.V();
    var i := 0;
    while i < |c.providerOrder|
      invariant i <= |c.providerOrder| && BoundMemo(w, v, cache)
      invariant forall j: nat :: j < i ==> ProviderBound(w, v, j)
    {
      var key := c.providerOrder[i];
      OrderIsLive(w, i);
      assert ProviderWf(key, c.providers[key], |w.chains|);
      var p := c.providers[key];
      var missing;
      missing, cache := FirstUnbound(c, p.deps, key.scope, cache);
      if missing.Some? {
        assert ProviderMisses(w, v, i, p.result, key.scope, missing.value);
        MissingIsNotBound(w, v, key, missing.value);
        return Err(ProviderMissingDep(p.result, key.scope, missing.value)), cache;
      }
      i := i + 1;
    }
    AllProvidersBound(w, v);
    r := DONE;
  }

  lemma AllProvidersBound(w: Wiring, v: Values)
    requires Wf(w) && forall j: nat :: j < |w.order| ==> ProviderBound(w, v, j)
    ensures ProvidersBound(w, v)
  {
    OrderHoldsProviders(w);
    hide Wf, DepsBound;
    forall k | k in w.providers
      ensures DepsBound(w, v, w.providers[k].deps, k.scope)
    {
      var i :| 0 <= i < |w.order| && w.order[i] == k;
      assert ProviderBound(w, v, i);
    }
  }

  lemma MissingIsNotBound(w: Wiring, v: Values, k: Key, d: Ty)
    requires k in w.providers && FirstMissing(w, v, w.providers[k].deps, k.scope, d)
    ensures !ProvidersBound(w, v)
  {
    assert !DepsBound(w, v, w.providers[k].deps, k.scope);
  }

  method CheckInvokers(c: Container, invokers: seq<Invoker>, cache0: Memo<bool>) returns (r: Outcome)
    requires c.Consistent() && BoundMemo(c.W(), c.V(), cache0) && KeysWf(c.W())
    requires forall i :: 0 <= i < |invokers| ==> invokers[i].scope < |c.scopes.ancestors|
    ensures r.Ok? <==> InvokersBound(c.W(), c.V(), invokers)
    ensures r.Err? ==> r.error.InvokerMissingDep? &&
                       exists i: nat :: InvokerMisses(c.W(), c.V(), invokers, i, r.error.scope, r.error.dependency)
  {
    hide Wf, SuppliedWf, MarksWf, BoundMemo, DepsBound, FirstMissing;
    var cache := cache0;
    ghost var w, v := c.W(), c.V();
    var i := 0;
    while i < |invokers|
      invariant i <= |invokers| && BoundMemo(w, v, cache)
      invariant forall j: nat :: j < i ==> DepsBound(w, v, invokers[j].deps, invokers[j].scope)
    {
      var missing;
      missing, cache := FirstUnbound(c, invokers[i].deps, invokers[i].scope, cache);
      if missing.Some? {
        assert InvokerMisses(w, v, invokers, i, invokers[i].scope, missing.value);
        return Err(InvokerMissingDep(invokers[i].scope, missing.value));
      }
      i := i + 1;
    }
    r := DONE;
  }

  /** Looks through the required groups, in no particular order. */
  method ValidateRequiredGroups(c: Container) returns (r: Outcome)
    ensures r.Ok? <==> RequiredFilled(c.groups)
    ensures r.Err? ==> r.error.EmptyGroup? && r.error.element in c.groups.required && MembersOf(c.groups, r.error.element) == []
  {
    var todo := c.groups.required;
    while todo != {}
      invariant todo <= c.groups.required
      invariant forall e :: e in c.groups.required - todo ==> MembersOf(c.groups, e) != []
      decreases todo
    {
      var element :| element in todo;
      if MembersOf(c.groups, element) == [] {
        return Err(EmptyGroup(element));
      }
      todo := todo - {element};
    }
    r := DONE;
  }

  /**
   * Accepts exactly the well-wired containers, and then has frozen the layers of the graph. When
   * layering gets stuck the answer is whatever the cycle search says: it always finds a cycle.
   */
  method Validate(c: Container, invokers: seq<Invoker>) returns (r: Outcome)
    requires c.Consistent()
    requires forall i :: 0 <= i < |invokers| ==> invokers[i].scope < |c.scopes.ancestors|
    modifies c`layers
    ensures KeysWf(c.W())
    ensures r.Ok? <==> WellWired(c.W(), c.V(), invokers)
    ensures r.Ok? ==> GraphOf(c.W(), c.V()).WellFormed() && c.layers == Layers(GraphOf(c.W(), c.V()))
    ensures r.Err? ==> c.layers == old(c.layers) && Explains(c.W(), c.V(), invokers, r.error)
  {
    hide Wf, SuppliedWf, MarksWf, ProvidersBound, InvokersBound, RequiredFilled, Acyclic, Complete, Graph.WellFormed, ClosedWalk, ProviderMisses, InvokerMisses;
    ghost var w, v := c.W(), c.V();
    GraphIsWellFormed(w, v);
    CompleteIffAcyclic(GraphOf(w, v));
    var canResolve: Memo<bool> := map[];
    var valueSatisfies: Memo<bool> := map[];
    var providerKeys: Memo<Option<Key>> := map[];
    r, canResolve := CheckProviders(c, canResolve);
    if r.Err? {
      return;
    }
    r := CheckInvokers(c, invokers, canResolve);
    if r.Err? {
      return;
    }
    r := ValidateRequiredGroups(c);
    if r.Err? {
      return;
    }
    r := FreezeLayers(c, valueSatisfies, providerKeys);
    assert c.W() == w && c.V() == v;
    if r.Err? && r.error.Cycle? {
      r := DetectCycles(c);
    }
  }
}
