/**
 * The four walks up a scope chain (`src/container/graph.rs`): each skips scopes the bitmap
 * leaves unmarked, and each is a projection of the one binding that `Resolution.Bind` names.
 */
module Lookups {
  import opened Types
  import opened Resolution
  import opened Registration
  import opened Containers

  const NO_VALUES := Values(map[], map[])

  /** The provider that resolution finds when cached values are ignored. */
  function ProviderFor(w: Wiring, id: Ty, from: ScopeId): Option<Key>
    requires from < |w.chains|
  {
    var b := Bind(w, NO_VALUES, id, from);
    if b.ProvidedBy? then Some(b.key) else None
  }

  /** Ignoring values can only uncover providers: where no value is bound it changes nothing. */
  lemma {:induction false} ProvidersWithoutValues(w: Wiring, v: Values, id: Ty, chain: seq<ScopeId>)
    ensures BindIn(w, v, id, chain).Cached? || BindIn(w, NO_VALUES, id, chain) == BindIn(w, v, id, chain)
  {
    if chain != [] {
      ProvidersWithoutValues(w, v, id, chain[1..]);
    }
  }

  /** A private value somewhere on the chain, or a public one, rules out an unbound type. */
  lemma {:induction false} ValueOnChainBinds(w: Wiring, v: Values, id: Ty, chain: seq<ScopeId>, i: nat)
    requires i < |chain| && (id, chain[i]) in v.priv
    ensures !BindIn(w, v, id, chain).Unbound?
  {
    if i > 0 {
      ValueOnChainBinds(w, v, id, chain[1..], i - 1);
    }
  }

  lemma {:induction false} PublicValueBinds(w: Wiring, v: Values, id: Ty, chain: seq<ScopeId>)
    requires id in v.pub
    ensures !BindIn(w, v, id, chain).Unbound?
  {
    if chain != [] {
      PublicValueBinds(w, v, id, chain[1..]);
    }
  }

  lemma {:induction false} BoundWithoutValue(w: Wiring, v: Values, id: Ty, chain: seq<ScopeId>)
    requires id !in v.pub && forall i :: 0 <= i < |chain| ==> (id, chain[i]) !in v.priv
    ensures !BindIn(w, v, id, chain).Cached?
  {
    if chain != [] {
      assert forall i :: 0 <= i < |chain[1..]| ==> chain[1..][i] == chain[i+1];
      BoundWithoutValue(w, v, id, chain[1..]);
    }
  }

  /** What is bound, told from the tables alone: the nearest private entry, or else the public one. */
  lemma Shadowing(w: Wiring, v: Values, id: Ty, chain: seq<ScopeId>)
    ensures forall i: nat :: Nearest(w, v, id, chain, i) ==>
              BindIn(w, v, id, chain) ==
              if (id, chain[i]) in v.priv then Cached(v.priv[(id, chain[i])])
              else if PrivateKey(id, chain[i]) in w.providers then ProvidedBy(PrivateKey(id, chain[i]))
              else if (id, chain[i]) in w.privateAlias then ProvidedBy(w.privateAlias[(id, chain[i])])
              else Unbound
    ensures NothingPrivate(w, v, id, chain) ==>
              BindIn(w, v, id, chain) ==
              if id in v.pub then Cached(v.pub[id])
              else if id in w.publicIndex then ProvidedBy(w.publicIndex[id])
              else Unbound
    ensures NothingPrivate(w, v, id, chain) || exists i: nat :: Nearest(w, v, id, chain, i)
  {
    PrivateOrNot(w, v, id, chain);
    forall i: nat | Nearest(w, v, id, chain, i)
      ensures BindIn(w, v, id, chain) ==
              if (id, chain[i]) in v.priv then Cached(v.priv[(id, chain[i])])
              else if PrivateKey(id, chain[i]) in w.providers then ProvidedBy(PrivateKey(id, chain[i]))
              else if (id, chain[i]) in w.privateAlias then ProvidedBy(w.privateAlias[(id, chain[i])])
              else Unbound
    {
      NearestPrivateWins(w, v, id, chain, i);
    }
    if NothingPrivate(w, v, id, chain) {
      PublicOtherwise(w, v, id, chain);
    }
  }

  /** The cached value `id` resolves to. Providers may be out of the map meanwhile. */
  method LookupValueRefFrom(c: Container, id: Ty, from: ScopeId) returns (r: Option<Stored>)
    requires from < |c.scopes.ancestors| && MarksWf(c.W(), c.V())
    ensures var b := Bind(c.W(), c.V(), id, from); r == if b.Cached? then Some(b.stored) else None
    ensures var chain := c.scopes.ancestors[from];
            && (forall i: nat :: Nearest(c.W(), c.V(), id, chain, i) ==>
                  r == if (id, chain[i]) in c.valuesPrivate then Some(c.valuesPrivate[(id, chain[i])]) else None)
            && (NothingPrivate(c.W(), c.V(), id, chain) ==> r == if id in c.valuesPublic then Some(c.valuesPublic[id]) else None)
  {
    hide Nearest, NothingPrivate;
    Shadowing(c.W(), c.V(), id, c.scopes.ancestors[from]);
    var chain := c.scopes.ancestors[from];
    ghost var w, v := c.W(), c.V();
    var i := 0;
    assert chain[0..] == chain;
    while i < |chain|
      invariant i <= |chain|
      invariant BindIn(w, v, id, chain[i..]) == Bind(w, v, id, from)
    {
      var scope := chain[i];
      assert chain[i..][1..] == chain[i+1..];
      if !c.ScopeHasPrivate(scope) {
        SkipUnmarked(w, v, id, chain[i..]);
        i := i + 1;
        continue;
      }
      if (id, scope) in c.valuesPrivate {
        return Some(c.valuesPrivate[(id, scope)]);
      }
      if PrivateKey(id, scope) in c.providers {
        return None;
      }
      if (id, scope) in c.privateAlias {
        return None;
      }
      i := i + 1;
    }
    r := if id in c.valuesPublic then Some(c.valuesPublic[id]) else None;
  }

  /** The provider `id` resolves to, values aside. Group types go through the group tables. */
  method ResolveProvider(c: Container, id: Ty, from: ScopeId) returns (r: Option<Key>)
    requires c.Consistent() && from < |c.scopes.ancestors|
    ensures r == ProviderFor(c.W(), id, from)
    ensures r.Some? ==> r.value in c.providers && (id == r.value.ty || id == ArcOf(r.value.ty))
    ensures var chain := c.scopes.ancestors[from];
            && (forall i: nat :: Nearest(c.W(), NO_VALUES, id, chain, i) ==>
                  r == if PrivateKey(id, chain[i]) in c.providers then Some(PrivateKey(id, chain[i]))
                       else if (id, chain[i]) in c.privateAlias then Some(c.privateAlias[(id, chain[i])]) else None)
            && (NothingPrivate(c.W(), NO_VALUES, id, chain) ==> r == if id in c.publicIndex then Some(c.publicIndex[id]) else None)
  {
    hide OrderListWf, MemberListsWf, AggregateBodiesWf, SuppliedWf, Nearest, NothingPrivate;
    Shadowing(c.W(), NO_VALUES, id, c.scopes.ancestors[from]);
    var chain := c.scopes.ancestors[from];
    ghost var w := c.W();
    BindingIsLive(w, NO_VALUES, id, chain);
    var i := 0;
    assert chain[0..] == chain;
    while i < |chain|
      invariant i <= |chain|
      invariant BindIn(w, NO_VALUES, id, chain[i..]) == Bind(w, NO_VALUES, id, from)
    {
      var scope := chain[i];
      assert chain[i..][1..] == chain[i+1..];
      if !c.ScopeHasPrivate(scope) {
        SkipUnmarked(w, NO_VALUES, id, chain[i..]);
        i := i + 1;
        continue;
      }
      var key := PrivateKey(id, scope);
      if key in c.providers {
        return Some(key);
      }
      if (id, scope) in c.privateAlias {
        var canon := c.privateAlias[(id, scope)];
        r := if canon in c.providers then Some(canon) else None;
        return;
      }
      i := i + 1;
    }
    if id in c.groups.byType {
      var element := c.groups.byType[id];
      GroupTypeIsIndexed(w, id);
      var key := c.groups.registrations[element];
      r := if key in c.providers then Some(key) else None;
      return;
    }
    if id !in c.publicIndex {
      return None;
    }
    var key := c.publicIndex[id];
    r := if key in c.providers then Some(key) else None;
  }

  /** The group tables and the public index name the same aggregate provider. */
  lemma GroupTypeIsIndexed(w: Wiring, id: Ty)
    requires PublicWf(w) && AggregatesWf(w) && id in w.groups.byType
    ensures var e := w.groups.byType[id];
            && e in w.groups.registrations && w.groups.registrations[e] == VirtualKey(e)
            && VirtualKey(e) in w.providers
            && id in w.publicIndex && w.publicIndex[id] == VirtualKey(e)
  {
    var e := w.groups.byType[id];
    assert RegistrationWf(w.groups, w.providers, e);
  }

  /** Whether anything at all can satisfy `id`, although shadowing is ignored for values. */
  method CanResolve(c: Container, id: Ty, from: ScopeId) returns (r: bool)
    requires c.Consistent() && from < |c.scopes.ancestors|
    ensures r <==> !Bind(c.W(), c.V(), id, from).Unbound?
  {
    hide Wf, SuppliedWf;
    var chain := c.scopes.ancestors[from];
    ghost var w, v := c.W(), c.V();
    var i := 0;
    while i < |chain|
      invariant i <= |chain|
      invariant forall j :: 0 <= j < i ==> (id, chain[j]) !in v.priv
    {
      var scope := chain[i];
      if !c.ScopeHasPrivate(scope) {
        i := i + 1;
        continue;
      }
      if (id, scope) in c.valuesPrivate {
        ValueOnChainBinds(w, v, id, chain, i);
        return true;
      }
      i := i + 1;
    }
    if id in c.valuesPublic {
      PublicValueBinds(w, v, id, chain);
      return true;
    }
    BoundWithoutValue(w, v, id, chain);
    ProvidersWithoutValues(w, v, id, chain);
    NeverCachedWithoutValues(w, id, chain);
    var key := ResolveProvider(c, id, from);
    return key.Some?;
  }

  lemma {:induction false} NeverCachedWithoutValues(w: Wiring, id: Ty, chain: seq<ScopeId>)
    ensures !BindIn(w, NO_VALUES, id, chain).Cached?
  {
    if chain != [] {
      NeverCachedWithoutValues(w, id, chain[1..]);
    }
  }

  /** The module scope recorded for a public value, root when none is recorded. */
  function PublicValueScope(nodes: seq<ValueNode>, id: Ty): ScopeId {
    if nodes == [] then ROOT
    else if nodes[0].ty == id && !nodes[0].isPrivate then nodes[0].scope
    else PublicValueScope(nodes[1..], id)
  }

  lemma NearestIs(w: Wiring, v: Values, id: Ty, chain: seq<ScopeId>, i: nat)
    requires i < |chain| && HasPrivate(w, v, id, chain[i]) && forall j :: 0 <= j < i ==> !HasPrivate(w, v, id, chain[j])
    ensures forall k: nat :: Nearest(w, v, id, chain, k) ==> k == i
    ensures !NothingPrivate(w, v, id, chain)
  {
  }

  lemma NoneIsNearest(w: Wiring, v: Values, id: Ty, chain: seq<ScopeId>)
    requires forall j :: 0 <= j < |chain| ==> !HasPrivate(w, v, id, chain[j])
    ensures NothingPrivate(w, v, id, chain) && forall i: nat :: !Nearest(w, v, id, chain, i)
  {
  }

  lemma BareIfUnmarked(w: Wiring, v: Values, id: Ty, s: ScopeId)
    requires MarksWf(w, v) && !Marked(w.marks, s)
    ensures !HasPrivate(w, v, id, s)
  {
    assert PrivateKey(id, s).isPrivate;
  }

  predicate IsPublicNode(n: ValueNode, id: Ty) {
    n.ty == id && !n.isPrivate
  }

  /** `s` is the scope of the first public node for `id`, or the root when there is none. */
  ghost predicate FirstNode(nodes: seq<ValueNode>, id: Ty, s: ScopeId) {
    || (s == ROOT && forall j :: 0 <= j < |nodes| ==> !IsPublicNode(nodes[j], id))
    || (exists j :: 0 <= j < |nodes| && IsPublicNode(nodes[j], id) && nodes[j].scope == s
                    && forall l :: 0 <= l < j ==> !IsPublicNode(nodes[l], id))
  }

  lemma {:induction false} ScopeOfFirstNode(nodes: seq<ValueNode>, id: Ty)
    ensures FirstNode(nodes, id, PublicValueScope(nodes, id))
  {
    if nodes != [] {
      var rest := nodes[1..];
      assert nodes == [nodes[0]] + rest;
      ScopeOfFirstNode(rest, id);
      if IsPublicNode(nodes[0], id) {
        assert nodes[0].scope == PublicValueScope(nodes, id);
      } else if j :| 0 <= j < |rest| && IsPublicNode(rest[j], id) && rest[j].scope == PublicValueScope(rest, id)
                     && forall l :: 0 <= l < j ==> !IsPublicNode(rest[l], id) {
        assert nodes[j+1] == rest[j];
      }
    }
  }

  /** Where a ready value would come from: the scope it was filed under, and whether privately. */
  method ResolveValueBinding(c: Container, id: Ty, from: ScopeId) returns (r: Option<(ScopeId, bool)>)
    requires c.Consistent() && from < |c.scopes.ancestors|
    ensures r.Some? <==> Bind(c.W(), c.V(), id, from).Cached?
    ensures r.Some? && r.value.1 ==>
              (id, r.value.0) in c.valuesPrivate && Bind(c.W(), c.V(), id, from) == Cached(c.valuesPrivate[(id, r.value.0)])
    ensures r.Some? && !r.value.1 ==>
              && r.value.0 == PublicValueScope(c.valueNodes, id)
              && id in c.valuesPublic && Bind(c.W(), c.V(), id, from) == Cached(c.valuesPublic[id])
    ensures var chain := c.scopes.ancestors[from];
            && (forall i: nat :: Nearest(c.W(), c.V(), id, chain, i) ==>
                  r == if (id, chain[i]) in c.valuesPrivate then Some((chain[i], true)) else None)
            && (NothingPrivate(c.W(), c.V(), id, chain) ==> (r.Some? <==> id in c.valuesPublic) && (r.Some? ==> !r.value.1))
    ensures r.Some? && !r.value.1 ==> FirstNode(c.valueNodes, id, r.value.0)
  {
    hide Wf, SuppliedWf, Nearest, NothingPrivate, FirstNode;
    Shadowing(c.W(), c.V(), id, c.scopes.ancestors[from]);
    ScopeOfFirstNode(c.valueNodes, id);
    var chain := c.scopes.ancestors[from];
    ghost var w, v := c.W(), c.V();
    var i := 0;
    assert chain[0..] == chain;
    while i < |chain|
      invariant i <= |chain|
      invariant BindIn(w, v, id, chain[i..]) == Bind(w, v, id, from)
      invariant forall j :: 0 <= j < i ==> !HasPrivate(w, v, id, chain[j])
    {
      var scope := chain[i];
      assert chain[i..][1..] == chain[i+1..];
      if !c.ScopeHasPrivate(scope) {
        SkipUnmarked(w, v, id, chain[i..]);
        BareIfUnmarked(w, v, id, scope);
        i := i + 1;
        continue;
      }
      if (id, scope) in c.valuesPrivate {
        NearestIs(w, v, id, chain, i);
        return Some((scope, true));
      }
      if PrivateKey(id, scope) in c.providers || (id, scope) in c.privateAlias {
        return None;
      }
      i := i + 1;
    }
    NoneIsNearest(w, v, id, chain);
    if id !in c.valuesPublic {
      return None;
    }
    var j := 0;
    assert c.valueNodes[0..] == c.valueNodes;
    while j < |c.valueNodes|
      invariant j <= |c.valueNodes|
      invariant PublicValueScope(c.valueNodes[j..], id) == PublicValueScope(c.valueNodes, id)
    {
      var node := c.valueNodes[j];
      assert c.valueNodes[j..][1..] == c.valueNodes[j+1..];
      if node.ty == id && !node.isPrivate {
        return Some((node.scope, false));
      }
      j := j + 1;
    }
    return Some((ROOT, false));
  }

  /**
   * The walks agree: a type resolves exactly when a ready value or a provider is found for it,
   * and when no ready value is, the provider found is the one the type is bound to.
   */
  lemma WalksAgree(w: Wiring, v: Values, id: Ty, from: ScopeId)
    requires from < |w.chains|
    ensures var b := Bind(w, v, id, from);
            && (!b.Unbound? <==> b.Cached? || ProviderFor(w, id, from).Some?)
            && (b.Cached? || (if b.ProvidedBy? then ProviderFor(w, id, from) == Some(b.key) else ProviderFor(w, id, from) == None))
  {
    ProvidersWithoutValues(w, v, id, w.chains[from]);
  }
}
