/** What each registration step does to the wiring, and why it keeps the wiring well formed. */
module Registration {
  import opened Types
  import opened Scopes
  import opened Resolution

  /** Some binding already sits in the slot of `id` (`ensure_absent`, `src/container/storage.rs`). */
  predicate Occupied(w: Wiring, v: Values, id: Ty, scope: ScopeId, isPrivate: bool) {
    if isPrivate then (id, scope) in v.priv || PrivateKey(id, scope) in w.providers || (id, scope) in w.privateAlias
    else id in v.pub || id in w.publicIndex
  }

  lemma PublicIsOccupied(w: Wiring, v: Values, id: Ty)
    ensures Occupied(w, v, id, ROOT, false) <==> id in v.pub || id in w.publicIndex
  {
  }

  function Mark(marks: seq<bool>, s: ScopeId): (r: seq<bool>)
    ensures Marked(r, s)
    ensures forall t :: Marked(marks, t) ==> Marked(r, t)
    ensures Marked(marks, s) ==> r == marks
  {
    if s < |marks| then marks[s := true] else marks + seq(s - |marks|, _ => false) + [true]
  }

  function WithProvider(w: Wiring, p: Provider, scope: ScopeId, isPrivate: bool): Wiring {
    var key := Key(p.result, scope, isPrivate, 0);
    var alias := ArcOf(p.result);
    w.(providers := w.providers[key := p],
       order := w.order + [key],
       orderIndex := w.orderIndex[key := |w.order|],
       marks := if isPrivate then Mark(w.marks, scope) else w.marks,
       privateAlias := if isPrivate then w.privateAlias[(alias, scope) := key] else w.privateAlias,
       publicIndex := if isPrivate then w.publicIndex else w.publicIndex[p.result := key][alias := key])
  }

  function AggregateProvider(e: Ty): Provider {
    Provider(GroupOf(e), [], AggregateOf(e))
  }

  function WithAggregate(w: Wiring, e: Ty): Wiring {
    WithProvider(w, AggregateProvider(e), ROOT, false).(groups := WithRegistration(w.groups, e))
  }

  function NextMember(w: Wiring, p: Provider, scope: ScopeId): Key {
    Key(p.result, scope, false, w.groups.nextMemberId + 1)
  }

  function WithMember(w: Wiring, p: Provider, scope: ScopeId): Wiring {
    var key := NextMember(w, p, scope);
    w.(providers := w.providers[key := p],
       order := w.order + [key],
       orderIndex := w.orderIndex[key := |w.order|],
       groups := w.groups.(
          nextMemberId := key.ordinal,
          members := w.groups.members[p.result := MembersOf(w.groups, p.result) + [key]]))
  }

  // ---------- each table, as keys are added ----------

  lemma OrderGrows(order: seq<Key>, index: map<Key, nat>, keys: set<Key>, key: Key)
    requires OrderListWf(order, index, keys) && key !in keys
    ensures OrderListWf(order + [key], index[key := |order|], keys + {key})
  {
    assert forall k :: k in order + [key] <==> k in order || k == key;
  }

  lemma PublicIndexGrows(index: map<Ty, Key>, keys: set<Key>, ty: Ty, scope: ScopeId)
    requires PublicIndexWf(index, keys) && ty !in index && ArcOf(ty) !in index
    ensures var key := Key(ty, scope, false, 0); PublicIndexWf(index[ty := key][ArcOf(ty) := key], keys + {key})
  {
  }

  lemma PublicIndexKept(index: map<Ty, Key>, keys: set<Key>, key: Key)
    requires PublicIndexWf(index, keys) && (key.isPrivate || key.ordinal > 0)
    ensures PublicIndexWf(index, keys + {key})
  {
  }

  lemma PrivateAliasGrows(aliases: map<(Ty, ScopeId), Key>, keys: set<Key>, ty: Ty, scope: ScopeId)
    requires PrivateAliasWf(aliases, keys)
    requires (ty, scope) !in aliases && PrivateKey(ArcOf(ty), scope) !in keys
    ensures var key := PrivateKey(ty, scope); PrivateAliasWf(aliases[(ArcOf(ty), scope) := key], keys + {key})
  {
    var key := PrivateKey(ty, scope);
    var aliases' := aliases[(ArcOf(ty), scope) := key];
    forall id, s | (id, s) in aliases'
      ensures var k := aliases'[(id, s)];
              k in keys + {key} && k == PrivateKey(k.ty, s) && id == ArcOf(k.ty) && PrivateKey(id, s) !in keys + {key}
    {
      if (id, s) == (ArcOf(ty), scope) {
        assert ty < ArcOf(ty);
      } else {
        assert (id, s) in aliases;
        assert (id, s) != (ty, scope);
      }
    }
  }

  lemma PrivateAliasKept(aliases: map<(Ty, ScopeId), Key>, keys: set<Key>, key: Key)
    requires PrivateAliasWf(aliases, keys) && !key.isPrivate
    ensures PrivateAliasWf(aliases, keys + {key})
  {
    assert forall id, s :: PrivateKey(id, s) != key;
  }

  lemma PositionBelow(order: seq<Key>, index: map<Key, nat>, keys: set<Key>, k: Key)
    requires OrderListWf(order, index, keys) && k in index
    ensures index[k] < |order| && order[index[k]] == k
  {
    var i :| 0 <= i < |order| && order[i] == k;
  }

  /** A list of members stays one when later keys are registered. */
  lemma MemberListKept(list: seq<Key>, e: Ty, lastId: nat, index: map<Key, nat>, lastId': nat, key: Key, position: nat)
    requires MemberList(list, e, lastId, index) && lastId <= lastId' && key !in index
    ensures MemberList(list, e, lastId', index[key := position])
  {
  }

  lemma MemberListsKept(g: Groups, index: map<Key, nat>, keys: set<Key>, key: Key, position: nat)
    requires MemberListsWf(g, index, keys) && key !in index && key.ordinal == 0
    ensures MemberListsWf(g, index[key := position], keys + {key})
  {
    forall e | e in g.members
      ensures MemberList(g.members[e], e, g.nextMemberId, index[key := position])
    {
      MemberListKept(g.members[e], e, g.nextMemberId, index, g.nextMemberId, key, position);
    }
  }

  lemma MemberListGrows(list: seq<Key>, e: Ty, lastId: nat, index: map<Key, nat>, key: Key, position: nat)
    requires MemberList(list, e, lastId, index) && key !in index
    requires key.ty == e && !key.isPrivate && key.ordinal == lastId + 1
    requires forall k :: k in index ==> index[k] < position
    ensures MemberList(list + [key], e, lastId + 1, index[key := position])
  {
    var list', index' := list + [key], index[key := position];
    forall i, j | 0 <= i < j < |list'|
      ensures list'[i].ordinal < list'[j].ordinal && index'[list'[i]] < index'[list'[j]]
    {
      assert list[i] in list;
      if j < |list| {
        assert list[j] in list;
      }
    }
  }

  lemma ProvidersGrow(providers: map<Key, Provider>, scopes: nat, key: Key, p: Provider)
    requires ProvidersWf(providers, scopes) && ProviderWf(key, p, scopes)
    ensures ProvidersWf(providers[key := p], scopes)
  {
  }

  lemma AggregatesKept(g: Groups, providers: map<Key, Provider>, key: Key, p: Provider)
    requires RegistrationsWf(g, providers) && AggregateBodiesWf(g, providers)
    requires key !in providers && !p.body.AggregateOf?
    ensures RegistrationsWf(g, providers[key := p]) && AggregateBodiesWf(g, providers[key := p])
  {
    forall e | e in g.registrations
      ensures RegistrationWf(g, providers[key := p], e)
    {
      assert RegistrationWf(g, providers, e);
    }
  }

  // ---------- registration steps ----------

  lemma FreshSingleton(w: Wiring, v: Values, ty: Ty, scope: ScopeId, isPrivate: bool)
    requires PublicWf(w) && OrderWf(w) && !Occupied(w, v, ty, scope, isPrivate)
    ensures Key(ty, scope, isPrivate, 0) !in w.providers && Key(ty, scope, isPrivate, 0) !in w.orderIndex
  {
  }

  lemma FreshMember(w: Wiring, p: Provider, scope: ScopeId)
    requires MembersWf(w) && OrderWf(w)
    ensures NextMember(w, p, scope) !in w.providers && NextMember(w, p, scope) !in w.orderIndex
  {
  }

  lemma ProviderKeepsWf(w: Wiring, v: Values, p: Provider, scope: ScopeId, isPrivate: bool)
    requires Wf(w) && scope < |w.chains| && !p.body.AggregateOf?
    requires !Occupied(w, v, p.result, scope, isPrivate) && !Occupied(w, v, ArcOf(p.result), scope, isPrivate)
    ensures Wf(WithProvider(w, p, scope, isPrivate))
  {
    hide ProvidersWf, OrderListWf, PublicIndexWf, PrivateAliasWf, MemberListsWf, RegistrationsWf, GroupIndexesWf, AggregateBodiesWf;
    var key := Key(p.result, scope, isPrivate, 0);
    var w' := WithProvider(w, p, scope, isPrivate);
    var keys := w.providers.Keys;
    FreshSingleton(w, v, p.result, scope, isPrivate);
    assert w'.providers.Keys == keys + {key};
    ProvidersGrow(w.providers, |w.chains|, key, p);
    OrderGrows(w.order, w.orderIndex, keys, key);
    if isPrivate {
      PublicIndexKept(w.publicIndex, keys, key);
      PrivateAliasGrows(w.privateAlias, keys, p.result, scope);
    } else {
      PublicIndexGrows(w.publicIndex, keys, p.result, scope);
      PrivateAliasKept(w.privateAlias, keys, key);
    }
    MemberListsKept(w.groups, w.orderIndex, keys, key, |w.order|);
    AggregatesKept(w.groups, w.providers, key, p);
  }

  lemma ProviderKeepsSupplied(w: Wiring, v: Values, p: Provider, scope: ScopeId, isPrivate: bool)
    requires SuppliedWf(w, v) && MarksWf(w, v)
    requires !Occupied(w, v, p.result, scope, isPrivate) && !Occupied(w, v, ArcOf(p.result), scope, isPrivate)
    ensures var w' := WithProvider(w, p, scope, isPrivate); SuppliedWf(w', v) && MarksWf(w', v)
  {
  }

  lemma AggregateKeepsWf(w: Wiring, v: Values, e: Ty)
    requires Wf(w) && e !in w.groups.registrations
    requires !Occupied(w, v, GroupOf(e), ROOT, false) && !Occupied(w, v, ArcOf(GroupOf(e)), ROOT, false)
    ensures Wf(WithAggregate(w, e))
  {
    hide ProvidersWf, OrderListWf, PublicIndexWf, PrivateAliasWf, MemberListsWf, RegistrationsWf, GroupIndexesWf, AggregateBodiesWf;
    var w' := WithAggregate(w, e);
    var keys, key, p := w.providers.Keys, VirtualKey(e), AggregateProvider(e);
    FreshSingleton(w, v, GroupOf(e), ROOT, false);
    assert w'.providers.Keys == keys + {key};
    assert KeysWf(w') by { ProvidersGrow(w.providers, |w.chains|, key, p); }
    assert OrderWf(w') by { OrderGrows(w.order, w.orderIndex, keys, key); }
    assert PublicWf(w') by { PublicIndexGrows(w.publicIndex, keys, GroupOf(e), ROOT); }
    assert PrivateWf(w') by { PrivateAliasKept(w.privateAlias, keys, key); }
    assert MembersWf(w') by { AggregateKeepsMembers(w.groups, w'.groups, w.orderIndex, keys, key, |w.order|); }
    assert AggregatesWf(w') by {
      RegistrationsGrow(w.groups, w.providers, e);
      GroupIndexesGrow(w.groups, e);
      AggregateBodiesGrow(w.groups, w.providers, e);
    }
  }

  function WithRegistration(g: Groups, e: Ty): Groups {
    g.(registrations := g.registrations[e := VirtualKey(e)],
       byType := g.byType[GroupOf(e) := e][ArcOf(GroupOf(e)) := e],
       virtualToElement := g.virtualToElement[VirtualKey(e) := e])
  }

  lemma RegistrationsGrow(g: Groups, providers: map<Key, Provider>, e: Ty)
    requires RegistrationsWf(g, providers) && VirtualKey(e) !in providers
    ensures RegistrationsWf(WithRegistration(g, e), providers[VirtualKey(e) := AggregateProvider(e)])
  {
    var g', providers' := WithRegistration(g, e), providers[VirtualKey(e) := AggregateProvider(e)];
    forall f | f in g'.registrations
      ensures RegistrationWf(g', providers', f)
    {
      if f != e {
        assert RegistrationWf(g, providers, f);
      }
    }
  }

  lemma GroupIndexesGrow(g: Groups, e: Ty)
    requires GroupIndexesWf(g)
    ensures GroupIndexesWf(WithRegistration(g, e))
  {
  }

  lemma AggregateBodiesGrow(g: Groups, providers: map<Key, Provider>, e: Ty)
    requires AggregateBodiesWf(g, providers)
    ensures AggregateBodiesWf(WithRegistration(g, e), providers[VirtualKey(e) := AggregateProvider(e)])
  {
  }

  lemma AggregateKeepsMembers(g: Groups, g': Groups, index: map<Key, nat>, keys: set<Key>, key: Key, position: nat)
    requires MemberListsWf(g, index, keys) && key !in index && key.ordinal == 0
    requires g'.members == g.members && g'.nextMemberId == g.nextMemberId && g.registrations.Keys <= g'.registrations.Keys
    ensures MemberListsWf(g', index[key := position], keys + {key})
  {
    MemberListsKept(g, index, keys, key, position);
    assert forall k: Key :: MembersOf(g', k.ty) == MembersOf(g, k.ty);
  }

  lemma MemberKeepsWf(w: Wiring, p: Provider, scope: ScopeId)
    requires Wf(w) && scope < |w.chains|
    requires p.result in w.groups.registrations && !p.body.AggregateOf?
    ensures Wf(WithMember(w, p, scope))
  {
    hide ProvidersWf, OrderListWf, PublicIndexWf, PrivateAliasWf, MemberListsWf, RegistrationsWf, AggregateBodiesWf;
    var w' := WithMember(w, p, scope);
    var keys, key := w.providers.Keys, NextMember(w, p, scope);
    FreshMember(w, p, scope);
    assert w'.providers.Keys == keys + {key};
    assert KeysWf(w') by { ProvidersGrow(w.providers, |w.chains|, key, p); }
    assert OrderWf(w') by { OrderGrows(w.order, w.orderIndex, keys, key); }
    assert PublicWf(w') by { PublicIndexKept(w.publicIndex, keys, key); }
    assert PrivateWf(w') by { PrivateAliasKept(w.privateAlias, keys, key); }
    assert MembersWf(w') by { MemberKeepsMembers(w, p, scope); }
    assert AggregatesWf(w') by {
      AggregatesKept(w.groups, w.providers, key, p);
      SameGroupTables(w.groups, w'.groups, w'.providers);
    }
  }

  lemma SameGroupTables(g: Groups, g': Groups, providers: map<Key, Provider>)
    requires RegistrationsWf(g, providers) && AggregateBodiesWf(g, providers) && GroupIndexesWf(g)
    requires g'.registrations == g.registrations && g'.byType == g.byType && g'.virtualToElement == g.virtualToElement
    requires g'.required <= g.registrations.Keys
    ensures RegistrationsWf(g', providers) && AggregateBodiesWf(g', providers) && GroupIndexesWf(g')
  {
    forall f | f in g'.registrations
      ensures RegistrationWf(g', providers, f)
    {
      assert RegistrationWf(g, providers, f);
    }
  }

  lemma MemberKeepsMembers(w: Wiring, p: Provider, scope: ScopeId)
    requires OrderWf(w) && MembersWf(w) && p.result in w.groups.registrations
    requires NextMember(w, p, scope) !in w.providers
    ensures MembersWf(WithMember(w, p, scope))
  {
    var key := NextMember(w, p, scope);
    var w' := WithMember(w, p, scope);
    var g, g' := w.groups, w'.groups;
    forall k | k in w.orderIndex
      ensures w.orderIndex[k] < |w.order|
    {
      PositionBelow(w.order, w.orderIndex, w.providers.Keys, k);
    }
    forall f | f in g'.members
      ensures f in g'.registrations && MemberList(g'.members[f], f, g'.nextMemberId, w'.orderIndex)
    {
      if f == p.result {
        MemberListGrows(MembersOf(g, f), f, g.nextMemberId, w.orderIndex, key, |w.order|);
      } else {
        MemberListKept(g.members[f], f, g.nextMemberId, w.orderIndex, g'.nextMemberId, key, |w.order|);
      }
    }
    forall k | k in w'.providers && k.ordinal > 0
      ensures k.ordinal <= g'.nextMemberId && k in MembersOf(g', k.ty)
    {
      if k != key {
        assert k in MembersOf(g, k.ty);
      }
    }
  }

  lemma ScopeKeepsWf(w: Wiring, chain: seq<ScopeId>)
    requires Wf(w) && ChainWf(chain, |w.chains|)
    ensures Wf(w.(chains := w.chains + [chain]))
  {
    assert forall k :: k in w.providers ==> ProviderWf(k, w.providers[k], |w.chains|);
  }

  function Requiring(w: Wiring, e: Ty): Wiring {
    w.(groups := w.groups.(required := w.groups.required + {e}))
  }

  lemma RequireKeepsWf(w: Wiring, e: Ty)
    requires Wf(w) && e in w.groups.registrations
    ensures Wf(Requiring(w, e))
  {
    hide ProvidersWf, OrderListWf, PublicIndexWf, PrivateAliasWf, MemberListsWf, RegistrationsWf, AggregateBodiesWf;
    var g' := w.groups.(required := w.groups.required + {e});
    var w' := w.(groups := g');
    assert AggregatesWf(w') by { SameGroupTables(w.groups, g', w.providers); }
    assert MembersWf(w') by { SameMembers(w.groups, g', w.orderIndex, w.providers.Keys); }
  }

  lemma SameMembers(g: Groups, g': Groups, index: map<Key, nat>, keys: set<Key>)
    requires MemberListsWf(g, index, keys)
    requires g'.members == g.members && g'.nextMemberId == g.nextMemberId && g'.registrations == g.registrations
    ensures MemberListsWf(g', index, keys)
  {
    assert forall k: Key :: MembersOf(g', k.ty) == MembersOf(g, k.ty);
  }

  // ---------- storing values ----------

  /** `store_constructed`: the value under its own type and, extractable, under `Arc` of it. */
  function StoreBoth(v: Values, id: Ty, t: Term, scope: ScopeId, isPrivate: bool): Values {
    if isPrivate then
      v.(priv := v.priv[(ArcOf(id), scope) := Stored(t, true)][(id, scope) := Stored(t, false)])
    else
      v.(pub := v.pub[ArcOf(id) := Stored(t, true)][id := Stored(t, false)])
  }

  lemma SupplyKeepsSupplied(w: Wiring, v: Values, id: Ty, t: Term, scope: ScopeId, isPrivate: bool)
    requires SuppliedWf(w, v) && MarksWf(w, v)
    requires !Occupied(w, v, id, scope, isPrivate) && !Occupied(w, v, ArcOf(id), scope, isPrivate)
    ensures var w' := if isPrivate then w.(marks := Mark(w.marks, scope)) else w;
            var v' := StoreBoth(v, id, t, scope, isPrivate);
            SuppliedWf(w', v') && MarksWf(w', v')
  {
  }

  /**
   * A supplied value is handed out as it is under its type and as a handle under `Arc` of it:
   * from every chain on which its scope is the nearest with an entry, or which has none if it is public.
   */
  lemma SuppliedIsHandedOut(w: Wiring, v: Values, ty: Ty, n: nat, scope: ScopeId, isPrivate: bool, id: Ty, from: ScopeId, i: nat, t: Term)
    requires KeysWf(w) && from < |w.chains| && (id == ty || id == ArcOf(ty))
    requires var v' := StoreBoth(v, ty, Supplied(n), scope, isPrivate);
             if isPrivate then Nearest(w, v', id, w.chains[from], i) && w.chains[from][i] == scope
             else NothingPrivate(w, v', id, w.chains[from])
    ensures DepDenotes(w, StoreBoth(v, ty, Supplied(n), scope, isPrivate), id, from, t) <==>
            t == if id == ty then Supplied(n) else Handle(Supplied(n))
  {
    hide KeysWf;
    var v' := StoreBoth(v, ty, Supplied(n), scope, isPrivate);
    TypeIsNoArc(ty);
    if isPrivate {
      NearestPrivateWins(w, v', id, w.chains[from], i);
    } else {
      PublicOtherwise(w, v', id, w.chains[from]);
    }
  }

  /** Storing a built singleton keeps the caches exact, and needs no new mark. */
  lemma StoreKeepsCaches(w: Wiring, supplied: Values, built: map<Key, Term>, v: Values, k: Key, t: Term)
    requires Wf(w) && SuppliedWf(w, supplied) && MarksWf(w, v) && Caches(w, supplied, built, v)
    requires k in w.providers && !k.IsGroupMember()
    ensures var v' := StoreBoth(v, k.ty, t, k.scope, k.isPrivate);
            Caches(w, supplied, built[k := t], v') && MarksWf(w, v')
    ensures k.isPrivate ==> Mark(w.marks, k.scope) == w.marks
  {
    if k.isPrivate {
      StorePrivate(w, supplied, built, v, k, t);
    } else {
      StorePublic(w, supplied, built, v, k, t);
    }
  }

  /** What is filed in a scope does not come from `k` when `k` is not private. */
  lemma BuiltElsewhere(w: Wiring, supplied: Values, built: map<Key, Term>, v: Values, v': Values, k: Key, t: Term)
    requires PrivateWf(w) && CachesPrivate(w, supplied, built, v) && !k.isPrivate && v'.priv == v.priv
    ensures CachesPrivate(w, supplied, built[k := t], v')
  {
    forall id, s: ScopeId
      ensures PrivateOwner(w, id, s).Some? ==> PrivateOwner(w, id, s).value != k
    {
    }
    hide PrivateWf, PrivateOwner;
  }

  lemma StorePublic(w: Wiring, supplied: Values, built: map<Key, Term>, v: Values, k: Key, t: Term)
    requires PublicWf(w) && PrivateWf(w) && SuppliedWf(w, supplied) && Caches(w, supplied, built, v)
    requires k in w.providers && !k.IsGroupMember() && !k.isPrivate
    ensures Caches(w, supplied, built[k := t], StoreBoth(v, k.ty, t, k.scope, false))
  {
    hide CachesPublic, CachesPrivate, PrivateWf, PublicWf, SuppliedWf;
    StorePublicHere(w, supplied, built, v, k, t);
    BuiltElsewhere(w, supplied, built, v, StoreBoth(v, k.ty, t, k.scope, false), k, t);
  }

  lemma StorePublicHere(w: Wiring, supplied: Values, built: map<Key, Term>, v: Values, k: Key, t: Term)
    requires PublicWf(w) && SuppliedWf(w, supplied) && CachesPublic(w, supplied, built, v)
    requires k in w.providers && !k.IsGroupMember() && !k.isPrivate
    ensures CachesPublic(w, supplied, built[k := t], StoreBoth(v, k.ty, t, k.scope, false))
  {
    PublicNames(w, supplied, k);
    hide PublicWf, SuppliedWf;
  }

  /** A public provider is found under its type and its handle's, which no supplied value has. */
  lemma PublicNames(w: Wiring, supplied: Values, k: Key)
    requires PublicWf(w) && SuppliedWf(w, supplied) && k in w.providers && !k.IsGroupMember() && !k.isPrivate
    ensures forall id :: id in w.publicIndex && w.publicIndex[id] == k <==> id == k.ty || id == ArcOf(k.ty)
    ensures k.ty !in supplied.pub && ArcOf(k.ty) !in supplied.pub
  {
  }

  lemma StorePrivate(w: Wiring, supplied: Values, built: map<Key, Term>, v: Values, k: Key, t: Term)
    requires PublicWf(w) && PrivateWf(w) && SuppliedWf(w, supplied) && Caches(w, supplied, built, v)
    requires k in w.providers && k.isPrivate
    ensures Caches(w, supplied, built[k := t], StoreBoth(v, k.ty, t, k.scope, true))
  {
    StorePrivateHere(w, supplied, built, v, k, t);
    hide CachesPrivate, PrivateWf;
  }

  lemma StorePrivateHere(w: Wiring, supplied: Values, built: map<Key, Term>, v: Values, k: Key, t: Term)
    requires PrivateWf(w) && SuppliedWf(w, supplied) && CachesPrivate(w, supplied, built, v)
    requires k in w.providers && k.isPrivate
    ensures CachesPrivate(w, supplied, built[k := t], StoreBoth(v, k.ty, t, k.scope, true))
  {
    assert k == PrivateKey(k.ty, k.scope);
    forall id, s: ScopeId
      ensures PrivateOwner(w, id, s) == Some(k) <==> s == k.scope && (id == k.ty || id == ArcOf(k.ty))
    {
    }
  }

  /** Storing a group member leaves the caches alone. */
  lemma MemberKeepsCaches(w: Wiring, supplied: Values, built: map<Key, Term>, v: Values, k: Key, t: Term)
    requires PublicWf(w) && PrivateWf(w) && Caches(w, supplied, built, v) && k.IsGroupMember()
    ensures Caches(w, supplied, built[k := t], v)
  {
    forall id, s: ScopeId
      ensures PrivateOwner(w, id, s).Some? ==> PrivateOwner(w, id, s).value != k
    {
    }
  }
}
