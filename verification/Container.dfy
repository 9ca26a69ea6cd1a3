/**
 * The container's state and the operations that registration performs on it
 * (`src/container/mod.rs`, `storage.rs` and `group.rs`).
 */
module Containers {
  import opened Types
  import opened Errors
  import opened Scopes
  import opened Resolution
  import opened Registration

  const EMPTY := Wiring([[ROOT]], [], map[], map[], map[], [], map[], Groups(map[], map[], map[], map[], {}, 0))

  class Container {
    const scopes: ScopeTree
    const user: UserCode
    var valuesPublic: map<Ty, Stored>
    var valuesPrivate: map<(Ty, ScopeId), Stored>
    var providers: map<Key, Provider>
    var publicIndex: map<Ty, Key>
    var privateAlias: map<(Ty, ScopeId), Key>
    var providerOrder: seq<Key>
    var providerOrderIndex: map<Key, nat>
    var constructing: set<Key>
    var activeScope: ScopeId
    var layers: seq<seq<Key>>
    var waveScratch: seq<Key>
    var groups: Groups
    var valueNodes: seq<ValueNode>
    var privateScopes: seq<bool>
    /** Constructed group members not yet aggregated. */
    var memberValues: map<Key, Term>
    /** One-shot providers whose value has been moved out. */
    var emptySlots: set<Key>

    /** The values that were supplied rather than constructed. */
    ghost var supplied: Values
    /** Every provider whose value has been stored, with that value. */
    ghost var built: map<Key, Term>
    /** Every call of a provider's construct function, in order. */
    ghost var constructed: seq<Key>
    /** Every call of an invoker, in order. */
    ghost var invoked: seq<nat>
    /** Every answer of a construct function or an invoker, in order. */
    ghost var answers: seq<Answer>

    ghost function W(): Wiring
      reads this, scopes
    {
      Wiring(scopes.ancestors, privateScopes, providers, publicIndex, privateAlias, providerOrder, providerOrderIndex, groups)
    }

    ghost function V(): Values
      reads this
    {
      Values(valuesPublic, valuesPrivate)
    }

    /** The invariant of every container that registration can reach. */
    ghost predicate Consistent()
      reads this, scopes
    {
      scopes.Valid() && Wf(W()) && SuppliedWf(W(), supplied) && MarksWf(W(), V())
    }

    ghost predicate NothingBuilt()
      reads this
    {
      && supplied == V()
      && built == map[] && constructed == [] && invoked == [] && answers == []
      && memberValues == map[] && emptySlots == {}
      && constructing == {} && layers == []
    }

    /** Registration is still going on. */
    ghost predicate Registering()
      reads this, scopes
    {
      Consistent() && NothingBuilt() && activeScope == ROOT
    }

    constructor (user: UserCode)
      ensures Registering() && fresh(scopes) && this.user == user
      ensures W() == EMPTY && V() == Values(map[], map[])
    {
      scopes := new ScopeTree();
      this.user := user;
      valuesPublic, valuesPrivate := map[], map[];
      providers, publicIndex, privateAlias := map[], map[], map[];
      providerOrder, providerOrderIndex := [], map[];
      constructing, activeScope := {}, ROOT;
      layers, waveScratch := [], [];
      groups := Groups(map[], map[], map[], map[], {}, 0);
      valueNodes, privateScopes := [], [];
      memberValues, emptySlots := map[], {};
      supplied, built := Values(map[], map[]), map[];
      constructed, invoked, answers := [], [], [];
      new;
      scopes.ChainsReachRoot();
    }

    // ---------- scopes ----------

    /** Enters `scope` and returns the one to go back to. */
    method EnterScope(scope: ScopeId) returns (previous: ScopeId)
      modifies this`activeScope
      ensures previous == old(activeScope) && activeScope == scope
    {
      previous := activeScope;
      activeScope := scope;
    }

    method LeaveScope(previous: ScopeId)
      modifies this`activeScope
      ensures activeScope == previous
    {
      activeScope := previous;
    }

    method AddScope(parent: ScopeId, name: string) returns (id: ScopeId)
      requires Registering() && parent < |scopes.ancestors|
      modifies scopes
      ensures Registering()
      ensures id == old(|scopes.ancestors|)
      ensures W() == old(W()).(chains := old(scopes.ancestors) + [[id] + old(scopes.ancestors)[parent]])
    {
      id := scopes.Child(parent, name);
      scopes.ChainsReachRoot();
      ScopeKeepsWf(old(W()), scopes.ancestors[id]);
    }

    method MarkPrivateScope(scope: ScopeId)
      modifies this`privateScopes
      ensures privateScopes == Mark(old(privateScopes), scope)
    {
      if scope >= |privateScopes| {
        privateScopes := privateScopes + seq(scope + 1 - |privateScopes|, _ => false);
      }
      privateScopes := privateScopes[scope := true];
    }

    predicate ScopeHasPrivate(scope: ScopeId)
      reads this
    {
      Marked(privateScopes, scope)
    }

    // ---------- registration ----------

    method EnsureAbsent(id: Ty, name: Ty, scope: ScopeId, isPrivate: bool) returns (r: Outcome)
      ensures r == if Occupied(W(), V(), id, scope, isPrivate)
                   then Err(if isPrivate then AlreadyProvidedPrivate(scope, name) else AlreadyProvided(name))
                   else DONE
    {
      var conflict;
      if isPrivate {
        conflict := (id, scope) in valuesPrivate || PrivateKey(id, scope) in providers || (id, scope) in privateAlias;
      } else {
        conflict := id in valuesPublic || id in publicIndex;
      }
      if !conflict {
        return DONE;
      }
      if isPrivate {
        r := Err(AlreadyProvidedPrivate(scope, name));
      } else {
        r := Err(AlreadyProvided(name));
      }
    }

    /** A slot for `id`, or for its `Arc` alias, that is already taken. */
    ghost predicate Taken(id: Ty, scope: ScopeId, isPrivate: bool)
      reads this, scopes
    {
      Occupied(W(), V(), id, scope, isPrivate) || Occupied(W(), V(), ArcOf(id), scope, isPrivate)
    }

    method InsertProvider(p: Provider, scope: ScopeId, isPrivate: bool) returns (r: Outcome)
      requires Registering() && scope < |scopes.ancestors| && !p.body.AggregateOf?
      modifies this
      ensures Registering() && V() == old(V())
      ensures r.Err? <==> old(Taken(p.result, scope, isPrivate))
      ensures r.Err? ==> W() == old(W())
      ensures r.Err? ==> r == Err(if isPrivate then AlreadyProvidedPrivate(scope, p.result) else AlreadyProvided(p.result))
      ensures r.Ok? ==> W() == WithProvider(old(W()), p, scope, isPrivate)
      ensures r.Ok? ==> providers == old(providers)[Key(p.result, scope, isPrivate, 0) := p]
      ensures r.Ok? ==> providerOrder == old(providerOrder) + [Key(p.result, scope, isPrivate, 0)]
    {
      hide Wf, SuppliedWf, MarksWf, Occupied;
      var id, alias := p.result, ArcOf(p.result);
      r := EnsureAbsent(id, p.result, scope, isPrivate);
      if r.Err? {
        return;
      }
      r := EnsureAbsent(alias, p.result, scope, isPrivate);
      if r.Err? {
        return;
      }
      ProviderKeepsWf(W(), V(), p, scope, isPrivate);
      ProviderKeepsSupplied(W(), V(), p, scope, isPrivate);
      IndexProvider(p, scope, isPrivate);
    }

    method IndexProvider(p: Provider, scope: ScopeId, isPrivate: bool)
      modifies this`privateScopes, this`privateAlias, this`publicIndex, this`providers, this`providerOrderIndex, this`providerOrder
      ensures W() == WithProvider(old(W()), p, scope, isPrivate)
    {
      var id, alias := p.result, ArcOf(p.result);
      var key := Key(id, scope, isPrivate, 0);
      if isPrivate {
        MarkPrivateScope(scope);
        privateAlias := privateAlias[(alias, scope) := key];
      } else {
        publicIndex := publicIndex[id := key];
        publicIndex := publicIndex[alias := key];
      }
      AddToOrder(key, p);
    }

    method AddToOrder(key: Key, p: Provider)
      modifies this`providers, this`providerOrderIndex, this`providerOrder
      ensures providers == old(providers)[key := p]
      ensures providerOrderIndex == old(providerOrderIndex)[key := old(|providerOrder|)]
      ensures providerOrder == old(providerOrder) + [key]
    {
      providers := providers[key := p];
      providerOrderIndex := providerOrderIndex[key := |providerOrder|];
      providerOrder := providerOrder + [key];
    }

    /** Supplies a ready value under its type and, extractable, under `Arc` of it. */
    method InsertValue(id: Ty, n: nat, scope: ScopeId, isPrivate: bool) returns (r: Outcome)
      requires Registering() && scope < |scopes.ancestors|
      modifies this
      ensures Registering()
      ensures r.Err? <==> old(Taken(id, scope, isPrivate))
      ensures r.Err? ==> W() == old(W()) && V() == old(V())
      ensures r.Err? ==>
                var name := if old(Occupied(W(), V(), id, scope, isPrivate)) then id else ArcOf(id);
                r == Err(if isPrivate then AlreadyProvidedPrivate(scope, name) else AlreadyProvided(name))
      ensures r.Ok? ==> V() == StoreBoth(old(V()), id, Supplied(n), scope, isPrivate)
      ensures r.Ok? ==> W() == old(W()).(marks := if isPrivate then Mark(old(privateScopes), scope) else old(privateScopes))
      ensures r.Ok? ==> valueNodes == old(valueNodes) + [ValueNode(id, scope, isPrivate), ValueNode(ArcOf(id), scope, isPrivate)]
    {
      hide Wf, SuppliedWf, MarksWf;
      r := EnsureAbsent(id, id, scope, isPrivate);
      if r.Err? {
        return;
      }
      r := EnsureAbsent(ArcOf(id), ArcOf(id), scope, isPrivate);
      if r.Err? {
        return;
      }
      SupplyKeepsSupplied(W(), V(), id, Supplied(n), scope, isPrivate);
      MarksAreFree(W(), Mark(privateScopes, scope));
      RecordSupplied(id, n, scope, isPrivate);
    }

    method RecordSupplied(id: Ty, n: nat, scope: ScopeId, isPrivate: bool)
      modifies this`valuesPublic, this`valuesPrivate, this`privateScopes, this`valueNodes, this`supplied
      ensures V() == supplied == StoreBoth(old(V()), id, Supplied(n), scope, isPrivate)
      ensures W() == old(W()).(marks := if isPrivate then Mark(old(privateScopes), scope) else old(privateScopes))
      ensures valueNodes == old(valueNodes) + [ValueNode(id, scope, isPrivate), ValueNode(ArcOf(id), scope, isPrivate)]
    {
      StoreConstructed(id, Supplied(n), scope, isPrivate);
      supplied := V();
      valueNodes := valueNodes + [ValueNode(id, scope, isPrivate)];
      valueNodes := valueNodes + [ValueNode(ArcOf(id), scope, isPrivate)];
    }

    /** Registers the aggregate provider of `Group<e>` unless it is already there. */
    method EnsureGroupVirtual(e: Ty) returns (r: Outcome)
      requires Registering()
      modifies this
      ensures Registering() && V() == old(V())
      ensures r.Err? <==> old(e !in groups.registrations && Taken(GroupOf(e), ROOT, false))
      ensures r.Err? ==>
                var group := GroupOf(e);
                r == Err(AlreadyProvided(if group in old(valuesPublic) || group in old(publicIndex) then group else ArcOf(group)))
      ensures r.Err? || old(e in groups.registrations) ==> W() == old(W())
      ensures r.Ok? && old(e !in groups.registrations) ==> W() == WithAggregate(old(W()), e)
      ensures r.Ok? ==> e in groups.registrations
    {
      hide Wf, SuppliedWf, MarksWf, WithAggregate, Occupied;
      if e in groups.registrations {
        return DONE;
      }
      PublicIsOccupied(W(), V(), GroupOf(e));
      r := EnsureAbsent(GroupOf(e), GroupOf(e), ROOT, false);
      if r.Err? {
        return;
      }
      r := EnsureAbsent(ArcOf(GroupOf(e)), ArcOf(GroupOf(e)), ROOT, false);
      if r.Err? {
        return;
      }
      AggregateKeepsWf(W(), V(), e);
      AggregateKeepsSupplied(W(), V(), e);
      IndexAggregate(e);
    }

    method IndexAggregate(e: Ty)
      modifies this`publicIndex, this`providers, this`providerOrderIndex, this`providerOrder, this`groups
      ensures W() == WithAggregate(old(W()), e) && e in groups.registrations
    {
      var key := VirtualKey(e);
      AddToOrder(key, AggregateProvider(e));
      publicIndex := publicIndex[GroupOf(e) := key];
      publicIndex := publicIndex[ArcOf(GroupOf(e)) := key];
      groups := groups.(registrations := groups.registrations[e := key]);
      groups := groups.(byType := groups.byType[GroupOf(e) := e][ArcOf(GroupOf(e)) := e]);
      groups := groups.(virtualToElement := groups.virtualToElement[key := e]);
    }

    /** Appends a member to the group of its result type, registering the group if needed. */
    method InsertGroupMember(p: Provider, scope: ScopeId) returns (r: Outcome)
      requires Registering() && scope < |scopes.ancestors| && !p.body.AggregateOf?
      modifies this
      ensures Registering() && V() == old(V())
      ensures r.Err? <==> old(p.result !in groups.registrations && Taken(GroupOf(p.result), ROOT, false))
      ensures r.Err? ==>
                var group := GroupOf(p.result);
                r == Err(AlreadyProvided(if group in old(valuesPublic) || group in old(publicIndex) then group else ArcOf(group)))
      ensures r.Err? ==> W() == old(W())
      ensures r.Ok? ==>
                W() == WithMember(if p.result in old(groups).registrations then old(W()) else WithAggregate(old(W()), p.result), p, scope)
      ensures r.Ok? ==>
                var key := Key(p.result, scope, false, old(groups).nextMemberId + 1);
                && key in providers && providers[key] == p
                && MembersOf(groups, p.result) == MembersOf(old(groups), p.result) + [key]
    {
      hide Wf, SuppliedWf, MarksWf;
      var e := p.result;
      r := EnsureGroupVirtual(e);
      if r.Err? {
        return;
      }
      MemberKeepsWf(W(), p, scope);
      MemberKeepsSupplied(W(), V(), p, scope);
      IndexMember(p, scope);
    }

    method IndexMember(p: Provider, scope: ScopeId)
      modifies this`providers, this`providerOrderIndex, this`providerOrder, this`groups
      ensures W() == WithMember(old(W()), p, scope)
    {
      groups := groups.(nextMemberId := groups.nextMemberId + 1);
      var key := Key(p.result, scope, false, groups.nextMemberId);
      AddToOrder(key, p);
      groups := groups.(members := groups.members[p.result := MembersOf(groups, p.result) + [key]]);
    }

    method RequireGroup(e: Ty) returns (r: Outcome)
      requires Registering()
      modifies this
      ensures Registering() && V() == old(V())
      ensures r.Err? <==> old(e !in groups.registrations && Taken(GroupOf(e), ROOT, false))
      ensures r.Err? ==>
                var group := GroupOf(e);
                r == Err(AlreadyProvided(if group in old(valuesPublic) || group in old(publicIndex) then group else ArcOf(group)))
      ensures r.Err? ==> W() == old(W())
      ensures r.Ok? ==>
                W() == Requiring(if e in old(groups).registrations then old(W()) else WithAggregate(old(W()), e), e)
      ensures r.Ok? ==> groups.required == old(groups).required + {e}
    {
      hide Wf, SuppliedWf, MarksWf;
      r := EnsureGroupVirtual(e);
      if r.Err? {
        return;
      }
      RequireKeepsWf(W(), e);
      RequireKeepsSupplied(W(), V(), e);
      groups := groups.(required := groups.required + {e});
    }

    // ---------- values ----------

    method StoreConstructed(id: Ty, t: Term, scope: ScopeId, isPrivate: bool)
      modifies this`valuesPublic, this`valuesPrivate, this`privateScopes
      ensures V() == StoreBoth(old(V()), id, t, scope, isPrivate)
      ensures privateScopes == if isPrivate then Mark(old(privateScopes), scope) else old(privateScopes)
    {
      StoreValue(ArcOf(id), Stored(t, true), scope, isPrivate);
      StoreValue(id, Stored(t, false), scope, isPrivate);
    }

    method StoreValue(id: Ty, value: Stored, scope: ScopeId, isPrivate: bool)
      modifies this`valuesPublic, this`valuesPrivate, this`privateScopes
      ensures V() == if isPrivate then old(V()).(priv := old(valuesPrivate)[(id, scope) := value])
                     else old(V()).(pub := old(valuesPublic)[id := value])
      ensures privateScopes == if isPrivate then Mark(old(privateScopes), scope) else old(privateScopes)
    {
      if isPrivate {
        MarkPrivateScope(scope);
        valuesPrivate := valuesPrivate[(id, scope) := value];
      } else {
        valuesPublic := valuesPublic[id := value];
      }
    }

    // ---------- providers ----------

    method TakeProvider(key: Key) returns (p: Option<Provider>)
      modifies this`providers
      ensures providers == old(providers) - {key}
      ensures p == if key in old(providers) then Some(old(providers)[key]) else None
    {
      p := if key in providers then Some(providers[key]) else None;
      providers := providers - {key};
    }

    method PutProvider(key: Key, p: Provider)
      modifies this`providers
      ensures providers == old(providers)[key := p]
    {
      providers := providers[key := p];
    }
  }

  lemma AggregateKeepsSupplied(w: Wiring, v: Values, e: Ty)
    requires SuppliedWf(w, v) && MarksWf(w, v)
    requires !Occupied(w, v, GroupOf(e), ROOT, false) && !Occupied(w, v, ArcOf(GroupOf(e)), ROOT, false)
    ensures SuppliedWf(WithAggregate(w, e), v) && MarksWf(WithAggregate(w, e), v)
  {
    ProviderKeepsSupplied(w, v, AggregateProvider(e), ROOT, false);
  }

  lemma MemberKeepsSupplied(w: Wiring, v: Values, p: Provider, scope: ScopeId)
    requires SuppliedWf(w, v) && MarksWf(w, v)
    ensures SuppliedWf(WithMember(w, p, scope), v) && MarksWf(WithMember(w, p, scope), v)
  {
  }

  /** Well-formedness does not speak of the bitmap. */
  lemma MarksAreFree(w: Wiring, marks: seq<bool>)
    requires Wf(w)
    ensures Wf(w.(marks := marks))
  {
    hide ProvidersWf, OrderListWf, PublicIndexWf, PrivateAliasWf, MemberListsWf, RegistrationsWf, GroupIndexesWf, AggregateBodiesWf;
  }

  lemma RequireKeepsSupplied(w: Wiring, v: Values, e: Ty)
    requires SuppliedWf(w, v) && MarksWf(w, v)
    ensures var w' := Requiring(w, e); SuppliedWf(w', v) && MarksWf(w', v)
  {
  }
}
