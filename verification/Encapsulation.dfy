/** What each option does for those who depend on it, and what a module keeps to itself (`src/module.rs`, `src/scope.rs`). */
module Encapsulation {
  import opened Types
  import opened Errors
  import opened Scopes
  import opened Resolution
  import opened Registration
  import opened ModuleTree

  // ---------- what one option leaves behind ----------

  /**
   * A provider is registered last, under the scope of its module, which is where its own
   * dependencies will be resolved. A private one is what its scope finds under its type and the
   * `Arc` of it; a public one is what every scope finds that has no private entry on its way up.
   */
  lemma ProvidedHere(c: Record, p: UserProvider, isPrivate: bool, scope: ScopeId, id: Ty, from: ScopeId)
    requires scope < |c.w.chains| && from < |c.w.chains| && ChainsWf(c.w.chains)
    requires Registered(c, Provide(p, isPrivate), scope).Ok? && (id == p.result || id == ArcOf(p.result))
    ensures var c', k := Registered(c, Provide(p, isPrivate), scope).value, Key(p.result, scope, isPrivate, 0);
            && c'.w.providers == c.w.providers[k := p] && c'.w.order == c.w.order + [k] && c'.v == c.v
            && c'.w.chains == c.w.chains && c'.w.groups == c.w.groups
            && (isPrivate ==> Bind(c'.w, c'.v, id, scope) == ProvidedBy(k))
            && (!isPrivate && NothingPrivate(c'.w, c'.v, id, c.w.chains[from]) ==> Bind(c'.w, c'.v, id, from) == ProvidedBy(k))
  {
    hide ProviderWf, Mark;
    var c' := Registered(c, Provide(p, isPrivate), scope).value;
    TypeIsNoArc(p.result);
    if isPrivate {
      NearestPrivateWins(c'.w, c'.v, id, c.w.chains[scope], 0);
    } else if NothingPrivate(c'.w, c'.v, id, c.w.chains[from]) {
      PublicOtherwise(c'.w, c'.v, id, c.w.chains[from]);
    }
  }

  /** A supplied value is handed out as it is under its type, and as a handle under the `Arc` of it. */
  lemma SuppliedHere(c: Record, ty: Ty, n: nat, isPrivate: bool, scope: ScopeId, id: Ty, from: ScopeId, t: Term)
    requires scope < |c.w.chains| && from < |c.w.chains| && ChainsWf(c.w.chains) && KeysWf(c.w)
    requires Registered(c, Supply(ty, n, isPrivate), scope).Ok? && (id == ty || id == ArcOf(ty))
    ensures var c' := Registered(c, Supply(ty, n, isPrivate), scope).value;
            && c'.w == c.w.(marks := c'.w.marks)
            && (isPrivate ==> (DepDenotes(c'.w, c'.v, id, scope, t) <==> t == if id == ty then Supplied(n) else Handle(Supplied(n))))
            && (!isPrivate && NothingPrivate(c'.w, c'.v, id, c.w.chains[from]) ==>
                  (DepDenotes(c'.w, c'.v, id, from, t) <==> t == if id == ty then Supplied(n) else Handle(Supplied(n))))
  {
    hide Mark, DepDenotes;
    var c' := Registered(c, Supply(ty, n, isPrivate), scope).value;
    if isPrivate {
      SuppliedIsHandedOut(c'.w, c.v, ty, n, scope, isPrivate, id, scope, 0, t);
    } else if NothingPrivate(c'.w, c'.v, id, c.w.chains[from]) {
      SuppliedIsHandedOut(c'.w, c.v, ty, n, scope, isPrivate, id, from, 0, t);
    }
  }

  /** A member comes last in its group and in the registration order, under the scope of its module. */
  lemma MemberHere(c: Record, p: UserProvider, scope: ScopeId)
    requires scope < |c.w.chains| && Registered(c, ProvideGroup(p), scope).Ok?
    ensures var w', k := Registered(c, ProvideGroup(p), scope).value.w, Key(p.result, scope, false, c.w.groups.nextMemberId + 1);
            && k in w'.providers && w'.providers[k] == p
            && w'.order == c.w.order + (if p.result in c.w.groups.registrations then [] else [VirtualKey(p.result)]) + [k]
            && MembersOf(w'.groups, p.result) == MembersOf(c.w.groups, p.result) + [k]
            && forall e :: e != p.result ==> MembersOf(w'.groups, e) == MembersOf(c.w.groups, e)
  {
  }

  // ---------- what a list of options leaves alone ----------

  /** Nothing that is private to a scope below `n` has changed. */
  ghost predicate SamePrivate(c: Record, c': Record, n: nat) {
    && (forall id, s: ScopeId :: s < n ==>
          ((id, s) in c'.v.priv <==> (id, s) in c.v.priv) && ((id, s) in c.v.priv ==> c'.v.priv[(id, s)] == c.v.priv[(id, s)]))
    && (forall id, s: ScopeId :: s < n ==> (PrivateKey(id, s) in c'.w.providers <==> PrivateKey(id, s) in c.w.providers))
    && (forall id, s: ScopeId :: s < n ==>
          ((id, s) in c'.w.privateAlias <==> (id, s) in c.w.privateAlias)
          && ((id, s) in c.w.privateAlias ==> c'.w.privateAlias[(id, s)] == c.w.privateAlias[(id, s)]))
  }

  /** Scopes and registrations are only added, at the end, and nothing private to a scope below `n`. */
  ghost predicate Grown(c: Record, c': Record, n: nat) {
    c.w.chains <= c'.w.chains && c.w.order <= c'.w.order && SamePrivate(c, c', n)
  }

  lemma ProviderGrows(c: Record, p: Provider, scope: ScopeId, isPrivate: bool, n: nat)
    requires isPrivate ==> n <= scope
    ensures Grown(c, c.(w := WithProvider(c.w, p, scope, isPrivate)), n)
  {
    hide Mark;
  }

  lemma SupplyGrows(c: Record, c': Record, ty: Ty, t: Term, scope: ScopeId, isPrivate: bool, n: nat)
    requires isPrivate ==> n <= scope
    requires c' == Record(c.w.(marks := c'.w.marks), StoreBoth(c.v, ty, t, scope, isPrivate))
    ensures Grown(c, c', n)
  {
  }

  lemma GroupGrows(c: Record, e: Ty, n: nat)
    requires WithGroup(c, e).Ok?
    ensures Grown(c, WithGroup(c, e).value, n) && |WithGroup(c, e).value.w.chains| == |c.w.chains|
  {
    hide Grown, WithProvider, Occupied;
    ProviderGrows(c, AggregateProvider(e), ROOT, false, n);
    GroupsAside(c, c.(w := WithProvider(c.w, AggregateProvider(e), ROOT, false)), WithGroup(c, e).value, n);
    GroupsAside(c, c, c, n);
  }

  /** The group tables are no one's private entries. */
  lemma GroupsAside(c: Record, c': Record, c'': Record, n: nat)
    ensures Grown(c, c, n)
    ensures Grown(c, c', n) && c'' == c'.(w := c'.w.(groups := c''.w.groups)) ==> Grown(c, c'', n)
  {
  }

  lemma MemberGrows(c: Record, p: UserProvider, scope: ScopeId, n: nat)
    ensures Grown(c, c.(w := WithMember(c.w, p, scope)), n)
  {
  }

  lemma LeafGrows(c: Record, o: ModOption, scope: ScopeId, n: nat)
    requires n <= scope < |c.w.chains| && !o.Module? && Registered(c, o, scope).Ok?
    ensures Grown(c, Registered(c, o, scope).value, n)
  {
    hide Mark, Occupied, Grown, WithProvider, WithMember, WithGroup, StoreBoth;
    var c' := Registered(c, o, scope).value;
    match o
    case Provide(p, isPrivate) => ProviderGrows(c, p, scope, isPrivate, n);
    case Supply(ty, v, isPrivate) => SupplyGrows(c, c', ty, Supplied(v), scope, isPrivate, n);
    case ProvideGroup(p) =>
      GroupGrows(c, p.result, n);
      MemberGrows(WithGroup(c, p.result).value, p, scope, n);
      GrownTwice(c, WithGroup(c, p.result).value, c', n);
    case InitGroup(e) => GroupGrows(c, e, n);
    case RequireGroup(e) =>
      GroupGrows(c, e, n);
      GroupsAside(c, WithGroup(c, e).value, c', n);
    case Invoke(_, _) => GroupsAside(c, c, c, n);
  }

  lemma {:induction false} OptionGrows(c: Record, o: ModOption, scope: ScopeId, n: nat)
    requires n <= scope < |c.w.chains| && Registered(c, o, scope).Ok?
    ensures Grown(c, Registered(c, o, scope).value, n)
    decreases o, 0
  {
    hide SamePrivate;
    if o.Module? {
      var child := |c.w.chains|;
      var inner := c.(w := c.w.(chains := c.w.chains + [[child] + c.w.chains[scope]]));
      assert SamePrivate(c, inner, n) by { OnlyScopeAdded(c, inner, n); }
      OptionsGrow(inner, o.options, child, n);
      GrownTwice(c, inner, Registered(c, o, scope).value, n);
    } else {
      LeafGrows(c, o, scope, n);
    }
  }

  lemma OnlyScopeAdded(c: Record, c': Record, n: nat)
    requires c'.v == c.v && c'.w.providers == c.w.providers && c'.w.privateAlias == c.w.privateAlias
    ensures SamePrivate(c, c', n)
  {
  }

  lemma GrownTwice(c: Record, c': Record, c'': Record, n: nat)
    requires Grown(c, c', n) && Grown(c', c'', n)
    ensures Grown(c, c'', n)
  {
  }

  lemma {:induction false} OptionsGrow(c: Record, os: seq<ModOption>, scope: ScopeId, n: nat)
    requires n <= scope < |c.w.chains| && RegisteredAll(c, os, scope).Ok?
    ensures Grown(c, RegisteredAll(c, os, scope).value, n)
    decreases os, 1, |os|
  {
    hide SamePrivate;
    if os == [] {
      OnlyScopeAdded(c, c, n);
    } else {
      var before := RegisteredAll(c, os[..|os|-1], scope).value;
      OptionsGrow(c, os[..|os|-1], scope, n);
      OptionGrows(before, os[|os|-1], scope, n);
      GrownTwice(c, before, RegisteredAll(c, os, scope).value, n);
    }
  }

  /** Options register in their order: what an earlier one has registered stays before what later ones do. */
  lemma {:induction false} EarlierComesFirst(c: Record, os: seq<ModOption>, scope: ScopeId, i: nat)
    requires scope < |c.w.chains| && i <= |os| && RegisteredAll(c, os, scope).Ok?
    ensures RegisteredAll(c, os[..i], scope).Ok?
    ensures RegisteredAll(c, os[..i], scope).value.w.order <= RegisteredAll(c, os, scope).value.w.order
  {
    hide Grown;
    if i < |os| {
      assert os[..|os|-1][..i] == os[..i];
      EarlierComesFirst(c, os[..|os|-1], scope, i);
      var before, after := RegisteredAll(c, os[..|os|-1], scope).value, RegisteredAll(c, os, scope).value;
      OptionGrows(before, os[|os|-1], scope, 0);
      assert before.w.order <= after.w.order by { OrderGrown(before, after, 0); }
    } else {
      assert os[..i] == os;
    }
  }

  lemma OrderGrown(c: Record, c': Record, n: nat)
    requires Grown(c, c', n)
    ensures c.w.order <= c'.w.order
  {
  }

  // ---------- modules ----------

  /** A module gets one new scope below the one it is used in, so whatever is found from there is found from it. */
  lemma ModuleScopeIsBelow(c: Record, name: string, os: seq<ModOption>, scope: ScopeId)
    requires scope < |c.w.chains| && Registered(c, Module(name, os), scope).Ok?
    ensures var w' := Registered(c, Module(name, os), scope).value.w;
            |c.w.chains| < |w'.chains| && c.w.chains <= w'.chains
            && w'.chains[|c.w.chains|] == [|c.w.chains|] + c.w.chains[scope]
  {
    var child := |c.w.chains|;
    var inner := c.(w := c.w.(chains := c.w.chains + [[child] + c.w.chains[scope]]));
    OptionsGrow(inner, os, child, 0);
    assert inner.w.chains[child] == [child] + c.w.chains[scope];
  }

  /**
   * A module's private entries are its own: from every scope there was before, a type that was
   * bound privately is bound as it was, and any other to what is public.
   */
  lemma ModuleHidesPrivate(c: Record, name: string, os: seq<ModOption>, scope: ScopeId, id: Ty, from: ScopeId)
    requires scope < |c.w.chains| && from < |c.w.chains| && ChainsWf(c.w.chains)
    requires Registered(c, Module(name, os), scope).Ok?
    ensures var c' := Registered(c, Module(name, os), scope).value;
            && from < |c'.w.chains|
            && if NothingPrivate(c.w, c.v, id, c.w.chains[from]) then
                 Bind(c'.w, c'.v, id, from) ==
                 if id in c'.v.pub then Cached(c'.v.pub[id])
                 else if id in c'.w.publicIndex then ProvidedBy(c'.w.publicIndex[id])
                 else Unbound
               else Bind(c'.w, c'.v, id, from) == Bind(c.w, c.v, id, from)
  {
    var n := |c.w.chains|;
    var inner := c.(w := c.w.(chains := c.w.chains + [[n] + c.w.chains[scope]]));
    var c' := Registered(c, Module(name, os), scope).value;
    OnlyScopeAdded(c, inner, n);
    OptionsGrow(inner, os, n, n);
    GrownTwice(c, inner, c', n);
    assert c'.w.chains[from] == c.w.chains[from];
    ChainStaysBelow(c.w.chains, from, n);
    PrivateUnchanged(c, c', id, c.w.chains[from], n);
  }

  lemma ChainStaysBelow(chains: seq<seq<ScopeId>>, from: ScopeId, n: nat)
    requires ChainsWf(chains) && from < |chains| == n
    ensures forall s :: s in chains[from] ==> s < n
  {
    var chain := chains[from];
    forall i | 0 <= i < |chain|
      ensures chain[i] < n
    {
      assert ChainWf(chain, from);
    }
  }

  lemma PrivateUnchanged(c: Record, c': Record, id: Ty, chain: seq<ScopeId>, n: nat)
    requires SamePrivate(c, c', n) && forall s :: s in chain ==> s < n
    ensures NothingPrivate(c'.w, c'.v, id, chain) <==> NothingPrivate(c.w, c.v, id, chain)
    ensures NothingPrivate(c.w, c.v, id, chain) ==>
              BindIn(c'.w, c'.v, id, chain) ==
              if id in c'.v.pub then Cached(c'.v.pub[id])
              else if id in c'.w.publicIndex then ProvidedBy(c'.w.publicIndex[id])
              else Unbound
    ensures !NothingPrivate(c.w, c.v, id, chain) ==> BindIn(c'.w, c'.v, id, chain) == BindIn(c.w, c.v, id, chain)
  {
    assert forall s :: s in chain ==> (HasPrivate(c'.w, c'.v, id, s) <==> HasPrivate(c.w, c.v, id, s));
    if NothingPrivate(c.w, c.v, id, chain) {
      PublicOtherwise(c'.w, c'.v, id, chain);
    } else {
      PrivateOrNot(c.w, c.v, id, chain);
      var i: nat :| Nearest(c.w, c.v, id, chain, i);
      assert forall j :: 0 <= j <= i ==> chain[j] in chain;
      assert Nearest(c'.w, c'.v, id, chain, i);
      NearestPrivateWins(c.w, c.v, id, chain, i);
      NearestPrivateWins(c'.w, c'.v, id, chain, i);
    }
  }

  // ---------- required groups ----------

  /** Whether an option, or one inside it, requires the group of `e` to have members. */
  predicate RequiresGroup(o: ModOption, e: Ty)
    decreases o
  {
    match o
    case RequireGroup(x) => x == e
    case Module(_, os) => exists i :: 0 <= i < |os| && RequiresGroup(os[i], e)
    case _ => false
  }

  ghost predicate Requires(os: seq<ModOption>, e: Ty) {
    exists i :: 0 <= i < |os| && RequiresGroup(os[i], e)
  }

  /** Required groups are those that some option of the tree requires. */
  lemma {:induction false} RequiredByOption(c: Record, o: ModOption, scope: ScopeId, e: Ty)
    requires scope < |c.w.chains| && Registered(c, o, scope).Ok?
    ensures e in Registered(c, o, scope).value.w.groups.required <==> e in c.w.groups.required || RequiresGroup(o, e)
    decreases o, 0
  {
    hide Mark, Occupied;
    if o.Module? {
      var child := |c.w.chains|;
      RequiredByOptions(c.(w := c.w.(chains := c.w.chains + [[child] + c.w.chains[scope]])), o.options, child, e);
    }
  }

  lemma {:induction false} RequiredByOptions(c: Record, os: seq<ModOption>, scope: ScopeId, e: Ty)
    requires scope < |c.w.chains| && RegisteredAll(c, os, scope).Ok?
    ensures e in RegisteredAll(c, os, scope).value.w.groups.required <==> e in c.w.groups.required || Requires(os, e)
    decreases os, 1, |os|
  {
    if os != [] {
      var before, last := os[..|os|-1], os[|os|-1];
      RequiredByOptions(c, before, scope, e);
      RequiredByOption(RegisteredAll(c, before, scope).value, last, scope, e);
      assert Requires(os, e) <==> Requires(before, e) || RequiresGroup(last, e) by {
        assert os == before + [last];
        if i :| 0 <= i < |before| && RequiresGroup(before[i], e) {
          assert RequiresGroup(os[i], e);
        }
      }
    }
  }
}
