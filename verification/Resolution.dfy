/**
 * What a dependency means: the binding a type resolves to from a scope, the dependency graph
 * this induces, the value each provider stands for, and what the caches hold.
 */
module Resolution {
  import opened Types
  import opened Digraph
  import opened Scopes

  /** What a type resolves to: a cached value, a provider still to run, or nothing. */
  datatype Binding = Cached(stored: Stored) | ProvidedBy(key: Key) | Unbound

  /** The nearest private binding along `chain`, else the public one. Values shadow providers. */
  function BindIn(w: Wiring, v: Values, id: Ty, chain: seq<ScopeId>): Binding {
    if chain == [] then
      if id in v.pub then Cached(v.pub[id])
      else if id in w.publicIndex then ProvidedBy(w.publicIndex[id])
      else Unbound
    else
      var s := chain[0];
      if (id, s) in v.priv then Cached(v.priv[(id, s)])
      else if PrivateKey(id, s) in w.providers then ProvidedBy(PrivateKey(id, s))
      else if (id, s) in w.privateAlias then ProvidedBy(w.privateAlias[(id, s)])
      else BindIn(w, v, id, chain[1..])
  }

  function Bind(w: Wiring, v: Values, id: Ty, from: ScopeId): Binding
    requires from < |w.chains|
  {
    BindIn(w, v, id, w.chains[from])
  }

  // ---------- shadowing ----------

  /** Something is filed under `id` for scope `s` alone. */
  ghost predicate HasPrivate(w: Wiring, v: Values, id: Ty, s: ScopeId) {
    (id, s) in v.priv || PrivateKey(id, s) in w.providers || (id, s) in w.privateAlias
  }

  /** `chain[i]` is the nearest scope that has something filed under `id`. */
  ghost predicate Nearest(w: Wiring, v: Values, id: Ty, chain: seq<ScopeId>, i: nat) {
    i < |chain| && HasPrivate(w, v, id, chain[i]) && forall j :: 0 <= j < i ==> !HasPrivate(w, v, id, chain[j])
  }

  ghost predicate NothingPrivate(w: Wiring, v: Values, id: Ty, chain: seq<ScopeId>) {
    forall s :: s in chain ==> !HasPrivate(w, v, id, s)
  }

  lemma {:induction false} PrivateOrNot(w: Wiring, v: Values, id: Ty, chain: seq<ScopeId>)
    ensures NothingPrivate(w, v, id, chain) <==> !exists i: nat :: Nearest(w, v, id, chain, i)
  {
    hide HasPrivate;
    if chain != [] {
      var s, rest := chain[0], chain[1..];
      assert chain == [s] + rest;
      PrivateOrNot(w, v, id, rest);
      if HasPrivate(w, v, id, s) {
        assert Nearest(w, v, id, chain, 0);
      } else if i: nat :| Nearest(w, v, id, rest, i) {
        assert Nearest(w, v, id, chain, i + 1);
      }
    }
  }

  /** The nearest private entry wins, whatever is public and whatever lies further up. */
  lemma {:induction false} NearestPrivateWins(w: Wiring, v: Values, id: Ty, chain: seq<ScopeId>, i: nat)
    requires Nearest(w, v, id, chain, i)
    ensures BindIn(w, v, id, chain) ==
            if (id, chain[i]) in v.priv then Cached(v.priv[(id, chain[i])])
            else if PrivateKey(id, chain[i]) in w.providers then ProvidedBy(PrivateKey(id, chain[i]))
            else ProvidedBy(w.privateAlias[(id, chain[i])])
  {
    if i > 0 {
      assert !HasPrivate(w, v, id, chain[0]);
      assert forall j :: 0 <= j < i ==> chain[1..][j] == chain[j+1];
      NearestPrivateWins(w, v, id, chain[1..], i - 1);
    }
  }

  /** With nothing private on the chain the public entry is the answer. */
  lemma {:induction false} PublicOtherwise(w: Wiring, v: Values, id: Ty, chain: seq<ScopeId>)
    requires NothingPrivate(w, v, id, chain)
    ensures BindIn(w, v, id, chain) ==
            if id in v.pub then Cached(v.pub[id])
            else if id in w.publicIndex then ProvidedBy(w.publicIndex[id])
            else Unbound
  {
    if chain != [] {
      assert chain[0] in chain && forall s :: s in chain[1..] ==> s in chain;
      PublicOtherwise(w, v, id, chain[1..]);
    }
  }

  /** A public provider is the answer exactly if no scope on the chain has a private entry and no public value is there. */
  lemma PublicExactlyIfUnshadowed(w: Wiring, v: Values, id: Ty, chain: seq<ScopeId>)
    requires PublicWf(w) && PrivateWf(w)
    ensures var b := BindIn(w, v, id, chain);
            b.ProvidedBy? && !b.key.isPrivate <==> NothingPrivate(w, v, id, chain) && id !in v.pub && id in w.publicIndex
  {
    PrivateOrNot(w, v, id, chain);
    if i: nat :| Nearest(w, v, id, chain, i) {
      NearestPrivateWins(w, v, id, chain, i);
    } else {
      PublicOtherwise(w, v, id, chain);
    }
  }

  // ---------- what registration guarantees ----------

  ghost predicate KeysWf(w: Wiring) {
    ProvidersWf(w.providers, |w.chains|)
  }

  ghost predicate ProvidersWf(providers: map<Key, Provider>, scopes: nat) {
    forall k :: k in providers ==> ProviderWf(k, providers[k], scopes)
  }

  predicate ProviderWf(k: Key, p: Provider, scopes: nat) {
    k.scope < scopes && p.result == k.ty && (k.ordinal > 0 ==> !k.isPrivate)
  }

  /** At most one public binding per type; the `Arc` alias points at the same live provider. */
  ghost predicate PublicWf(w: Wiring) {
    PublicIndexWf(w.publicIndex, w.providers.Keys)
  }

  ghost predicate PublicIndexWf(index: map<Ty, Key>, keys: set<Key>) {
    && (forall id :: id in index ==>
          var k := index[id];
          k in keys && !k.isPrivate && k.ordinal == 0 && (id == k.ty || id == ArcOf(k.ty)))
    && (forall k :: k in keys && !k.isPrivate && k.ordinal == 0 ==>
          k.ty in index && index[k.ty] == k && ArcOf(k.ty) in index && index[ArcOf(k.ty)] == k)
  }

  /** At most one private binding per type and scope, with its alias pointing at it. */
  ghost predicate PrivateWf(w: Wiring) {
    PrivateAliasWf(w.privateAlias, w.providers.Keys)
  }

  ghost predicate PrivateAliasWf(aliases: map<(Ty, ScopeId), Key>, keys: set<Key>) {
    && (forall id, s :: (id, s) in aliases ==>
          var k := aliases[(id, s)];
          k in keys && k == PrivateKey(k.ty, s) && id == ArcOf(k.ty) && PrivateKey(id, s) !in keys)
    && (forall k :: k in keys && k.isPrivate ==>
          k.ordinal == 0 && (ArcOf(k.ty), k.scope) in aliases && aliases[(ArcOf(k.ty), k.scope)] == k)
  }

  ghost predicate OrderWf(w: Wiring) {
    OrderListWf(w.order, w.orderIndex, w.providers.Keys)
  }

  ghost predicate OrderListWf(order: seq<Key>, index: map<Key, nat>, keys: set<Key>) {
    && NoDup(order)
    && (forall k :: k in order <==> k in keys)
    && index.Keys == keys
    && (forall i :: 0 <= i < |order| ==> order[i] in index && index[order[i]] == i)
  }

  /** Registered groups have one aggregate provider, found under both group types. */
  ghost predicate AggregatesWf(w: Wiring) {
    && RegistrationsWf(w.groups, w.providers)
    && GroupIndexesWf(w.groups)
    && AggregateBodiesWf(w.groups, w.providers)
  }

  ghost predicate RegistrationsWf(g: Groups, providers: map<Key, Provider>) {
    forall e :: e in g.registrations ==> RegistrationWf(g, providers, e)
  }

  ghost predicate GroupIndexesWf(g: Groups) {
    && (forall k :: k in g.virtualToElement ==>
          var e := g.virtualToElement[k]; e in g.registrations && k == VirtualKey(e))
    && (forall id :: id in g.byType ==>
          var e := g.byType[id];
          e in g.registrations && (id == GroupOf(e) || id == ArcOf(GroupOf(e))))
    && g.required <= g.registrations.Keys
  }

  ghost predicate AggregateBodiesWf(g: Groups, providers: map<Key, Provider>) {
    forall k :: k in providers && providers[k].body.AggregateOf? ==>
      k == VirtualKey(providers[k].body.element) && k in g.virtualToElement
  }

  ghost predicate RegistrationWf(g: Groups, providers: map<Key, Provider>, e: Ty)
    requires e in g.registrations
  {
    && g.registrations[e] == VirtualKey(e)
    && VirtualKey(e) in providers
    && providers[VirtualKey(e)] == Provider(GroupOf(e), [], AggregateOf(e))
    && VirtualKey(e) in g.virtualToElement && g.virtualToElement[VirtualKey(e)] == e
    && GroupOf(e) in g.byType && g.byType[GroupOf(e)] == e
    && ArcOf(GroupOf(e)) in g.byType && g.byType[ArcOf(GroupOf(e))] == e
  }

  predicate MemberOf(e: Ty, m: Key, lastId: nat) {
    m.ty == e && !m.isPrivate && 0 < m.ordinal <= lastId
  }

  /** Member keys in registration order: ordinals and positions both increase. */
  ghost predicate MemberList(list: seq<Key>, e: Ty, lastId: nat, index: map<Key, nat>) {
    && (forall m :: m in list ==> MemberOf(e, m, lastId) && m in index)
    && (forall i, j :: 0 <= i < j < |list| ==>
          list[i].ordinal < list[j].ordinal && list[i] in index && list[j] in index && index[list[i]] < index[list[j]])
  }

  /** Member lists hold exactly the member keys. */
  ghost predicate MembersWf(w: Wiring) {
    MemberListsWf(w.groups, w.orderIndex, w.providers.Keys)
  }

  ghost predicate MemberListsWf(g: Groups, index: map<Key, nat>, keys: set<Key>) {
    && (forall e :: e in g.members ==> e in g.registrations && MemberList(g.members[e], e, g.nextMemberId, index))
    && (forall k :: k in keys && k.ordinal > 0 ==> k.ordinal <= g.nextMemberId && k in MembersOf(g, k.ty))
  }

  ghost predicate Wf(w: Wiring) {
    && ChainsWf(w.chains)
    && KeysWf(w)
    && PublicWf(w)
    && PrivateWf(w)
    && OrderWf(w)
    && AggregatesWf(w)
    && MembersWf(w)
  }

  /** A supplied value never shares its slot with a provider. */
  ghost predicate SuppliedWf(w: Wiring, supplied: Values) {
    && (forall id :: id in supplied.pub ==> id !in w.publicIndex)
    && (forall id, s :: (id, s) in supplied.priv ==>
          PrivateKey(id, s) !in w.providers && (id, s) !in w.privateAlias)
  }

  predicate Marked(marks: seq<bool>, s: ScopeId) {
    s < |marks| && marks[s]
  }

  /** The bitmap covers every scope with a private binding, so skipping an unmarked one is safe. */
  ghost predicate MarksWf(w: Wiring, v: Values) {
    && (forall id, s :: (id, s) in v.priv ==> Marked(w.marks, s))
    && (forall k :: k in w.providers && k.isPrivate ==> Marked(w.marks, k.scope))
    && (forall id, s :: (id, s) in w.privateAlias ==> Marked(w.marks, s))
  }

  /** An unmarked scope contributes nothing to resolution. */
  lemma SkipUnmarked(w: Wiring, v: Values, id: Ty, chain: seq<ScopeId>)
    requires MarksWf(w, v) && chain != [] && !Marked(w.marks, chain[0])
    ensures BindIn(w, v, id, chain) == BindIn(w, v, id, chain[1..])
  {
    assert !PrivateKey(id, chain[0]).isPrivate || PrivateKey(id, chain[0]) !in w.providers;
  }

  // ---------- the dependency graph ----------

  /** The providers that `deps` still need from `from`, in order and with multiplicity. */
  function DepTargets(w: Wiring, v: Values, deps: seq<Ty>, from: ScopeId): seq<Key>
    requires from < |w.chains|
  {
    if deps == [] then []
    else
      var rest := DepTargets(w, v, deps[1..], from);
      var b := Bind(w, v, deps[0], from);
      if b.ProvidedBy? then [b.key] + rest else rest
  }

  /** The members an aggregate provider waits for; nothing for any other key. */
  function GroupTargets(w: Wiring, k: Key): seq<Key> {
    if k in w.groups.virtualToElement then MembersOf(w.groups, w.groups.virtualToElement[k]) else []
  }

  ghost function Targets(w: Wiring, v: Values, k: Key): seq<Key>
    requires KeysWf(w) && k in w.providers
  {
    DepTargets(w, v, w.providers[k].deps, k.scope) + GroupTargets(w, k)
  }

  ghost function GraphOf(w: Wiring, v: Values): Graph
    requires KeysWf(w)
  {
    Graph(w.order, map k | k in w.providers :: Targets(w, v, k))
  }

  lemma {:induction false} BindingIsLive(w: Wiring, v: Values, id: Ty, chain: seq<ScopeId>)
    requires PublicWf(w) && PrivateWf(w)
    ensures var b := BindIn(w, v, id, chain);
            b.ProvidedBy? ==> b.key in w.providers && !b.key.IsGroupMember() && (id == b.key.ty || id == ArcOf(b.key.ty))
  {
    if chain != [] {
      BindingIsLive(w, v, id, chain[1..]);
    }
  }

  lemma {:induction false} DepTargetsAre(w: Wiring, v: Values, deps: seq<Ty>, from: ScopeId)
    requires PublicWf(w) && PrivateWf(w) && from < |w.chains|
    ensures forall e :: e in DepTargets(w, v, deps, from) <==>
                        exists i :: 0 <= i < |deps| && Bind(w, v, deps[i], from) == ProvidedBy(e)
    ensures forall e :: e in DepTargets(w, v, deps, from) ==> e in w.providers && !e.IsGroupMember()
  {
    if deps != [] {
      var rest := DepTargets(w, v, deps[1..], from);
      DepTargetsAre(w, v, deps[1..], from);
      BindingIsLive(w, v, deps[0], w.chains[from]);
      forall e
        ensures e in DepTargets(w, v, deps, from) <==>
                exists i :: 0 <= i < |deps| && Bind(w, v, deps[i], from) == ProvidedBy(e)
      {
        if e in rest {
          var i :| 0 <= i < |deps[1..]| && Bind(w, v, deps[1..][i], from) == ProvidedBy(e);
          assert Bind(w, v, deps[i+1], from) == ProvidedBy(e);
        }
        if i :| 0 <= i < |deps| && Bind(w, v, deps[i], from) == ProvidedBy(e) {
          if i > 0 {
            assert deps[1..][i-1] == deps[i];
            assert e in rest;
          }
        }
      }
    }
  }

  lemma GraphIsWellFormed(w: Wiring, v: Values)
    requires Wf(w)
    ensures KeysWf(w)
    ensures GraphOf(w, v).WellFormed()
  {
    var g := GraphOf(w, v);
    forall k, e | k in g.deps && e in g.deps[k]
      ensures e in g.deps
    {
      DepTargetsAre(w, v, w.providers[k].deps, k.scope);
    }
  }

  /** Group members are depended on by their aggregate alone. */
  lemma OnlyAggregatesNeedMembers(w: Wiring, v: Values, k: Key, m: Key)
    requires Wf(w) && k in w.providers && m in Targets(w, v, k) && m.IsGroupMember()
    ensures k == VirtualKey(m.ty) && m in MembersOf(w.groups, m.ty)
  {
    DepTargetsAre(w, v, w.providers[k].deps, k.scope);
    var e := w.groups.virtualToElement[k];
    MemberListWf(w, e);
  }

  lemma MemberListWf(w: Wiring, e: Ty)
    requires OrderWf(w) && MembersWf(w)
    ensures NoDup(MembersOf(w.groups, e))
    ensures forall m :: m in MembersOf(w.groups, e) <==> m in w.providers && m.IsGroupMember() && m.ty == e
  {
  }

  // ---------- the value a provider stands for ----------

  /**
   * Naive recursive evaluation with a bound on the depth: resolve each dependency from the
   * provider's own scope, evaluate what it resolves to, and apply the constructor.
   */
  ghost function Eval(w: Wiring, supplied: Values, fuel: nat, k: Key): Option<Term>
    requires KeysWf(w)
    decreases fuel, 0
  {
    if fuel == 0 || k !in w.providers then None
    else
      match w.providers[k].body
      case TakeOnce(n) => Some(Term.Supplied(n))
      case Constructor(_) =>
        var args := EvalDeps(w, supplied, fuel - 1, w.providers[k].deps, k.scope);
        if args.Some? then Some(App(k, args.value)) else None
      case AggregateOf(e) =>
        var items := EvalKeys(w, supplied, fuel - 1, MembersOf(w.groups, e));
        if items.Some? then Some(Aggregate(items.value)) else None
  }

  ghost function EvalDep(w: Wiring, supplied: Values, fuel: nat, id: Ty, from: ScopeId): Option<Term>
    requires KeysWf(w) && from < |w.chains|
    decreases fuel, 1
  {
    match Bind(w, supplied, id, from)
    case Cached(x) => Some(x.Injected())
    case ProvidedBy(k) =>
      var t := Eval(w, supplied, fuel, k);
      if t.Some? then Some(Stored(t.value, id != k.ty).Injected()) else None
    case Unbound => None
  }

  ghost function EvalDeps(w: Wiring, supplied: Values, fuel: nat, deps: seq<Ty>, from: ScopeId): (r: Option<seq<Term>>)
    requires KeysWf(w) && from < |w.chains|
    ensures r.Some? ==> |r.value| == |deps|
    decreases fuel, 2, |deps|
  {
    if deps == [] then Some([])
    else
      var first := EvalDep(w, supplied, fuel, deps[0], from);
      var rest := EvalDeps(w, supplied, fuel, deps[1..], from);
      if first.Some? && rest.Some? then Some([first.value] + rest.value) else None
  }

  ghost function EvalKeys(w: Wiring, supplied: Values, fuel: nat, keys: seq<Key>): (r: Option<seq<Term>>)
    requires KeysWf(w)
    ensures r.Some? ==> |r.value| == |keys|
    decreases fuel, 2, |keys|
  {
    if keys == [] then Some([])
    else
      var first := Eval(w, supplied, fuel, keys[0]);
      var rest := EvalKeys(w, supplied, fuel, keys[1..]);
      if first.Some? && rest.Some? then Some([first.value] + rest.value) else None
  }

  lemma {:induction false} MoreFuel(w: Wiring, supplied: Values, fuel: nat, more: nat, k: Key)
    requires KeysWf(w) && fuel <= more && Eval(w, supplied, fuel, k).Some?
    ensures Eval(w, supplied, more, k) == Eval(w, supplied, fuel, k)
    decreases fuel, 0
  {
    match w.providers[k].body
    case TakeOnce(n) =>
    case Constructor(_) => MoreFuelDeps(w, supplied, fuel - 1, more - 1, w.providers[k].deps, k.scope);
    case AggregateOf(e) => MoreFuelKeys(w, supplied, fuel - 1, more - 1, MembersOf(w.groups, e));
  }

  lemma {:induction false} MoreFuelDeps(w: Wiring, supplied: Values, fuel: nat, more: nat, deps: seq<Ty>, from: ScopeId)
    requires KeysWf(w) && from < |w.chains| && fuel <= more && EvalDeps(w, supplied, fuel, deps, from).Some?
    ensures EvalDeps(w, supplied, more, deps, from) == EvalDeps(w, supplied, fuel, deps, from)
    decreases fuel, 1, |deps|
  {
    if deps != [] {
      var b := Bind(w, supplied, deps[0], from);
      if b.ProvidedBy? {
        MoreFuel(w, supplied, fuel, more, b.key);
      }
      MoreFuelDeps(w, supplied, fuel, more, deps[1..], from);
    }
  }

  lemma {:induction false} MoreFuelKeys(w: Wiring, supplied: Values, fuel: nat, more: nat, keys: seq<Key>)
    requires KeysWf(w) && fuel <= more && EvalKeys(w, supplied, fuel, keys).Some?
    ensures EvalKeys(w, supplied, more, keys) == EvalKeys(w, supplied, fuel, keys)
    decreases fuel, 1, |keys|
  {
    if keys != [] {
      MoreFuel(w, supplied, fuel, more, keys[0]);
      MoreFuelKeys(w, supplied, fuel, more, keys[1..]);
    }
  }

  ghost predicate Denotes(w: Wiring, supplied: Values, k: Key, t: Term)
    requires KeysWf(w)
  {
    exists fuel: nat :: Eval(w, supplied, fuel, k) == Some(t)
  }

  /** A one-shot provider stands for the value it was registered with. */
  lemma OneShotDenotes(w: Wiring, supplied: Values, k: Key, n: nat, t: Term)
    requires KeysWf(w) && k in w.providers && w.providers[k].body == TakeOnce(n)
    ensures Denotes(w, supplied, k, t) <==> t == Term.Supplied(n)
  {
    assert Eval(w, supplied, 1, k) == Some(Term.Supplied(n));
    if Denotes(w, supplied, k, t) {
      DenotesOnce(w, supplied, k, t, Term.Supplied(n));
    }
  }

  /** A provider stands for at most one value, however deep the evaluation may go. */
  lemma DenotesOnce(w: Wiring, supplied: Values, k: Key, t: Term, u: Term)
    requires KeysWf(w) && Denotes(w, supplied, k, t) && Denotes(w, supplied, k, u)
    ensures t == u
  {
    var f: nat :| Eval(w, supplied, f, k) == Some(t);
    var h: nat :| Eval(w, supplied, h, k) == Some(u);
    if f <= h {
      MoreFuel(w, supplied, f, h, k);
    } else {
      MoreFuel(w, supplied, h, f, k);
    }
  }

  /** `t` is what a dependency on `id` from `from` should be given. */
  ghost predicate DepDenotes(w: Wiring, supplied: Values, id: Ty, from: ScopeId, t: Term)
    requires KeysWf(w) && from < |w.chains|
  {
    match Bind(w, supplied, id, from)
    case Cached(x) => t == x.Injected()
    case ProvidedBy(k) => exists u :: Denotes(w, supplied, k, u) && t == Stored(u, id != k.ty).Injected()
    case Unbound => false
  }

  /** A dependency on the type itself is given what the provider stands for, one on its `Arc` a handle to it. */
  lemma ValueOrHandle(w: Wiring, supplied: Values, id: Ty, from: ScopeId, k: Key, u: Term, t: Term)
    requires KeysWf(w) && from < |w.chains| && Bind(w, supplied, id, from) == ProvidedBy(k) && Denotes(w, supplied, k, u)
    ensures id == k.ty ==> (DepDenotes(w, supplied, id, from, t) <==> t == u)
    ensures id == ArcOf(k.ty) ==> (DepDenotes(w, supplied, id, from, t) <==> t == Handle(u))
  {
    TypeIsNoArc(k.ty);
    if DepDenotes(w, supplied, id, from, t) {
      var x :| Denotes(w, supplied, k, x) && t == Stored(x, id != k.ty).Injected();
      DenotesOnce(w, supplied, k, x, u);
    }
  }

  lemma {:induction false} TypeIsNoArc(id: Ty)
    ensures id != ArcOf(id)
  {
    if id.ArcOf? {
      TypeIsNoArc(id.pointee);
    }
  }

  ghost predicate DepsDenote(w: Wiring, supplied: Values, deps: seq<Ty>, from: ScopeId, args: seq<Term>)
    requires KeysWf(w) && from < |w.chains|
  {
    && |args| == |deps|
    && forall i :: 0 <= i < |deps| ==> DepDenotes(w, supplied, deps[i], from, args[i])
  }

  lemma {:induction false} EvalDepsFromDenotes(w: Wiring, supplied: Values, deps: seq<Ty>, from: ScopeId, args: seq<Term>)
    returns (fuel: nat)
    requires KeysWf(w) && from < |w.chains| && DepsDenote(w, supplied, deps, from, args)
    ensures EvalDeps(w, supplied, fuel, deps, from) == Some(args)
  {
    if deps == [] {
      fuel := 0;
    } else {
      assert DepsDenote(w, supplied, deps[1..], from, args[1..]) by {
        forall i | 0 <= i < |deps[1..]|
          ensures DepDenotes(w, supplied, deps[1..][i], from, args[1..][i])
        {
          assert DepDenotes(w, supplied, deps[i+1], from, args[i+1]);
        }
      }
      var rest := EvalDepsFromDenotes(w, supplied, deps[1..], from, args[1..]);
      assert DepDenotes(w, supplied, deps[0], from, args[0]);
      var first: nat := 0;
      var b := Bind(w, supplied, deps[0], from);
      if b.ProvidedBy? {
        var u :| Denotes(w, supplied, b.key, u) && args[0] == Stored(u, deps[0] != b.key.ty).Injected();
        first :| Eval(w, supplied, first, b.key) == Some(u);
        fuel := if first <= rest then rest else first;
        MoreFuel(w, supplied, first, fuel, b.key);
      } else {
        fuel := rest;
      }
      MoreFuelDeps(w, supplied, rest, fuel, deps[1..], from);
      assert args == [args[0]] + args[1..];
    }
  }

  /** Applying a constructor to what its dependencies denote gives what its provider denotes. */
  lemma ConstructorDenotes(w: Wiring, supplied: Values, k: Key, args: seq<Term>)
    requires KeysWf(w) && k in w.providers && w.providers[k].body.Constructor?
    requires DepsDenote(w, supplied, w.providers[k].deps, k.scope, args)
    ensures Denotes(w, supplied, k, App(k, args))
  {
    var fuel := EvalDepsFromDenotes(w, supplied, w.providers[k].deps, k.scope, args);
    assert Eval(w, supplied, fuel + 1, k) == Some(App(k, args));
  }

  ghost predicate KeysDenote(w: Wiring, supplied: Values, keys: seq<Key>, items: seq<Term>)
    requires KeysWf(w)
  {
    && |items| == |keys|
    && forall i :: 0 <= i < |keys| ==> Denotes(w, supplied, keys[i], items[i])
  }

  lemma {:induction false} EvalKeysFromDenotes(w: Wiring, supplied: Values, keys: seq<Key>, items: seq<Term>)
    returns (fuel: nat)
    requires KeysWf(w) && KeysDenote(w, supplied, keys, items)
    ensures EvalKeys(w, supplied, fuel, keys) == Some(items)
  {
    if keys == [] {
      fuel := 0;
    } else {
      assert KeysDenote(w, supplied, keys[1..], items[1..]) by {
        forall i | 0 <= i < |keys[1..]|
          ensures Denotes(w, supplied, keys[1..][i], items[1..][i])
        {
          assert Denotes(w, supplied, keys[i+1], items[i+1]);
        }
      }
      var rest := EvalKeysFromDenotes(w, supplied, keys[1..], items[1..]);
      assert Denotes(w, supplied, keys[0], items[0]);
      var first: nat :| Eval(w, supplied, first, keys[0]) == Some(items[0]);
      fuel := if first <= rest then rest else first;
      MoreFuel(w, supplied, first, fuel, keys[0]);
      MoreFuelKeys(w, supplied, rest, fuel, keys[1..]);
      assert items == [items[0]] + items[1..];
    }
  }

  /** An aggregate denotes its members' values in registration order. */
  lemma AggregateDenotes(w: Wiring, supplied: Values, e: Ty, items: seq<Term>)
    requires KeysWf(w) && VirtualKey(e) in w.providers && w.providers[VirtualKey(e)].body == AggregateOf(e)
    requires KeysDenote(w, supplied, MembersOf(w.groups, e), items)
    ensures Denotes(w, supplied, VirtualKey(e), Aggregate(items))
  {
    var fuel := EvalKeysFromDenotes(w, supplied, MembersOf(w.groups, e), items);
    assert Eval(w, supplied, fuel + 1, VirtualKey(e)) == Some(Aggregate(items));
  }

  // ---------- the caches during construction ----------

  /** The provider whose value is filed privately under `(id, s)`. */
  function PrivateOwner(w: Wiring, id: Ty, s: ScopeId): Option<Key> {
    if PrivateKey(id, s) in w.providers then Some(PrivateKey(id, s))
    else if (id, s) in w.privateAlias then Some(w.privateAlias[(id, s)])
    else None
  }

  /** The caches hold the supplied values and, under their type and `Arc` alias, the built ones. */
  ghost predicate Caches(w: Wiring, supplied: Values, built: map<Key, Term>, v: Values) {
    CachesPublic(w, supplied, built, v) && CachesPrivate(w, supplied, built, v)
  }

  ghost predicate CachesPublic(w: Wiring, supplied: Values, built: map<Key, Term>, v: Values) {
    && (forall id :: id in v.pub <==> id in supplied.pub || (id in w.publicIndex && w.publicIndex[id] in built))
    && (forall id :: id in supplied.pub ==> id in v.pub && v.pub[id] == supplied.pub[id])
    && (forall id :: id !in supplied.pub && id in w.publicIndex && w.publicIndex[id] in built ==>
          id in v.pub && v.pub[id] == Stored(built[w.publicIndex[id]], id != w.publicIndex[id].ty))
  }

  ghost predicate CachesPrivate(w: Wiring, supplied: Values, built: map<Key, Term>, v: Values) {
    && (forall id, s: ScopeId :: (id, s) in v.priv <==>
          (id, s) in supplied.priv || (PrivateOwner(w, id, s).Some? && PrivateOwner(w, id, s).value in built))
    && (forall id, s :: (id, s) in supplied.priv ==> (id, s) in v.priv && v.priv[(id, s)] == supplied.priv[(id, s)])
    && (forall id, s: ScopeId :: (id, s) !in supplied.priv && PrivateOwner(w, id, s).Some? && PrivateOwner(w, id, s).value in built ==>
          (id, s) in v.priv &&
          v.priv[(id, s)] == Stored(built[PrivateOwner(w, id, s).value], id != PrivateOwner(w, id, s).value.ty))
  }

  /** What a binding becomes once the providers in `built` have run. */
  function AfterBuild(b: Binding, built: map<Key, Term>, id: Ty): Binding {
    if b.ProvidedBy? && b.key in built then Cached(Stored(built[b.key], id != b.key.ty)) else b
  }

  /**
   * Resolution is stable under construction: a binding changes only from "provided by k" to
   * k's value, at the moment k is built.
   */
  lemma {:induction false} BindAfterBuild(w: Wiring, supplied: Values, built: map<Key, Term>, v: Values, id: Ty, chain: seq<ScopeId>)
    requires PublicWf(w) && PrivateWf(w) && SuppliedWf(w, supplied) && Caches(w, supplied, built, v)
    ensures BindIn(w, v, id, chain) == AfterBuild(BindIn(w, supplied, id, chain), built, id)
  {
    if chain != [] {
      var s := chain[0];
      BindAfterBuild(w, supplied, built, v, id, chain[1..]);
      assert PrivateOwner(w, id, s) == None ==> ((id, s) in v.priv <==> (id, s) in supplied.priv);
    }
  }

  /** Taking providers out of the map cannot disturb a lookup that already finds a value. */
  lemma {:induction false} CachedWithoutProviders(w: Wiring, v: Values, id: Ty, chain: seq<ScopeId>, taken: set<Key>)
    requires BindIn(w, v, id, chain).Cached?
    ensures BindIn(w.(providers := w.providers - taken), v, id, chain) == BindIn(w, v, id, chain)
  {
    if chain != [] && (id, chain[0]) !in v.priv {
      CachedWithoutProviders(w, v, id, chain[1..], taken);
    }
  }

  lemma {:induction false} ResidualDepTargets(w: Wiring, supplied: Values, built: map<Key, Term>, v: Values, deps: seq<Ty>, from: ScopeId)
    requires PublicWf(w) && PrivateWf(w) && SuppliedWf(w, supplied) && Caches(w, supplied, built, v)
    requires from < |w.chains|
    ensures forall e :: e in DepTargets(w, v, deps, from) <==> e in DepTargets(w, supplied, deps, from) && e !in built
  {
    if deps != [] {
      BindAfterBuild(w, supplied, built, v, deps[0], w.chains[from]);
      ResidualDepTargets(w, supplied, built, v, deps[1..], from);
    }
  }

  /** The residual graph at run time: the registered graph without the edges already satisfied. */
  lemma ResidualTargets(w: Wiring, supplied: Values, built: map<Key, Term>, v: Values, k: Key)
    requires Wf(w) && SuppliedWf(w, supplied) && Caches(w, supplied, built, v) && k in w.providers
    ensures forall e :: e in Targets(w, v, k) ==> e in Targets(w, supplied, k)
    ensures forall e :: e in Targets(w, supplied, k) ==> e in Targets(w, v, k) || e in built
    ensures forall e :: e in Targets(w, v, k) && e in built ==> e.IsGroupMember()
  {
    ResidualDepTargets(w, supplied, built, v, w.providers[k].deps, k.scope);
    MemberTargets(w, k);
  }

  lemma MemberTargets(w: Wiring, k: Key)
    requires Wf(w)
    ensures forall e :: e in GroupTargets(w, k) ==> e.IsGroupMember() && e in w.providers
  {
    if k in w.groups.virtualToElement {
      MemberListWf(w, w.groups.virtualToElement[k]);
    }
  }
}
