/** What holds of a validated container while its providers are being run. */
module Progress {
  import opened Types
  import opened Errors
  import opened Digraph
  import opened Scopes
  import opened Resolution
  import opened Registration
  import opened Validation
  import opened Pending
  import opened Cycles

  /** `validate` has succeeded: everything is bound, nothing is cyclic, the layers are frozen. */
  ghost predicate Validated(w: Wiring, supplied: Values, layers: seq<seq<Key>>) {
    && Wf(w) && KeysWf(w) && SuppliedWf(w, supplied)
    && ProvidersBound(w, supplied)
    && GraphOf(w, supplied).WellFormed() && Acyclic(GraphOf(w, supplied))
    && layers == Layers(GraphOf(w, supplied))
  }

  /** The cached values are right: each built provider's value is the one it denotes. */
  ghost predicate BuiltWf(w: Wiring, supplied: Values, built: map<Key, Term>, v: Values)
    requires KeysWf(w)
  {
    && Caches(w, supplied, built, v)
    && MarksWf(w, v)
    && built.Keys <= w.providers.Keys
    && Closed(GraphOf(w, supplied), built.Keys)
    && AllDenote(w, supplied, built)
  }

  ghost predicate AllDenote(w: Wiring, supplied: Values, built: map<Key, Term>)
    requires KeysWf(w)
  {
    forall k :: k in built ==> Denotes(w, supplied, k, built[k])
  }

  /** Built members are held until their aggregate, unless in `taken`, has been built. */
  ghost predicate MembersHeld(built: map<Key, Term>, held: map<Key, Term>, taken: set<Key>) {
    && (forall m :: m in held <==>
          m in built && m.IsGroupMember() && VirtualKey(m.ty) !in built && VirtualKey(m.ty) !in taken)
    && (forall m :: m in held ==> held[m] == built[m])
  }

  /** No built member waits for its aggregate. */
  ghost predicate MembersSettled(built: set<Key>) {
    forall m :: m in built && m.IsGroupMember() ==> VirtualKey(m.ty) in built
  }

  // ---------- dependencies of a provider about to run ----------

  /** All that `k` depends on has been built. */
  ghost predicate Startable(w: Wiring, supplied: Values, built: map<Key, Term>, k: Key)
    requires KeysWf(w)
  {
    k in w.providers && forall e :: e in Targets(w, supplied, k) ==> e in built
  }

  /** A dependency of a startable provider is cached, with the value it denotes. */
  lemma DependencyIsCached(w: Wiring, supplied: Values, built: map<Key, Term>, v: Values, deps: seq<Ty>, from: ScopeId, i: nat, taken: set<Key>)
    requires Wf(w) && KeysWf(w) && SuppliedWf(w, supplied) && BuiltWf(w, supplied, built, v)
    requires from < |w.chains| && i < |deps| && !Bind(w, supplied, deps[i], from).Unbound?
    requires forall e :: e in DepTargets(w, supplied, deps, from) ==> e in built
    ensures var b := Bind(w.(providers := w.providers - taken), v, deps[i], from);
            b.Cached? && DepDenotes(w, supplied, deps[i], from, b.stored.Injected())
  {
    hide OrderListWf, MemberListsWf, AggregatesWf, ProvidersWf, Closed, MarksWf;
    var id := deps[i];
    BindAfterBuild(w, supplied, built, v, id, w.chains[from]);
    var b := Bind(w, supplied, id, from);
    if b.ProvidedBy? {
      DepTargetsAre(w, supplied, deps, from);
      assert b.key in built;
    }
    CachedWithoutProviders(w, v, id, w.chains[from], taken);
  }

  lemma KeyScope(w: Wiring, k: Key)
    requires KeysWf(w) && k in w.providers
    ensures k.scope < |w.chains| && w.providers[k].result == k.ty
  {
    KeyIsWf(w, k);
  }

  // ---------- storing a result ----------

  lemma StoredSingleton(w: Wiring, supplied: Values, built: map<Key, Term>, v: Values, k: Key, t: Term)
    requires Wf(w) && KeysWf(w) && SuppliedWf(w, supplied) && BuiltWf(w, supplied, built, v)
    requires Startable(w, supplied, built, k) && Denotes(w, supplied, k, t) && !k.IsGroupMember()
    ensures BuiltWf(w, supplied, built[k := t], StoreBoth(v, k.ty, t, k.scope, k.isPrivate))
    ensures k.isPrivate ==> Mark(w.marks, k.scope) == w.marks
  {
    hide Wf, Caches, MarksWf, ProvidersWf, Denotes;
    StoreKeepsCaches(w, supplied, built, v, k, t);
    BuiltGrows(w, supplied, built, k, t);
  }

  lemma StoredMember(w: Wiring, supplied: Values, built: map<Key, Term>, v: Values, k: Key, t: Term)
    requires Wf(w) && KeysWf(w) && BuiltWf(w, supplied, built, v)
    requires Startable(w, supplied, built, k) && Denotes(w, supplied, k, t) && k.IsGroupMember()
    ensures BuiltWf(w, supplied, built[k := t], v)
  {
    hide Caches, MarksWf, ProvidersWf, Denotes, OrderListWf, MemberListsWf, AggregatesWf, PublicIndexWf, PrivateAliasWf;
    MemberKeepsCaches(w, supplied, built, v, k, t);
    BuiltGrows(w, supplied, built, k, t);
  }

  lemma BuiltGrows(w: Wiring, supplied: Values, built: map<Key, Term>, k: Key, t: Term)
    requires KeysWf(w) && built.Keys <= w.providers.Keys && Closed(GraphOf(w, supplied), built.Keys)
    requires AllDenote(w, supplied, built)
    requires Startable(w, supplied, built, k) && Denotes(w, supplied, k, t)
    ensures built[k := t].Keys <= w.providers.Keys && Closed(GraphOf(w, supplied), built[k := t].Keys)
    ensures AllDenote(w, supplied, built[k := t])
  {
    hide Denotes, Targets;
    var built' := built[k := t];
    assert built'.Keys == built.Keys + {k};
    forall j, e | j in built'.Keys && j in GraphOf(w, supplied).deps && e in GraphOf(w, supplied).deps[j]
      ensures e in built'.Keys
    {
      if j in built.Keys {
        assert e in built.Keys;
      } else {
        assert e in Targets(w, supplied, k);
      }
    }
  }

  // ---------- waves ----------

  /** In wave `i`, nothing pending has an earlier layer, so every dependency is built. */
  lemma WaveIsStartable(w: Wiring, supplied: Values, layers: seq<seq<Key>>, built: map<Key, Term>, pending: set<Key>, i: nat, k: Key)
    requires Validated(w, supplied, layers) && i < |layers| && k in layers[i] && k in pending
    requires pending !! Before(layers, i) && Closed(GraphOf(w, supplied), pending + built.Keys)
    ensures Startable(w, supplied, built, k)
  {
    hide Wf, SuppliedWf, ProvidersBound, Acyclic, Graph.WellFormed, ProvidersWf, Targets;
    var g := GraphOf(w, supplied);
    LayerMembers(g, i);
    assert k in g.deps;
    forall e | e in Targets(w, supplied, k)
      ensures e in built
    {
      assert k in pending + built.Keys;
      assert e in g.deps[k];
      assert e in Elems(g.deps[k]);
      assert e in Before(layers, i);
      assert e in pending + built.Keys;
    }
  }

  /** After the last layer nothing can be pending. */
  lemma NothingLeft(w: Wiring, supplied: Values, layers: seq<seq<Key>>, pending: set<Key>)
    requires Validated(w, supplied, layers) && pending <= w.providers.Keys && pending !! Before(layers, |layers|)
    ensures pending == {}
  {
    hide Wf, SuppliedWf, ProvidersBound, Acyclic, Graph.WellFormed, ProvidersWf, Targets;
    CompleteIffAcyclic(GraphOf(w, supplied));
  }

  lemma LayerIsDistinct(w: Wiring, supplied: Values, layers: seq<seq<Key>>, i: nat)
    requires Validated(w, supplied, layers) && i < |layers|
    ensures NoDup(layers[i])
  {
    hide Wf, SuppliedWf, ProvidersBound, Acyclic, Graph.WellFormed, ProvidersWf;
    LayerMembers(GraphOf(w, supplied), i);
  }

  // ---------- what a request still needs ----------

  /** A walk in the residual graph is one in the registered graph. */
  lemma {:induction false} ResidualWalk(w: Wiring, supplied: Values, built: map<Key, Term>, v: Values, p: seq<Key>)
    requires Wf(w) && KeysWf(w) && SuppliedWf(w, supplied) && Caches(w, supplied, built, v)
    requires Walk(GraphOf(w, v), p)
    ensures Walk(GraphOf(w, supplied), p)
  {
    hide Wf, SuppliedWf, Caches, ProvidersWf, Targets;
    if |p| > 1 {
      ResidualTargets(w, supplied, built, v, p[0]);
      ResidualWalk(w, supplied, built, v, p[1..]);
    }
  }

  lemma ResidualReach(w: Wiring, supplied: Values, built: map<Key, Term>, v: Values, roots: set<Key>, k: Key)
    requires Wf(w) && KeysWf(w) && SuppliedWf(w, supplied) && Caches(w, supplied, built, v)
    requires Reachable(GraphOf(w, v), roots, k)
    ensures Reachable(GraphOf(w, supplied), roots, k)
  {
    hide Wf, SuppliedWf, Caches, ProvidersWf, Targets;
    var p: seq<Key> :| Walk(GraphOf(w, v), p) && p[0] in roots && p[|p|-1] == k;
    ResidualWalk(w, supplied, built, v, p);
  }

  /** What is reachable through unsatisfied dependencies has not been built. */
  lemma ResidualIsUnbuilt(w: Wiring, supplied: Values, built: map<Key, Term>, v: Values, roots: set<Key>, k: Key)
    requires Wf(w) && KeysWf(w) && SuppliedWf(w, supplied) && Caches(w, supplied, built, v) && MembersSettled(built.Keys)
    requires roots !! built.Keys && roots <= w.providers.Keys && Reachable(GraphOf(w, v), roots, k)
    ensures k !in built && k in w.providers
  {
    hide Wf, SuppliedWf, Caches, ProvidersWf, Targets;
    var g := GraphOf(w, v);
    var unbuilt := w.providers.Keys - built.Keys;
    GraphIsWellFormed(w, v);
    forall j, e | j in unbuilt && j in g.deps && e in g.deps[j]
      ensures e in unbuilt
    {
      assert e in Targets(w, v, j) && e in g.deps;
      ResidualTargets(w, supplied, built, v, j);
      if e in built {
        OnlyAggregatesNeedMembers(w, v, j, e);
      }
    }
    ClosedContainsReachable(g, unbuilt, roots);
  }

  /** A member is needed only along with its aggregate. */
  lemma MemberNeedsAggregate(w: Wiring, v: Values, roots: set<Key>, pending: set<Key>, m: Key)
    requires Wf(w) && KeysWf(w) && Closed(GraphOf(w, v), pending) && roots <= pending
    requires forall k :: k in roots ==> !k.IsGroupMember()
    requires Reachable(GraphOf(w, v), roots, m) && m.IsGroupMember()
    ensures VirtualKey(m.ty) in pending
  {
    hide Wf, ProvidersWf, Targets;
    var g := GraphOf(w, v);
    var p: seq<Key> :| Walk(g, p) && p[0] in roots && p[|p|-1] == m;
    SplitLast(g, p);
    ClosedContainsWalk(g, pending, p[..|p|-1]);
    OnlyAggregatesNeedMembers(w, v, p[|p|-2], m);
  }

  lemma {:induction false} SplitLast(g: Graph, p: seq<Key>)
    requires Walk(g, p)
    ensures |p| > 1 ==> Walk(g, p[..|p|-1]) && p[|p|-2] in g.deps && p[|p|-1] in g.deps[p[|p|-2]]
  {
    if |p| > 2 {
      SplitLast(g, p[1..]);
      assert p[..|p|-1][1..] == p[1..][..|p|-2];
    }
  }

  // ---------- evaluation is total ----------

  /** On a validated container naive recursive evaluation of any provider ends, with one value. */
  lemma {:induction false} EveryProviderDenotes(w: Wiring, supplied: Values, layers: seq<seq<Key>>, k: Key) returns (t: Term)
    requires Validated(w, supplied, layers) && k in w.providers
    ensures Denotes(w, supplied, k, t)
    decreases if k in Before(Layers(GraphOf(w, supplied)), |Layers(GraphOf(w, supplied))|) then LayerOf(GraphOf(w, supplied), k) else 0, 1
  {
    hide Wf, SuppliedWf, ProvidersBound, Graph.WellFormed, Acyclic, ProvidersWf, Targets, Denotes, Before;
    var g := GraphOf(w, supplied);
    CompleteIffAcyclic(g);
    assert k in g.deps.Keys;
    match w.providers[k].body {
      case TakeOnce(n) =>
        t := Term.Supplied(n);
        DenotesByEval(w, supplied, 1, k, t);
      case Constructor(_) =>
        var args := DepsDenoteUpTo(w, supplied, layers, k, |w.providers[k].deps|);
        assert w.providers[k].deps[..|w.providers[k].deps|] == w.providers[k].deps;
        ConstructorDenotes(w, supplied, k, args);
        t := App(k, args);
      case AggregateOf(e) =>
        AggregateKey(w, supplied, k);
        var items := MembersDenoteUpTo(w, supplied, layers, k, e, |MembersOf(w.groups, e)|);
        assert MembersOf(w.groups, e)[..|MembersOf(w.groups, e)|] == MembersOf(w.groups, e);
        AggregateDenotes(w, supplied, e, items);
        t := Aggregate(items);
    }
  }

  lemma DenotesByEval(w: Wiring, supplied: Values, fuel: nat, k: Key, t: Term)
    requires KeysWf(w) && Eval(w, supplied, fuel, k) == Some(t)
    ensures Denotes(w, supplied, k, t)
  {
  }

  lemma AggregateKey(w: Wiring, supplied: Values, k: Key)
    requires Wf(w) && KeysWf(w) && k in w.providers && w.providers[k].body.AggregateOf?
    ensures var e := w.providers[k].body.element;
            k == VirtualKey(e) && forall m :: m in MembersOf(w.groups, e) ==> m in Targets(w, supplied, k)
  {
    hide OrderListWf, PublicIndexWf, PrivateAliasWf, ProvidersWf, MemberListsWf;
    var e := w.providers[k].body.element;
    assert k in w.groups.virtualToElement;
    assert RegistrationWf(w.groups, w.providers, w.groups.virtualToElement[k]);
    assert GroupTargets(w, k) == MembersOf(w.groups, e);
  }

  lemma {:induction false} DepsDenoteUpTo(w: Wiring, supplied: Values, layers: seq<seq<Key>>, k: Key, i: nat) returns (args: seq<Term>)
    requires Validated(w, supplied, layers) && k in w.providers && i <= |w.providers[k].deps|
    requires k in Before(Layers(GraphOf(w, supplied)), |Layers(GraphOf(w, supplied))|)
    ensures k.scope < |w.chains| && DepsDenote(w, supplied, w.providers[k].deps[..i], k.scope, args)
    decreases LayerOf(GraphOf(w, supplied), k), 0, i
  {
    hide Wf, SuppliedWf, Graph.WellFormed, Acyclic, ProvidersWf, Targets, Denotes, Before;
    var g := GraphOf(w, supplied);
    KeyScope(w, k);
    var deps := w.providers[k].deps;
    args := [];
    if i > 0 {
      args := DepsDenoteUpTo(w, supplied, layers, k, i - 1);
      assert DepsBound(w, supplied, deps, k.scope);
      var b := Bind(w, supplied, deps[i-1], k.scope);
      var arg: Term;
      if b.Cached? {
        arg := b.stored.Injected();
      } else {
        EdgeToDep(w, supplied, k, i - 1);
        DependencyInEarlierLayer(g, k, b.key);
        var u := EveryProviderDenotes(w, supplied, layers, b.key);
        arg := Stored(u, deps[i-1] != b.key.ty).Injected();
      }
      assert DepDenotes(w, supplied, deps[i-1], k.scope, arg);
      var args' := args + [arg];
      forall j | 0 <= j < i
        ensures DepDenotes(w, supplied, deps[..i][j], k.scope, args'[j])
      {
        if j < i - 1 {
          assert deps[..i-1][j] == deps[j];
          assert DepDenotes(w, supplied, deps[..i-1][j], k.scope, args[j]);
        }
      }
      args := args';
    }
  }

  lemma EdgeToDep(w: Wiring, supplied: Values, k: Key, i: nat)
    requires Wf(w) && KeysWf(w) && k in w.providers && k.scope < |w.chains| && i < |w.providers[k].deps|
    requires Bind(w, supplied, w.providers[k].deps[i], k.scope).ProvidedBy?
    ensures var e := Bind(w, supplied, w.providers[k].deps[i], k.scope).key;
            e in w.providers && k in GraphOf(w, supplied).deps && e in GraphOf(w, supplied).deps[k]
  {
    hide OrderListWf, MemberListsWf, AggregatesWf, ProvidersWf;
    DepTargetsAre(w, supplied, w.providers[k].deps, k.scope);
  }

  lemma {:induction false} MembersDenoteUpTo(w: Wiring, supplied: Values, layers: seq<seq<Key>>, k: Key, e: Ty, i: nat) returns (items: seq<Term>)
    requires Validated(w, supplied, layers) && k in w.providers && i <= |MembersOf(w.groups, e)|
    requires forall m :: m in MembersOf(w.groups, e) ==> m in Targets(w, supplied, k)
    requires k in Before(Layers(GraphOf(w, supplied)), |Layers(GraphOf(w, supplied))|)
    ensures KeysDenote(w, supplied, MembersOf(w.groups, e)[..i], items)
    decreases LayerOf(GraphOf(w, supplied), k), 0, i
  {
    hide Wf, SuppliedWf, ProvidersBound, Acyclic, ProvidersWf, Targets, Denotes, Before;
    var g := GraphOf(w, supplied);
    var members := MembersOf(w.groups, e);
    items := [];
    if i > 0 {
      items := MembersDenoteUpTo(w, supplied, layers, k, e, i - 1);
      var m := members[i-1];
      assert m in members;
      assert k in g.deps && m in g.deps[k] && m in g.deps;
      DependencyInEarlierLayer(g, k, m);
      var u := EveryProviderDenotes(w, supplied, layers, m);
      var items' := items + [u];
      forall j | 0 <= j < i
        ensures Denotes(w, supplied, members[..i][j], items'[j])
      {
        if j < i - 1 {
          assert members[..i-1][j] == members[j];
          assert Denotes(w, supplied, members[..i-1][j], items[j]);
        }
      }
      items := items';
    }
  }
}
