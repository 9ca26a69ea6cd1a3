/** Applying options depth first (`src/module.rs`, and `prepare_build_state_with` in `src/app.rs`). */
module ModuleTree {
  import opened Types
  import opened Errors
  import opened Scopes
  import opened Resolution
  import opened Registration
  import opened Containers
  import opened Validation

  /** A provider a user can register: anything but the aggregate of a group. */
  type UserProvider = p: Provider | !p.body.AggregateOf? witness Provider(Plain(0), [], TakeOnce(0))

  datatype ModOption =
    | Provide(provider: UserProvider, isPrivate: bool)
    | Supply(ty: Ty, value: nat, supplyPrivately: bool)
    | ProvideGroup(member: UserProvider)
    | MemberMismatch(expected: Ty, actual: Ty)
    | InitGroup(element: Ty)
    | RequireGroup(element: Ty)
    | Invoke(deps: seq<Ty>, isAsync: bool)
    | Module(name: string, options: seq<ModOption>)

  // ---------- what a tree of options registers, in depth-first order ----------

  /** How many scopes the modules of an option create. */
  function ScopeCount(o: ModOption): nat
    decreases o, 0
  {
    if o.Module? then 1 + ScopeCounts(o.options) else 0
  }

  function ScopeCounts(os: seq<ModOption>): nat
    decreases os, 1, |os|
  {
    if os == [] then 0 else ScopeCounts(os[..|os|-1]) + ScopeCount(os[|os|-1])
  }

  datatype Member = Member(provider: Provider, scope: ScopeId)

  /**
   * The members an option contributes to the group of `e`, when it is applied in `scope` and the
   * next scope to be created is `next`.
   */
  function MembersIn(o: ModOption, e: Ty, scope: ScopeId, next: nat): seq<Member>
    decreases o, 0
  {
    match o
    case ProvideGroup(p) => if p.result == e then [Member(p, scope)] else []
    case Module(_, os) => MembersInAll(os, e, next, next + 1)
    case _ => []
  }

  function MembersInAll(os: seq<ModOption>, e: Ty, scope: ScopeId, next: nat): seq<Member>
    decreases os, 1, |os|
  {
    if os == [] then []
    else
      var before := os[..|os|-1];
      MembersInAll(before, e, scope, next) + MembersIn(os[|os|-1], e, scope, next + ScopeCounts(before))
  }

  /** The invokers an option contributes, likewise. */
  function InvokersIn(o: ModOption, scope: ScopeId, next: nat): seq<Invoker>
    decreases o, 0
  {
    match o
    case Invoke(deps, isAsync) => [Invoker(scope, deps, isAsync)]
    case Module(_, os) => InvokersInAll(os, next, next + 1)
    case _ => []
  }

  function InvokersInAll(os: seq<ModOption>, scope: ScopeId, next: nat): seq<Invoker>
    decreases os, 1, |os|
  {
    if os == [] then []
    else
      var before := os[..|os|-1];
      InvokersInAll(before, scope, next) + InvokersIn(os[|os|-1], scope, next + ScopeCounts(before))
  }

  // ---------- what applying them does to a container ----------

  /** What a container has on record: its wiring and its supplied values. */
  datatype Record = Record(w: Wiring, v: Values)

  predicate TakenIn(c: Record, id: Ty, scope: ScopeId, isPrivate: bool) {
    Occupied(c.w, c.v, id, scope, isPrivate) || Occupied(c.w, c.v, ArcOf(id), scope, isPrivate)
  }

  /** The first of a type and its `Arc` that is taken. */
  function FirstTaken(c: Record, id: Ty): Ty {
    if Occupied(c.w, c.v, id, ROOT, false) then id else ArcOf(id)
  }

  /** The group of `e` is registered if it is not yet; that fails when its slot is taken. */
  function WithGroup(c: Record, e: Ty): (r: Result<Record, Error>)
    ensures r.Ok? ==> |r.value.w.chains| == |c.w.chains|
  {
    if e in c.w.groups.registrations then Ok(c)
    else if TakenIn(c, GroupOf(e), ROOT, false) then Err(AlreadyProvided(FirstTaken(c, GroupOf(e))))
    else Ok(c.(w := WithAggregate(c.w, e)))
  }

  /** The record after one option has been applied in `scope`, or why it is rejected. */
  function Registered(c: Record, o: ModOption, scope: ScopeId): (r: Result<Record, Error>)
    requires scope < |c.w.chains|
    ensures r.Ok? ==> |c.w.chains| <= |r.value.w.chains|
    decreases o, 0
  {
    match o
    case Provide(p, isPrivate) =>
      if TakenIn(c, p.result, scope, isPrivate) then
        Err(if isPrivate then AlreadyProvidedPrivate(scope, p.result) else AlreadyProvided(p.result))
      else Ok(c.(w := WithProvider(c.w, p, scope, isPrivate)))
    case Supply(ty, n, isPrivate) =>
      if TakenIn(c, ty, scope, isPrivate) then
        var name := if Occupied(c.w, c.v, ty, scope, isPrivate) then ty else ArcOf(ty);
        Err(if isPrivate then AlreadyProvidedPrivate(scope, name) else AlreadyProvided(name))
      else Ok(Record(c.w.(marks := if isPrivate then Mark(c.w.marks, scope) else c.w.marks),
                     StoreBoth(c.v, ty, Supplied(n), scope, isPrivate)))
    case ProvideGroup(p) =>
      var g := WithGroup(c, p.result);
      if g.Err? then g else Ok(g.value.(w := WithMember(g.value.w, p, scope)))
    case MemberMismatch(expected, actual) => Err(GroupMemberTypeMismatch(expected, actual))
    case InitGroup(e) => WithGroup(c, e)
    case RequireGroup(e) =>
      var g := WithGroup(c, e);
      if g.Err? then g else Ok(g.value.(w := Requiring(g.value.w, e)))
    case Invoke(_, _) => Ok(c)
    case Module(_, os) =>
      var child := |c.w.chains|;
      RegisteredAll(c.(w := c.w.(chains := c.w.chains + [[child] + c.w.chains[scope]])), os, child)
  }

  /** Options one after another; the first that is rejected ends it. */
  function RegisteredAll(c: Record, os: seq<ModOption>, scope: ScopeId): (r: Result<Record, Error>)
    requires scope < |c.w.chains|
    ensures r.Ok? ==> |c.w.chains| <= |r.value.w.chains|
    decreases os, 1, |os|
  {
    if os == [] then Ok(c)
    else
      var before := RegisteredAll(c, os[..|os|-1], scope);
      if before.Err? then before else Registered(before.value, os[|os|-1], scope)
  }

  /** Nothing is applied after an option that is rejected, and its error stays. */
  lemma {:induction false} RejectedForGood(c: Record, os: seq<ModOption>, scope: ScopeId, i: nat)
    requires scope < |c.w.chains| && i <= |os| && RegisteredAll(c, os[..i], scope).Err?
    ensures RegisteredAll(c, os, scope) == RegisteredAll(c, os[..i], scope)
  {
    if i < |os| {
      assert os[..|os|-1][..i] == os[..i];
      RejectedForGood(c, os[..|os|-1], scope, i);
    } else {
      assert os[..i] == os;
    }
  }

  /** The registered members of `e`, with the scope each was registered in. */
  function MembersAt(w: Wiring, e: Ty): seq<Member> {
    Listed(w.providers, MembersOf(w.groups, e))
  }

  function Listed(providers: map<Key, Provider>, keys: seq<Key>): seq<Member> {
    if keys == [] then []
    else
      var m := keys[|keys|-1];
      Listed(providers, keys[..|keys|-1]) + (if m in providers then [Member(providers[m], m.scope)] else [])
  }

  lemma {:induction false} ListedKept(providers: map<Key, Provider>, keys: seq<Key>, k: Key, p: Provider)
    requires k !in keys
    ensures Listed(providers[k := p], keys) == Listed(providers, keys)
  {
    if keys != [] {
      assert keys[|keys|-1] in keys;
      assert forall m :: m in keys[..|keys|-1] ==> m in keys;
      ListedKept(providers, keys[..|keys|-1], k, p);
    }
  }

  lemma MembersAreLive(w: Wiring, e: Ty)
    requires Wf(w)
    ensures forall m :: m in MembersOf(w.groups, e) ==> m in w.providers
  {
    MemberListWf(w, e);
  }

  /** Registering something that is no member leaves every member list as it is. */
  lemma MembersKept(w: Wiring, w': Wiring, k: Key, p: Provider)
    requires Wf(w) && w'.groups.members == w.groups.members
    requires k !in w.providers && w'.providers == w.providers[k := p]
    ensures forall e :: MembersAt(w', e) == MembersAt(w, e)
  {
    hide Wf;
    forall e
      ensures MembersAt(w', e) == MembersAt(w, e)
    {
      MembersAreLive(w, e);
      ListedKept(w.providers, MembersOf(w.groups, e), k, p);
    }
  }

  lemma MemberAppendedTo(w: Wiring, p: UserProvider, scope: ScopeId, e: Ty)
    requires Wf(w)
    ensures MembersAt(WithMember(w, p, scope), e) == MembersAt(w, e) + MembersIn(ProvideGroup(p), e, scope, |w.chains|)
  {
    var k := NextMember(w, p, scope);
    FreshMember(w, p, scope);
    MembersAreLive(w, e);
    hide Wf;
    var keys := MembersOf(w.groups, e);
    ListedKept(w.providers, keys, k, p);
    if e == p.result {
      assert (keys + [k])[..|keys|] == keys;
    }
  }

  lemma MemberAppended(w: Wiring, p: UserProvider, scope: ScopeId)
    requires Wf(w)
    ensures forall e :: MembersAt(WithMember(w, p, scope), e) == MembersAt(w, e) + MembersIn(ProvideGroup(p), e, scope, |w.chains|)
  {
    hide Wf, MembersAt, MembersIn, WithMember;
    forall e
      ensures MembersAt(WithMember(w, p, scope), e) == MembersAt(w, e) + MembersIn(ProvideGroup(p), e, scope, |w.chains|)
    {
      MemberAppendedTo(w, p, scope, e);
    }
  }

  /** Every group has gained exactly the members of the option. */
  ghost predicate MembersAdded(w: Wiring, w': Wiring, o: ModOption, scope: ScopeId, next: nat) {
    forall e :: MembersAt(w', e) == MembersAt(w, e) + MembersIn(o, e, scope, next)
  }

  ghost predicate AllMembersAdded(w: Wiring, w': Wiring, os: seq<ModOption>, scope: ScopeId, next: nat) {
    forall e :: MembersAt(w', e) == MembersAt(w, e) + MembersInAll(os, e, scope, next)
  }

  // ---------- applying options ----------

  class BuildState {
    const container: Container
    var invokers: seq<Invoker>
    var currentScope: ScopeId

    constructor (user: UserCode)
      ensures Valid() && fresh(container) && fresh(container.scopes) && container.user == user
      ensures invokers == [] && currentScope == ROOT
      ensures container.W() == EMPTY && container.V() == Values(map[], map[])
    {
      container := new Container(user);
      invokers, currentScope := [], ROOT;
    }

    ghost predicate Valid()
      reads this, container, container.scopes
    {
      container.Registering() && currentScope < |container.scopes.ancestors| && InvokersPlaced()
    }

    ghost predicate InvokersPlaced()
      reads this, container.scopes
    {
      forall i :: 0 <= i < |invokers| ==> invokers[i].scope < |container.scopes.ancestors|
    }

    ghost function Now(): Record
      reads this, container, container.scopes
    {
      Record(container.W(), container.V())
    }

    /** The state after one option, or part of a list of them, has been applied in `currentScope`. */
    twostate predicate Applied()
      reads this, container, container.scopes
    {
      && Valid() && currentScope == old(currentScope)
      && |container.scopes.ancestors| >= old(|container.scopes.ancestors|)
    }

    /** The option has left exactly its own mark on the container, or was rejected. */
    twostate predicate Did(o: ModOption, new r: Outcome)
      requires old(Valid())
      reads this, container, container.scopes
    {
      match Registered(old(Now()), o, old(currentScope))
      case Ok(after) => r.Ok? && after == Now()
      case Err(e) => r == Err(e)
    }

    /**
     * Applies one option. A module's options run in a fresh child scope, which is left again even
     * when one of them fails; what is registered comes in depth-first order.
     */
    method Apply(o: ModOption) returns (r: Outcome)
      requires Valid()
      modifies this, container, container.scopes
      ensures Applied() && Did(o, r)
      ensures r.Ok? ==> |container.scopes.ancestors| == old(|container.scopes.ancestors|) + ScopeCount(o)
      ensures r.Ok? ==> MembersAdded(old(container.W()), container.W(), o, currentScope, old(|container.scopes.ancestors|))
      ensures r.Ok? ==> invokers == old(invokers) + InvokersIn(o, currentScope, old(|container.scopes.ancestors|))
      ensures r.Ok? && o.Invoke? ==> invokers == old(invokers) + [Invoker(currentScope, o.deps, o.isAsync)]
      decreases o, 0
    {
      if o.Module? {
        r := ApplyModule(o, o.name, o.options);
      } else if o.Invoke? {
        invokers := invokers + [Invoker(currentScope, o.deps, o.isAsync)];
        r := DONE;
      } else {
        r := ApplyLeaf(o);
      }
    }

    /** The options that only concern the container. */
    method ApplyLeaf(o: ModOption) returns (r: Outcome)
      requires Valid() && !o.Module? && !o.Invoke?
      modifies container
      ensures Valid() && container.scopes.ancestors == old(container.scopes.ancestors) && Did(o, r)
      ensures r.Ok? ==> MembersAdded(old(container.W()), container.W(), o, currentScope, |container.scopes.ancestors|)
    {
      hide Wf, SuppliedWf, MarksWf, WithProvider, WithMember, WithAggregate, Requiring, Occupied, MembersAt, StoreBoth, Mark;
      ghost var w, v := container.W(), container.V();
      match o
      case MemberMismatch(expected, actual) =>
        r := Err(GroupMemberTypeMismatch(expected, actual));
      case Provide(p, isPrivate) =>
        r := container.InsertProvider(p, currentScope, isPrivate);
        if r.Ok? {
          ProviderKeepsMembers(w, v, p, currentScope, isPrivate);
        }
      case Supply(ty, n, isPrivate) =>
        r := container.InsertValue(ty, n, currentScope, isPrivate);
        SupplyingKeepsMembers(w, container.W());
      case ProvideGroup(p) =>
        PublicIsOccupied(w, v, GroupOf(p.result));
        r := container.InsertGroupMember(p, currentScope);
        if r.Ok? {
          GroupMemberAdded(w, v, p, currentScope);
        }
      case InitGroup(e) =>
        PublicIsOccupied(w, v, GroupOf(e));
        r := container.EnsureGroupVirtual(e);
        AggregateKeepsMemberLists(w, v, e);
      case RequireGroup(e) =>
        PublicIsOccupied(w, v, GroupOf(e));
        r := container.RequireGroup(e);
        AggregateKeepsMemberLists(w, v, e);
        RequiringKeepsMembers(if e in w.groups.registrations then w else WithAggregate(w, e), e);
    }

    method ApplyModule(o: ModOption, name: string, options: seq<ModOption>) returns (r: Outcome)
      requires Valid() && o == Module(name, options)
      modifies this, container, container.scopes
      ensures Applied() && Did(o, r)
      ensures r.Ok? ==> |container.scopes.ancestors| == old(|container.scopes.ancestors|) + ScopeCount(o)
      ensures r.Ok? ==> MembersAdded(old(container.W()), container.W(), o, currentScope, old(|container.scopes.ancestors|))
      ensures r.Ok? ==> invokers == old(invokers) + InvokersIn(o, currentScope, old(|container.scopes.ancestors|))
      decreases options, 2
    {
      hide Wf, SuppliedWf, MarksWf;
      var parent := currentScope;
      var child := container.AddScope(parent, name);
      currentScope := child;
      r := ApplyAll(options);
      currentScope := parent;
    }

    /** Applies options one after another, stopping at the first that fails. */
    method ApplyAll(options: seq<ModOption>) returns (r: Outcome)
      requires Valid()
      modifies this, container, container.scopes
      ensures Applied()
      ensures r.Ok? ==> RegisteredAll(old(Now()), options, currentScope) == Ok(Now())
      ensures r.Err? ==> RegisteredAll(old(Now()), options, currentScope) == Err(r.error)
      ensures r.Ok? ==> |container.scopes.ancestors| == old(|container.scopes.ancestors|) + ScopeCounts(options)
      ensures r.Ok? ==> AllMembersAdded(old(container.W()), container.W(), options, currentScope, old(|container.scopes.ancestors|))
      ensures r.Ok? ==> invokers == old(invokers) + InvokersInAll(options, currentScope, old(|container.scopes.ancestors|))
      decreases options, 1
    {
      hide Wf, SuppliedWf, MarksWf, Registered, RegisteredAll, ScopeCounts, InvokersInAll, AllMembersAdded, MembersAdded;
      NoOption(Now(), currentScope);
      ghost var was, next := Now(), |container.scopes.ancestors|;
      var i := 0;
      assert options[..0] == [];
      while i < |options|
        invariant i <= |options| && Valid() && currentScope == old(currentScope)
        invariant RegisteredAll(was, options[..i], currentScope) == Ok(Now())
        invariant |container.scopes.ancestors| == next + ScopeCounts(options[..i])
        invariant AllMembersAdded(was.w, container.W(), options[..i], currentScope, next)
        invariant invokers == old(invokers) + InvokersInAll(options[..i], currentScope, next)
      {
        ghost var before := Now();
        NextOption(was, options, i, currentScope, next);
        r := Apply(options[i]);
        if r.Err? {
          RejectedForGood(was, options, currentScope, i + 1);
          return;
        }
        OneMoreOption(was.w, before.w, container.W(), options, i, currentScope, next);
        i := i + 1;
      }
      assert options[..i] == options;
      r := DONE;
    }
  }

  lemma SupplyingKeepsMembers(w: Wiring, w': Wiring)
    requires w'.groups == w.groups && w'.providers == w.providers
    ensures forall e :: MembersAt(w', e) == MembersAt(w, e)
  {
  }

  lemma NoOption(c: Record, scope: ScopeId)
    requires scope < |c.w.chains|
    ensures RegisteredAll(c, [], scope) == Ok(c) && ScopeCounts([]) == 0 && InvokersInAll([], scope, |c.w.chains|) == []
    ensures AllMembersAdded(c.w, c.w, [], scope, |c.w.chains|)
  {
  }

  lemma NextOption(c: Record, os: seq<ModOption>, i: nat, scope: ScopeId, next: nat)
    requires scope < |c.w.chains| && i < |os|
    ensures var before := RegisteredAll(c, os[..i], scope);
            RegisteredAll(c, os[..i+1], scope) == if before.Err? then before else Registered(before.value, os[i], scope)
    ensures ScopeCounts(os[..i+1]) == ScopeCounts(os[..i]) + ScopeCount(os[i])
    ensures InvokersInAll(os[..i+1], scope, next) ==
            InvokersInAll(os[..i], scope, next) + InvokersIn(os[i], scope, next + ScopeCounts(os[..i]))
  {
    assert os[..i+1][..i] == os[..i];
  }

  lemma OneMoreOption(w0: Wiring, w1: Wiring, w2: Wiring, os: seq<ModOption>, i: nat, scope: ScopeId, next: nat)
    requires i < |os| && AllMembersAdded(w0, w1, os[..i], scope, next)
    requires MembersAdded(w1, w2, os[i], scope, next + ScopeCounts(os[..i]))
    ensures AllMembersAdded(w0, w2, os[..i+1], scope, next)
  {
    assert os[..i+1][..i] == os[..i];
  }

  lemma ProviderKeepsMembers(w: Wiring, v: Values, p: Provider, scope: ScopeId, isPrivate: bool)
    requires Wf(w) && !Occupied(w, v, p.result, scope, isPrivate)
    ensures forall e :: MembersAt(WithProvider(w, p, scope, isPrivate), e) == MembersAt(w, e)
  {
    FreshSingleton(w, v, p.result, scope, isPrivate);
    hide Wf;
    MembersKept(w, WithProvider(w, p, scope, isPrivate), Key(p.result, scope, isPrivate, 0), p);
  }

  lemma AggregateKeepsMemberLists(w: Wiring, v: Values, e: Ty)
    requires Wf(w)
    ensures !Occupied(w, v, GroupOf(e), ROOT, false) ==> forall f :: MembersAt(WithAggregate(w, e), f) == MembersAt(w, f)
  {
    if !Occupied(w, v, GroupOf(e), ROOT, false) {
      FreshSingleton(w, v, GroupOf(e), ROOT, false);
      hide Wf;
      MembersKept(w, WithAggregate(w, e), VirtualKey(e), AggregateProvider(e));
    }
  }

  lemma GroupMemberAdded(w: Wiring, v: Values, p: UserProvider, scope: ScopeId)
    requires Wf(w)
    requires p.result in w.groups.registrations ||
             (!Occupied(w, v, GroupOf(p.result), ROOT, false) && !Occupied(w, v, ArcOf(GroupOf(p.result)), ROOT, false))
    ensures var w1 := if p.result in w.groups.registrations then w else WithAggregate(w, p.result);
            MembersAdded(w, WithMember(w1, p, scope), ProvideGroup(p), scope, |w.chains|)
  {
    hide Wf;
    var w1 := if p.result in w.groups.registrations then w else WithAggregate(w, p.result);
    if p.result !in w.groups.registrations {
      AggregateKeepsMemberLists(w, v, p.result);
      AggregateKeepsWf(w, v, p.result);
    }
    MemberAppended(w1, p, scope);
  }

  lemma RequiringKeepsMembers(w: Wiring, e: Ty)
    ensures forall f :: MembersAt(Requiring(w, e), f) == MembersAt(w, f)
  {
  }
}
