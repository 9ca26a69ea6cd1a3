/** From a list of options to a validated container (`prepare_build_state_with`, `src/app.rs`). */
module Preparation {
  import opened Types
  import opened Errors
  import opened Digraph
  import opened Scopes
  import opened Resolution
  import opened Registration
  import opened Containers
  import opened Validation
  import opened Invoke
  import opened ModuleTree
  import opened Encapsulation

  /** The two types every application can depend on. */
  const LIFECYCLE: Ty := Plain(0)
  const SHUTDOWNER: Ty := Plain(1)

  /** What an application starts from: no provider, and the two built-in values. */
  const SEEDED :=
    Record(EMPTY, StoreBoth(StoreBoth(Values(map[], map[]), LIFECYCLE, Supplied(0), ROOT, false), SHUTDOWNER, Supplied(1), ROOT, false))

  /** `seed_builtins`. */
  method SeedBuiltins(state: BuildState) returns (r: Outcome)
    requires state.Valid() && state.container.W() == EMPTY && state.container.V() == Values(map[], map[])
    modifies state.container
    ensures state.Valid() && r.Ok? && state.Now() == SEEDED
  {
    hide Wf, SuppliedWf, MarksWf;
    r := state.container.InsertValue(LIFECYCLE, 0, ROOT, false);
    if r.Err? {
      return;
    }
    r := state.container.InsertValue(SHUTDOWNER, 1, ROOT, false);
  }

  /** Whether the options can all be applied and give a well-wired application. */
  ghost predicate Buildable(options: seq<ModOption>) {
    var c := RegisteredAll(SEEDED, options, ROOT);
    c.Ok? && KeysWf(c.value.w) && WellWired(c.value.w, c.value.v, InvokersInAll(options, ROOT, 1))
  }

  /** Why options cannot be built: one of them is rejected, or the result has the defect reported. */
  ghost predicate Unbuildable(options: seq<ModOption>, e: Error) {
    match RegisteredAll(SEEDED, options, ROOT)
    case Err(x) => e == x
    case Ok(c) => KeysWf(c.w) && !WellWired(c.w, c.v, InvokersInAll(options, ROOT, 1)) && Explains(c.w, c.v, InvokersInAll(options, ROOT, 1), e)
  }

  /**
   * Applies every option in order and validates the result; accepts exactly what is buildable, and
   * otherwise reports a real defect. Each group then has the members of the whole tree in
   * depth-first order, and so have the invokers.
   */
  method Prepare(options: seq<ModOption>, user: UserCode) returns (r: Outcome, state: BuildState)
    ensures fresh(state) && fresh(state.container) && fresh(state.container.scopes) && state.container.user == user
    ensures r.Ok? <==> Buildable(options)
    ensures r.Err? ==> Unbuildable(options, r.error)
    ensures r.Ok? ==> RegisteredAll(SEEDED, options, ROOT) == Ok(state.Now())
    ensures r.Ok? ==> JustValidated(state.container, state.invokers)
    ensures r.Ok? ==> forall e :: MembersAt(state.container.W(), e) == MembersInAll(options, e, ROOT, 1)
    ensures r.Ok? ==> state.invokers == InvokersInAll(options, ROOT, 1)
    ensures r.Ok? ==> forall e :: Requires(options, e) ==> MembersInAll(options, e, ROOT, 1) != []
    ensures r.Err? && r.error.EmptyGroup? ==> Requires(options, r.error.element) && MembersInAll(options, r.error.element, ROOT, 1) == []
  {
    hide Wf, SuppliedWf, MarksWf, WellWired, Explains, Graph.WellFormed, Layers, RegisteredAll, MembersInAll, InvokersInAll, MembersAt, Requires;
    r, state := ApplyOptions(options, user);
    if r.Ok? {
      ghost var w, v := state.container.W(), state.container.V();
      r := Validate(state.container, state.invokers);
      RequiredHaveMembers(options, w, v, state.invokers, r);
    } else {
      NoEmptyGroupYet(SEEDED, options, ROOT);
    }
  }

  /** A required group without members is what validation refuses, whichever option requires it. */
  lemma RequiredHaveMembers(options: seq<ModOption>, w: Wiring, v: Values, invokers: seq<Invoker>, r: Outcome)
    requires RegisteredAll(SEEDED, options, ROOT) == Ok(Record(w, v)) && Wf(w) && KeysWf(w)
    requires forall e :: MembersAt(w, e) == MembersInAll(options, e, ROOT, 1)
    requires if r.Ok? then WellWired(w, v, invokers) else Explains(w, v, invokers, r.error)
    ensures r.Ok? ==> forall e :: Requires(options, e) ==> MembersInAll(options, e, ROOT, 1) != []
    ensures r.Err? && r.error.EmptyGroup? ==> Requires(options, r.error.element) && MembersInAll(options, r.error.element, ROOT, 1) == []
  {
    hide Wf, KeysWf, ProvidersBound, InvokersBound, Acyclic, RegisteredAll, MembersInAll, MembersAt, Requires, ProviderMisses, InvokerMisses, ClosedWalk;
    forall e
      ensures e in w.groups.required <==> Requires(options, e)
      ensures MembersInAll(options, e, ROOT, 1) == [] <==> MembersOf(w.groups, e) == []
    {
      RequiredByOptions(SEEDED, options, ROOT, e);
      NoMembers(w, e);
    }
  }

  lemma NoMembers(w: Wiring, e: Ty)
    requires Wf(w)
    ensures MembersAt(w, e) == [] <==> MembersOf(w.groups, e) == []
  {
    MembersAreLive(w, e);
    hide Wf;
    ListedAt(w.providers, MembersOf(w.groups, e));
  }

  /** While options are being applied no group is found empty. */
  lemma {:induction false} NoEmptyGroupYet(c: Record, os: seq<ModOption>, scope: ScopeId)
    requires scope < |c.w.chains|
    ensures RegisteredAll(c, os, scope).Err? ==> !RegisteredAll(c, os, scope).error.EmptyGroup?
    decreases os, 1, |os|
  {
    if os != [] {
      var before := RegisteredAll(c, os[..|os|-1], scope);
      NoEmptyGroupYet(c, os[..|os|-1], scope);
      if before.Ok? {
        NoEmptyGroupIn(before.value, os[|os|-1], scope);
      }
    }
  }

  lemma {:induction false} NoEmptyGroupIn(c: Record, o: ModOption, scope: ScopeId)
    requires scope < |c.w.chains|
    ensures Registered(c, o, scope).Err? ==> !Registered(c, o, scope).error.EmptyGroup?
    decreases o, 0
  {
    if o.Module? {
      var child := |c.w.chains|;
      NoEmptyGroupYet(c.(w := c.w.(chains := c.w.chains + [[child] + c.w.chains[scope]])), o.options, child);
    }
  }

  /** Everything but the validation. */
  method ApplyOptions(options: seq<ModOption>, user: UserCode) returns (r: Outcome, state: BuildState)
    ensures fresh(state) && fresh(state.container) && fresh(state.container.scopes) && state.container.user == user && state.Valid()
    ensures r.Ok? ==> RegisteredAll(SEEDED, options, ROOT) == Ok(state.Now())
    ensures r.Err? ==> RegisteredAll(SEEDED, options, ROOT) == Err(r.error)
    ensures r.Ok? ==> forall e :: MembersAt(state.container.W(), e) == MembersInAll(options, e, ROOT, 1)
    ensures r.Ok? ==> state.invokers == InvokersInAll(options, ROOT, 1)
  {
    hide Wf, SuppliedWf, MarksWf, RegisteredAll, MembersInAll, InvokersInAll;
    state := new BuildState(user);
    r := SeedBuiltins(state);
    r := state.ApplyAll(options);
  }

  // ---------- groups ----------

  lemma {:induction false} EvalKeysDenote(w: Wiring, supplied: Values, fuel: nat, keys: seq<Key>)
    requires KeysWf(w) && EvalKeys(w, supplied, fuel, keys).Some?
    ensures KeysDenote(w, supplied, keys, EvalKeys(w, supplied, fuel, keys).value)
  {
    if keys != [] {
      EvalKeysDenote(w, supplied, fuel, keys[1..]);
      var items := EvalKeys(w, supplied, fuel, keys).value;
      forall i | 0 <= i < |keys|
        ensures Denotes(w, supplied, keys[i], items[i])
      {
        if i > 0 {
          assert keys[i] == keys[1..][i-1] && items[i] == items[1..][i-1];
        }
      }
    }
  }

  lemma {:induction false} ListedAt(providers: map<Key, Provider>, keys: seq<Key>)
    requires forall k :: k in keys ==> k in providers
    ensures |Listed(providers, keys)| == |keys|
    ensures forall i :: 0 <= i < |keys| ==> Listed(providers, keys)[i] == Member(providers[keys[i]], keys[i].scope)
  {
    if keys != [] {
      assert keys[|keys|-1] in keys;
      ListedAt(providers, keys[..|keys|-1]);
    }
  }

  /** The value of an aggregate is made of the values of its members (the converse of `AggregateDenotes`). */
  lemma AggregateHolds(w: Wiring, supplied: Values, e: Ty, t: Term)
    requires KeysWf(w) && VirtualKey(e) in w.providers && w.providers[VirtualKey(e)].body == AggregateOf(e)
    requires Denotes(w, supplied, VirtualKey(e), t)
    ensures t.Aggregate? && KeysDenote(w, supplied, MembersOf(w.groups, e), t.items)
  {
    var fuel: nat :| Eval(w, supplied, fuel, VirtualKey(e)) == Some(t);
    EvalKeysDenote(w, supplied, fuel - 1, MembersOf(w.groups, e));
  }

  lemma NoMemberTwice(w: Wiring, e: Ty)
    requires Wf(w)
    ensures NoDup(MembersOf(w.groups, e))
  {
    MemberListWf(w, e);
  }

  /** Item `i` of a group is the value of member `i` of the module tree. */
  ghost predicate HoldsMembers(w: Wiring, supplied: Values, members: seq<Member>, items: seq<Term>, keys: seq<Key>)
    requires KeysWf(w)
  {
    && |items| == |keys| == |members|
    && forall i :: 0 <= i < |keys| ==>
         && keys[i] in w.providers && Member(w.providers[keys[i]], keys[i].scope) == members[i]
         && Denotes(w, supplied, keys[i], items[i])
  }

  /**
   * Whatever a `Group` stands for is the sequence of its members' values in the depth-first order
   * in which the module tree contributes them, and nothing else.
   */
  lemma GroupInRegistrationOrder(w: Wiring, supplied: Values, options: seq<ModOption>, e: Ty, t: Term) returns (keys: seq<Key>)
    requires Wf(w) && KeysWf(w)
    requires VirtualKey(e) in w.providers && w.providers[VirtualKey(e)].body == AggregateOf(e)
    requires MembersAt(w, e) == MembersInAll(options, e, ROOT, 1)
    requires Denotes(w, supplied, VirtualKey(e), t)
    ensures t.Aggregate? && HoldsMembers(w, supplied, MembersInAll(options, e, ROOT, 1), t.items, keys) && NoDup(keys)
  {
    hide Wf, KeysWf, Denotes, Listed, MembersInAll;
    keys := MembersOf(w.groups, e);
    NoMemberTwice(w, e);
    MembersAreLive(w, e);
    ListedAt(w.providers, keys);
    AggregateHolds(w, supplied, e, t);
  }
}
