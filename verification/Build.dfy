/** Running providers wave by wave (`src/container/build.rs`, and `get` and aggregation beside it). */
module Build {
  import opened Types
  import opened Errors
  import opened Digraph
  import opened Scopes
  import opened Resolution
  import opened Registration
  import opened Containers
  import opened Lookups
  import opened Freezing
  import opened Validation
  import opened Pending
  import opened Progress
  import opened TryJoin
  import opened Schedule

  /** What a construct call hands back: a value, or a future of one. */
  datatype ConstructOut = Finished(value: Term) | Started(fut: Future<Term, Error>)

  /** How an awaited step ends; it can be dropped at any await. */
  datatype Run = Completed | Failed(error: Error) | Cancelled

  // ---------- what user code does ----------

  /** Whether constructing `k` starts a future. */
  predicate IsAsync(w: Wiring, k: Key) {
    k in w.providers && w.providers[k].body.Constructor? && w.providers[k].body.isAsync
  }

  /** Whether constructing `k` fails. */
  predicate Breaks(w: Wiring, user: UserCode, k: Key) {
    k in w.providers && w.providers[k].body.Constructor? && user.constructorFails(k)
  }

  /** Whether its failure is there before a caller with so much patience leaves; at once if it is not asynchronous. */
  predicate BreaksInTime(w: Wiring, user: UserCode, k: Key, patience: Option<nat>) {
    Breaks(w, user, k) && (IsAsync(w, k) ==> InTime(user.constructorWaits(k), patience))
  }

  predicate Overdue(w: Wiring, user: UserCode, k: Key, patience: Option<nat>) {
    IsAsync(w, k) && !InTime(user.constructorWaits(k), patience)
  }

  /** The recorded answers are those that user code gives. */
  ghost predicate Truthful(w: Wiring, user: UserCode, answers: seq<Answer>) {
    forall a :: a in answers ==> AnswerIs(w, user, a)
  }

  predicate AnswerIs(w: Wiring, user: UserCode, a: Answer) {
    match a
    case Constructed(k, ok) => ok <==> !Breaks(w, user, k)
    case Invoked(i, ok) => ok <==> !user.invokerFails(i)
  }

  ghost predicate NoFailure(answers: seq<Answer>) {
    forall a :: a in answers ==> a.ok
  }

  /** Every one of `keys` has been constructed well. */
  ghost predicate Answered(answers: seq<Answer>, keys: set<Key>) {
    forall k :: k in keys ==> Constructed(k, true) in answers
  }

  /** A failure has been answered exactly if it is what comes out; nothing is asked of user code after it. */
  ghost predicate Shows(r: Run, answers: seq<Answer>) {
    if r.Failed? then
      var n := |answers| - 1;
      n >= 0 && NoFailure(answers[..n]) && !answers[n].ok && r.error == ErrorOf(answers[n])
    else NoFailure(answers)
  }

  // ---------- the state between steps ----------

  /** A validated container with right caches, every provider in its place. */
  ghost predicate Sound(c: Container)
    reads c, c.scopes
  {
    c.scopes.Valid() && SoundState(c.W(), c.supplied, c.layers, c.built, c.V(), c.constructed, c.emptySlots, c.user, c.answers)
  }

  ghost predicate SoundState(w: Wiring, supplied: Values, layers: seq<seq<Key>>, built: map<Key, Term>, v: Values,
                             constructed: seq<Key>, emptySlots: set<Key>, user: UserCode, answers: seq<Answer>) {
    && Validated(w, supplied, layers)
    && BuiltWf(w, supplied, built, v)
    && NoDup(constructed)
    && emptySlots <= Elems(constructed)
    && Truthful(w, user, answers)
    && Answered(answers, built.Keys)
  }

  /** Sound, nothing running or failed, and what was constructed is exactly what is stored. */
  ghost predicate Quiet(c: Container)
    reads c, c.scopes
  {
    && Sound(c)
    && c.constructing == {}
    && NoFailure(c.answers)
    && Elems(c.constructed) == c.built.Keys
    && MembersHeld(c.built, c.memberValues, {})
  }

  /** Quiet, and every built member has been aggregated. */
  ghost predicate Settled(c: Container)
    reads c, c.scopes
  {
    Quiet(c) && MembersSettled(c.built.Keys)
  }

  /** What construction never touches. */
  twostate predicate Kept(c: Container)
    reads c, c.scopes
  {
    c.W() == old(c.W()) && c.layers == old(c.layers) && c.supplied == old(c.supplied) && c.activeScope == old(c.activeScope)
  }

  // ---------- injection ----------

  /** `get`: the cached value `id` resolves to from the active scope. */
  method Get(c: Container, id: Ty) returns (r: Result<Term, Error>)
    requires c.activeScope < |c.scopes.ancestors| && MarksWf(c.W(), c.V())
    ensures var b := Bind(c.W(), c.V(), id, c.activeScope);
            r == if b.Cached? then Ok(b.stored.Injected()) else Err(NotConstructed(id))
    ensures r.Ok? ==> var x := Bind(c.W(), c.V(), id, c.activeScope).stored; r.value == if x.extract then Handle(x.handle) else x.handle
  {
    hide MarksWf;
    var stored := LookupValueRefFrom(c, id, c.activeScope);
    if stored.None? {
      return Err(NotConstructed(id));
    }
    if stored.value.extract {
      return Ok(Handle(stored.value.handle));
    }
    r := Ok(stored.value.handle);
  }

  /** Gets all dependencies of a call, in order. */
  method GetAll(c: Container, deps: seq<Ty>) returns (r: Result<seq<Term>, Error>)
    requires c.activeScope < |c.scopes.ancestors| && MarksWf(c.W(), c.V())
    ensures r.Ok? ==> |r.value| == |deps| && forall i :: 0 <= i < |deps| ==>
                        Bind(c.W(), c.V(), deps[i], c.activeScope).Cached?
                        && r.value[i] == Bind(c.W(), c.V(), deps[i], c.activeScope).stored.Injected()
    ensures r.Err? ==> exists i :: 0 <= i < |deps| && !Bind(c.W(), c.V(), deps[i], c.activeScope).Cached?
  {
    hide MarksWf;
    var args: seq<Term> := [];
    var i := 0;
    while i < |deps|
      invariant i <= |deps| && |args| == i
      invariant forall j :: 0 <= j < i ==>
                              Bind(c.W(), c.V(), deps[j], c.activeScope).Cached?
                              && args[j] == Bind(c.W(), c.V(), deps[j], c.activeScope).stored.Injected()
    {
      var arg := Get(c, deps[i]);
      if arg.Err? {
        return Err(arg.error);
      }
      args := args + [arg.value];
      i := i + 1;
    }
    r := Ok(args);
  }

  /** Drains the members' values of a group, in registration order. */
  method CollectGroupMemberValues(c: Container, element: Ty) returns (r: Result<seq<Term>, Error>)
    requires NoDup(MembersOf(c.groups, element))
    modifies c`memberValues
    ensures r.Ok? ==>
              && (forall m :: m in MembersOf(c.groups, element) ==> m in old(c.memberValues))
              && |r.value| == |MembersOf(c.groups, element)|
              && (forall i :: 0 <= i < |r.value| ==> r.value[i] == old(c.memberValues)[MembersOf(c.groups, element)[i]])
              && c.memberValues == old(c.memberValues) - Elems(MembersOf(c.groups, element))
    ensures r.Err? ==> exists m :: m in MembersOf(c.groups, element) && m !in old(c.memberValues)
  {
    var keys := MembersOf(c.groups, element);
    var items: seq<Term> := [];
    var i := 0;
    assert Elems(keys[..0]) == {};
    while i < |keys|
      invariant i <= |keys| && |items| == i
      invariant forall j :: 0 <= j < i ==> keys[j] in old(c.memberValues) && items[j] == old(c.memberValues)[keys[j]]
      invariant c.memberValues == old(c.memberValues) - Elems(keys[..i])
    {
      assert keys[i] in keys && keys[i] !in keys[..i];
      if keys[i] !in c.memberValues {
        return Err(NotConstructed(GroupOf(element)));
      }
      items := items + [c.memberValues[keys[i]]];
      c.memberValues := c.memberValues - {keys[i]};
      assert Elems(keys[..i+1]) == Elems(keys[..i]) + {keys[i]};
      i := i + 1;
    }
    assert keys[..i] == keys;
    r := Ok(items);
  }

  // ---------- one constructor ----------

  /** The result of a construct call of `k` that did not fail outright. */
  ghost predicate Yields(w: Wiring, supplied: Values, user: UserCode, k: Key, out: ConstructOut)
    requires KeysWf(w)
  {
    match out
    case Finished(t) => Denotes(w, supplied, k, t) && !IsAsync(w, k) && !Breaks(w, user, k)
    case Started(f) => YieldsLater(w, supplied, user, k, f)
  }

  ghost predicate YieldsLater(w: Wiring, supplied: Values, user: UserCode, k: Key, f: Future<Term, Error>)
    requires KeysWf(w)
  {
    && IsAsync(w, k) && f.wait == user.constructorWaits(k)
    && (f.outcome.Ok? <==> !Breaks(w, user, k))
    && if f.outcome.Ok? then Denotes(w, supplied, k, f.outcome.value) else f.outcome.error == ConstructorFailed(k)
  }

  /** What a construct call answers at once; the answer of a future comes when it is joined. */
  function Immediate(k: Key, r: Result<ConstructOut, Error>): seq<Answer> {
    if r.Err? then [Constructed(k, false)] else if r.value.Finished? then [Constructed(k, true)] else []
  }

  /** `c` is running `k`, whose provider is out of the map; `w` is the wiring with it in place. */
  ghost predicate Running(c: Container, w: Wiring, k: Key)
    reads c, c.scopes
  {
    && k in w.providers && c.W() == w.(providers := w.providers - {k})
    && c.activeScope == k.scope
  }

  /**
   * Calls a provider's construct function while the provider itself is out of the map. If all it
   * depends on is built, it can fail only in user code; what it yields is what it denotes. The
   * one-shot slot is never found empty.
   */
  method Construct(c: Container, k: Key, p: Provider, ghost w: Wiring, ghost taken: set<Key>) returns (r: Result<ConstructOut, Error>)
    requires Wf(w) && KeysWf(w) && SuppliedWf(w, c.supplied) && BuiltWf(w, c.supplied, c.built, c.V())
    requires Running(c, w, k) && p == w.providers[k]
    requires Startable(w, c.supplied, c.built, k) && DepsBound(w, c.supplied, p.deps, k.scope)
    requires k !in c.built && k !in taken && k !in c.emptySlots
    requires MembersHeld(c.built, c.memberValues, taken)
    modifies c`memberValues, c`emptySlots, c`constructed, c`answers
    ensures r.Ok? ==> Yields(w, c.supplied, c.user, k, r.value)
    ensures r.Err? ==> r.error == ConstructorFailed(k) && Breaks(w, c.user, k) && !IsAsync(w, k)
    ensures c.answers == old(c.answers) + Immediate(k, r)
    ensures c.constructed == old(c.constructed) + [k]
    ensures c.emptySlots <= old(c.emptySlots) + {k}
    ensures MembersHeld(c.built, c.memberValues, taken + {k})
  {
    hide Wf, SuppliedWf, BuiltWf, ProvidersWf, MembersHeld, Denotes;
    c.constructed := c.constructed + [k];
    match p.body {
      case TakeOnce(n) =>
        assert k !in c.emptySlots;
        c.emptySlots := c.emptySlots + {k};
        assert Eval(w, c.supplied, 1, k) == Some(Supplied(n));
        EvalDenotes(w, c.supplied, 1, k, Supplied(n));
        NoAggregateTaken(w, c.supplied, c.built, c.V(), c.memberValues, taken, k);
        r := Ok(Finished(Supplied(n)));
      case AggregateOf(element) =>
        r := ConstructAggregate(c, k, element, w, taken);
      case Constructor(isAsync) =>
        NoAggregateTaken(w, c.supplied, c.built, c.V(), c.memberValues, taken, k);
        var args := InjectAll(c, k, p.deps, w);
        ConstructorDenotes(w, c.supplied, k, args);
        var outcome: Result<Term, Error> := if c.user.constructorFails(k) then Err(ConstructorFailed(k)) else Ok(App(k, args));
        if isAsync {
          r := Ok(Started(Future(c.user.constructorWaits(k), outcome)));
        } else if outcome.Err? {
          r := Err(outcome.error);
        } else {
          r := Ok(Finished(outcome.value));
        }
    }
    c.answers := c.answers + Immediate(k, r);
  }

  lemma EvalDenotes(w: Wiring, supplied: Values, fuel: nat, k: Key, t: Term)
    requires KeysWf(w) && Eval(w, supplied, fuel, k) == Some(t)
    ensures Denotes(w, supplied, k, t)
  {
  }

  /** Gets the arguments of a constructor whose dependencies are all built. */
  method InjectAll(c: Container, k: Key, deps: seq<Ty>, ghost w: Wiring) returns (args: seq<Term>)
    requires Wf(w) && KeysWf(w) && SuppliedWf(w, c.supplied) && BuiltWf(w, c.supplied, c.built, c.V())
    requires Running(c, w, k) && deps == w.providers[k].deps
    requires Startable(w, c.supplied, c.built, k) && DepsBound(w, c.supplied, deps, k.scope)
    ensures DepsDenote(w, c.supplied, deps, k.scope, args)
  {
    hide Wf, SuppliedWf, ProvidersWf, Denotes, DepDenotes, Caches, Closed, AllDenote;
    forall i | 0 <= i < |deps|
      ensures Bind(c.W(), c.V(), deps[i], k.scope).Cached?
      ensures DepDenotes(w, c.supplied, deps[i], k.scope, Bind(c.W(), c.V(), deps[i], k.scope).stored.Injected())
    {
      DependencyIsCached(w, c.supplied, c.built, c.V(), deps, k.scope, i, {k});
    }
    FewerProvidersKeepMarks(w, c.V(), {k});
    var r := GetAll(c, deps);
    args := r.value;
  }

  lemma FewerProvidersKeepMarks(w: Wiring, v: Values, taken: set<Key>)
    requires MarksWf(w, v)
    ensures MarksWf(w.(providers := w.providers - taken), v)
  {
  }

  /** A provider that is no aggregate has no members to give up. */
  lemma NoAggregateTaken(w: Wiring, supplied: Values, built: map<Key, Term>, v: Values, held: map<Key, Term>, taken: set<Key>, k: Key)
    requires Wf(w) && KeysWf(w) && BuiltWf(w, supplied, built, v) && MembersHeld(built, held, taken)
    requires k in w.providers && !w.providers[k].body.AggregateOf?
    ensures MembersHeld(built, held, taken + {k})
  {
    hide Caches, MarksWf, Closed, AllDenote, OrderListWf, PublicIndexWf, PrivateAliasWf, ProvidersWf, MemberListsWf, AggregatesWf;
    forall m | m in built && m.IsGroupMember()
      ensures VirtualKey(m.ty) != k
    {
      MemberAggregateIs(w, m);
    }
  }

  lemma MemberAggregateIs(w: Wiring, m: Key)
    requires Wf(w) && m in w.providers && m.IsGroupMember()
    ensures VirtualKey(m.ty) in w.providers && w.providers[VirtualKey(m.ty)].body == AggregateOf(m.ty)
    ensures m.ty in w.groups.registrations
  {
    hide OrderListWf, PublicIndexWf, PrivateAliasWf, ProvidersWf, AggregatesWf;
    assert m in MembersOf(w.groups, m.ty);
    RegistrationIs(w, m.ty);
  }

  lemma AggregateIs(w: Wiring, k: Key)
    requires Wf(w) && k in w.providers && w.providers[k].body.AggregateOf?
    ensures var e := w.providers[k].body.element;
            && k == VirtualKey(e) && e in w.groups.registrations
            && k in w.groups.virtualToElement && w.groups.virtualToElement[k] == e
  {
    hide OrderListWf, PublicIndexWf, PrivateAliasWf, ProvidersWf, MemberListsWf;
    var e := w.providers[k].body.element;
    assert k in w.groups.virtualToElement;
    assert RegistrationWf(w.groups, w.providers, w.groups.virtualToElement[k]);
  }

  /** Aggregating takes the members' values, all of which are there, in registration order. */
  method ConstructAggregate(c: Container, k: Key, element: Ty, ghost w: Wiring, ghost taken: set<Key>) returns (r: Result<ConstructOut, Error>)
    requires Wf(w) && KeysWf(w) && SuppliedWf(w, c.supplied) && BuiltWf(w, c.supplied, c.built, c.V())
    requires Running(c, w, k) && w.providers[k].body == AggregateOf(element)
    requires Startable(w, c.supplied, c.built, k) && k !in c.built && k !in taken
    requires MembersHeld(c.built, c.memberValues, taken)
    modifies c`memberValues
    ensures r.Ok? && r.value.Finished? && Yields(w, c.supplied, c.user, k, r.value)
    ensures MembersHeld(c.built, c.memberValues, taken + {k})
  {
    hide Wf, SuppliedWf, ProvidersWf, Denotes, Caches, Closed, MarksWf;
    AggregateIs(w, k);
    MembersOfAggregate(w, c.supplied, c.built, k, element);
    var members := MembersOf(c.groups, element);
    ghost var held := c.memberValues;
    var items := CollectGroupMemberValues(c, element);
    assert items.Ok? by {
      forall m | m in members
        ensures m in held
      {
        assert m in c.built && VirtualKey(m.ty) == k;
      }
    }
    assert KeysDenote(w, c.supplied, members, items.value) by {
      forall i | 0 <= i < |members|
        ensures Denotes(w, c.supplied, members[i], items.value[i])
      {
        assert members[i] in members;
      }
    }
    AggregateDenotes(w, c.supplied, element, items.value);
    r := Ok(Finished(Aggregate(items.value)));
  }

  lemma MembersOfAggregate(w: Wiring, supplied: Values, built: map<Key, Term>, k: Key, element: Ty)
    requires Wf(w) && KeysWf(w) && Startable(w, supplied, built, k) && built.Keys <= w.providers.Keys
    requires k in w.groups.virtualToElement && w.groups.virtualToElement[k] == element && k == VirtualKey(element)
    ensures NoDup(MembersOf(w.groups, element))
    ensures forall m :: m in MembersOf(w.groups, element) ==> m in built && m.IsGroupMember() && m.ty == element
    ensures forall m :: m in built && m.IsGroupMember() && m.ty == element ==> m in MembersOf(w.groups, element)
  {
    hide PublicIndexWf, PrivateAliasWf, ProvidersWf, AggregatesWf;
    MemberListWf(w, element);
    forall m | m in MembersOf(w.groups, element)
      ensures m in built
    {
      assert m in GroupTargets(w, k);
      assert m in Targets(w, supplied, k);
    }
  }

  // ---------- one wave ----------

  ghost function EntryKeys(s: seq<Entry<Key, Term>>): set<Key> {
    set e | e in s :: e.key
  }

  ghost function SlotKeys(s: seq<Slot<Key, Term, Error>>): set<Key> {
    set x | x in s :: x.key
  }

  ghost predicate EntriesDenote(w: Wiring, supplied: Values, s: seq<Entry<Key, Term>>)
    requires KeysWf(w)
  {
    forall e :: e in s ==> Denotes(w, supplied, e.key, e.value)
  }

  ghost predicate SlotsYield(w: Wiring, supplied: Values, user: UserCode, s: seq<Slot<Key, Term, Error>>)
    requires KeysWf(w)
  {
    forall x :: x in s ==> YieldsLater(w, supplied, user, x.key, x.fut)
  }

  /** A wave that may be run: distinct unbuilt keys whose dependencies are all built. */
  ghost predicate WaveWf(w: Wiring, supplied: Values, built: map<Key, Term>, ready: seq<Key>)
    requires KeysWf(w)
  {
    && NoDup(ready)
    && forall k :: k in ready ==> k !in built && Startable(w, supplied, built, k)
  }

  /** The keys of a wave enter `constructing`; only a key already there could stop it. */
  method EnterConstructing(c: Container, ready: seq<Key>) returns (r: Outcome)
    modifies c`constructing
    ensures r.Ok? <==> NoDup(ready) && old(c.constructing) !! Elems(ready)
    ensures r.Ok? ==> c.constructing == old(c.constructing) + Elems(ready)
  {
    var i := 0;
    assert Elems(ready[..0]) == {};
    while i < |ready|
      invariant i <= |ready|
      invariant NoDup(ready[..i]) && old(c.constructing) !! Elems(ready[..i])
      invariant c.constructing == old(c.constructing) + Elems(ready[..i])
    {
      assert ready[..i+1] == ready[..i] + [ready[i]];
      assert Elems(ready[..i+1]) == Elems(ready[..i]) + {ready[i]};
      assert ready[i] in ready;
      if ready[i] in c.constructing {
        assert ready[i] in ready[..i] || ready[i] in old(c.constructing);
        return Err(Cycle([ready[i]]));
      }
      c.constructing := c.constructing + {ready[i]};
      i := i + 1;
    }
    assert ready[..i] == ready;
    r := DONE;
  }

  /** `WaveGuard::drop`. */
  method LeaveConstructing(c: Container, ready: seq<Key>)
    modifies c`constructing
    ensures c.constructing == old(c.constructing) - Elems(ready)
  {
    var i := 0;
    assert Elems(ready[..0]) == {};
    while i < |ready|
      invariant i <= |ready|
      invariant c.constructing == old(c.constructing) - Elems(ready[..i])
    {
      assert ready[..i+1] == ready[..i] + [ready[i]];
      assert Elems(ready[..i+1]) == Elems(ready[..i]) + {ready[i]};
      c.constructing := c.constructing - {ready[i]};
      i := i + 1;
    }
    assert ready[..i] == ready;
  }

  /** Takes one provider out, calls it in its own scope, and puts everything back. */
  method CallInScope(c: Container, k: Key, ghost taken: set<Key>) returns (r: Result<ConstructOut, Error>)
    requires Wf(c.W()) && KeysWf(c.W()) && SuppliedWf(c.W(), c.supplied) && BuiltWf(c.W(), c.supplied, c.built, c.V())
    requires k in c.providers && Startable(c.W(), c.supplied, c.built, k)
    requires DepsBound(c.W(), c.supplied, c.providers[k].deps, k.scope)
    requires k !in c.built && k !in taken && k !in c.emptySlots
    requires MembersHeld(c.built, c.memberValues, taken)
    modifies c`memberValues, c`emptySlots, c`constructed, c`answers, c`providers, c`activeScope
    ensures c.providers == old(c.providers) && c.activeScope == old(c.activeScope)
    ensures r.Ok? ==> Yields(c.W(), c.supplied, c.user, k, r.value)
    ensures r.Err? ==> r.error == ConstructorFailed(k) && Breaks(c.W(), c.user, k) && !IsAsync(c.W(), k)
    ensures c.answers == old(c.answers) + Immediate(k, r)
    ensures c.constructed == old(c.constructed) + [k]
    ensures c.emptySlots <= old(c.emptySlots) + {k}
    ensures MembersHeld(c.built, c.memberValues, taken + {k})
  {
    hide Wf, SuppliedWf, BuiltWf, ProvidersWf, MembersHeld, Startable, DepsBound, Yields;
    ghost var w := c.W();
    var previous := c.EnterScope(k.scope);
    var p := c.TakeProvider(k);
    assert p.Some?;
    assert w.providers - {k} == c.providers;
    r := Construct(c, k, p.value, w, taken);
    c.PutProvider(k, p.value);
    c.LeaveScope(previous);
    assert c.providers == w.providers;
    assert c.W() == w;
  }

  method ConstructOne(c: Container, k: Key, ghost taken: set<Key>) returns (r: Result<ConstructOut, Error>)
    requires Sound(c) && k !in c.built && k !in taken && k !in c.constructed
    requires Startable(c.W(), c.supplied, c.built, k)
    requires MembersHeld(c.built, c.memberValues, taken)
    modifies c`memberValues, c`emptySlots, c`constructed, c`answers, c`providers, c`activeScope
    ensures Sound(c) && Kept(c)
    ensures r.Ok? ==> Yields(c.W(), c.supplied, c.user, k, r.value)
    ensures r.Err? ==> r.error == ConstructorFailed(k) && Breaks(c.W(), c.user, k) && !IsAsync(c.W(), k)
    ensures c.answers == old(c.answers) + Immediate(k, r)
    ensures c.constructed == old(c.constructed) + [k]
    ensures MembersHeld(c.built, c.memberValues, taken + {k})
  {
    hide Wf, SuppliedWf, BuiltWf, ProvidersWf, MembersHeld, Startable, Validated, NoDup, Elems, DepsBound, Truthful, Answered;
    ReadyToConstruct(c.W(), c.supplied, c.layers, c.built, c.emptySlots, c.constructed, k);
    AppendFresh(c.constructed, k);
    r := CallInScope(c, k, taken);
    SlotsWithin(old(c.emptySlots), c.emptySlots, old(c.constructed), k);
    MoreAnswers(c.W(), c.user, old(c.answers), Immediate(k, r), c.built.Keys);
  }

  lemma MoreAnswers(w: Wiring, user: UserCode, answers: seq<Answer>, more: seq<Answer>, keys: set<Key>)
    requires Truthful(w, user, answers) && Answered(answers, keys)
    requires forall a :: a in more ==> AnswerIs(w, user, a)
    ensures Truthful(w, user, answers + more) && Answered(answers + more, keys)
  {
  }

  lemma ReadyToConstruct(w: Wiring, supplied: Values, layers: seq<seq<Key>>, built: map<Key, Term>, slots: set<Key>, constructed: seq<Key>, k: Key)
    requires Validated(w, supplied, layers) && Startable(w, supplied, built, k)
    requires slots <= Elems(constructed) && k !in constructed
    ensures Wf(w) && KeysWf(w) && SuppliedWf(w, supplied) && k in w.providers && k !in slots
    ensures DepsBound(w, supplied, w.providers[k].deps, k.scope)
  {
    hide Wf, SuppliedWf, ProvidersWf, Graph.WellFormed, Acyclic, DepsBound;
  }

  lemma SlotsWithin(slots: set<Key>, slots': set<Key>, constructed: seq<Key>, k: Key)
    requires slots <= Elems(constructed) && slots' <= slots + {k}
    ensures slots' <= Elems(constructed + [k])
  {
    assert forall x :: x in constructed ==> x in constructed + [k];
  }

  lemma AppendFresh(s: seq<Key>, k: Key)
    requires NoDup(s) && k !in s
    ensures NoDup(s + [k]) && Elems(s + [k]) == Elems(s) + {k}
  {
  }

  /** Values that were there at once: their constructors are not asynchronous and did not fail. */
  ghost predicate EntriesNow(w: Wiring, user: UserCode, s: seq<Entry<Key, Term>>) {
    forall e :: e in s ==> !IsAsync(w, e.key) && !Breaks(w, user, e.key)
  }

  /** Calls every provider of the wave in turn; the first that fails outright ends it, and is the last called. */
  method ConstructAll(c: Container, ready: seq<Key>) returns (r: Outcome, readies: seq<Entry<Key, Term>>, futs: seq<Slot<Key, Term, Error>>)
    requires Sound(c) && WaveWf(c.W(), c.supplied, c.built, ready) && NoFailure(c.answers)
    requires Elems(c.constructed) == c.built.Keys && MembersHeld(c.built, c.memberValues, {})
    modifies c`memberValues, c`emptySlots, c`constructed, c`answers, c`providers, c`activeScope
    ensures Sound(c) && Kept(c)
    ensures r.Ok? ==> EntryKeys(readies) + SlotKeys(futs) == Elems(ready)
    ensures r.Ok? ==> EntriesDenote(c.W(), c.supplied, readies) && SlotsYield(c.W(), c.supplied, c.user, futs)
    ensures r.Ok? ==> EntriesNow(c.W(), c.user, readies) && Answered(c.answers, EntryKeys(readies))
    ensures r.Ok? ==> c.constructed == old(c.constructed) + ready && MembersHeld(c.built, c.memberValues, Elems(ready))
    ensures r.Err? ==> r.error.ConstructorFailed? && r.error.key in ready && Breaks(c.W(), c.user, r.error.key) && !IsAsync(c.W(), r.error.key)
    ensures r.Err? ==> c.constructed != [] && c.constructed[|c.constructed|-1] == r.error.key
    ensures Shows(if r.Ok? then Completed else Failed(r.error), c.answers)
    ensures Elems(c.constructed) <= c.built.Keys + Elems(ready)
  {
    hide SoundState, MembersHeld, Denotes, Startable, KeysWf, YieldsLater, ProvidersWf, NoFailure, Answered, EntriesNow;
    readies, futs := [], [];
    ghost var w, supplied, user, start := c.W(), c.supplied, c.user, c.constructed;
    SoundKeys(c);
    NothingNow(w, user, c.answers);
    var i := 0;
    assert Elems(ready[..0]) == {};
    assert start + ready[..0] == start;
    while i < |ready|
      invariant i <= |ready|
      invariant Sound(c) && Kept(c) && KeysWf(w)
      invariant c.constructed == start + ready[..i] && MembersHeld(c.built, c.memberValues, Elems(ready[..i]))
      invariant EntryKeys(readies) + SlotKeys(futs) == Elems(ready[..i])
      invariant EntriesDenote(w, supplied, readies) && SlotsYield(w, supplied, user, futs)
      invariant EntriesNow(w, user, readies) && Answered(c.answers, EntryKeys(readies)) && NoFailure(c.answers)
    {
      var k := ready[i];
      assert k in ready && k !in ready[..i];
      assert ready[..i+1] == ready[..i] + [k];
      assert Elems(ready[..i+1]) == Elems(ready[..i]) + {k};
      assert start + ready[..i+1] == start + ready[..i] + [k];
      NotYetConstructed(start, ready, i, c.built.Keys);
      ghost var answers := c.answers;
      var out := ConstructOne(c, k, Elems(ready[..i]));
      if out.Err? {
        ConstructedWithin(start, ready, i + 1, c.built.Keys);
        FailsNow(answers, Constructed(k, false));
        return Err(out.error), readies, futs;
      }
      match out.value {
        case Finished(t) =>
          KeysOfAppendedEntry(readies, Entry(k, t));
          OneMoreNow(w, user, answers, readies, Entry(k, t));
          readies := readies + [Entry(k, t)];
        case Started(f) =>
          assert answers + [] == answers;
          KeysOfAppendedSlot(futs, Slot(k, f));
          futs := futs + [Slot(k, f)];
      }
      i := i + 1;
    }
    assert ready[..i] == ready;
    ConstructedWithin(start, ready, i, c.built.Keys);
    r := DONE;
  }

  lemma NothingNow(w: Wiring, user: UserCode, answers: seq<Answer>)
    ensures EntriesNow(w, user, []) && Answered(answers, EntryKeys([]))
  {
  }

  lemma OneMoreNow(w: Wiring, user: UserCode, answers: seq<Answer>, s: seq<Entry<Key, Term>>, e: Entry<Key, Term>)
    requires EntriesNow(w, user, s) && Answered(answers, EntryKeys(s)) && NoFailure(answers)
    requires !IsAsync(w, e.key) && !Breaks(w, user, e.key)
    ensures EntriesNow(w, user, s + [e]) && Answered(answers + [Constructed(e.key, true)], EntryKeys(s) + {e.key})
    ensures NoFailure(answers + [Constructed(e.key, true)])
  {
  }

  lemma FailsNow(answers: seq<Answer>, a: Answer)
    requires NoFailure(answers) && !a.ok
    ensures Shows(Failed(ErrorOf(a)), answers + [a])
  {
    assert (answers + [a])[..|answers|] == answers;
  }

  lemma SoundKeys(c: Container)
    requires Sound(c)
    ensures KeysWf(c.W())
  {
  }

  lemma NotYetConstructed(start: seq<Key>, ready: seq<Key>, i: nat, built: set<Key>)
    requires Elems(start) == built && NoDup(ready) && i < |ready| && ready[i] !in built
    ensures ready[i] !in start + ready[..i] && ready[i] !in Elems(ready[..i])
  {
    assert ready[i] !in Elems(start);
  }

  lemma ConstructedWithin(start: seq<Key>, ready: seq<Key>, i: nat, built: set<Key>)
    requires Elems(start) == built && i <= |ready|
    ensures Elems(start + ready[..i]) <= built + Elems(ready)
  {
    forall k | k in start + ready[..i]
      ensures k in built + Elems(ready)
    {
      assert k in start ==> k in Elems(start);
    }
  }

  lemma KeysOfAppendedEntry(s: seq<Entry<Key, Term>>, e: Entry<Key, Term>)
    ensures EntryKeys(s + [e]) == EntryKeys(s) + {e.key}
  {
    assert forall x :: x in s + [e] <==> x in s || x == e;
  }

  lemma KeysOfAppendedSlot(s: seq<Slot<Key, Term, Error>>, x: Slot<Key, Term, Error>)
    ensures SlotKeys(s + [x]) == SlotKeys(s) + {x.key}
  {
    assert forall y :: y in s + [x] <==> y in s || y == x;
  }

  // ---------- storing and joining ----------

  /** Stores one finished value: a member is held for its aggregate, anything else is cached. */
  method Store(c: Container, k: Key, t: Term)
    requires Sound(c) && Startable(c.W(), c.supplied, c.built, k) && Denotes(c.W(), c.supplied, k, t)
    requires Constructed(k, true) in c.answers
    modifies c`valuesPublic, c`valuesPrivate, c`privateScopes, c`memberValues, c`built
    ensures Sound(c) && Kept(c)
    ensures c.built == old(c.built)[k := t]
    ensures c.memberValues == if k.IsGroupMember() then old(c.memberValues)[k := t] else old(c.memberValues)
  {
    hide Wf, SuppliedWf, BuiltWf, ProvidersWf, Denotes, Startable, Validated, NoDup, Elems, Truthful;
    ghost var w, supplied := c.W(), c.supplied;
    ValidatedParts(w, supplied, c.layers);
    if k.IsGroupMember() {
      StoredMember(w, supplied, c.built, c.V(), k, t);
      c.memberValues := c.memberValues[k := t];
    } else {
      StoredSingleton(w, supplied, c.built, c.V(), k, t);
      c.StoreConstructed(k.ty, t, k.scope, k.isPrivate);
    }
    c.built := c.built[k := t];
    assert c.W() == w;
  }

  lemma ValidatedParts(w: Wiring, supplied: Values, layers: seq<seq<Key>>)
    requires Validated(w, supplied, layers)
    ensures Wf(w) && KeysWf(w) && SuppliedWf(w, supplied)
  {
    hide Wf, SuppliedWf, ProvidersWf, Graph.WellFormed, Acyclic;
  }

  /** What is built and held part-way through storing the wave `ready`. */
  ghost predicate Storing(c: Container, ready: set<Key>)
    reads c, c.scopes
  {
    && Sound(c)
    && (forall k :: k in ready ==> Startable(c.W(), c.supplied, c.built, k))
    && (forall k :: k in ready && k.IsGroupMember() ==> VirtualKey(k.ty) !in c.built && VirtualKey(k.ty) !in ready)
    && MembersHeld(c.built, c.memberValues, ready)
  }

  /** Stores finished values one after another and strikes their keys off `pending`. */
  method StoreAll(c: Container, entries: seq<Entry<Key, Term>>, pending0: set<Key>, ghost ready: set<Key>) returns (pending: set<Key>)
    requires Storing(c, ready) && EntryKeys(entries) <= ready && EntriesDenote(c.W(), c.supplied, entries)
    requires Answered(c.answers, EntryKeys(entries))
    modifies c`valuesPublic, c`valuesPrivate, c`privateScopes, c`memberValues, c`built
    ensures Storing(c, ready) && Kept(c)
    ensures c.built.Keys == old(c.built).Keys + EntryKeys(entries)
    ensures pending == pending0 - EntryKeys(entries)
  {
    hide SoundState, Denotes, Startable, MembersHeld, ProvidersWf;
    pending := pending0;
    ghost var w, supplied, built := c.W(), c.supplied, c.built.Keys;
    var i := 0;
    assert EntryKeys(entries[..0]) == {};
    while i < |entries|
      invariant i <= |entries|
      invariant Storing(c, ready) && Kept(c)
      invariant c.built.Keys == built + EntryKeys(entries[..i])
      invariant pending == pending0 - EntryKeys(entries[..i])
    {
      var e := entries[i];
      assert e in entries;
      assert e.key in EntryKeys(entries);
      assert entries[..i+1] == entries[..i] + [e];
      KeysOfAppendedEntry(entries[..i], e);
      SoundKeys(c);
      ghost var built1, held1 := c.built, c.memberValues;
      Store(c, e.key, e.value);
      StillStoring(w, supplied, built1, held1, ready, e.key, e.value);
      pending := pending - {e.key};
      i := i + 1;
    }
    assert entries[..i] == entries;
  }

  lemma StillStoring(w: Wiring, supplied: Values, built: map<Key, Term>, held: map<Key, Term>, ready: set<Key>, k: Key, t: Term)
    requires KeysWf(w) && k in ready && MembersHeld(built, held, ready)
    requires forall j :: j in ready ==> Startable(w, supplied, built, j)
    requires forall j :: j in ready && j.IsGroupMember() ==> VirtualKey(j.ty) !in built && VirtualKey(j.ty) !in ready
    ensures forall j :: j in ready ==> Startable(w, supplied, built[k := t], j)
    ensures forall j :: j in ready && j.IsGroupMember() ==> VirtualKey(j.ty) !in built[k := t] && VirtualKey(j.ty) !in ready
    ensures MembersHeld(built[k := t], if k.IsGroupMember() then held[k := t] else held, ready)
  {
    hide Targets, ProvidersWf;
    assert forall j :: j in ready ==> Startable(w, supplied, built, j);
  }

  /** The answers of futures that have ended well. */
  function Joined(values: seq<Entry<Key, Term>>): (r: seq<Answer>)
    ensures NoFailure(r) && Answered(r, EntryKeys(values))
    ensures forall a :: a in r ==> a.Constructed? && a.key in EntryKeys(values)
  {
    if values == [] then []
    else
      assert values == [values[0]] + values[1..];
      [Constructed(values[0].key, true)] + Joined(values[1..])
  }

  /** One of the started futures fails while the caller waits. */
  ghost predicate OneFails(futs: seq<Slot<Key, Term, Error>>, patience: Option<nat>) {
    exists x :: x in futs && x.fut.outcome.Err? && InTime(x.fut.wait, patience)
  }

  ghost predicate OneOverdue(futs: seq<Slot<Key, Term, Error>>, patience: Option<nat>) {
    exists x :: x in futs && !InTime(x.fut.wait, patience)
  }

  ghost predicate HeardInTime(futs: seq<Slot<Key, Term, Error>>, k: Key, patience: Option<nat>) {
    exists x :: x in futs && x.key == k && InTime(x.fut.wait, patience)
  }

  /** A single future is awaited as it is. */
  method AwaitOne(c: Container, futs: seq<Slot<Key, Term, Error>>, patience: Option<nat>, ghost ready: set<Key>)
    returns (r: Run, results: seq<Entry<Key, Term>>, left: Option<nat>)
    requires Storing(c, ready) && NoFailure(c.answers) && KeysWf(c.W()) && SlotsYield(c.W(), c.supplied, c.user, futs) && |futs| == 1
    modifies c`answers
    ensures Storing(c, ready) && Shows(r, c.answers)
    ensures r.Failed? <==> OneFails(futs, patience)
    ensures r.Cancelled? <==> !OneFails(futs, patience) && OneOverdue(futs, patience)
    ensures r.Completed? ==> EntryKeys(results) == SlotKeys(futs) && EntriesDenote(c.W(), c.supplied, results)
    ensures r.Completed? ==> Answered(c.answers, EntryKeys(results))
    ensures left.Some? ==> patience.Some?
    ensures r.Failed? ==> r.error.ConstructorFailed? && r.error.key in SlotKeys(futs) && Breaks(c.W(), c.user, r.error.key)
    ensures r.Completed? && patience.Some? ==> left.Some? && patience.value == left.value + LongestWait(futs)
    ensures r.Failed? ==> HeardInTime(futs, r.error.key, patience)
  {
    hide Denotes, ProvidersWf, Storing, NoFailure, Answered, Breaks;
    left := patience;
    var x := futs[0];
    assert x in futs && futs == [x];
    if !InTime(x.fut.wait, patience) {
      return Cancelled, [], left;
    }
    if x.fut.outcome.Err? {
      assert x.key in SlotKeys(futs);
      HearFailure(c, x.key, ready);
      assert HeardInTime(futs, x.key, patience);
      return Failed(x.fut.outcome.error), [], left;
    }
    var e := Entry(x.key, x.fut.outcome.value);
    OneEntry(x, e, futs);
    assert LongestWait(futs) == x.fut.wait;
    HearValues(c, futs, [e], ready);
    return Completed, [e], Left(patience, x.fut.wait);
  }

  /** Several are joined. */
  method AwaitAll(c: Container, futs: seq<Slot<Key, Term, Error>>, patience: Option<nat>, ghost ready: set<Key>)
    returns (r: Run, results: seq<Entry<Key, Term>>, left: Option<nat>)
    requires Storing(c, ready) && NoFailure(c.answers) && KeysWf(c.W()) && SlotsYield(c.W(), c.supplied, c.user, futs)
    modifies c`answers
    ensures Storing(c, ready) && Shows(r, c.answers)
    ensures r.Failed? <==> OneFails(futs, patience)
    ensures r.Cancelled? <==> !OneFails(futs, patience) && OneOverdue(futs, patience)
    ensures r.Completed? ==> EntryKeys(results) == SlotKeys(futs) && EntriesDenote(c.W(), c.supplied, results)
    ensures r.Completed? ==> Answered(c.answers, EntryKeys(results))
    ensures left.Some? ==> patience.Some?
    ensures r.Failed? ==> r.error.ConstructorFailed? && r.error.key in SlotKeys(futs) && Breaks(c.W(), c.user, r.error.key)
    ensures r.Completed? && patience.Some? ==> left.Some? && patience.value == left.value + LongestWait(futs)
    ensures r.Failed? ==> HeardInTime(futs, r.error.key, patience)
  {
    hide Denotes, ProvidersWf, Storing, NoFailure, Answered, LongestWait, Breaks, FailsFirst, KeysWf, InTime;
    var join := new TryJoinAll(futs);
    var polled;
    polled, left := Drive(join, patience);
    match polled {
      case NotReady =>
        r, results := Cancelled, [];
      case Ready(Err(e)) =>
        ghost var x := OneThatFails(futs, e, patience);
        assert x.key in SlotKeys(futs);
        HearFailure(c, x.key, ready);
        r, results := Failed(e), [];
      case Ready(Ok(values)) =>
        YieldedAreOutcomes(c.W(), c.supplied, c.user, futs, values);
        HearValues(c, futs, values, ready);
        r, results := Completed, values;
    }
  }

  /**
   * Awaits the started futures. A failure that is there in time comes out; all values come out
   * if all are there in time; otherwise the caller has dropped the join.
   */
  method JoinConstructs(c: Container, futs: seq<Slot<Key, Term, Error>>, patience: Option<nat>, ghost ready: set<Key>)
    returns (r: Run, results: seq<Entry<Key, Term>>, left: Option<nat>)
    requires Storing(c, ready) && NoFailure(c.answers) && KeysWf(c.W()) && SlotsYield(c.W(), c.supplied, c.user, futs)
    modifies c`answers
    ensures Storing(c, ready) && Shows(r, c.answers)
    ensures r.Failed? <==> OneFails(futs, patience)
    ensures r.Cancelled? <==> !OneFails(futs, patience) && OneOverdue(futs, patience)
    ensures r.Completed? ==> EntryKeys(results) == SlotKeys(futs) && EntriesDenote(c.W(), c.supplied, results)
    ensures r.Completed? ==> Answered(c.answers, EntryKeys(results))
    ensures left.Some? ==> patience.Some?
    ensures r.Failed? ==> r.error.ConstructorFailed? && r.error.key in SlotKeys(futs) && Breaks(c.W(), c.user, r.error.key)
    ensures r.Completed? && patience.Some? ==> left.Some? && patience.value == left.value + LongestWait(futs)
    ensures r.Failed? ==> HeardInTime(futs, r.error.key, patience)
  {
    hide Denotes, ProvidersWf, Storing, NoFailure, Answered, Breaks;
    left := patience;
    if |futs| == 0 {
      assert LongestWait(futs) == 0;
      NothingNow(c.W(), c.user, c.answers);
      return Completed, [], left;
    }
    if |futs| == 1 {
      r, results, left := AwaitOne(c, futs, patience, ready);
      return;
    }
    r, results, left := AwaitAll(c, futs, patience, ready);
  }

  /** A started future has failed. */
  ghost method HearFailure(c: Container, k: Key, ready: set<Key>)
    requires Storing(c, ready) && NoFailure(c.answers) && Breaks(c.W(), c.user, k)
    modifies c`answers
    ensures Storing(c, ready) && Shows(Failed(ConstructorFailed(k)), c.answers)
  {
    hide Startable, MembersHeld, Validated, BuiltWf, NoDup, Elems, Truthful, Answered, NoFailure, Breaks;
    MoreAnswers(c.W(), c.user, c.answers, [Constructed(k, false)], c.built.Keys);
    FailsNow(c.answers, Constructed(k, false));
    c.answers := c.answers + [Constructed(k, false)];
  }

  /** All started futures have ended well. */
  ghost method HearValues(c: Container, futs: seq<Slot<Key, Term, Error>>, values: seq<Entry<Key, Term>>, ready: set<Key>)
    requires Storing(c, ready) && NoFailure(c.answers) && KeysWf(c.W()) && SlotsYield(c.W(), c.supplied, c.user, futs)
    requires EntryKeys(values) == SlotKeys(futs) && forall x :: x in futs ==> x.fut.outcome.Ok?
    modifies c`answers
    ensures Storing(c, ready) && NoFailure(c.answers) && Answered(c.answers, EntryKeys(values))
  {
    hide Startable, MembersHeld, Validated, BuiltWf, NoDup, Elems, Truthful, Denotes, Joined;
    NoneOfThemBreaks(c.W(), c.supplied, c.user, futs);
    MoreAnswers(c.W(), c.user, c.answers, Joined(values), c.built.Keys);
    c.answers := c.answers + Joined(values);
  }

  lemma NoneOfThemBreaks(w: Wiring, supplied: Values, user: UserCode, futs: seq<Slot<Key, Term, Error>>)
    requires KeysWf(w) && SlotsYield(w, supplied, user, futs) && forall x :: x in futs ==> x.fut.outcome.Ok?
    ensures forall k :: k in SlotKeys(futs) ==> !Breaks(w, user, k)
  {
  }

  lemma OneThatFails(futs: seq<Slot<Key, Term, Error>>, e: Error, patience: Option<nat>) returns (x: Slot<Key, Term, Error>)
    requires FailsFirst(futs, e, patience)
    ensures x in futs && x.fut.outcome == Err(e) && HeardInTime(futs, x.key, patience)
  {
    x :| x in futs && x.fut.outcome == Err(e) && InTime(x.fut.wait, patience);
  }

  lemma OneEntry(s: Slot<Key, Term, Error>, e: Entry<Key, Term>, futs: seq<Slot<Key, Term, Error>>)
    requires futs == [s] && e.key == s.key
    ensures EntryKeys([e]) == SlotKeys(futs)
  {
    assert EntryKeys([e]) == {e.key};
    assert SlotKeys(futs) == {s.key};
  }

  lemma YieldedAreOutcomes(w: Wiring, supplied: Values, user: UserCode, futs: seq<Slot<Key, Term, Error>>, values: seq<Entry<Key, Term>>)
    requires KeysWf(w) && SlotsYield(w, supplied, user, futs)
    requires Yielded<Key, Term, Error>(values) == Outcomes(futs)
    ensures EntryKeys(values) == SlotKeys(futs) && EntriesDenote(w, supplied, values)
  {
    hide Denotes, ProvidersWf;
    forall e | e in values
      ensures e.key in SlotKeys(futs) && Denotes(w, supplied, e.key, e.value)
    {
      ValueIsYielded<Key, Term, Error>(values, e);
      MemberOfOutcome(futs, Entry(e.key, Result<Term, Error>.Ok(e.value)));
    }
    forall x | x in futs
      ensures x.key in EntryKeys(values)
    {
      OutcomeOfMember(futs, x);
      YieldedIsValue<Key, Term, Error>(values, Entry(x.key, x.fut.outcome));
    }
  }

  lemma {:induction false} ValueIsYielded<K, T, E>(s: seq<Entry<K, T>>, e: Entry<K, T>)
    requires e in s
    ensures Entry(e.key, Result<T, E>.Ok(e.value)) in Yielded<K, T, E>(s)
  {
    if s[|s|-1] != e {
      assert s == s[..|s|-1] + [s[|s|-1]];
      ValueIsYielded<K, T, E>(s[..|s|-1], e);
    }
  }

  lemma {:induction false} YieldedIsValue<K, T, E>(s: seq<Entry<K, T>>, o: Entry<K, Result<T, E>>)
    requires o in Yielded<K, T, E>(s)
    ensures o.value.Ok? && Entry(o.key, o.value.value) in s
  {
    if s != [] {
      var last := s[|s|-1];
      assert s == s[..|s|-1] + [last];
      if o == Entry(last.key, Result<T, E>.Ok(last.value)) {
        assert last in s;
      } else {
        YieldedIsValue<K, T, E>(s[..|s|-1], o);
      }
    }
  }

  // ---------- waves ----------

  /** A caller has left in the middle of a wave: some future had not ended, and no failure was there yet. */
  ghost predicate CutOff(w: Wiring, user: UserCode, constructed: seq<Key>, built: set<Key>) {
    && (exists k :: k in constructed && k !in built && Overdue(w, user, k, Some(0)))
    && (forall k :: k in constructed ==> !BreaksInTime(w, user, k, Some(0)))
  }

  /**
   * How a wave uses up its caller's patience: it is waited for until its slowest constructor is
   * done, what comes out has come in time, and what is cut off would have taken longer.
   */
  ghost predicate WaveTimed(w: Wiring, user: UserCode, ready: seq<Key>, patience: Option<nat>, r: Run, left: Option<nat>) {
    match r
    case Completed => patience.Some? ==> left.Some? && patience.value == left.value + WaveTime(w, user, ready)
    case Failed(e) => e.ConstructorFailed? && (patience.Some? ==> WaitOf(w, user, e.key) <= patience.value)
    case Cancelled => patience.Some? && patience.value < WaveTime(w, user, ready)
  }

  /**
   * Runs one wave: every constructor is called before anything is stored, then finished values
   * are stored, then the started ones as they join. It fails exactly if a constructor's failure
   * is there in time, and is cut off exactly if there is none and a future is not. However it
   * ends, the caches are right, nothing is left marked as constructing, and every provider is
   * back in place.
   */
  method RunWave(c: Container, ready: seq<Key>, pending0: set<Key>, patience: Option<nat>)
    returns (r: Run, pending: set<Key>, left: Option<nat>)
    requires Quiet(c) && WaveWf(c.W(), c.supplied, c.built, ready)
    requires forall k :: k in ready && k.IsGroupMember() ==> VirtualKey(k.ty) !in c.built && VirtualKey(k.ty) !in ready
    modifies c
    ensures Sound(c) && Kept(c) && c.constructing == {} && c.invoked == old(c.invoked)
    ensures c.waveScratch == old(c.waveScratch)
    ensures r.Completed? ==> Quiet(c) && c.built.Keys == old(c.built).Keys + Elems(ready) && pending == pending0 - Elems(ready)
    ensures r.Failed? <==> exists k :: k in ready && BreaksInTime(c.W(), c.user, k, patience)
    ensures r.Cancelled? <==> !r.Failed? && exists k :: k in ready && Overdue(c.W(), c.user, k, patience)
    ensures r.Failed? ==>
              && r.error.ConstructorFailed? && r.error.key in ready && r.error.key in c.constructed
              && Breaks(c.W(), c.user, r.error.key)
    ensures r.Cancelled? ==> CutOff(c.W(), c.user, c.constructed, c.built.Keys)
    ensures Shows(r, c.answers) && (left.Some? ==> patience.Some?)
    ensures Elems(c.constructed) <= old(c.built).Keys + Elems(ready)
    ensures WaveTimed(c.W(), c.user, ready, patience, r, left)
    ensures r.Completed? ==> c.constructed == old(c.constructed) + ready
  {
    hide SoundState, Startable, MembersHeld, ProvidersWf, WaveWf, NoFailure, CutOff, WaveTimed;
    SoundKeys(c);
    WaveIsDistinct(c, ready);
    var entered := EnterConstructing(c, ready);
    assert entered.Ok?;
    r, pending, left := RunGuarded(c, ready, pending0, patience);
    LeaveConstructing(c, ready);
  }

  lemma WaveIsDistinct(c: Container, ready: seq<Key>)
    requires KeysWf(c.W()) && WaveWf(c.W(), c.supplied, c.built, ready)
    ensures NoDup(ready)
  {
  }

  /** Finished values are stored at once, those of the started futures as they join. */
  method StoreAndJoin(c: Container, ghost ready: set<Key>, readies: seq<Entry<Key, Term>>, futs: seq<Slot<Key, Term, Error>>,
                      pending0: set<Key>, patience: Option<nat>)
    returns (r: Run, pending: set<Key>, left: Option<nat>)
    requires Storing(c, ready) && KeysWf(c.W()) && EntryKeys(readies) + SlotKeys(futs) == ready && NoFailure(c.answers)
    requires EntriesDenote(c.W(), c.supplied, readies) && SlotsYield(c.W(), c.supplied, c.user, futs)
    requires Answered(c.answers, EntryKeys(readies))
    modifies c`valuesPublic, c`valuesPrivate, c`privateScopes, c`memberValues, c`built, c`answers
    ensures Storing(c, ready) && Kept(c)
    ensures r.Failed? <==> OneFails(futs, patience)
    ensures r.Cancelled? <==> !OneFails(futs, patience) && OneOverdue(futs, patience)
    ensures c.built.Keys == old(c.built).Keys + if r.Completed? then ready else EntryKeys(readies)
    ensures r.Completed? ==> pending == pending0 - ready
    ensures r.Failed? ==> r.error.ConstructorFailed? && r.error.key in SlotKeys(futs) && Breaks(c.W(), c.user, r.error.key)
    ensures Shows(r, c.answers) && (left.Some? ==> patience.Some?)
    ensures r.Completed? && patience.Some? ==> left.Some? && patience.value == left.value + LongestWait(futs)
    ensures r.Failed? ==> HeardInTime(futs, r.error.key, patience)
  {
    hide EntriesDenote, SlotsYield, Storing, NoFailure, Answered, OneFails, OneOverdue, Breaks, KeysWf;
    pending := StoreAll(c, readies, pending0, ready);
    var results;
    r, results, left := JoinConstructs(c, futs, patience, ready);
    if r.Completed? {
      pending := StoreAll(c, results, pending, ready);
    }
  }

  /** The part of a wave under its guard, which clears `constructing` however this ends. */
  method RunGuarded(c: Container, ready: seq<Key>, pending0: set<Key>, patience: Option<nat>)
    returns (r: Run, pending: set<Key>, left: Option<nat>)
    requires Sound(c) && KeysWf(c.W()) && WaveWf(c.W(), c.supplied, c.built, ready) && NoFailure(c.answers)
    requires Elems(c.constructed) == c.built.Keys && MembersHeld(c.built, c.memberValues, {})
    requires forall k :: k in ready && k.IsGroupMember() ==> VirtualKey(k.ty) !in c.built && VirtualKey(k.ty) !in ready
    modifies c`valuesPublic, c`valuesPrivate, c`privateScopes, c`built
    modifies c`memberValues, c`emptySlots, c`constructed, c`answers, c`providers, c`activeScope
    ensures Sound(c) && Kept(c)
    ensures r.Completed? ==> c.built.Keys == old(c.built).Keys + Elems(ready) && pending == pending0 - Elems(ready)
    ensures r.Completed? ==> Elems(c.constructed) == c.built.Keys && MembersHeld(c.built, c.memberValues, {})
    ensures r.Failed? <==> exists k :: k in ready && BreaksInTime(c.W(), c.user, k, patience)
    ensures r.Cancelled? <==> !r.Failed? && exists k :: k in ready && Overdue(c.W(), c.user, k, patience)
    ensures r.Failed? ==>
              && r.error.ConstructorFailed? && r.error.key in ready && r.error.key in c.constructed
              && Breaks(c.W(), c.user, r.error.key)
    ensures r.Cancelled? ==> CutOff(c.W(), c.user, c.constructed, c.built.Keys)
    ensures Shows(r, c.answers) && (left.Some? ==> patience.Some?)
    ensures Elems(c.constructed) <= old(c.built).Keys + Elems(ready)
    ensures WaveTimed(c.W(), c.user, ready, patience, r, left)
    ensures r.Completed? ==> c.constructed == old(c.constructed) + ready
  {
    hide SoundState, Startable, MembersHeld, ProvidersWf, EntriesDenote, SlotsYield, NoDup, Storing, NoFailure, Answered, EntriesNow,
      OneFails, OneOverdue, BreaksInTime, Overdue, Breaks, CutOff, KeysWf, MarksWf, BuiltWf, Validated, HeardInTime, LongestWait, WaveTimed,
      WaitOf;
    pending, left := pending0, patience;
    ghost var built, start := c.built.Keys, c.constructed;
    NothingBroke(c);
    var called, readies, futs := ConstructAll(c, ready);
    if called.Err? {
      r := Failed(called.error);
      BrokeAtOnce(c.W(), c.user, called.error.key, patience);
      TimedAtOnce(c.W(), c.user, ready, called.error.key, patience, left);
      return;
    }
    WaveFails(c.W(), c.supplied, c.user, ready, readies, futs, patience);
    StoringBegins(c, ready);
    ConcatElems(start, ready);
    r, pending, left := StoreAndJoin(c, Elems(ready), readies, futs, pending, patience);
    StoringIsSound(c, ready);
    WaveIsTimed(c.W(), c.supplied, c.user, ready, readies, futs, patience, r, left);
    if r.Cancelled? {
      WaveIsCutOff(c.W(), c.user, c.constructed, built, c.built.Keys, ready, readies, patience);
    } else if r.Completed? {
      AllStored(c, ready);
    }
  }

  lemma NothingBroke(c: Container)
    requires Sound(c)
    ensures forall k :: k in c.built ==> !Breaks(c.W(), c.user, k)
  {
    hide Validated, BuiltWf, NoDup, Elems, Breaks;
    forall k | k in c.built
      ensures !Breaks(c.W(), c.user, k)
    {
      assert AnswerIs(c.W(), c.user, Constructed(k, true));
    }
  }

  lemma BrokeAtOnce(w: Wiring, user: UserCode, k: Key, patience: Option<nat>)
    requires Breaks(w, user, k) && !IsAsync(w, k)
    ensures BreaksInTime(w, user, k, patience)
  {
  }

  lemma TimedAtOnce(w: Wiring, user: UserCode, ready: seq<Key>, k: Key, patience: Option<nat>, left: Option<nat>)
    requires !IsAsync(w, k)
    ensures WaveTimed(w, user, ready, patience, Failed(ConstructorFailed(k)), left)
  {
  }

  /** The join takes as long as the wave. */
  lemma JoinTakesWaveTime(w: Wiring, supplied: Values, user: UserCode, ready: seq<Key>, readies: seq<Entry<Key, Term>>, futs: seq<Slot<Key, Term, Error>>)
    requires KeysWf(w) && EntryKeys(readies) + SlotKeys(futs) == Elems(ready)
    requires EntriesNow(w, user, readies) && SlotsYield(w, supplied, user, futs)
    ensures LongestWait(futs) == WaveTime(w, user, ready)
    ensures forall x :: x in futs ==> x.fut.wait == WaitOf(w, user, x.key)
  {
    hide Denotes, ProvidersWf, Breaks, LongestWait, WaveTime;
    LongestIsMax(futs);
    forall x | x in futs
      ensures x.key in ready && x.fut.wait == WaitOf(w, user, x.key)
    {
      assert YieldsLater(w, supplied, user, x.key, x.fut);
      assert x.key in SlotKeys(futs);
      assert x.key in Elems(ready);
    }
    forall k | k in ready
      ensures WaitOf(w, user, k) <= LongestWait(futs)
    {
      assert k in Elems(ready);
      if k in EntryKeys(readies) {
        var e :| e in readies && e.key == k;
      } else {
        var x :| x in futs && x.key == k;
      }
    }
    NoWaitIfNone(futs);
  }

  lemma NoWaitIfNone(futs: seq<Slot<Key, Term, Error>>)
    ensures futs == [] ==> LongestWait(futs) == 0
  {
  }

  lemma WaveIsTimed(w: Wiring, supplied: Values, user: UserCode, ready: seq<Key>, readies: seq<Entry<Key, Term>>,
                    futs: seq<Slot<Key, Term, Error>>, patience: Option<nat>, r: Run, left: Option<nat>)
    requires KeysWf(w) && EntryKeys(readies) + SlotKeys(futs) == Elems(ready)
    requires EntriesNow(w, user, readies) && SlotsYield(w, supplied, user, futs)
    requires r.Completed? && patience.Some? ==> left.Some? && patience.value == left.value + LongestWait(futs)
    requires r.Failed? ==> r.error.ConstructorFailed? && HeardInTime(futs, r.error.key, patience)
    requires r.Cancelled? ==> OneOverdue(futs, patience)
    ensures WaveTimed(w, user, ready, patience, r, left)
  {
    hide KeysWf, EntriesNow, SlotsYield, LongestWait, WaveTime, WaitOf, EntryKeys, SlotKeys;
    JoinTakesWaveTime(w, supplied, user, ready, readies, futs);
    LongestIsMax(futs);
  }

  /** How the started futures end says which constructors of the wave fail or are late. */
  lemma WaveFails(w: Wiring, supplied: Values, user: UserCode, ready: seq<Key>, readies: seq<Entry<Key, Term>>,
                  futs: seq<Slot<Key, Term, Error>>, patience: Option<nat>)
    requires KeysWf(w) && EntryKeys(readies) + SlotKeys(futs) == Elems(ready)
    requires EntriesNow(w, user, readies) && SlotsYield(w, supplied, user, futs)
    ensures OneFails(futs, patience) <==> exists k :: k in ready && BreaksInTime(w, user, k, patience)
    ensures OneOverdue(futs, patience) <==> exists k :: k in ready && Overdue(w, user, k, patience)
  {
    hide Denotes, ProvidersWf, Breaks, IsAsync;
    forall k | k in ready
      ensures BreaksInTime(w, user, k, patience) ==> OneFails(futs, patience)
      ensures Overdue(w, user, k, patience) ==> OneOverdue(futs, patience)
    {
      assert k in Elems(ready);
      if k in EntryKeys(readies) {
        var e :| e in readies && e.key == k;
      } else {
        var x :| x in futs && x.key == k;
        assert YieldsLater(w, supplied, user, x.key, x.fut);
      }
    }
    forall x | x in futs
      ensures x.key in ready && YieldsLater(w, supplied, user, x.key, x.fut)
    {
      assert x.key in SlotKeys(futs);
      assert x.key in Elems(ready);
    }
  }

  lemma WaveIsCutOff(w: Wiring, user: UserCode, constructed: seq<Key>, before: set<Key>, built: set<Key>, ready: seq<Key>,
                     readies: seq<Entry<Key, Term>>, patience: Option<nat>)
    requires Elems(constructed) == before + Elems(ready) && built == before + EntryKeys(readies)
    requires forall k :: k in ready ==> k !in before
    requires forall k :: k in before ==> !Breaks(w, user, k)
    requires EntriesNow(w, user, readies)
    requires !exists k :: k in ready && BreaksInTime(w, user, k, patience)
    requires exists k :: k in ready && Overdue(w, user, k, patience)
    ensures CutOff(w, user, constructed, built)
  {
    hide Breaks, IsAsync;
    var k :| k in ready && Overdue(w, user, k, patience);
    assert k in Elems(constructed);
    assert k !in EntryKeys(readies);
    forall j | j in constructed
      ensures !BreaksInTime(w, user, j, Some(0))
    {
      assert j in Elems(constructed);
    }
  }

  lemma StoringIsSound(c: Container, ready: seq<Key>)
    requires Storing(c, Elems(ready))
    ensures Sound(c)
  {
  }

  lemma ConcatElems(a: seq<Key>, b: seq<Key>)
    ensures Elems(a + b) == Elems(a) + Elems(b)
  {
  }

  lemma StoringBegins(c: Container, ready: seq<Key>)
    requires Sound(c) && KeysWf(c.W()) && WaveWf(c.W(), c.supplied, c.built, ready)
    requires MembersHeld(c.built, c.memberValues, Elems(ready))
    requires forall k :: k in ready && k.IsGroupMember() ==> VirtualKey(k.ty) !in c.built && VirtualKey(k.ty) !in ready
    ensures Storing(c, Elems(ready))
  {
    hide SoundState, Startable, MembersHeld, ProvidersWf;
  }

  lemma AllStored(c: Container, ready: seq<Key>)
    requires Storing(c, Elems(ready)) && Elems(ready) <= c.built.Keys
    ensures MembersHeld(c.built, c.memberValues, {})
  {
    hide SoundState, Startable, ProvidersWf;
  }

  // ---------- requests ----------

  /** Keys to run: unbuilt, closed together with what is built, members only with their aggregate. */
  ghost predicate PendingWf(w: Wiring, supplied: Values, built: set<Key>, pending: set<Key>)
    requires KeysWf(w)
  {
    && pending <= w.providers.Keys && pending !! built
    && Closed(GraphOf(w, supplied), pending + built)
    && MembersSettled(pending + built)
  }

  /** Part-way through replaying the layers. */
  ghost predicate Replaying(c: Container, total: set<Key>, pending: set<Key>, i: nat)
    reads c, c.scopes
  {
    && Quiet(c) && KeysWf(c.W())
    && i <= |c.layers|
    && pending + c.built.Keys == total
    && PendingWf(c.W(), c.supplied, c.built.Keys, pending)
    && pending !! Before(c.layers, i)
  }

  lemma LayerWave(c: Container, total: set<Key>, pending: set<Key>, i: nat)
    requires Replaying(c, total, pending, i) && i < |c.layers|
    ensures var ready := PendingOf(c.layers[i], pending);
            && WaveWf(c.W(), c.supplied, c.built, ready)
            && (forall k :: k in ready && k.IsGroupMember() ==> VirtualKey(k.ty) !in c.built && VirtualKey(k.ty) !in ready)
  {
    hide Validated, Startable, BuiltWf, MembersHeld, ProvidersWf;
    var ready := PendingOf(c.layers[i], pending);
    LayerIsDistinct(c.W(), c.supplied, c.layers, i);
    forall k | k in ready
      ensures Startable(c.W(), c.supplied, c.built, k)
    {
      WaveIsStartable(c.W(), c.supplied, c.layers, c.built, pending, i, k);
    }
    forall k | k in ready && k.IsGroupMember()
      ensures VirtualKey(k.ty) !in c.built && VirtualKey(k.ty) !in ready
    {
      AggregateComesLater(c.W(), c.supplied, c.layers, c.built, c.V(), i, k);
    }
  }

  /** A member about to run has an aggregate that is neither built nor in the same layer. */
  lemma AggregateComesLater(w: Wiring, supplied: Values, layers: seq<seq<Key>>, built: map<Key, Term>, v: Values, i: nat, m: Key)
    requires Validated(w, supplied, layers) && BuiltWf(w, supplied, built, v)
    requires i < |layers| && m in layers[i] && m !in built && m.IsGroupMember()
    ensures VirtualKey(m.ty) !in built && VirtualKey(m.ty) !in layers[i]
  {
    hide Wf, SuppliedWf, ProvidersBound, Graph.WellFormed, Acyclic, Caches, MarksWf, AllDenote, ProvidersWf, Targets;
    var g := GraphOf(w, supplied);
    LayerMembers(g, i);
    assert m in g.deps;
    var a := VirtualKey(m.ty);
    AggregateNeedsMember(w, supplied, m);
    assert m in g.deps[a];
    assert m in Elems(g.deps[a]);
  }

  lemma AggregateNeedsMember(w: Wiring, v: Values, m: Key)
    requires Wf(w) && KeysWf(w) && m in w.providers && m.IsGroupMember()
    ensures VirtualKey(m.ty) in w.providers && m in Targets(w, v, VirtualKey(m.ty))
  {
    hide PublicIndexWf, PrivateAliasWf, ProvidersWf, OrderListWf;
    MemberAggregateIs(w, m);
    RegistrationIs(w, m.ty);
    assert m in MembersOf(w.groups, m.ty);
    assert m in GroupTargets(w, VirtualKey(m.ty));
  }

  lemma NothingInLayer(c: Container, total: set<Key>, pending: set<Key>, i: nat)
    requires Replaying(c, total, pending, i) && i < |c.layers| && PendingOf(c.layers[i], pending) == []
    ensures Replaying(c, total, pending, i + 1)
  {
    hide SoundState, PendingWf, MembersHeld, ProvidersWf;
    assert pending !! Elems(c.layers[i]) by {
      forall k | k in pending
        ensures k !in Elems(c.layers[i])
      {
        assert k !in PendingOf(c.layers[i], pending);
      }
    }
  }

  lemma WaveReplayed(c: Container, total: set<Key>, built0: set<Key>, before: set<Key>, pending: set<Key>, ready: seq<Key>, i: nat)
    requires Quiet(c) && KeysWf(c.W()) && i < |c.layers|
    requires before + built0 == total && before !! Before(c.layers, i) && PendingWf(c.W(), c.supplied, built0, before)
    requires ready == PendingOf(c.layers[i], before)
    requires c.built.Keys == built0 + Elems(ready) && pending == before - Elems(ready)
    ensures Replaying(c, total, pending, i + 1)
  {
    hide SoundState, MembersHeld, ProvidersWf, MembersSettled, Closed;
    assert pending + c.built.Keys == before + built0;
    assert pending !! Elems(c.layers[i]);
  }

  lemma ReplayEnds(c: Container, total: set<Key>, pending: set<Key>, i: nat)
    requires Replaying(c, total, pending, i) && (i == |c.layers| || pending == {})
    ensures pending == {} && Settled(c) && Quiet(c) && Sound(c) && c.constructing == {} && c.built.Keys == total
    ensures Elems(c.constructed) <= total
  {
    hide Validated, BuiltWf, MembersHeld, ProvidersWf, Before, Closed;
    if i == |c.layers| {
      NothingLeft(c.W(), c.supplied, c.layers, pending);
    }
  }

  /** Nothing of a later layer than `k`'s has been constructed, save what had been before. */
  ghost predicate NoLaterWave(layers: seq<seq<Key>>, before: set<Key>, constructed: seq<Key>, k: Key) {
    exists i :: 0 <= i < |layers| && k in layers[i] && Elems(constructed) <= before + Before(layers, i + 1)
  }

  lemma LastWave(layers: seq<seq<Key>>, before: set<Key>, built: set<Key>, ready: seq<Key>, constructed: seq<Key>, i: nat, k: Key)
    requires i < |layers| && built <= before + Before(layers, i) && Elems(constructed) <= built + Elems(ready)
    requires k in ready && forall x :: x in ready ==> x in layers[i]
    ensures NoLaterWave(layers, before, constructed, k)
  {
    assert Elems(ready) <= Elems(layers[i]);
  }

  lemma BuiltSoFar(layers: seq<seq<Key>>, before: set<Key>, built: set<Key>, ready: seq<Key>, i: nat)
    requires i < |layers| && built <= before + Before(layers, i)
    requires forall x :: x in ready ==> x in layers[i]
    ensures built + Elems(ready) <= before + Before(layers, i + 1)
  {
    assert Elems(ready) <= Elems(layers[i]);
  }

  /**
   * How replaying the layers uses up its caller's patience: wave after wave, each as long as its
   * slowest constructor; a failure has come out in time, and what is cut off is the first wave
   * that would have taken too long.
   */
  ghost predicate ReplayTimed(w: Wiring, user: UserCode, layers: seq<seq<Key>>, keys: set<Key>, patience: Option<nat>, r: Run, left: Option<nat>) {
    match r
    case Completed => patience.Some? ==> left.Some? && patience.value == left.value + LayersTime(w, user, layers, keys)
    case Failed(e) => e.ConstructorFailed? && FailsInTime(w, user, layers, keys, e.key, patience)
    case Cancelled =>
      patience.Some? && exists i ::
        0 <= i < |layers| && LayersTime(w, user, layers[..i], keys) <= patience.value < LayersTime(w, user, layers[..i+1], keys)
  }

  ghost predicate FailsInLayer(w: Wiring, user: UserCode, layers: seq<seq<Key>>, keys: set<Key>, i: nat, k: Key, patience: Option<nat>) {
    && i < |layers| && k in layers[i] && k in keys
    && (patience.Some? ==> LayersTime(w, user, layers[..i], keys) + WaitOf(w, user, k) <= patience.value)
  }

  ghost predicate FailsInTime(w: Wiring, user: UserCode, layers: seq<seq<Key>>, keys: set<Key>, k: Key, patience: Option<nat>) {
    exists i :: 0 <= i < |layers| && FailsInLayer(w, user, layers, keys, i, k, patience)
  }

  lemma ReplayStops(w: Wiring, user: UserCode, layers: seq<seq<Key>>, keys: set<Key>, i: nat, patience: Option<nat>, left0: Option<nat>,
                    r: Run, left: Option<nat>)
    requires i < |layers| && !r.Completed? && (left0.Some? ==> patience.Some?)
    requires patience.Some? ==> left0.Some? && patience.value == left0.value + LayersTime(w, user, layers[..i], keys)
    requires WaveTimed(w, user, PendingOf(layers[i], keys), left0, r, left)
    requires r.Failed? ==> r.error.key in PendingOf(layers[i], keys)
    ensures ReplayTimed(w, user, layers, keys, patience, r, left)
  {
    hide LayersTime, WaveTime, WaitOf, PendingOf;
    OneMoreLayer(w, user, layers, keys, i);
    if r.Failed? {
      assert FailsInLayer(w, user, layers, keys, i, r.error.key, patience);
    }
  }

  /** Nothing of layer `i` or later has been struck off yet. */
  lemma StillAllPending(c: Container, total: set<Key>, pending0: set<Key>, pending: set<Key>, start: set<Key>, i: nat)
    requires Replaying(c, total, pending, i) && c.built.Keys <= start + Before(c.layers, i)
    requires total == pending0 + start && pending0 !! start && start <= c.built.Keys
    ensures i < |c.layers| ==> PendingOf(c.layers[i], pending) == PendingOf(c.layers[i], pending0)
    ensures pending == {} ==> forall j :: i <= j < |c.layers| ==> PendingOf(c.layers[j], pending0) == []
  {
    hide Wf, SuppliedWf, ProvidersBound, Acyclic, Graph.WellFormed, ProvidersWf, BuiltWf, MembersHeld, Targets, Layers, Before;
    var g, layers := GraphOf(c.W(), c.supplied), c.layers;
    assert layers == Layers(g);
    if i < |layers| {
      LayerMembers(g, i);
      forall k | k in layers[i]
        ensures k in pending <==> k in pending0
      {
        assert k !in Before(layers, i);
        assert k in pending ==> k !in c.built.Keys;
        assert k in total <==> k in pending || k in c.built.Keys;
      }
      SamePending(layers[i], pending, pending0);
    }
    if pending == {} {
      forall j | i <= j < |layers|
        ensures PendingOf(layers[j], pending0) == []
      {
        LayerMembers(g, j);
        BeforeGrows(layers, i, j);
        forall k | k in layers[j]
          ensures k !in pending0
        {
          assert k !in Before(layers, i);
          assert k in total ==> k in c.built.Keys;
        }
        NonePending(layers[j], pending0);
      }
    }
  }

  lemma NoWaveNoTime(w: Wiring, user: UserCode, patience: Option<nat>)
    ensures WaveTimed(w, user, [], patience, Completed, patience)
  {
  }

  /** One round of the replay: what is pending in layer `i` runs as a wave, if there is anything. */
  method ReplayLayer(c: Container, i: nat, pending0: set<Key>, patience: Option<nat>, ghost total: set<Key>, ghost start: set<Key>)
    returns (r: Run, pending: set<Key>, left: Option<nat>)
    requires i < |c.layers| && Replaying(c, total, pending0, i) && c.built.Keys <= start + Before(c.layers, i)
    modifies c
    ensures Sound(c) && Kept(c) && c.constructing == {} && c.invoked == old(c.invoked)
    ensures r.Completed? ==> Replaying(c, total, pending, i + 1) && c.built.Keys <= start + Before(c.layers, i + 1)
    ensures Elems(c.constructed) <= total
    ensures r.Failed? ==> r.error.ConstructorFailed? && r.error.key in c.constructed && Breaks(c.W(), c.user, r.error.key)
    ensures r.Failed? ==> NoLaterWave(c.layers, start, c.constructed, r.error.key)
    ensures r.Cancelled? ==> patience.Some? && CutOff(c.W(), c.user, c.constructed, c.built.Keys)
    ensures Shows(r, c.answers) && (left.Some? ==> patience.Some?)
    ensures WaveTimed(c.W(), c.user, PendingOf(c.layers[i], pending0), patience, r, left)
    ensures r.Completed? ==> c.constructed == old(c.constructed) + PendingOf(c.layers[i], pending0)
    ensures r.Completed? ==> old(c.built).Keys <= c.built.Keys
    ensures r.Failed? ==> r.error.key in PendingOf(c.layers[i], pending0)
  {
    hide SoundState, PendingWf, MembersHeld, ProvidersWf, WaveWf, Before, CutOff, NoFailure, Shows, Breaks, IsAsync, NoLaterWave, WaveTimed;
    r, pending, left := Completed, pending0, patience;
    c.waveScratch := PendingOf(c.layers[i], pending);
    if c.waveScratch == [] {
      NoWaveNoTime(c.W(), c.user, patience);
      NothingInLayer(c, total, pending, i);
      BuiltSoFar(c.layers, start, c.built.Keys, [], i);
      QuietShows(c);
      return;
    }
    var ready := c.waveScratch;
    c.waveScratch := [];
    LayerWave(c, total, pending, i);
    ghost var built := c.built.Keys;
    r, pending, left := RunWave(c, ready, pending, left);
    assert Elems(ready) <= pending0;
    if r.Completed? {
      WaveReplayed(c, total, built, pending0, pending, ready, i);
      BuiltSoFar(c.layers, start, built, ready, i);
    } else if r.Failed? {
      LastWave(c.layers, start, built, ready, c.constructed, i, r.error.key);
    }
  }

  /**
   * Replays the frozen layers over what is pending. Only a user constructor can make it fail, and
   * then no later wave runs; after the last layer nothing is left, so the cycle error at its end
   * cannot be reached.
   */
  method BuildPending(c: Container, pending0: set<Key>, patience: Option<nat>) returns (r: Run, pending: set<Key>, left: Option<nat>)
    requires Quiet(c) && KeysWf(c.W()) && PendingWf(c.W(), c.supplied, c.built.Keys, pending0)
    modifies c
    ensures Sound(c) && Kept(c) && c.constructing == {} && c.invoked == old(c.invoked)
    ensures r.Completed? ==> Settled(c) && c.built.Keys == old(c.built).Keys + pending0 && pending == {}
    ensures Elems(c.constructed) <= old(c.built).Keys + pending0
    ensures r.Failed? ==> r.error.ConstructorFailed? && r.error.key in c.constructed && Breaks(c.W(), c.user, r.error.key)
    ensures r.Failed? ==> NoLaterWave(c.layers, old(c.built).Keys, c.constructed, r.error.key)
    ensures r.Cancelled? ==> patience.Some? && CutOff(c.W(), c.user, c.constructed, c.built.Keys)
    ensures Shows(r, c.answers) && (left.Some? ==> patience.Some?)
    ensures ReplayTimed(c.W(), c.user, c.layers, pending0, patience, r, left)
    ensures r.Completed? ==> c.constructed == old(c.constructed) + InLayers(c.layers, pending0)
  {
    hide SoundState, PendingWf, MembersHeld, ProvidersWf, Before, CutOff, NoFailure, Shows, Breaks, NoLaterWave, WaveTimed, ReplayTimed,
      LayersTime, InLayers, Replaying, Sound, Settled, Quiet, PendingOf, WaveTime, Elems, Shows;
    pending, left := pending0, patience;
    ghost var start := c.built.Keys;
    ghost var w, layers := c.W(), c.layers;
    NothingReplayed(c, pending0);
    ghost var total := pending + start;
    ReplayStarts(c, pending);
    assert start <= start + Before(c.layers, 0);
    var n := |c.layers|;
    var i := 0;
    while i < n
      invariant i <= n == |c.layers|
      invariant Kept(c) && c.invoked == old(c.invoked) && (left.Some? ==> patience.Some?)
      invariant Replaying(c, total, pending, i) && c.built.Keys <= start + Before(c.layers, i)
      invariant patience.Some? ==> left.Some? && patience.value == left.value + LayersTime(w, c.user, layers[..i], pending0)
      invariant c.constructed == old(c.constructed) + InLayers(layers[..i], pending0) && start <= c.built.Keys
    {
      StillAllPending(c, total, pending0, pending, start, i);
      if pending == {} {
        break;
      }
      ghost var left0 := left;
      r, pending, left := ReplayLayer(c, i, pending, left, total, start);
      OneMoreLayer(w, c.user, layers, pending0, i);
      if !r.Completed? {
        ReplayStops(w, c.user, layers, pending0, i, patience, left0, r, left);
        return;
      }
      WaveCompleted(w, c.user, PendingOf(layers[i], pending0), left0, left);
      i := i + 1;
    }
    StillAllPending(c, total, pending0, pending, start, i);
    RestIsIdle(w, c.user, layers, pending0, i);
    ReplayCompleted(w, c.user, layers, pending0, patience, left);
    ReplayEnds(c, total, pending, i);
    r := Completed;
    QuietShows(c);
  }

  lemma NothingReplayed(c: Container, pending0: set<Key>)
    requires KeysWf(c.W()) && PendingWf(c.W(), c.supplied, c.built.Keys, pending0)
    ensures pending0 !! c.built.Keys
    ensures LayersTime(c.W(), c.user, c.layers[..0], pending0) == 0 && InLayers(c.layers[..0], pending0) == []
  {
  }

  lemma WaveCompleted(w: Wiring, user: UserCode, ready: seq<Key>, patience: Option<nat>, left: Option<nat>)
    requires WaveTimed(w, user, ready, patience, Completed, left)
    ensures patience.Some? ==> left.Some? && patience.value == left.value + WaveTime(w, user, ready)
  {
  }

  lemma ReplayCompleted(w: Wiring, user: UserCode, layers: seq<seq<Key>>, keys: set<Key>, patience: Option<nat>, left: Option<nat>)
    requires patience.Some? ==> left.Some? && patience.value == left.value + LayersTime(w, user, layers, keys)
    ensures ReplayTimed(w, user, layers, keys, patience, Completed, left)
  {
  }

  lemma QuietShows(c: Container)
    requires Quiet(c)
    ensures Shows(Completed, c.answers)
  {
    hide SoundState, MembersHeld;
  }

  lemma ReplayStarts(c: Container, pending: set<Key>)
    requires Quiet(c) && KeysWf(c.W()) && PendingWf(c.W(), c.supplied, c.built.Keys, pending)
    ensures Replaying(c, pending + c.built.Keys, pending, 0)
  {
  }

  /** Everything bound in the registration is still bound, and nothing is running. */
  lemma SoundIsSmooth(c: Container)
    requires Quiet(c)
    ensures Smooth(c)
  {
    hide Closed, AllDenote, MarksWf, OrderListWf, MemberListsWf, AggregatesWf, ProvidersWf, Graph.WellFormed, Acyclic, MembersHeld, Caches;
    var w := c.W();
    forall k, i | k in c.providers && k.scope < |w.chains| && 0 <= i < |c.providers[k].deps|
      ensures !Bind(w, c.V(), c.providers[k].deps[i], k.scope).Unbound?
    {
      assert DepsBound(w, c.supplied, c.providers[k].deps, k.scope);
      BindAfterBuild(w, c.supplied, c.built, c.V(), c.providers[k].deps[i], w.chains[k.scope]);
    }
  }

  /** The providers a request is directly waiting for. */
  ghost function RootsOf(w: Wiring, v: Values, roots: seq<Ty>, from: ScopeId): set<Key>
    requires from < |w.chains|
  {
    Elems(DepTargets(w, v, roots, from))
  }

  /** What a request asks for: all that its roots need, directly or not, and that is not built yet. */
  ghost function Asked(w: Wiring, v: Values, built: set<Key>, roots: seq<Ty>, from: ScopeId): set<Key>
    requires KeysWf(w) && from < |w.chains|
  {
    set k | k in w.providers && k !in built && Reachable(GraphOf(w, v), RootsOf(w, v, roots, from), k)
  }

  /** Part-way through collecting what `roots` need. */
  ghost predicate Gathered(w: Wiring, v: Values, roots: seq<Ty>, from: ScopeId, i: nat, pending: set<Key>)
    requires KeysWf(w) && from < |w.chains|
  {
    && i <= |roots|
    && Closed(GraphOf(w, v), pending)
    && (forall k :: k in pending ==> Reachable(GraphOf(w, v), RootsOf(w, v, roots, from), k))
    && forall j :: 0 <= j < i ==> Awaited(w, v, roots[j], from, pending)
  }

  lemma GatheredMore(w: Wiring, v: Values, roots: seq<Ty>, from: ScopeId, i: nat, before: set<Key>, after: set<Key>)
    requires KeysWf(w) && PublicWf(w) && PrivateWf(w) && from < |w.chains| && i < |roots|
    requires Gathered(w, v, roots, from, i, before) && before <= after && Awaited(w, v, roots[i], from, after)
    requires var b := Bind(w, v, roots[i], from);
             (b.Cached? ==> after == before) && (b.ProvidedBy? ==> Collected(GraphOf(w, v), b.key, before, after))
    ensures Gathered(w, v, roots, from, i + 1, after)
  {
    hide ProvidersWf, Targets, PublicIndexWf, PrivateAliasWf, Reachable, Awaited, Closed, Collected;
    var b := Bind(w, v, roots[i], from);
    if b.ProvidedBy? {
      BoundIsRoot(w, v, roots, from, i);
      NewAreReachable(GraphOf(w, v), b.key, before, after, RootsOf(w, v, roots, from));
      CollectedIsClosed(GraphOf(w, v), b.key, before, after);
    } else {
      assert b.Cached? by { AwaitedIsBound(w, v, roots[i], from, after); }
    }
    forall j | 0 <= j < i
      ensures Awaited(w, v, roots[j], from, after)
    {
      AwaitedGrows(w, v, roots[j], from, before, after);
    }
  }

  lemma AwaitedIsBound(w: Wiring, v: Values, id: Ty, from: ScopeId, pending: set<Key>)
    requires from < |w.chains| && Awaited(w, v, id, from, pending)
    ensures !Bind(w, v, id, from).Unbound?
  {
  }

  lemma AwaitedGrows(w: Wiring, v: Values, id: Ty, from: ScopeId, before: set<Key>, after: set<Key>)
    requires from < |w.chains| && Awaited(w, v, id, from, before) && before <= after
    ensures Awaited(w, v, id, from, after)
  {
  }

  lemma BoundIsRoot(w: Wiring, v: Values, roots: seq<Ty>, from: ScopeId, i: nat)
    requires PublicWf(w) && PrivateWf(w) && from < |w.chains| && i < |roots| && Bind(w, v, roots[i], from).ProvidedBy?
    ensures Bind(w, v, roots[i], from).key in RootsOf(w, v, roots, from)
  {
    DepTargetsAre(w, v, roots, from);
  }

  lemma NewAreReachable(g: Graph, root: Key, before: set<Key>, after: set<Key>, roots: set<Key>)
    requires Collected(g, root, before, after) && root in roots
    requires forall k :: k in before ==> Reachable(g, roots, k)
    ensures forall k :: k in after ==> Reachable(g, roots, k)
  {
    hide Reachable;
    forall k | k in after
      ensures Reachable(g, roots, k)
    {
      if k !in before {
        assert Reachable(g, {root}, k);
        MoreRoots(g, {root}, roots, k);
      }
    }
  }

  lemma MoreRoots(g: Graph, roots: set<Key>, roots': set<Key>, k: Key)
    requires Reachable(g, roots, k) && roots <= roots'
    ensures Reachable(g, roots', k)
  {
    var p: seq<Key> :| Walk(g, p) && p[0] in roots && p[|p|-1] == k;
    assert Walk(g, p) && p[0] in roots';
  }

  lemma CollectedIsClosed(g: Graph, root: Key, before: set<Key>, after: set<Key>)
    requires Closed(g, before) && Collected(g, root, before, after)
    ensures Closed(g, after)
  {
  }

  /** What has been gathered for a request may be run. */
  lemma GatheredIsPending(c: Container, roots: seq<Ty>, from: ScopeId, pending: set<Key>)
    requires Settled(c) && KeysWf(c.W()) && from < |c.W().chains| && pending <= c.providers.Keys
    requires Gathered(c.W(), c.V(), roots, from, |roots|, pending)
    ensures PendingWf(c.W(), c.supplied, c.built.Keys, pending)
  {
    hide Wf, SuppliedWf, Caches, MarksWf, AllDenote, ProvidersWf, ProvidersBound, Graph.WellFormed, Acyclic, Layers, Targets, Walk, Awaited, MembersHeld;
    var w, v, supplied, built := c.W(), c.V(), c.supplied, c.built;
    var rs := RootsOf(w, v, roots, from);
    RootsAreUnbuilt(w, supplied, built, v, roots, from);
    forall k | k in pending
      ensures k !in built
      ensures k.IsGroupMember() ==> VirtualKey(k.ty) in pending
    {
      ResidualIsUnbuilt(w, supplied, built, v, rs, k);
      if k.IsGroupMember() {
        RootsGathered(w, v, roots, from, pending);
        MemberNeedsAggregate(w, v, rs, pending, k);
      }
    }
    forall k, e | k in pending + built.Keys && k in GraphOf(w, supplied).deps && e in GraphOf(w, supplied).deps[k]
      ensures e in pending + built.Keys
    {
      if k in pending {
        ResidualTargets(w, supplied, built, v, k);
        assert e in Targets(w, v, k) ==> e in GraphOf(w, v).deps[k];
      } else {
        assert k in built.Keys;
      }
    }
  }

  lemma RootsAreUnbuilt(w: Wiring, supplied: Values, built: map<Key, Term>, v: Values, roots: seq<Ty>, from: ScopeId)
    requires Wf(w) && SuppliedWf(w, supplied) && Caches(w, supplied, built, v) && from < |w.chains|
    ensures RootsOf(w, v, roots, from) !! built.Keys && RootsOf(w, v, roots, from) <= w.providers.Keys
    ensures forall k :: k in RootsOf(w, v, roots, from) ==> !k.IsGroupMember()
  {
    hide Caches, OrderListWf, MemberListsWf, AggregatesWf, ProvidersWf;
    ResidualDepTargets(w, supplied, built, v, roots, from);
    DepTargetsAre(w, v, roots, from);
  }

  lemma RootsGathered(w: Wiring, v: Values, roots: seq<Ty>, from: ScopeId, pending: set<Key>)
    requires Wf(w) && KeysWf(w) && from < |w.chains| && Gathered(w, v, roots, from, |roots|, pending)
    ensures RootsOf(w, v, roots, from) <= pending
  {
    hide OrderListWf, MemberListsWf, AggregatesWf, ProvidersWf, Closed, Reachable;
    DepTargetsAre(w, v, roots, from);
    forall k | k in RootsOf(w, v, roots, from)
      ensures k in pending
    {
      var i :| 0 <= i < |roots| && Bind(w, v, roots[i], from) == ProvidedBy(k);
      assert Awaited(w, v, roots[i], from, pending);
    }
  }

  /**
   * Builds what `roots` need from the active scope, and nothing else. After `validate` it can
   * fail only in a user constructor, and does if one's failure is there; or its caller leaves.
   */
  method EnsureBuilt(c: Container, roots: seq<Ty>, patience: Option<nat>) returns (r: Run, left: Option<nat>)
    requires Settled(c) && KeysWf(c.W()) && DepsBound(c.W(), c.supplied, roots, c.activeScope)
    modifies c
    ensures Sound(c) && Kept(c) && c.constructing == {} && c.invoked == old(c.invoked)
    ensures r.Completed? ==> Settled(c) && old(c.built).Keys <= c.built.Keys
    ensures r.Completed? ==> RootsOf(c.W(), c.supplied, roots, c.activeScope) <= c.built.Keys
    ensures forall k :: k in c.constructed && k !in old(c.constructed) ==>
                          Reachable(GraphOf(c.W(), c.supplied), RootsOf(c.W(), c.supplied, roots, c.activeScope), k)
    ensures r.Failed? ==> r.error.ConstructorFailed? && r.error.key in c.constructed && Breaks(c.W(), c.user, r.error.key)
    ensures r.Failed? ==> NoLaterWave(c.layers, old(c.built).Keys, c.constructed, r.error.key)
    ensures r.Cancelled? ==> patience.Some? && CutOff(c.W(), c.user, c.constructed, c.built.Keys)
    ensures Shows(r, c.answers) && (left.Some? ==> patience.Some?)
    ensures KeysWf(c.W()) && c.activeScope < |c.scopes.ancestors|
    ensures var asked := Asked(c.W(), c.supplied, old(c.built).Keys, roots, c.activeScope);
            && ReplayTimed(c.W(), c.user, c.layers, asked, patience, r, left)
            && (r.Completed? ==> c.built.Keys == old(c.built).Keys + asked && c.constructed == old(c.constructed) + InLayers(c.layers, asked))
  {
    hide SoundState, MembersHeld, ProvidersWf, Gathered, Smooth, CutOff, Shows, NoFailure, NoLaterWave, Breaks, ReplayTimed, Reachable, Asked,
      PendingWf, RootsOf, Wf;
    var from := c.activeScope;
    ghost var w, v, supplied, built := c.W(), c.V(), c.supplied, c.built;
    var pending := CollectAll(c, roots, from);
    GatheredIsPending(c, roots, from, pending);
    NewlyRequested(c, roots, from, pending);
    PendingIsAsked(c, roots, from, pending);
    ghost var requested := pending;
    r, pending, left := BuildPending(c, pending, patience);
    forall k | k in c.constructed && k !in old(c.constructed)
      ensures k in requested
    {
      assert k in Elems(c.constructed);
      assert k !in Elems(old(c.constructed));
    }
  }

  /** Collects what every root needs. */
  method CollectAll(c: Container, roots: seq<Ty>, from: ScopeId) returns (pending: set<Key>)
    requires Settled(c) && KeysWf(c.W()) && DepsBound(c.W(), c.supplied, roots, from)
    ensures pending <= c.providers.Keys && Gathered(c.W(), c.V(), roots, from, |roots|, pending)
  {
    hide SoundState, MembersHeld, ProvidersWf, Gathered, Smooth, Collected, Awaited, Wf;
    ghost var w, v := c.W(), c.V();
    SoundParts(c);
    SoundIsSmooth(c);
    GatherStarts(w, v, roots, from);
    pending := {};
    var i := 0;
    while i < |roots|
      invariant i <= |roots| && pending <= c.providers.Keys
      invariant Gathered(w, v, roots, from, i, pending)
    {
      StillBound(c, roots, from, i);
      ghost var before := pending;
      var r;
      r, pending := CollectPending(c, roots[i], from, pending);
      assert r.Ok?;
      GatheredMore(w, v, roots, from, i, before, pending);
      i := i + 1;
    }
  }

  lemma SoundParts(c: Container)
    requires Sound(c)
    ensures Wf(c.W()) && PublicWf(c.W()) && PrivateWf(c.W()) && SuppliedWf(c.W(), c.supplied) && MarksWf(c.W(), c.V())
    ensures c.Consistent()
  {
  }

  lemma GatherStarts(w: Wiring, v: Values, roots: seq<Ty>, from: ScopeId)
    requires KeysWf(w) && from < |w.chains|
    ensures Gathered(w, v, roots, from, 0, {})
  {
  }

  lemma StillBound(c: Container, roots: seq<Ty>, from: ScopeId, i: nat)
    requires Sound(c) && DepsBound(c.W(), c.supplied, roots, from) && i < |roots|
    ensures !Bind(c.W(), c.V(), roots[i], from).Unbound?
  {
    hide Closed, AllDenote, MarksWf, OrderListWf, MemberListsWf, AggregatesWf, ProvidersWf, Graph.WellFormed, Acyclic, Caches, ProvidersBound;
    BindAfterBuild(c.W(), c.supplied, c.built, c.V(), roots[i], c.W().chains[from]);
  }

  /** What has been gathered is exactly what is asked for. */
  lemma PendingIsAsked(c: Container, roots: seq<Ty>, from: ScopeId, pending: set<Key>)
    requires KeysWf(c.W()) && from < |c.W().chains| && PendingWf(c.W(), c.supplied, c.built.Keys, pending)
    requires RootsOf(c.W(), c.supplied, roots, from) <= pending + c.built.Keys
    requires forall k :: k in pending ==> Reachable(GraphOf(c.W(), c.supplied), RootsOf(c.W(), c.supplied, roots, from), k)
    ensures pending == Asked(c.W(), c.supplied, c.built.Keys, roots, from)
  {
    hide Closed, ProvidersWf, Targets, Reachable, RootsOf, MembersSettled;
    ClosedContainsReachable(GraphOf(c.W(), c.supplied), pending + c.built.Keys, RootsOf(c.W(), c.supplied, roots, from));
  }

  /** All roots are built or pending, and whatever is pending can be reached from them. */
  lemma NewlyRequested(c: Container, roots: seq<Ty>, from: ScopeId, pending: set<Key>)
    requires Sound(c) && KeysWf(c.W()) && from < |c.W().chains| && Gathered(c.W(), c.V(), roots, from, |roots|, pending)
    ensures RootsOf(c.W(), c.supplied, roots, from) <= pending + c.built.Keys
    ensures forall k :: k in pending ==> Reachable(GraphOf(c.W(), c.supplied), RootsOf(c.W(), c.supplied, roots, from), k)
  {
    hide Closed, AllDenote, MarksWf, ProvidersWf, Graph.WellFormed, Acyclic, Caches, ProvidersBound, Wf, SuppliedWf, Reachable, Awaited;
    var w, v, supplied, built := c.W(), c.V(), c.supplied, c.built;
    SoundParts(c);
    ResidualDepTargets(w, supplied, built, v, roots, from);
    RootsGathered(w, v, roots, from, pending);
    forall k | k in pending
      ensures Reachable(GraphOf(w, supplied), RootsOf(w, supplied, roots, from), k)
    {
      ResidualReach(w, supplied, built, v, RootsOf(w, v, roots, from), k);
      MoreRoots(GraphOf(w, supplied), RootsOf(w, v, roots, from), RootsOf(w, supplied, roots, from), k);
    }
  }
}
