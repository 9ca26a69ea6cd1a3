/** Running the invokers, which pull the graph (`run_invokers`, `src/app.rs`). */
module Invoke {
  import opened Types
  import opened Errors
  import opened Digraph
  import opened Scopes
  import opened Resolution
  import opened Containers
  import opened Validation
  import opened Pending
  import opened Progress
  import opened TryJoin
  import opened Schedule
  import opened Build
  import opened Timeouts

  /** Every provider the first `n` invokers directly ask for. */
  ghost function InvokedRoots(w: Wiring, v: Values, invokers: seq<Invoker>, n: nat): set<Key>
    requires n <= |invokers| && forall i :: 0 <= i < |invokers| ==> invokers[i].scope < |w.chains|
  {
    if n == 0 then {}
    else InvokedRoots(w, v, invokers, n - 1) + RootsOf(w, v, invokers[n-1].deps, invokers[n-1].scope)
  }

  /** The container `validate` has just accepted: no value but the supplied ones. */
  ghost predicate JustValidated(c: Container, invokers: seq<Invoker>)
    reads c, c.scopes
  {
    && c.Consistent() && KeysWf(c.W())
    && c.supplied == c.V() && c.built == map[] && c.constructed == [] && c.memberValues == map[] && c.emptySlots == {}
    && c.constructing == {} && c.invoked == [] && c.answers == []
    && WellWired(c.W(), c.V(), invokers)
    && GraphOf(c.W(), c.V()).WellFormed() && c.layers == Layers(GraphOf(c.W(), c.V()))
  }

  lemma ValidatedIsSettled(c: Container, invokers: seq<Invoker>)
    requires JustValidated(c, invokers)
    ensures Settled(c)
  {
    hide Wf, SuppliedWf, MarksWf, ProvidersBound, InvokersBound, RequiredFilled, Acyclic, Graph.WellFormed, Layers;
    assert Caches(c.W(), c.supplied, map[], c.V());
  }

  /** What holds before invoker `i` is called. */
  ghost predicate Invoking(c: Container, invokers: seq<Invoker>, i: nat, handed: seq<seq<Term>>)
    reads c, c.scopes
  {
    && Settled(c) && KeysWf(c.W()) && |handed| == i <= |invokers|
    && InvokersBound(c.W(), c.supplied, invokers)
    && (forall j :: 0 <= j < i ==> DepsDenote(c.W(), c.supplied, invokers[j].deps, invokers[j].scope, handed[j]))
    && InvokedRoots(c.W(), c.supplied, invokers, i) <= c.built.Keys
    && ReachedOnly(c.W(), c.supplied, invokers, i, c.constructed)
    && CalledWell(c.user, c.invoked, i)
  }

  function UpTo(n: nat): seq<nat> {
    seq<nat>(n, i requires 0 <= i < n => i)
  }

  /** The first `n` invokers have been called, once each and in order, and have not failed. */
  ghost predicate CalledWell(user: UserCode, invoked: seq<nat>, n: nat) {
    invoked == UpTo(n) && forall i: nat :: i < n ==> !user.invokerFails(i)
  }

  /**
   * Which call of user code has ended it: with `n` invokers called well, the build for the next
   * one failed or was cut off, or its own call did.
   */
  ghost predicate StoppedAt(c: Container, invokers: seq<Invoker>, n: nat, r: Run)
    reads c, c.scopes
  {
    && n < |invokers|
    && (forall i: nat :: i < n ==> !c.user.invokerFails(i))
    && match r
       case Completed => false
       case Failed(e) =>
         || (c.invoked == UpTo(n) && e.ConstructorFailed? && e.key in c.constructed && Breaks(c.W(), c.user, e.key))
         || (c.invoked == UpTo(n + 1) && e == InvokerFailed(n) && c.user.invokerFails(n))
       case Cancelled =>
         || (c.invoked == UpTo(n) && CutOff(c.W(), c.user, c.constructed, c.built.Keys))
         || (c.invoked == UpTo(n + 1) && invokers[n].isAsync && c.user.invokerWaits(n) > 0)
  }

  /** Every invoker has been called well, and no constructor has failed. */
  ghost predicate AllWell(c: Container, invokers: seq<Invoker>)
    reads c, c.scopes
  {
    CalledWell(c.user, c.invoked, |invokers|) && forall k :: k in c.constructed ==> !Breaks(c.W(), c.user, k)
  }

  /** Everything constructed so far is reachable from what the first `i` invokers ask for. */
  ghost predicate ReachedOnly(w: Wiring, v: Values, invokers: seq<Invoker>, i: nat, constructed: seq<Key>)
    requires KeysWf(w) && i <= |invokers| && InvokersBound(w, v, invokers)
  {
    forall k :: k in constructed ==> Reachable(GraphOf(w, v), InvokedRoots(w, v, invokers, i), k)
  }

  lemma ReachedMore(w: Wiring, v: Values, invokers: seq<Invoker>, i: nat, before: seq<Key>, after: seq<Key>)
    requires KeysWf(w) && i < |invokers| && InvokersBound(w, v, invokers) && ReachedOnly(w, v, invokers, i, before)
    requires invokers[i].scope < |w.chains|
    requires forall k :: k in after && k !in before ==>
                           Reachable(GraphOf(w, v), RootsOf(w, v, invokers[i].deps, invokers[i].scope), k)
    ensures ReachedOnly(w, v, invokers, i + 1, after)
  {
    hide Reachable, ProvidersWf, Targets;
    forall k | k in after
      ensures Reachable(GraphOf(w, v), InvokedRoots(w, v, invokers, i + 1), k)
    {
      if k in before {
        MoreRoots(GraphOf(w, v), InvokedRoots(w, v, invokers, i), InvokedRoots(w, v, invokers, i + 1), k);
      } else {
        MoreRoots(GraphOf(w, v), RootsOf(w, v, invokers[i].deps, invokers[i].scope), InvokedRoots(w, v, invokers, i + 1), k);
      }
    }
  }

  // ---------- how long a build takes ----------

  /** Every provider the first `n` invokers need, directly or not. */
  ghost function NeededBy(w: Wiring, v: Values, invokers: seq<Invoker>, n: nat): set<Key>
    requires KeysWf(w) && n <= |invokers| && InvokersBound(w, v, invokers)
  {
    set k | k in w.providers && Reachable(GraphOf(w, v), InvokedRoots(w, v, invokers, n), k)
  }

  /** What invoker `n` needs and none before it. */
  ghost function NewFor(w: Wiring, v: Values, invokers: seq<Invoker>, n: nat): set<Key>
    requires KeysWf(w) && n < |invokers| && InvokersBound(w, v, invokers)
  {
    NeededBy(w, v, invokers, n + 1) - NeededBy(w, v, invokers, n)
  }

  /** How often the future of an invoker answers "pending". */
  function InvokerWait(user: UserCode, invoker: Invoker, n: nat): nat {
    if invoker.isAsync then user.invokerWaits(n) else 0
  }

  /** The first `n` invokers one after another: the waves for what each needs anew, then its own future. */
  ghost function BuildTime(w: Wiring, v: Values, user: UserCode, layers: seq<seq<Key>>, invokers: seq<Invoker>, n: nat): nat
    requires KeysWf(w) && n <= |invokers| && InvokersBound(w, v, invokers)
  {
    if n == 0 then 0
    else
      BuildTime(w, v, user, layers, invokers, n - 1)
      + LayersTime(w, user, layers, NewFor(w, v, invokers, n - 1)) + InvokerWait(user, invokers[n-1], n - 1)
  }

  lemma {:induction false} LaterTakesLonger(w: Wiring, v: Values, user: UserCode, layers: seq<seq<Key>>, invokers: seq<Invoker>, i: nat, n: nat)
    requires KeysWf(w) && i <= n <= |invokers| && InvokersBound(w, v, invokers)
    ensures BuildTime(w, v, user, layers, invokers, i) <= BuildTime(w, v, user, layers, invokers, n)
    decreases n
  {
    hide KeysWf, InvokersBound, LayersTime, NewFor;
    if i < n {
      LaterTakesLonger(w, v, user, layers, invokers, i, n - 1);
    }
  }

  /** How one invoker, with the waves for `keys` before it, uses up its caller's patience. */
  ghost predicate StageTimed(w: Wiring, user: UserCode, layers: seq<seq<Key>>, keys: set<Key>, invoker: Invoker, n: nat,
                             patience: Option<nat>, r: Run, left: Option<nat>) {
    var time := LayersTime(w, user, layers, keys) + InvokerWait(user, invoker, n);
    match r
    case Completed => patience.Some? ==> left.Some? && patience.value == left.value + time
    case Failed(e) =>
      if e.ConstructorFailed? then FailsInTime(w, user, layers, keys, e.key, patience)
      else patience.Some? ==> time <= patience.value
    case Cancelled => patience.Some? && patience.value < time
  }

  /**
   * When the build has stopped at invoker `n`: a failure has come out while its caller was still
   * waiting; a caller that has left did so during that invoker's waits.
   */
  ghost predicate StoppedInTime(w: Wiring, v: Values, user: UserCode, layers: seq<seq<Key>>, invokers: seq<Invoker>, n: nat,
                                patience: Option<nat>, r: Run)
    requires KeysWf(w) && n < |invokers| && InvokersBound(w, v, invokers)
  {
    var before := BuildTime(w, v, user, layers, invokers, n);
    match r
    case Completed => false
    case Failed(e) =>
      patience.Some? ==>
        if e.ConstructorFailed? then
          before <= patience.value && FailsInTime(w, user, layers, NewFor(w, v, invokers, n), e.key, Some(patience.value - before))
        else BuildTime(w, v, user, layers, invokers, n + 1) <= patience.value
    case Cancelled => patience.Some? && before <= patience.value < BuildTime(w, v, user, layers, invokers, n + 1)
  }

  /** Which invoker the build has stopped at, and when. */
  ghost predicate Stopped(c: Container, invokers: seq<Invoker>, patience: Option<nat>, r: Run)
    requires KeysWf(c.W()) && InvokersBound(c.W(), c.supplied, invokers)
    reads c, c.scopes
  {
    exists n: nat :: StoppedAt(c, invokers, n, r) && StoppedInTime(c.W(), c.supplied, c.user, c.layers, invokers, n, patience, r)
  }

  /** What is built once the first `i` invokers have run is what they need. */
  lemma BuiltIsNeeded(c: Container, invokers: seq<Invoker>, i: nat, handed: seq<seq<Term>>)
    requires Invoking(c, invokers, i, handed)
    ensures c.built.Keys == NeededBy(c.W(), c.supplied, invokers, i)
  {
    hide Wf, MembersHeld, ProvidersWf, DepsDenote, Validated, Caches, MarksWf, AllDenote, Reachable, MembersSettled;
    var w, v := c.W(), c.supplied;
    ClosedContainsReachable(GraphOf(w, v), c.built.Keys, InvokedRoots(w, v, invokers, i));
    forall k | k in c.built.Keys
      ensures k in NeededBy(w, v, invokers, i)
    {
      assert k in Elems(c.constructed);
    }
  }

  /** What the next invoker asks for is what it needs and none before it. */
  lemma AskedIsNew(w: Wiring, v: Values, invokers: seq<Invoker>, n: nat)
    requires KeysWf(w) && n < |invokers| && InvokersBound(w, v, invokers) && invokers[n].scope < |w.chains|
    ensures Asked(w, v, NeededBy(w, v, invokers, n), invokers[n].deps, invokers[n].scope) == NewFor(w, v, invokers, n)
  {
    hide ProvidersWf, Targets, RootsOf;
    var g, before, after := GraphOf(w, v), InvokedRoots(w, v, invokers, n), InvokedRoots(w, v, invokers, n + 1);
    var roots := RootsOf(w, v, invokers[n].deps, invokers[n].scope);
    forall k
      ensures Reachable(g, after, k) <==> Reachable(g, before, k) || Reachable(g, roots, k)
    {
      EitherRoots(g, before, roots, k);
    }
    hide Reachable;
  }

  lemma EitherRoots(g: Graph, a: set<Key>, b: set<Key>, k: Key)
    ensures Reachable(g, a + b, k) <==> Reachable(g, a, k) || Reachable(g, b, k)
  {
    if Reachable(g, a, k) {
      MoreRoots(g, a, a + b, k);
    }
    if Reachable(g, b, k) {
      MoreRoots(g, b, a + b, k);
    }
  }

  /** With the time of the invokers before it, that of one stage is that of the build. */
  lemma StageStops(w: Wiring, v: Values, user: UserCode, layers: seq<seq<Key>>, invokers: seq<Invoker>, n: nat,
                   patience: Option<nat>, left0: Option<nat>, r: Run, left: Option<nat>)
    requires KeysWf(w) && n < |invokers| && InvokersBound(w, v, invokers) && (left0.Some? ==> patience.Some?)
    requires patience.Some? ==> left0.Some? && patience.value == left0.value + BuildTime(w, v, user, layers, invokers, n)
    requires StageTimed(w, user, layers, NewFor(w, v, invokers, n), invokers[n], n, left0, r, left)
    ensures if r.Completed? then
              patience.Some? ==> left.Some? && patience.value == left.value + BuildTime(w, v, user, layers, invokers, n + 1)
            else StoppedInTime(w, v, user, layers, invokers, n, patience, r)
  {
    hide KeysWf, InvokersBound, LayersTime, NewFor, FailsInTime;
  }

  /** The waves for an invoker have stopped it, or its own future has. */
  lemma StoppedInWaves(w: Wiring, user: UserCode, layers: seq<seq<Key>>, keys: set<Key>, invoker: Invoker, n: nat,
                       patience: Option<nat>, r: Run, left: Option<nat>)
    requires !r.Completed? && ReplayTimed(w, user, layers, keys, patience, r, left)
    ensures StageTimed(w, user, layers, keys, invoker, n, patience, r, left)
  {
    hide LayersTime, FailsInTime;
    if r.Cancelled? {
      var i :| 0 <= i < |layers| && LayersTime(w, user, layers[..i], keys) <= patience.value < LayersTime(w, user, layers[..i+1], keys);
      MoreLayersMoreTime(w, user, layers, keys, i + 1);
    }
  }

  lemma CalledInTime(w: Wiring, user: UserCode, layers: seq<seq<Key>>, keys: set<Key>, invoker: Invoker, n: nat,
                     patience: Option<nat>, between: Option<nat>, r: Run, left: Option<nat>)
    requires ReplayTimed(w, user, layers, keys, patience, Completed, between) && (between.Some? ==> patience.Some?)
    requires r.Failed? ==> !r.error.ConstructorFailed?
    requires var wait := InvokerWait(user, invoker, n);
             match r
             case Completed => between.Some? ==> left.Some? && between.value == left.value + wait
             case Failed(_) => between.Some? ==> wait <= between.value
             case Cancelled => between.Some? && between.value < wait
    ensures StageTimed(w, user, layers, keys, invoker, n, patience, r, left)
  {
    hide LayersTime;
  }

  lemma NothingAsked(w: Wiring, v: Values, user: UserCode, layers: seq<seq<Key>>, built: set<Key>, from: ScopeId, patience: Option<nat>)
    requires KeysWf(w) && from < |w.chains|
    ensures Asked(w, v, built, [], from) == {} && InLayers(layers, {}) == []
    ensures ReplayTimed(w, user, layers, {}, patience, Completed, patience)
  {
    hide KeysWf, Targets;
    forall j | 0 <= j < |layers|
      ensures PendingOf(layers[j], {}) == []
    {
      NonePending(layers[j], {});
    }
    RestIsIdle(w, user, layers, {}, 0);
  }

  /**
   * An invoker whose dependencies are built is handed the values they denote. Its failure comes
   * out, unless its caller has left before the invoker's future ends.
   */
  method CallInvoker(c: Container, invoker: Invoker, index: nat, patience: Option<nat>)
    returns (r: Run, args: seq<Term>, left: Option<nat>)
    requires Settled(c) && KeysWf(c.W()) && c.activeScope == invoker.scope
    requires DepsBound(c.W(), c.supplied, invoker.deps, invoker.scope)
    requires RootsOf(c.W(), c.supplied, invoker.deps, invoker.scope) <= c.built.Keys
    modifies c`invoked, c`answers
    ensures Sound(c) && (!r.Failed? ==> Settled(c)) && c.invoked == old(c.invoked) + [index]
    ensures DepsDenote(c.W(), c.supplied, invoker.deps, invoker.scope, args)
    ensures r.Cancelled? <==> invoker.isAsync && !InTime(c.user.invokerWaits(index), patience)
    ensures r.Cancelled? ==> patience.Some? && c.user.invokerWaits(index) > 0
    ensures r.Failed? <==> !r.Cancelled? && c.user.invokerFails(index)
    ensures r.Failed? ==> r.error == InvokerFailed(index)
    ensures Shows(r, c.answers) && (left.Some? ==> patience.Some?)
    ensures r.Completed? && patience.Some? ==> left.Some? && patience.value == left.value + InvokerWait(c.user, invoker, index)
    ensures r.Failed? && patience.Some? ==> InvokerWait(c.user, invoker, index) <= patience.value
    ensures r.Cancelled? ==> patience.Some? && patience.value < InvokerWait(c.user, invoker, index)
  {
    hide SoundState, MembersHeld, ProvidersWf, DepsDenote, MembersSettled;
    args := InjectInvoker(c, invoker);
    c.invoked := c.invoked + [index];
    left := patience;
    if invoker.isAsync {
      if !InTime(c.user.invokerWaits(index), patience) {
        QuietShows(c);
        return Cancelled, args, left;
      }
      left := Left(patience, c.user.invokerWaits(index));
    }
    HearInvoker(c, index);
    r := if c.user.invokerFails(index) then Failed(InvokerFailed(index)) else Completed;
  }

  /** An invoker has answered. */
  ghost method HearInvoker(c: Container, index: nat)
    requires Settled(c)
    modifies c`answers
    ensures Sound(c) && (!c.user.invokerFails(index) ==> Settled(c))
    ensures Shows(if c.user.invokerFails(index) then Failed(InvokerFailed(index)) else Completed, c.answers)
  {
    hide Validated, BuiltWf, MembersHeld, MembersSettled, Truthful, Answered, NoDup, Elems;
    var a := Invoked(index, !c.user.invokerFails(index));
    MoreAnswers(c.W(), c.user, c.answers, [a], c.built.Keys);
    if !a.ok {
      FailsNow(c.answers, a);
    }
    c.answers := c.answers + [a];
  }

  /** Gets the arguments of an invoker whose dependencies are all built. */
  method InjectInvoker(c: Container, invoker: Invoker) returns (args: seq<Term>)
    requires Settled(c) && KeysWf(c.W()) && c.activeScope == invoker.scope
    requires DepsBound(c.W(), c.supplied, invoker.deps, invoker.scope)
    requires RootsOf(c.W(), c.supplied, invoker.deps, invoker.scope) <= c.built.Keys
    ensures DepsDenote(c.W(), c.supplied, invoker.deps, invoker.scope, args)
  {
    hide Closed, AllDenote, OrderListWf, MemberListsWf, AggregatesWf, ProvidersWf, Graph.WellFormed, Acyclic, Caches, ProvidersBound, DepDenotes, MarksWf;
    ghost var w := c.W();
    forall i | 0 <= i < |invoker.deps|
      ensures Bind(w, c.V(), invoker.deps[i], invoker.scope).Cached?
      ensures DepDenotes(w, c.supplied, invoker.deps[i], invoker.scope, Bind(w, c.V(), invoker.deps[i], invoker.scope).stored.Injected())
    {
      DependencyIsCached(w, c.supplied, c.built, c.V(), invoker.deps, invoker.scope, i, {});
      assert w.(providers := w.providers - {}) == w;
    }
    var got := GetAll(c, invoker.deps);
    args := got.value;
  }

  /** What one invoker needs from the active scope, which is its own, is there. */
  method BuildFor(c: Container, invoker: Invoker, patience: Option<nat>) returns (r: Run, left: Option<nat>)
    requires Settled(c) && KeysWf(c.W()) && DepsBound(c.W(), c.supplied, invoker.deps, invoker.scope) && c.activeScope == invoker.scope
    modifies c
    ensures Sound(c) && Kept(c) && c.constructing == {} && c.invoked == old(c.invoked)
    ensures r.Completed? ==> Settled(c) && old(c.built).Keys <= c.built.Keys
    ensures r.Completed? ==> RootsOf(c.W(), c.supplied, invoker.deps, invoker.scope) <= c.built.Keys
    ensures forall k :: k in c.constructed && k !in old(c.constructed) ==>
                          Reachable(GraphOf(c.W(), c.supplied), RootsOf(c.W(), c.supplied, invoker.deps, invoker.scope), k)
    ensures r.Failed? ==> r.error.ConstructorFailed? && r.error.key in c.constructed && Breaks(c.W(), c.user, r.error.key)
    ensures r.Cancelled? ==> patience.Some? && CutOff(c.W(), c.user, c.constructed, c.built.Keys)
    ensures Shows(r, c.answers) && (left.Some? ==> patience.Some?)
    ensures KeysWf(c.W()) && invoker.scope < |c.scopes.ancestors|
    ensures var asked := Asked(c.W(), c.supplied, old(c.built).Keys, invoker.deps, invoker.scope);
            && ReplayTimed(c.W(), c.user, c.layers, asked, patience, r, left)
            && (r.Completed? ==> c.built.Keys == old(c.built).Keys + asked && c.constructed == old(c.constructed) + InLayers(c.layers, asked))
  {
    hide SoundState, MembersHeld, ProvidersWf, DepsBound, RootsOf, Reachable, CutOff, Shows, NoFailure, NoLaterWave, Breaks, MembersSettled,
      Asked, ReplayTimed;
    ScopeOfBound(c.W(), c.supplied, invoker.deps, invoker.scope);
    r, left := Completed, patience;
    if invoker.deps != [] {
      r, left := EnsureBuilt(c, invoker.deps, patience);
    } else {
      NoDepsNoRoots(c.W(), c.supplied, invoker.scope);
      NothingAsked(c.W(), c.supplied, c.user, c.layers, c.built.Keys, invoker.scope, patience);
      QuietShows(c);
    }
  }

  /** The build for one invoker and, if that went well, its call. */
  method BuildAndCall(c: Container, invokers: seq<Invoker>, index: nat, patience: Option<nat>)
    returns (r: Run, args: seq<Term>, left: Option<nat>)
    requires Settled(c) && KeysWf(c.W()) && index < |invokers| && CalledWell(c.user, c.invoked, index)
    requires DepsBound(c.W(), c.supplied, invokers[index].deps, invokers[index].scope) && c.activeScope == invokers[index].scope
    modifies c
    ensures Sound(c) && Kept(c) && c.constructing == {}
    ensures r.Completed? ==> Settled(c) && old(c.built).Keys <= c.built.Keys && CalledWell(c.user, c.invoked, index + 1)
    ensures r.Completed? ==> RootsOf(c.W(), c.supplied, invokers[index].deps, invokers[index].scope) <= c.built.Keys &&
                             DepsDenote(c.W(), c.supplied, invokers[index].deps, invokers[index].scope, args)
    ensures !r.Completed? ==> StoppedAt(c, invokers, index, r)
    ensures r.Cancelled? ==> patience.Some?
    ensures Shows(r, c.answers) && (left.Some? ==> patience.Some?)
    ensures forall k :: k in c.constructed && k !in old(c.constructed) ==>
                          Reachable(GraphOf(c.W(), c.supplied), RootsOf(c.W(), c.supplied, invokers[index].deps, invokers[index].scope), k)
    ensures KeysWf(c.W()) && invokers[index].scope < |c.scopes.ancestors|
    ensures var asked := Asked(c.W(), c.supplied, old(c.built).Keys, invokers[index].deps, invokers[index].scope);
            && StageTimed(c.W(), c.user, c.layers, asked, invokers[index], index, patience, r, left)
            && (r.Completed? ==> c.constructed == old(c.constructed) + InLayers(c.layers, asked))
  {
    hide SoundState, MembersHeld, ProvidersWf, DepsBound, DepsDenote, RootsOf, Reachable, CutOff, Shows, NoFailure, Breaks, MembersSettled,
      InTime, StoppedAt, KeysWf, UpTo, Asked, StageTimed, ReplayTimed;
    var invoker := invokers[index];
    ScopeOfBound(c.W(), c.supplied, invoker.deps, invoker.scope);
    args := [];
    ghost var asked := Asked(c.W(), c.supplied, c.built.Keys, invoker.deps, invoker.scope);
    r, left := BuildFor(c, invoker, patience);
    if !r.Completed? {
      StoppedInBuild(c, invokers, index, r);
      StoppedInWaves(c.W(), c.user, c.layers, asked, invoker, index, patience, r, left);
      return;
    }
    ghost var between := left;
    r, args, left := CallInvoker(c, invoker, index, left);
    CalledInTime(c.W(), c.user, c.layers, asked, invoker, index, patience, between, r, left);
    NextCall(index);
    if !r.Completed? {
      StoppedInCall(c, invokers, index, r);
    }
  }

  /** Builds and calls in the invoker's own scope, which is left again unless the future is dropped. */
  method InvokeOne(c: Container, invokers: seq<Invoker>, index: nat, patience: Option<nat>)
    returns (r: Run, args: seq<Term>, left: Option<nat>)
    requires Settled(c) && KeysWf(c.W()) && index < |invokers| && CalledWell(c.user, c.invoked, index)
    requires DepsBound(c.W(), c.supplied, invokers[index].deps, invokers[index].scope)
    modifies c
    ensures Sound(c) && c.constructing == {}
    ensures c.W() == old(c.W()) && c.layers == old(c.layers) && c.supplied == old(c.supplied)
    ensures c.activeScope == if r.Cancelled? then invokers[index].scope else old(c.activeScope)
    ensures r.Completed? ==> Settled(c) && old(c.built).Keys <= c.built.Keys && CalledWell(c.user, c.invoked, index + 1)
    ensures r.Completed? ==> invokers[index].scope < |c.scopes.ancestors| &&
                             RootsOf(c.W(), c.supplied, invokers[index].deps, invokers[index].scope) <= c.built.Keys &&
                             DepsDenote(c.W(), c.supplied, invokers[index].deps, invokers[index].scope, args)
    ensures !r.Completed? ==> StoppedAt(c, invokers, index, r)
    ensures r.Cancelled? ==> patience.Some?
    ensures Shows(r, c.answers) && (left.Some? ==> patience.Some?)
    ensures invokers[index].scope < |c.scopes.ancestors| && forall k :: k in c.constructed && k !in old(c.constructed) ==>
              Reachable(GraphOf(c.W(), c.supplied), RootsOf(c.W(), c.supplied, invokers[index].deps, invokers[index].scope), k)
    ensures KeysWf(c.W())
    ensures var asked := Asked(c.W(), c.supplied, old(c.built).Keys, invokers[index].deps, invokers[index].scope);
            && StageTimed(c.W(), c.user, c.layers, asked, invokers[index], index, patience, r, left)
            && (r.Completed? ==> c.constructed == old(c.constructed) + InLayers(c.layers, asked))
  {
    hide SoundState, MembersHeld, ProvidersWf, DepsBound, DepsDenote, RootsOf, Reachable, CutOff, Shows, NoFailure, Breaks, MembersSettled,
      KeysWf, CalledWell, Asked, StageTimed;
    ScopeOfBound(c.W(), c.supplied, invokers[index].deps, invokers[index].scope);
    var previous := c.EnterScope(invokers[index].scope);
    r, args, left := BuildAndCall(c, invokers, index, patience);
    if !r.Cancelled? {
      c.LeaveScope(previous);
    }
  }

  lemma NextCall(n: nat)
    ensures UpTo(n) + [n] == UpTo(n + 1)
  {
  }

  lemma StoppedInBuild(c: Container, invokers: seq<Invoker>, n: nat, r: Run)
    requires n < |invokers| && CalledWell(c.user, c.invoked, n)
    requires r.Failed? ==> r.error.ConstructorFailed? && r.error.key in c.constructed && Breaks(c.W(), c.user, r.error.key)
    requires r.Cancelled? ==> CutOff(c.W(), c.user, c.constructed, c.built.Keys)
    requires !r.Completed?
    ensures StoppedAt(c, invokers, n, r)
  {
  }

  lemma StoppedInCall(c: Container, invokers: seq<Invoker>, n: nat, r: Run)
    requires n < |invokers| && c.invoked == UpTo(n + 1) && forall i: nat :: i < n ==> !c.user.invokerFails(i)
    requires r.Failed? ==> r.error == InvokerFailed(n) && c.user.invokerFails(n)
    requires r.Cancelled? ==> invokers[n].isAsync && c.user.invokerWaits(n) > 0
    requires !r.Completed?
    ensures StoppedAt(c, invokers, n, r)
  {
  }

  /**
   * Runs every invoker once, in order, each after building what it needs from its own scope.
   * On a validated container this fails only in user code, and after a failure nothing more of
   * user code is called.
   */
  method InvokeAll(c: Container, invokers: seq<Invoker>, patience: Option<nat>) returns (r: Run, handed: seq<seq<Term>>)
    requires Invoking(c, invokers, 0, [])
    modifies c
    ensures Sound(c) && KeysWf(c.W()) && c.constructing == {}
    ensures c.W() == old(c.W()) && c.layers == old(c.layers) && c.supplied == old(c.supplied)
    ensures r.Completed? ==> Invoking(c, invokers, |invokers|, handed)
    ensures r.Cancelled? ==> patience.Some?
    ensures Shows(r, c.answers)
    ensures r.Cancelled? ==> exists i :: 0 <= i < |invokers| && c.activeScope == invokers[i].scope
    ensures !r.Cancelled? ==> c.activeScope == old(c.activeScope)
    ensures InvokersBound(c.W(), c.supplied, invokers) && ReachedOnly(c.W(), c.supplied, invokers, |invokers|, c.constructed)
    ensures !r.Completed? ==> Stopped(c, invokers, patience, r)
    ensures r.Completed? && patience.Some? ==> BuildTime(c.W(), c.supplied, c.user, c.layers, invokers, |invokers|) <= patience.value
  {
    hide SoundState, MembersHeld, ProvidersWf, DepsBound, DepsDenote, ReachedOnly, RootsOf, Reachable, MembersSettled, StoppedAt, CalledWell, Shows, NoFailure,
      StageTimed, StoppedInTime, BuildTime, NewFor, NeededBy, Asked;
    handed := [];
    ghost var w, supplied := c.W(), c.supplied;
    NoTimeYet(w, supplied, c.user, c.layers, invokers);
    var i, left: Option<nat> := 0, patience;
    while i < |invokers|
      invariant i <= |invokers| && (left.Some? ==> patience.Some?)
      invariant Invoking(c, invokers, i, handed)
      invariant c.W() == w && c.layers == old(c.layers) && c.supplied == supplied && c.activeScope == old(c.activeScope)
      invariant patience.Some? ==> left.Some? && patience.value == left.value + BuildTime(w, supplied, c.user, c.layers, invokers, i)
    {
      ghost var constructed, left0 := c.constructed, left;
      BuiltIsNeeded(c, invokers, i, handed);
      ScopeOfBound(w, supplied, invokers[i].deps, invokers[i].scope);
      AskedIsNew(w, supplied, invokers, i);
      var args;
      r, args, left := InvokeOne(c, invokers, i, left);
      StageStops(w, supplied, c.user, c.layers, invokers, i, patience, left0, r, left);
      ReachedMore(w, supplied, invokers, i, constructed, c.constructed);
      ReachedFinally(w, supplied, invokers, i + 1, c.constructed);
      if !r.Completed? {
        return;
      }
      handed := handed + [args];
      i := i + 1;
    }
    r := Completed;
    QuietShows(c);
    ReachedFinally(w, supplied, invokers, i, c.constructed);
  }

  lemma NoTimeYet(w: Wiring, v: Values, user: UserCode, layers: seq<seq<Key>>, invokers: seq<Invoker>)
    requires KeysWf(w) && InvokersBound(w, v, invokers)
    ensures BuildTime(w, v, user, layers, invokers, 0) == 0
  {
  }

  lemma NoDepsNoRoots(w: Wiring, v: Values, from: ScopeId)
    ensures from < |w.chains| ==> RootsOf(w, v, [], from) == {}
  {
  }

  lemma ScopeOfBound(w: Wiring, v: Values, deps: seq<Ty>, from: ScopeId)
    requires DepsBound(w, v, deps, from)
    ensures from < |w.chains|
  {
  }

  lemma {:induction false} RootsGrow(w: Wiring, v: Values, invokers: seq<Invoker>, i: nat, j: nat)
    requires i <= j <= |invokers| && forall i :: 0 <= i < |invokers| ==> invokers[i].scope < |w.chains|
    ensures InvokedRoots(w, v, invokers, i) <= InvokedRoots(w, v, invokers, j)
    decreases j
  {
    if i < j {
      RootsGrow(w, v, invokers, i, j - 1);
    }
  }

  lemma ReachedFinally(w: Wiring, v: Values, invokers: seq<Invoker>, i: nat, constructed: seq<Key>)
    requires KeysWf(w) && i <= |invokers| && InvokersBound(w, v, invokers) && ReachedOnly(w, v, invokers, i, constructed)
    ensures ReachedOnly(w, v, invokers, |invokers|, constructed)
  {
    hide Reachable, ProvidersWf, Targets;
    RootsGrow(w, v, invokers, i, |invokers|);
    forall k | k in constructed
      ensures Reachable(GraphOf(w, v), InvokedRoots(w, v, invokers, |invokers|), k)
    {
      MoreRoots(GraphOf(w, v), InvokedRoots(w, v, invokers, i), InvokedRoots(w, v, invokers, |invokers|), k);
    }
  }

  /** Every provider some invoker needs, directly or not. */
  ghost predicate Needed(w: Wiring, v: Values, invokers: seq<Invoker>, k: Key)
    requires KeysWf(w) && InvokersBound(w, v, invokers)
  {
    Reachable(GraphOf(w, v), InvokedRoots(w, v, invokers, |invokers|), k)
  }

  /** User code does not fail in anything that is needed. */
  ghost predicate NothingFails(w: Wiring, v: Values, user: UserCode, invokers: seq<Invoker>)
    requires KeysWf(w) && InvokersBound(w, v, invokers)
  {
    && (forall k :: k in w.providers && w.providers[k].body.Constructor? && Needed(w, v, invokers, k) ==> !user.constructorFails(k))
    && (forall i: nat :: i < |invokers| ==> !user.invokerFails(i))
  }

  /** The whole build is through before what lies ahead drops it; a timer that is not set drops nothing. */
  ghost predicate ThroughInTime(w: Wiring, v: Values, user: UserCode, layers: seq<seq<Key>>, invokers: seq<Invoker>, budget: Option<nat>, fate: Fate)
    requires KeysWf(w) && InvokersBound(w, v, invokers)
  {
    fate.patience.Some? && (fate.cause.Timer? ==> budget.Some?) ==>
      BuildTime(w, v, user, layers, invokers, |invokers|) <= fate.patience.value
  }

  /**
   * How a build has ended. User code has answered with a failure exactly if that failure is what
   * comes out, and it has come in time. Otherwise all went well and in time, though perhaps past
   * the budget; or the build was dropped, by its timer or from outside, during the very wait in
   * which its patience ran out.
   */
  ghost predicate BuildEnded(c: Container, invokers: seq<Invoker>, budget: Option<nat>, fate: Fate, r: Run)
    reads c, c.scopes
  {
    && KeysWf(c.W()) && InvokersBound(c.W(), c.supplied, invokers)
    && Truthful(c.W(), c.user, c.answers)
    && match r
       case Completed =>
         && AllWell(c, invokers) && NoFailure(c.answers) && !(budget.Some? && fate.late)
         && ThroughInTime(c.W(), c.supplied, c.user, c.layers, invokers, budget, fate)
       case Failed(e) =>
         if e.BuildTimeout? then
           && budget.Some? && NoFailure(c.answers)
           && ((fate.late && AllWell(c, invokers) && ThroughInTime(c.W(), c.supplied, c.user, c.layers, invokers, budget, fate))
               || (fate.cause.Timer? && fate.patience.Some? && Stopped(c, invokers, fate.patience, Cancelled)))
         else
           Shows(r, c.answers) && Stopped(c, invokers, PatienceOf(budget, fate), r)
       case Cancelled =>
         NoFailure(c.answers) && !fate.cause.Timer? && fate.patience.Some? && Stopped(c, invokers, fate.patience, Cancelled)
  }

  /**
   * A build completes exactly if user code does not fail in anything that is needed, and all
   * waves and invokers together take no longer than there is time.
   */
  lemma CompletesExactlyIf(c: Container, invokers: seq<Invoker>, budget: Option<nat>, fate: Fate, r: Run)
    requires BuildEnded(c, invokers, budget, fate, r)
    requires forall k :: k in c.constructed ==> Needed(c.W(), c.supplied, invokers, k)
    requires r.Completed? ==> forall k :: Needed(c.W(), c.supplied, invokers, k) ==> k in c.constructed
    ensures r.Completed? <==>
              && NothingFails(c.W(), c.supplied, c.user, invokers)
              && ThroughInTime(c.W(), c.supplied, c.user, c.layers, invokers, budget, fate)
              && !(budget.Some? && fate.late)
  {
    hide KeysWf, InvokersBound, Truthful, NoFailure, Shows, Needed, BuildTime, NewFor, FailsInTime, CutOff, UpTo;
    if !r.Completed? && Stopped(c, invokers, PatienceOf(budget, fate), if r.Failed? && r.error.BuildTimeout? then Cancelled else r) {
      var r' := if r.Failed? && r.error.BuildTimeout? then Cancelled else r;
      var n: nat :| StoppedAt(c, invokers, n, r') &&
                    StoppedInTime(c.W(), c.supplied, c.user, c.layers, invokers, n, PatienceOf(budget, fate), r');
      LaterTakesLonger(c.W(), c.supplied, c.user, c.layers, invokers, n + 1, |invokers|);
    }
  }

  /**
   * The whole build under its budget. A well-wired container goes wrong only in user code or by
   * running out of time: never with a cycle, a missing provider or an unconstructed value.
   * Nothing is constructed twice or without need; on success exactly what is needed is, and each
   * invoker has been handed the values that recursive evaluation gives for its dependencies.
   */
  method RunInvokers(c: Container, invokers: seq<Invoker>, budget: Option<nat>, fate: Fate) returns (r: Run, handed: seq<seq<Term>>)
    requires JustValidated(c, invokers)
    modifies c
    ensures KeysWf(c.W()) && c.W() == old(c.W()) && c.constructing == {}
    ensures c.supplied == old(c.V()) && InvokersBound(c.W(), c.supplied, invokers)
    ensures BuiltWf(c.W(), c.supplied, c.built, c.V())
    ensures NoDup(c.constructed) && forall k :: k in c.constructed ==> Needed(c.W(), c.supplied, invokers, k)
    ensures r.Completed? ==> forall k :: k in c.constructed <==> Needed(c.W(), c.supplied, invokers, k)
    ensures r.Completed? ==> Handed(c.W(), c.supplied, invokers, handed)
    ensures BuildEnded(c, invokers, budget, fate, r)
    ensures c.layers == old(c.layers)
    ensures r.Completed? <==>
              && NothingFails(c.W(), c.supplied, c.user, invokers)
              && ThroughInTime(c.W(), c.supplied, c.user, c.layers, invokers, budget, fate)
              && !(budget.Some? && fate.late)
  {
    hide Wf, MembersHeld, ProvidersWf, DepsDenote, Validated, BuiltWf, InvokersBound, WellWired, Stopped, Truthful, NoFailure, Breaks,
      BuildTime, NothingFails;
    StartInvoking(c, invokers);
    r, handed := InvokeAll(c, invokers, PatienceOf(budget, fate));
    if r.Completed? {
      AllNeededBuilt(c, invokers, handed);
      AllWentWell(c, invokers, handed);
    }
    SoundIsTruthful(c);
    match r {
      case Completed =>
        var o := WithTimeout(budget, Ending.Finished(DONE, fate.late), BuildTimeout);
        r := if o.Err? then Run.Failed(o.error) else Completed;
      case Failed(e) =>
        NotATimeout(c, invokers, PatienceOf(budget, fate), e);
        var o := WithTimeout(budget, Ending.Finished(Err(e), fate.late), BuildTimeout);
        r := if o.Err? then Run.Failed(o.error) else Completed;
      case Cancelled =>
        if fate.cause.Timer? {
          r := Run.Failed(WithTimeout(budget, Expired, BuildTimeout).error);
        }
    }
    CompletesExactlyIf(c, invokers, budget, fate, r);
  }

  /** What each invoker has been handed is what its dependencies denote. */
  ghost predicate Handed(w: Wiring, v: Values, invokers: seq<Invoker>, handed: seq<seq<Term>>)
    requires KeysWf(w) && InvokersBound(w, v, invokers)
  {
    |handed| == |invokers| && forall i :: 0 <= i < |invokers| ==> DepsDenote(w, v, invokers[i].deps, invokers[i].scope, handed[i])
  }

  lemma DepDenotesOnce(w: Wiring, v: Values, id: Ty, from: ScopeId, t: Term, u: Term)
    requires KeysWf(w) && from < |w.chains| && DepDenotes(w, v, id, from, t) && DepDenotes(w, v, id, from, u)
    ensures t == u
  {
    hide Denotes;
    var b := Bind(w, v, id, from);
    if b.ProvidedBy? {
      var x :| Denotes(w, v, b.key, x) && t == Stored(x, id != b.key.ty).Injected();
      var y :| Denotes(w, v, b.key, y) && u == Stored(y, id != b.key.ty).Injected();
      DenotesOnce(w, v, b.key, x, y);
    }
  }

  /** Two builds of one wiring hand out the same values, in whatever order constructors complete. */
  lemma SameHanded(w: Wiring, v: Values, invokers: seq<Invoker>, handed: seq<seq<Term>>, handed': seq<seq<Term>>)
    requires KeysWf(w) && InvokersBound(w, v, invokers)
    requires Handed(w, v, invokers, handed) && Handed(w, v, invokers, handed')
    ensures handed == handed'
  {
    hide DepDenotes, KeysWf;
    forall i | 0 <= i < |invokers|
      ensures handed[i] == handed'[i]
    {
      var deps, from := invokers[i].deps, invokers[i].scope;
      assert DepsDenote(w, v, deps, from, handed[i]) && DepsDenote(w, v, deps, from, handed'[i]);
      forall j | 0 <= j < |deps|
        ensures handed[i][j] == handed'[i][j]
      {
        DepDenotesOnce(w, v, deps[j], from, handed[i][j], handed'[i][j]);
      }
    }
  }

  lemma SoundIsTruthful(c: Container)
    requires Sound(c)
    ensures Truthful(c.W(), c.user, c.answers)
  {
    hide Validated, BuiltWf, Truthful, Answered, NoDup, Elems;
  }

  lemma NotATimeout(c: Container, invokers: seq<Invoker>, patience: Option<nat>, e: Error)
    requires KeysWf(c.W()) && InvokersBound(c.W(), c.supplied, invokers)
    requires Stopped(c, invokers, patience, Failed(e))
    ensures e.ConstructorFailed? || e.InvokerFailed?
  {
  }

  lemma AllWentWell(c: Container, invokers: seq<Invoker>, handed: seq<seq<Term>>)
    requires Invoking(c, invokers, |invokers|, handed)
    ensures AllWell(c, invokers)
  {
    hide SoundState, MembersHeld, ProvidersWf, DepsDenote, Breaks, ReachedOnly, InvokersBound, MembersSettled;
    NothingBroke(c);
    forall k | k in c.constructed
      ensures !Breaks(c.W(), c.user, k)
    {
      assert k in Elems(c.constructed);
    }
  }

  lemma StartInvoking(c: Container, invokers: seq<Invoker>)
    requires JustValidated(c, invokers)
    ensures Invoking(c, invokers, 0, [])
  {
    hide Wf, MembersHeld, ProvidersWf, SoundState, ProvidersBound, DepsBound, Acyclic, RequiredFilled, Graph.WellFormed, Layers;
    ValidatedIsSettled(c, invokers);
  }

  /** Once every invoker has run, what is needed has been built: it is closed and holds all roots. */
  lemma AllNeededBuilt(c: Container, invokers: seq<Invoker>, handed: seq<seq<Term>>)
    requires Invoking(c, invokers, |invokers|, handed)
    ensures forall k :: Needed(c.W(), c.supplied, invokers, k) ==> k in c.constructed
  {
    hide Wf, MembersHeld, ProvidersWf, DepsDenote, Validated, Caches, MarksWf, AllDenote, Reachable, ReachedOnly;
    ClosedContainsReachable(GraphOf(c.W(), c.supplied), c.built.Keys, InvokedRoots(c.W(), c.supplied, invokers, |invokers|));
    forall k | Needed(c.W(), c.supplied, invokers, k)
      ensures k in c.constructed
    {
      assert k in Elems(c.constructed);
    }
  }

  /** Validates a registered container and, if it is well wired, builds it. */
  method ValidateAndRun(c: Container, invokers: seq<Invoker>, budget: Option<nat>, fate: Fate)
    returns (rejected: Outcome, r: Run, handed: seq<seq<Term>>)
    requires c.Registering() && KeysWf(c.W())
    requires forall i :: 0 <= i < |invokers| ==> invokers[i].scope < |c.scopes.ancestors|
    modifies c
    ensures KeysWf(c.W()) && c.W() == old(c.W())
    ensures rejected.Ok? <==> old(WellWired(c.W(), c.V(), invokers))
    ensures rejected.Err? ==> c.constructed == [] && c.invoked == [] && Explains(c.W(), c.V(), invokers, rejected.error)
    ensures rejected.Ok? ==> InvokersBound(c.W(), c.supplied, invokers)
    ensures rejected.Ok? ==> NoDup(c.constructed) && BuildEnded(c, invokers, budget, fate, r)
    ensures rejected.Ok? ==> (r.Completed? <==>
              && NothingFails(c.W(), c.supplied, c.user, invokers)
              && ThroughInTime(c.W(), c.supplied, c.user, c.layers, invokers, budget, fate)
              && !(budget.Some? && fate.late))
    ensures rejected.Ok? && r.Completed? ==> forall k :: k in c.constructed <==> Needed(c.W(), c.supplied, invokers, k)
    ensures rejected.Ok? && r.Completed? ==> Handed(c.W(), c.supplied, invokers, handed)
  {
    hide Wf, SuppliedWf, MarksWf, ProvidersWf, DepsDenote, WellWired, Explains, BuiltWf, InvokersBound, Graph.WellFormed, Layers, BuildEnded,
      NothingFails, ThroughInTime;
    r, handed := Cancelled, [];
    rejected := Validate(c, invokers);
    if rejected.Err? {
      return;
    }
    r, handed := RunInvokers(c, invokers, budget, fate);
  }
}
