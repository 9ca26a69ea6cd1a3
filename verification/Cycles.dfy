/** `detect_cycles` and `visit`: the depth-first search that names a cycle (`src/container/graph.rs`). */
module Cycles {
  import opened Types
  import opened Errors
  import opened Digraph
  import opened Scopes
  import opened Resolution
  import opened Containers
  import opened Lookups
  import opened Freezing

  /** The state of the search: what is finished, and the path to the node being visited. */
  datatype Search = Search(done: set<Key>, onPath: set<Key>, path: seq<Key>)

  /** Finished nodes form a ranked, closed part of the graph; the path is a walk outside it. */
  ghost predicate SearchWf(g: Graph, s: Search, rank: map<Key, nat>) {
    && s.onPath == Elems(s.path) && NoDup(s.path)
    && s.onPath !! s.done && s.onPath <= g.deps.Keys
    && (s.path != [] ==> Walk(g, s.path))
    && DoneWf(g, s.done, rank)
  }

  ghost predicate DoneWf(g: Graph, done: set<Key>, rank: map<Key, nat>) {
    Ranked(g, done, rank) && rank.Keys == done && forall k :: k in done ==> rank[k] < |done|
  }

  /** `key` depends on nothing outside the finished nodes and comes next on the path, if any. */
  ghost predicate Extends(g: Graph, s: Search, key: Key) {
    && key in g.deps
    && (s.path != [] ==> s.path[|s.path|-1] in g.deps && key in g.deps[s.path[|s.path|-1]])
  }

  function Enter(s: Search, key: Key): Search {
    Search(s.done, s.onPath + {key}, s.path + [key])
  }

  function Leave(s: Search, key: Key): Search
    requires s.path != []
  {
    Search(s.done + {key}, s.onPath - {key}, s.path[..|s.path|-1])
  }

  /** What a successful visit leaves: the same path, more finished nodes. */
  ghost predicate Progress(s: Search, s': Search) {
    s'.path == s.path && s'.onPath == s.onPath && s.done <= s'.done
  }

  /** What a failed visit leaves: a longer path, on which a closed walk was found. */
  ghost predicate Failed(g: Graph, s: Search, s': Search, e: Error) {
    && s.path <= s'.path && s'.onPath == Elems(s'.path)
    && e.Cycle? && ClosedWalk(g, e.keys)
  }

  /** Meeting a key already on the path closes a walk: the part of the path from that key on. */
  lemma RepeatedKeyClosesWalk(g: Graph, s: Search, rank: map<Key, nat>, key: Key)
    requires SearchWf(g, s, rank) && Extends(g, s, key) && key in s.onPath
    ensures Failed(g, s, s, CycleError(key, s.path))
  {
    var i := PositionOf(key, s.path);
    WalkTail(g, s.path, i);
    ExtendWalk(g, s.path[i..], key);
  }

  lemma PathGrows(g: Graph, s: Search, rank: map<Key, nat>, key: Key)
    requires SearchWf(g, s, rank) && Extends(g, s, key) && key !in s.done && key !in s.onPath
    ensures SearchWf(g, Enter(s, key), rank)
  {
    var path := s.path + [key];
    if s.path == [] {
      assert path == [key];
    } else {
      ExtendWalk(g, s.path, key);
    }
    assert Elems(path) == Elems(s.path) + {key};
  }

  lemma DoneGrows(g: Graph, done: set<Key>, rank: map<Key, nat>, key: Key)
    requires DoneWf(g, done, rank) && key in g.deps && key !in done
    requires forall e :: e in g.deps[key] ==> e in done
    ensures DoneWf(g, done + {key}, rank[key := |done|])
  {
    assert |done + {key}| == |done| + 1;
  }

  lemma NodeFinished(g: Graph, before: Search, rank0: map<Key, nat>, s: Search, rank: map<Key, nat>, key: Key)
    requires SearchWf(g, before, rank0) && key in g.deps && key !in before.onPath
    requires SearchWf(g, s, rank) && Progress(Enter(before, key), s)
    requires forall e :: e in g.deps[key] ==> e in s.done
    ensures SearchWf(g, Leave(s, key), rank[key := |s.done|]) && Progress(before, Leave(s, key))
  {
    hide Walk, DoneWf;
    assert key in s.onPath;
    assert key !in s.done;
    assert Leave(s, key).path == before.path && Leave(s, key).onPath == before.onPath;
    DoneGrows(g, s.done, rank, key);
  }

  lemma FailedBelow(g: Graph, s0: Search, s1: Search, s2: Search, e: Error)
    requires s0.path <= s1.path && Failed(g, s1, s2, e)
    ensures Failed(g, s0, s2, e)
  {
  }

  lemma PathPrefix(s: Search, key: Key)
    ensures s.path <= Enter(s, key).path
  {
  }

  /**
   * Visits `key`. On success everything it depends on is finished and the path is as before;
   * on failure the error names a closed walk of the graph.
   */
  method Visit(c: Container, key: Key, s0: Search, ghost rank0: map<Key, nat>) returns (r: Outcome, s: Search, ghost rank: map<Key, nat>)
    requires c.Consistent() && KeysWf(c.W())
    requires SearchWf(GraphOf(c.W(), c.V()), s0, rank0) && Extends(GraphOf(c.W(), c.V()), s0, key)
    ensures r.Ok? ==> SearchWf(GraphOf(c.W(), c.V()), s, rank) && Progress(s0, s) && key in s.done
    ensures r.Err? ==> Failed(GraphOf(c.W(), c.V()), s0, s, r.error)
    decreases c.providers.Keys - s0.onPath, 1
  {
    hide Wf, SuppliedWf, MarksWf, ProvidersWf, SearchWf, Failed;
    ghost var g := GraphOf(c.W(), c.V());
    s, rank := s0, rank0;
    if key in s.done {
      return DONE, s, rank;
    }
    if key in s.onPath {
      RepeatedKeyClosesWalk(g, s, rank, key);
      return Err(CycleError(key, s.path)), s, rank;
    }
    assert key in c.providers;
    PathGrows(g, s, rank, key);
    PathPrefix(s, key);
    s := Enter(s, key);
    r, s, rank := VisitDependencies(c, key, s, rank);
    if r.Err? {
      FailedBelow(g, s0, Enter(s0, key), s, r.error);
      return;
    }
    ghost var s1 := s;
    r, s, rank := VisitMembers(c, key, s, rank);
    if r.Err? {
      FailedBelow(g, s0, s1, s, r.error);
      return;
    }
    NodeFinished(g, s0, rank0, s, rank, key);
    rank := rank[key := |s.done|];
    s := Leave(s, key);
    r := DONE;
  }

  method VisitDependencies(c: Container, key: Key, s0: Search, ghost rank0: map<Key, nat>) returns (r: Outcome, s: Search, ghost rank: map<Key, nat>)
    requires c.Consistent() && key in c.providers && KeysWf(c.W()) && key in s0.onPath
    requires SearchWf(GraphOf(c.W(), c.V()), s0, rank0)
    requires s0.path != [] && s0.path[|s0.path|-1] == key
    ensures r.Ok? ==> SearchWf(GraphOf(c.W(), c.V()), s, rank) && Progress(s0, s)
    ensures r.Ok? ==> key.scope < |c.scopes.ancestors| &&
                      forall e :: e in DepTargets(c.W(), c.V(), c.providers[key].deps, key.scope) ==> e in s.done
    ensures r.Err? ==> Failed(GraphOf(c.W(), c.V()), s0, s, r.error)
    decreases c.providers.Keys - s0.onPath, 2
  {
    hide Wf, SuppliedWf, MarksWf, SearchWf, Failed, Targets, GroupTargets, PublicValueScope, Walk, ClosedWalk;
    ghost var w, v := c.W(), c.V();
    s, rank := s0, rank0;
    assert ProviderWf(key, c.providers[key], |w.chains|);
    var deps := c.providers[key].deps;
    var i := 0;
    while i < |deps|
      invariant i <= |deps|
      invariant SearchWf(GraphOf(w, v), s, rank) && Progress(s0, s)
      invariant forall e :: e in DepTargets(w, v, deps[..i], key.scope) ==> e in s.done
    {
      DepTargetsAppend(w, v, deps, i, key.scope);
      WalksAgree(w, v, deps[i], key.scope);
      var binding := ResolveValueBinding(c, deps[i], key.scope);
      if binding.Some? {
        i := i + 1;
        continue;
      }
      var target := ResolveProvider(c, deps[i], key.scope);
      if target.Some? {
        TargetIsEdge(w, v, key, i);
        ghost var s1 := s;
        r, s, rank := Visit(c, target.value, s, rank);
        if r.Err? {
          FailedBelow(GraphOf(w, v), s0, s1, s, r.error);
          return;
        }
      }
      i := i + 1;
    }
    assert deps[..i] == deps;
    r := DONE;
  }

  lemma TargetIsEdge(w: Wiring, v: Values, key: Key, i: nat)
    requires Wf(w) && KeysWf(w) && key in w.providers && key.scope < |w.chains| && i < |w.providers[key].deps|
    requires Bind(w, v, w.providers[key].deps[i], key.scope).ProvidedBy?
    ensures var e := Bind(w, v, w.providers[key].deps[i], key.scope).key; e in GraphOf(w, v).deps[key] && e in w.providers
  {
    hide ProvidersWf, OrderListWf, MemberListsWf, AggregatesWf, PublicIndexWf, PrivateAliasWf;
    DepTargetsAre(w, v, w.providers[key].deps, key.scope);
  }

  method VisitMembers(c: Container, key: Key, s0: Search, ghost rank0: map<Key, nat>) returns (r: Outcome, s: Search, ghost rank: map<Key, nat>)
    requires c.Consistent() && key in c.providers && KeysWf(c.W()) && key in s0.onPath
    requires SearchWf(GraphOf(c.W(), c.V()), s0, rank0)
    requires s0.path != [] && s0.path[|s0.path|-1] == key
    ensures r.Ok? ==> SearchWf(GraphOf(c.W(), c.V()), s, rank) && Progress(s0, s)
    ensures r.Ok? ==> forall e :: e in GroupTargets(c.W(), key) ==> e in s.done
    ensures r.Err? ==> Failed(GraphOf(c.W(), c.V()), s0, s, r.error)
    decreases c.providers.Keys - s0.onPath, 2
  {
    hide Wf, SuppliedWf, MarksWf, SearchWf, Failed, ProvidersWf;
    ghost var w, v := c.W(), c.V();
    s, rank := s0, rank0;
    if key !in c.groups.virtualToElement {
      return DONE, s, rank;
    }
    MemberTargets(w, key);
    var members := MembersOf(c.groups, c.groups.virtualToElement[key]);
    var i := 0;
    while i < |members|
      invariant i <= |members|
      invariant SearchWf(GraphOf(w, v), s, rank) && Progress(s0, s)
      invariant forall j :: 0 <= j < i ==> members[j] in s.done
    {
      assert members[i] in GroupTargets(w, key);
      assert members[i] in GraphOf(w, v).deps[key];
      ghost var s1 := s;
      r, s, rank := Visit(c, members[i], s, rank);
      if r.Err? {
        FailedBelow(GraphOf(w, v), s0, s1, s, r.error);
        return;
      }
      i := i + 1;
    }
    r := DONE;
  }

  /**
   * Reports a cycle exactly when there is one, although group members are never start nodes;
   * what it reports is a closed walk of real dependency or membership edges.
   */
  method DetectCycles(c: Container) returns (r: Outcome)
    requires c.Consistent()
    ensures KeysWf(c.W())
    ensures r.Ok? <==> Acyclic(GraphOf(c.W(), c.V()))
    ensures r.Err? ==> r.error.Cycle? && ClosedWalk(GraphOf(c.W(), c.V()), r.error.keys)
  {
    hide Wf, SuppliedWf, MarksWf, SearchWf, ProvidersWf, Graph.WellFormed, Acyclic, ClosedWalk, Failed, Extends, SinglesDone;
    ghost var w, v := c.W(), c.V();
    GraphIsWellFormed(w, v);
    ghost var g := GraphOf(w, v);
    ghost var rank: map<Key, nat> := map[];
    var s := Search({}, {}, []);
    NothingVisited(g);
    SinglesDoneStart(w.order);
    var i := 0;
    while i < |c.providerOrder|
      invariant i <= |c.providerOrder|
      invariant SearchWf(g, s, rank) && s.path == []
      invariant SinglesDone(w.order, i, s.done)
    {
      var key := c.providerOrder[i];
      if key.IsGroupMember() {
        SinglesDoneStep(w.order, i, s.done, s.done);
        i := i + 1;
        continue;
      }
      OrderIsLive(w, i);
      StartNode(g, s, key);
      ghost var s1 := s;
      r, s, rank := Visit(c, key, s, rank);
      if r.Err? {
        FailureIsCycle(g, s1, s, r.error);
        return;
      }
      SinglesDoneStep(w.order, i, s1.done, s.done);
      i := i + 1;
    }
    FinishedAreRanked(g, s, rank);
    MembersAreFinished(w, v, s.done, rank);
    r := DONE;
  }

  ghost predicate SinglesDone(order: seq<Key>, i: nat, done: set<Key>)
    requires i <= |order|
  {
    forall j :: 0 <= j < i && !order[j].IsGroupMember() ==> order[j] in done
  }

  lemma SinglesDoneStart(order: seq<Key>)
    ensures SinglesDone(order, 0, {})
  {
  }

  lemma SinglesDoneStep(order: seq<Key>, i: nat, done: set<Key>, done': set<Key>)
    requires i < |order| && SinglesDone(order, i, done) && done <= done'
    requires order[i].IsGroupMember() || order[i] in done'
    ensures SinglesDone(order, i + 1, done')
  {
  }

  lemma OrderIsLive(w: Wiring, i: nat)
    requires Wf(w) && i < |w.order|
    ensures w.order[i] in w.providers
  {
    OrderHoldsProviders(w);
    assert w.order[i] in w.order;
  }

  lemma OrderHoldsProviders(w: Wiring)
    requires Wf(w)
    ensures forall k :: k in w.order <==> k in w.providers
  {
    hide ProvidersWf, MemberListsWf, AggregatesWf, PublicIndexWf, PrivateAliasWf;
  }

  lemma NothingVisited(g: Graph)
    ensures SearchWf(g, Search({}, {}, []), map[])
  {
  }

  lemma FinishedAreRanked(g: Graph, s: Search, rank: map<Key, nat>)
    requires SearchWf(g, s, rank)
    ensures Ranked(g, s.done, rank)
  {
  }

  lemma RankedIsClosed(g: Graph, s: set<Key>, rank: map<Key, nat>, k: Key, e: Key)
    requires Ranked(g, s, rank) && k in s && k in g.deps && e in g.deps[k]
    ensures e in s
  {
  }

  lemma StartNode(g: Graph, s: Search, key: Key)
    requires s.path == [] && key in g.deps
    ensures Extends(g, s, key)
  {
  }

  lemma FailureIsCycle(g: Graph, s0: Search, s: Search, e: Error)
    requires Failed(g, s0, s, e)
    ensures e.Cycle? && ClosedWalk(g, e.keys) && !Acyclic(g)
  {
    if Acyclic(g) {
      AcyclicHasNoClosedWalk(g, e.keys);
    }
  }

  /** Members are only reachable through their aggregate, which is a start node. */
  lemma MembersAreFinished(w: Wiring, v: Values, done: set<Key>, rank: map<Key, nat>)
    requires Wf(w) && KeysWf(w) && Ranked(GraphOf(w, v), done, rank)
    requires SinglesDone(w.order, |w.order|, done)
    ensures Acyclic(GraphOf(w, v))
  {
    hide Wf, ProvidersWf, Ranked;
    var g := GraphOf(w, v);
    OrderHoldsProviders(w);
    forall k | k in g.deps.Keys
      ensures k in done
    {
      assert k in w.order;
      if k.IsGroupMember() {
        MemberIsListed(w, k);
        var a := VirtualKey(k.ty);
        assert a in w.order;
        assert k in GroupTargets(w, a);
        RankedIsClosed(g, done, rank, a, k);
      }
    }
    RankedAllIsAcyclic(g, done, rank);
  }

  lemma RankedAllIsAcyclic(g: Graph, done: set<Key>, rank: map<Key, nat>)
    requires Ranked(g, done, rank) && g.deps.Keys <= done
    ensures Acyclic(g)
  {
    assert done == g.deps.Keys;
  }

  lemma MemberIsListed(w: Wiring, k: Key)
    requires Wf(w) && k in w.providers && k.IsGroupMember()
    ensures k.ty in w.groups.registrations && VirtualKey(k.ty) in w.providers
    ensures VirtualKey(k.ty) in w.groups.virtualToElement && w.groups.virtualToElement[VirtualKey(k.ty)] == k.ty
    ensures k in MembersOf(w.groups, k.ty)
  {
    hide ProvidersWf, PublicIndexWf, PrivateAliasWf, OrderListWf;
    assert k in MembersOf(w.groups, k.ty);
    assert RegistrationWf(w.groups, w.providers, k.ty);
  }
}
