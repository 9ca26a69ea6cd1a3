/** The module scope tree with its precomputed ancestor chains (`src/scope.rs`). */
module Scopes {
  import opened Types

  /** The walk from `s` over parent links up to the root. */
  ghost function ParentWalk(parents: seq<ScopeId>, s: ScopeId): seq<ScopeId>
    requires s < |parents| && ParentsFall(parents)
    decreases s
  {
    if s == ROOT then [ROOT] else [s] + ParentWalk(parents, parents[s])
  }

  ghost predicate ParentsFall(parents: seq<ScopeId>) {
    forall s :: 0 < s < |parents| ==> parents[s] < s
  }

  /** What resolution relies on: chains start at their own scope, end at the root and fall. */
  ghost predicate ChainsWf(chains: seq<seq<ScopeId>>) {
    && |chains| > 0
    && forall s :: 0 <= s < |chains| ==> ChainWf(chains[s], s)
  }

  ghost predicate ChainWf(chain: seq<ScopeId>, s: ScopeId) {
    && |chain| > 0
    && chain[0] == s
    && chain[|chain|-1] == ROOT
    && forall i, j :: 0 <= i < j < |chain| ==> chain[j] < chain[i]
  }

  lemma {:induction false} ParentWalkIsChain(parents: seq<ScopeId>, s: ScopeId)
    requires s < |parents| && ParentsFall(parents)
    ensures ChainWf(ParentWalk(parents, s), s)
    decreases s
  {
    if s != ROOT {
      ParentWalkIsChain(parents, parents[s]);
      var up := ParentWalk(parents, parents[s]);
      var chain := [s] + up;
      forall i, j | 0 <= i < j < |chain|
        ensures chain[j] < chain[i]
      {
        assert chain[j] == up[j-1];
        assert up[j-1] <= up[0];
        if i > 0 {
          assert chain[i] == up[i-1];
        }
      }
    }
  }

  lemma {:induction false} ParentWalkFrame(parents: seq<ScopeId>, more: seq<ScopeId>, s: ScopeId)
    requires s < |parents| && ParentsFall(parents) && ParentsFall(parents + more)
    ensures ParentWalk(parents + more, s) == ParentWalk(parents, s)
    decreases s
  {
    if s != ROOT {
      assert (parents + more)[s] == parents[s];
      ParentWalkFrame(parents, more, parents[s]);
    }
  }

  class ScopeTree {
    var nodes: seq<string>
    var ancestors: seq<seq<ScopeId>>
    ghost var parents: seq<ScopeId>

    ghost predicate Valid()
      reads this
    {
      && |nodes| == |ancestors| == |parents| > 0
      && ParentsFall(parents)
      && forall s :: 0 <= s < |ancestors| ==> ancestors[s] == ParentWalk(parents, s)
    }

    constructor ()
      ensures Valid() && ancestors == [[ROOT]] && parents == [ROOT]
    {
      nodes := ["<root>"];
      ancestors := [[ROOT]];
      parents := [ROOT];
    }

    /** Adds a scope below `parent`; every other scope keeps its id and its chain. */
    method Child(parent: ScopeId, name: string) returns (id: ScopeId)
      requires Valid() && parent < |nodes|
      modifies this
      ensures Valid()
      ensures id == old(|nodes|) && nodes == old(nodes) + [name]
      ensures parents == old(parents) + [parent]
      ensures ancestors == old(ancestors) + [[id] + old(ancestors)[parent]]
      ensures forall s :: 0 <= s < |ancestors| ==> ancestors[s] == ParentWalk(parents, s)
    {
      id := |nodes|;
      nodes := nodes + [name];
      var chain := [id];
      chain := chain + ancestors[parent];
      ancestors := ancestors + [chain];
      parents := parents + [parent];
      forall s | 0 <= s < |old(parents)|
        ensures ParentWalk(parents, s) == ParentWalk(old(parents), s)
      {
        ParentWalkFrame(old(parents), [parent], s);
      }
    }

    /** The stored chain of every scope starts there, falls without a repeat and ends at the root. */
    lemma ChainsReachRoot()
      requires Valid()
      ensures ChainsWf(ancestors)
    {
      forall s | 0 <= s < |ancestors|
        ensures ChainWf(ancestors[s], s)
      {
        ParentWalkIsChain(parents, s);
      }
    }
  }
}
