/** Which option trees can be applied: no two options may claim one slot (`ensure_absent`, `src/container/storage.rs`). */
module Claims {
  import opened Types
  import opened Resolution
  import opened Registration
  import opened ModuleTree
  import opened Preparation

  /** Where a binding sits: under a type for everyone, or under a type in one scope. */
  datatype Slot = Public(ty: Ty) | Private(ty: Ty, scope: ScopeId)

  /** What an option claims: a type and its `Arc`, or the aggregate of a group, which options share. */
  datatype Claim =
    | Single(ty: Ty, scope: ScopeId, isPrivate: bool)
    | Grouped(element: Ty)
    | Mismatch

  predicate Holds(a: Claim, s: Slot) {
    match a
    case Single(ty, scope, true) => s == Private(ty, scope) || s == Private(ArcOf(ty), scope)
    case Single(ty, _, false) => s == Public(ty) || s == Public(ArcOf(ty))
    case Grouped(e) => s == Public(GroupOf(e)) || s == Public(ArcOf(GroupOf(e)))
    case Mismatch => false
  }

  /** Two options want the same slot, and not as members of one group. */
  ghost predicate Clash(a: Claim, b: Claim) {
    !(a.Grouped? && a == b) && exists s :: Holds(a, s) && Holds(b, s)
  }

  /** Every member has its group's type, and no two claims clash. */
  ghost predicate NoClash(claims: seq<Claim>) {
    && (forall i :: 0 <= i < |claims| ==> !claims[i].Mismatch?)
    && forall i, j :: 0 <= i < j < |claims| ==> !Clash(claims[i], claims[j])
  }

  /** The claims of an option applied in `scope` when the next new scope is `next`, depth first. */
  function ClaimsIn(o: ModOption, scope: ScopeId, next: nat): seq<Claim>
    decreases o, 0
  {
    match o
    case Provide(p, isPrivate) => [Single(p.result, scope, isPrivate)]
    case Supply(ty, _, isPrivate) => [Single(ty, scope, isPrivate)]
    case ProvideGroup(p) => [Grouped(p.result)]
    case MemberMismatch(_, _) => [Mismatch]
    case InitGroup(e) => [Grouped(e)]
    case RequireGroup(e) => [Grouped(e)]
    case Invoke(_, _) => []
    case Module(_, os) => ClaimsInAll(os, next, next + 1)
  }

  function ClaimsInAll(os: seq<ModOption>, scope: ScopeId, next: nat): seq<Claim>
    decreases os, 1, |os|
  {
    if os == [] then []
    else
      var before := os[..|os|-1];
      ClaimsInAll(before, scope, next) + ClaimsIn(os[|os|-1], scope, next + ScopeCounts(before))
  }

  // ---------- a record and the claims it comes from ----------

  predicate OccupiedAt(c: Record, s: Slot) {
    match s
    case Public(ty) => Occupied(c.w, c.v, ty, ROOT, false)
    case Private(ty, scope) => Occupied(c.w, c.v, ty, scope, true)
  }

  /** The occupied slots are those claimed, the registered groups those named. */
  ghost predicate Agrees(c: Record, done: seq<Claim>) {
    && (forall s :: OccupiedAt(c, s) <==> exists i :: 0 <= i < |done| && Holds(done[i], s))
    && (forall e :: e in c.w.groups.registrations <==> Grouped(e) in done)
  }

  lemma Seeded()
    ensures Agrees(SEEDED, [Single(LIFECYCLE, ROOT, false), Single(SHUTDOWNER, ROOT, false)])
    ensures NoClash([Single(LIFECYCLE, ROOT, false), Single(SHUTDOWNER, ROOT, false)])
  {
    var done := [Single(LIFECYCLE, ROOT, false), Single(SHUTDOWNER, ROOT, false)];
    forall s
      ensures OccupiedAt(SEEDED, s) <==> Holds(done[0], s) || Holds(done[1], s)
    {
    }
  }

  /** Exactly the slots of `a` have been added. */
  ghost predicate Adds(c: Record, c': Record, a: Claim) {
    && (forall s :: OccupiedAt(c', s) <==> OccupiedAt(c, s) || Holds(a, s))
    && c'.w.groups.registrations.Keys == c.w.groups.registrations.Keys + (if a.Grouped? then {a.element} else {})
  }

  lemma AgreesMore(c: Record, c': Record, done: seq<Claim>, a: Claim)
    requires Agrees(c, done) && Adds(c, c', a)
    ensures Agrees(c', done + [a])
  {
    hide OccupiedAt, Holds;
    var more := done + [a];
    forall s
      ensures OccupiedAt(c', s) <==> exists i :: 0 <= i < |more| && Holds(more[i], s)
    {
      if i :| 0 <= i < |done| && Holds(done[i], s) {
        assert more[i] == done[i];
      }
      assert more[|done|] == a;
    }
  }

  lemma OneMoreClaim(done: seq<Claim>, a: Claim)
    requires NoClash(done)
    ensures NoClash(done + [a]) <==> !a.Mismatch? && forall i :: 0 <= i < |done| ==> !Clash(done[i], a)
  {
    hide Clash;
    var more := done + [a];
    assert more[|done|] == a;
    assert forall i :: 0 <= i < |done| ==> more[i] == done[i];
  }

  /** A claim that shares nothing clashes exactly if one of its slots is occupied. */
  lemma ClashIsOccupied(c: Record, done: seq<Claim>, a: Claim)
    requires Agrees(c, done) && NoClash(done) && !a.Mismatch? && (a.Grouped? ==> a !in done)
    ensures NoClash(done + [a]) <==> !exists s :: Holds(a, s) && OccupiedAt(c, s)
  {
    hide OccupiedAt, Holds;
    OneMoreClaim(done, a);
  }

  lemma SharedClaim(c: Record, done: seq<Claim>, a: Claim)
    requires Agrees(c, done) && NoClash(done) && a.Grouped? && a in done
    ensures NoClash(done + [a]) && Adds(c, c, a)
  {
    hide OccupiedAt, Holds;
    OneMoreClaim(done, a);
    var j :| 0 <= j < |done| && done[j] == a;
    forall i | 0 <= i < |done|
      ensures !Clash(done[i], a)
    {
      assert Clash(done[i], a) <==> Clash(a, done[i]);
    }
  }

  // ---------- one option ----------

  lemma TakenSingle(c: Record, ty: Ty, scope: ScopeId, isPrivate: bool)
    ensures TakenIn(c, ty, scope, isPrivate) <==> exists s :: Holds(Single(ty, scope, isPrivate), s) && OccupiedAt(c, s)
  {
    var direct := if isPrivate then Private(ty, scope) else Public(ty);
    var alias := if isPrivate then Private(ArcOf(ty), scope) else Public(ArcOf(ty));
    assert OccupiedAt(c, direct) <==> Occupied(c.w, c.v, ty, scope, isPrivate);
    assert OccupiedAt(c, alias) <==> Occupied(c.w, c.v, ArcOf(ty), scope, isPrivate);
    assert forall s :: Holds(Single(ty, scope, isPrivate), s) <==> s == direct || s == alias;
  }

  lemma ProviderAdds(c: Record, p: Provider, scope: ScopeId, isPrivate: bool)
    ensures Adds(c, c.(w := WithProvider(c.w, p, scope, isPrivate)), Single(p.result, scope, isPrivate))
  {
  }

  lemma ValueAdds(c: Record, ty: Ty, t: Term, scope: ScopeId, isPrivate: bool, marks: seq<bool>)
    ensures Adds(c, Record(c.w.(marks := marks), StoreBoth(c.v, ty, t, scope, isPrivate)), Single(ty, scope, isPrivate))
  {
  }

  lemma AggregateAdds(c: Record, e: Ty)
    ensures Adds(c, c.(w := WithAggregate(c.w, e)), Grouped(e))
  {
  }

  /** Adding a member or requiring a group occupies no slot. */
  lemma MemberAddsNothing(c: Record, p: Provider, scope: ScopeId, s: Slot)
    ensures OccupiedAt(c.(w := WithMember(c.w, p, scope)), s) <==> OccupiedAt(c, s)
    ensures OccupiedAt(c.(w := Requiring(c.w, p.result)), s) <==> OccupiedAt(c, s)
  {
  }

  lemma GroupClaim(c: Record, done: seq<Claim>, e: Ty)
    requires Agrees(c, done) && NoClash(done)
    ensures WithGroup(c, e).Ok? <==> NoClash(done + [Grouped(e)])
    ensures WithGroup(c, e).Ok? ==> Adds(c, WithGroup(c, e).value, Grouped(e))
  {
    hide WithAggregate, Adds, NoClash, Holds, OccupiedAt, Occupied, TakenIn;
    if Grouped(e) in done {
      SharedClaim(c, done, Grouped(e));
    } else {
      ClashIsOccupied(c, done, Grouped(e));
      SameSlots(e);
      TakenSingle(c, GroupOf(e), ROOT, false);
      AggregateAdds(c, e);
    }
  }

  lemma SameSlots(e: Ty)
    ensures forall s :: Holds(Grouped(e), s) <==> Holds(Single(GroupOf(e), ROOT, false), s)
  {
  }

  lemma SingleClaim(c: Record, done: seq<Claim>, ty: Ty, scope: ScopeId, isPrivate: bool)
    requires Agrees(c, done) && NoClash(done)
    ensures !TakenIn(c, ty, scope, isPrivate) <==> NoClash(done + [Single(ty, scope, isPrivate)])
  {
    hide NoClash, Holds, OccupiedAt, Occupied, TakenIn;
    ClashIsOccupied(c, done, Single(ty, scope, isPrivate));
    TakenSingle(c, ty, scope, isPrivate);
  }

  /** One option is accepted exactly if its claims go with those before it. */
  lemma LeafClaims(c: Record, done: seq<Claim>, o: ModOption, scope: ScopeId)
    requires scope < |c.w.chains| && Agrees(c, done) && NoClash(done) && !o.Module?
    ensures var r, more := Registered(c, o, scope), done + ClaimsIn(o, scope, |c.w.chains|);
            && (r.Ok? <==> NoClash(more))
            && (r.Ok? ==> Agrees(r.value, more) && |r.value.w.chains| == |c.w.chains|)
  {
    hide NoClash, Agrees, Adds, WithProvider, WithMember, Requiring, StoreBoth, Mark, TakenIn, Occupied, WithGroup;
    var r := Registered(c, o, scope);
    match o {
      case Provide(p, isPrivate) =>
        SingleClaim(c, done, p.result, scope, isPrivate);
        ProviderAdds(c, p, scope, isPrivate);
        if r.Ok? {
          SameChains(c.w, p, scope, isPrivate);
          AgreesMore(c, r.value, done, Single(p.result, scope, isPrivate));
        }
      case Supply(ty, n, isPrivate) =>
        SingleClaim(c, done, ty, scope, isPrivate);
        ValueAdds(c, ty, Supplied(n), scope, isPrivate, if isPrivate then Mark(c.w.marks, scope) else c.w.marks);
        if r.Ok? {
          AgreesMore(c, r.value, done, Single(ty, scope, isPrivate));
        }
      case ProvideGroup(p) =>
        GroupLeaf(c, done, p, scope);
      case InitGroup(e) =>
        GroupLeaf(c, done, Provider(e, [], TakeOnce(0)), scope);
      case RequireGroup(e) =>
        GroupLeaf(c, done, Provider(e, [], TakeOnce(0)), scope);
      case MemberMismatch(_, _) =>
        OneMoreClaim(done, Mismatch);
      case Invoke(_, _) =>
        assert done + [] == done;
    }
  }

  lemma SameChains(w: Wiring, p: Provider, scope: ScopeId, isPrivate: bool)
    ensures WithProvider(w, p, scope, isPrivate).chains == w.chains
  {
  }

  lemma GroupLeaf(c: Record, done: seq<Claim>, p: Provider, scope: ScopeId)
    requires Agrees(c, done) && NoClash(done)
    ensures var g, more := WithGroup(c, p.result), done + [Grouped(p.result)];
            && (g.Ok? <==> NoClash(more))
            && (g.Ok? ==>
                  && Agrees(g.value, more)
                  && Agrees(g.value.(w := WithMember(g.value.w, p, scope)), more)
                  && Agrees(g.value.(w := Requiring(g.value.w, p.result)), more)
                  && WithMember(g.value.w, p, scope).chains == Requiring(g.value.w, p.result).chains == c.w.chains)
  {
    GroupClaim(c, done, p.result);
    var g := WithGroup(c, p.result);
    if g.Ok? {
      hide Holds, OccupiedAt, NoClash;
      AgreesMore(c, g.value, done, Grouped(p.result));
      forall s
        ensures OccupiedAt(g.value.(w := WithMember(g.value.w, p, scope)), s) <==> OccupiedAt(g.value, s)
        ensures OccupiedAt(g.value.(w := Requiring(g.value.w, p.result)), s) <==> OccupiedAt(g.value, s)
      {
        MemberAddsNothing(g.value, p, scope, s);
      }
    }
  }

  // ---------- a tree of options ----------

  lemma {:induction false} TreeClaims(c: Record, done: seq<Claim>, o: ModOption, scope: ScopeId)
    requires scope < |c.w.chains| && Agrees(c, done) && NoClash(done)
    ensures var r, more := Registered(c, o, scope), done + ClaimsIn(o, scope, |c.w.chains|);
            && (r.Ok? <==> NoClash(more))
            && (r.Ok? ==> Agrees(r.value, more) && |r.value.w.chains| == |c.w.chains| + ScopeCount(o))
    decreases o, 0
  {
    hide NoClash;
    if o.Module? {
      var child := |c.w.chains|;
      var inner := c.(w := c.w.(chains := c.w.chains + [[child] + c.w.chains[scope]]));
      assert forall s :: OccupiedAt(inner, s) <==> OccupiedAt(c, s);
      AllClaims(inner, done, o.options, child);
    } else {
      LeafClaims(c, done, o, scope);
    }
  }

  lemma {:induction false} AllClaims(c: Record, done: seq<Claim>, os: seq<ModOption>, scope: ScopeId)
    requires scope < |c.w.chains| && Agrees(c, done) && NoClash(done)
    ensures var r, more := RegisteredAll(c, os, scope), done + ClaimsInAll(os, scope, |c.w.chains|);
            && (r.Ok? <==> NoClash(more))
            && (r.Ok? ==> Agrees(r.value, more) && |r.value.w.chains| == |c.w.chains| + ScopeCounts(os))
    decreases os, 1, |os|
  {
    if os == [] {
      assert done + [] == done;
    } else {
      var before, last := os[..|os|-1], os[|os|-1];
      AllClaims(c, done, before, scope);
      var r := RegisteredAll(c, before, scope);
      var middle := done + ClaimsInAll(before, scope, |c.w.chains|);
      var more := ClaimsIn(last, scope, |c.w.chains| + ScopeCounts(before));
      assert done + ClaimsInAll(os, scope, |c.w.chains|) == middle + more;
      if r.Ok? {
        TreeClaims(r.value, middle, last, scope);
      } else {
        ClashesForGood(middle, more);
      }
    }
  }

  lemma ClashesForGood(some: seq<Claim>, more: seq<Claim>)
    requires !NoClash(some)
    ensures !NoClash(some + more)
  {
    hide Clash;
    if NoClash(some + more) {
      forall i, j | 0 <= i < j < |some|
        ensures !Clash(some[i], some[j])
      {
        assert !Clash((some + more)[i], (some + more)[j]);
      }
      forall i | 0 <= i < |some|
        ensures !some[i].Mismatch?
      {
        assert !(some + more)[i].Mismatch?;
      }
    }
  }

  /**
   * An option tree can be applied exactly if no group is given a member of another type and no two
   * options, the built-in values included, claim one slot under a type or its `Arc`.
   */
  lemma AppliesIffNoClash(options: seq<ModOption>)
    ensures RegisteredAll(SEEDED, options, ROOT).Ok? <==>
            NoClash([Single(LIFECYCLE, ROOT, false), Single(SHUTDOWNER, ROOT, false)] + ClaimsInAll(options, ROOT, 1))
  {
    Seeded();
    AllClaims(SEEDED, [Single(LIFECYCLE, ROOT, false), Single(SHUTDOWNER, ROOT, false)], options, ROOT);
  }
}
