/** `TryJoinAll`: polling independent futures on one task (`src/future.rs`). */
module TryJoin {
  import opened Types

  /**
   * A future seen from its poller: it answers "pending" `wait` more times and then yields
   * `outcome`. Any finite behaviour of a future is one of these.
   */
  datatype Future<T, E> = Future(wait: nat, outcome: Result<T, E>)

  datatype Polled<T> = NotReady | Ready(value: T)

  datatype Slot<K, T, E> = Slot(key: K, fut: Future<T, E>) {
    predicate Completes() {
      fut.wait == 0
    }

    /** The slot after one poll that found it pending. */
    function AfterPoll(): Slot<K, T, E>
      requires !Completes()
    {
      Slot(key, Future(fut.wait - 1, fut.outcome))
    }
  }

  datatype Entry<K, T> = Entry(key: K, value: T)

  /** `Vec::swap_remove(0)`: the last element takes the place of the removed one. */
  function SwapRemoveFirst<A>(s: seq<A>): seq<A>
    requires s != []
  {
    if |s| == 1 then [] else [s[|s|-1]] + s[1..|s|-1]
  }

  /** The order in which one pass of `poll` visits the slots. */
  ghost function Visits<K, T, E>(s: seq<Slot<K, T, E>>): seq<Slot<K, T, E>>
    decreases |s|
  {
    if s == [] then []
    else if s[0].Completes() then [s[0]] + Visits(SwapRemoveFirst(s))
    else [s[0]] + Visits(s[1..])
  }

  lemma SwapKeepsElements<A>(s: seq<A>)
    requires s != []
    ensures multiset([s[0]] + SwapRemoveFirst(s)) == multiset(s)
  {
    if |s| == 1 {
      assert s == [s[0]];
    } else {
      assert s == [s[0]] + s[1..|s|-1] + [s[|s|-1]];
    }
  }

  /** One pass visits every slot exactly once, whatever is swapped under the index. */
  lemma {:induction false} EachVisitedOnce<K, T, E>(s: seq<Slot<K, T, E>>)
    ensures multiset(Visits(s)) == multiset(s)
    decreases |s|
  {
    if s != [] {
      var rest := if s[0].Completes() then SwapRemoveFirst(s) else s[1..];
      EachVisitedOnce(rest);
      assert Visits(s) == [s[0]] + Visits(rest);
      if s[0].Completes() {
        SwapKeepsElements(s);
      } else {
        assert s == [s[0]] + rest;
      }
    }
  }

  /** Completed slots of a pass with their values, in visiting order. */
  ghost function Completed<K, T, E>(vs: seq<Slot<K, T, E>>): seq<Entry<K, T>> {
    if vs == [] then []
    else
      var before := Completed(vs[..|vs|-1]);
      var s := vs[|vs|-1];
      if s.Completes() && s.fut.outcome.Ok? then before + [Entry(s.key, s.fut.outcome.value)] else before
  }

  /** Slots found pending in a pass, each polled once. */
  ghost function Waiting<K, T, E>(vs: seq<Slot<K, T, E>>): seq<Slot<K, T, E>> {
    if vs == [] then []
    else
      var before := Waiting(vs[..|vs|-1]);
      var s := vs[|vs|-1];
      if s.Completes() then before else before + [s.AfterPoll()]
  }

  ghost predicate Fails<K, T, E>(s: Slot<K, T, E>) {
    s.Completes() && s.fut.outcome.Err?
  }

  ghost predicate NoneFails<K, T, E>(vs: seq<Slot<K, T, E>>) {
    forall i :: 0 <= i < |vs| ==> !Fails(vs[i])
  }

  /** The first failure of a pass, in visiting order. */
  ghost predicate FirstFailure<K, T, E>(vs: seq<Slot<K, T, E>>, e: E) {
    exists i :: 0 <= i < |vs| && Fails(vs[i]) && vs[i].fut.outcome.error == e && NoneFails(vs[..i])
  }

  /** What each slot will yield, paired with its key. */
  ghost function Outcomes<K, T, E>(s: seq<Slot<K, T, E>>): multiset<Entry<K, Result<T, E>>> {
    if s == [] then multiset{}
    else Outcomes(s[..|s|-1]) + multiset{Entry(s[|s|-1].key, s[|s|-1].fut.outcome)}
  }

  ghost function Yielded<K, T, E>(done: seq<Entry<K, T>>): multiset<Entry<K, Result<T, E>>> {
    if done == [] then multiset{}
    else Yielded<K, T, E>(done[..|done|-1]) + multiset{Entry(done[|done|-1].key, Ok(done[|done|-1].value))}
  }

  lemma {:induction false} YieldedConcat<K, T, E>(a: seq<Entry<K, T>>, b: seq<Entry<K, T>>)
    ensures Yielded<K, T, E>(a + b) == Yielded<K, T, E>(a) + Yielded<K, T, E>(b)
  {
    if b == [] {
      assert a + b == a;
    } else {
      assert (a + b)[..|a+b|-1] == a + b[..|b|-1];
      YieldedConcat<K, T, E>(a, b[..|b|-1]);
    }
  }

  lemma {:induction false} OutcomesConcat<K, T, E>(a: seq<Slot<K, T, E>>, b: seq<Slot<K, T, E>>)
    ensures Outcomes(a + b) == Outcomes(a) + Outcomes(b)
  {
    if b == [] {
      assert a + b == a;
    } else {
      assert (a + b)[..|a+b|-1] == a + b[..|b|-1];
      OutcomesConcat(a, b[..|b|-1]);
    }
  }

  lemma SwapKeepsOutcomes<K, T, E>(s: seq<Slot<K, T, E>>)
    requires s != []
    ensures Outcomes([s[0]] + SwapRemoveFirst(s)) == Outcomes(s)
  {
    hide Outcomes;
    if |s| == 1 {
      assert s == [s[0]] + [];
    } else {
      var middle, last := s[1..|s|-1], s[|s|-1];
      assert s == [s[0]] + middle + [last];
      assert [s[0]] + SwapRemoveFirst(s) == [s[0]] + [last] + middle;
      OutcomesConcat([s[0]] + middle, [last]);
      OutcomesConcat([s[0]], middle);
      OutcomesConcat([s[0]] + [last], middle);
      OutcomesConcat([s[0]], [last]);
    }
  }

  lemma {:induction false} VisitsKeepOutcomes<K, T, E>(s: seq<Slot<K, T, E>>)
    ensures Outcomes(Visits(s)) == Outcomes(s)
    decreases |s|
  {
    hide Outcomes;
    if s != [] {
      var rest := if s[0].Completes() then SwapRemoveFirst(s) else s[1..];
      VisitsKeepOutcomes(rest);
      OutcomesConcat([s[0]], Visits(rest));
      OutcomesConcat([s[0]], rest);
      if s[0].Completes() {
        SwapKeepsOutcomes(s);
      } else {
        assert s == [s[0]] + s[1..];
      }
    }
  }

  /** In a pass without a failure nothing is lost, duplicated or paired with a foreign key. */
  lemma {:induction false} PassConserves<K, T, E>(vs: seq<Slot<K, T, E>>)
    requires NoneFails(vs)
    ensures Yielded<K, T, E>(Completed(vs)) + Outcomes(Waiting(vs)) == Outcomes(vs)
  {
    if vs != [] {
      var before, s := vs[..|vs|-1], vs[|vs|-1];
      assert NoneFails(before);
      PassConserves(before);
      assert !Fails(vs[|vs|-1]);
      if s.Completes() {
        var e := [Entry(s.key, s.fut.outcome.value)];
        assert e[..0] == [];
        YieldedConcat<K, T, E>(Completed(before), e);
      } else {
        assert [s.AfterPoll()][..0] == [];
        OutcomesConcat(Waiting(before), [s.AfterPoll()]);
      }
    }
  }

  /** A pass in progress: `visited` has been polled, `rest` has not. */
  ghost predicate Midway<K, T, E>(vs: seq<Slot<K, T, E>>, visited: seq<Slot<K, T, E>>, rest: seq<Slot<K, T, E>>,
                                  inflight: seq<Slot<K, T, E>>, done0: seq<Entry<K, T>>, done: seq<Entry<K, T>>) {
    && inflight == Waiting(visited) + rest
    && vs == visited + Visits(rest)
    && done == done0 + Completed(visited)
    && NoneFails(visited)
  }

  lemma PassStarts<K, T, E>(inflight: seq<Slot<K, T, E>>, done: seq<Entry<K, T>>)
    ensures Midway(Visits(inflight), [], inflight, inflight, done, done)
  {
  }

  lemma OneMoreVisit<K, T, E>(vs: seq<Slot<K, T, E>>, visited: seq<Slot<K, T, E>>, rest: seq<Slot<K, T, E>>)
    requires vs == visited + Visits(rest) && rest != []
    ensures vs == visited + [rest[0]] + Visits(if rest[0].Completes() then SwapRemoveFirst(rest) else rest[1..])
    ensures (visited + [rest[0]])[..|visited|] == visited
  {
    var next := if rest[0].Completes() then SwapRemoveFirst(rest) else rest[1..];
    assert Visits(rest) == [rest[0]] + Visits(next);
    hide Visits;
    OneInBetween(visited, rest[0], Visits(next));
  }

  lemma OneInBetween<A>(a: seq<A>, x: A, b: seq<A>)
    ensures a + ([x] + b) == a + [x] + b && (a + [x])[..|a|] == a
  {
  }

  lemma VisitCompleted<K, T, E>(vs: seq<Slot<K, T, E>>, visited: seq<Slot<K, T, E>>, rest: seq<Slot<K, T, E>>,
                                inflight: seq<Slot<K, T, E>>, done0: seq<Entry<K, T>>, done: seq<Entry<K, T>>)
    requires Midway(vs, visited, rest, inflight, done0, done)
    requires rest != [] && rest[0].Completes() && rest[0].fut.outcome.Ok?
    ensures Midway(vs, visited + [rest[0]], SwapRemoveFirst(rest), Waiting(visited) + SwapRemoveFirst(rest), done0,
                   done + [Entry(rest[0].key, rest[0].fut.outcome.value)])
    ensures Waiting(visited + [rest[0]]) == Waiting(visited)
  {
    OneMoreVisit(vs, visited, rest);
  }

  lemma VisitPending<K, T, E>(vs: seq<Slot<K, T, E>>, visited: seq<Slot<K, T, E>>, rest: seq<Slot<K, T, E>>,
                              inflight: seq<Slot<K, T, E>>, done0: seq<Entry<K, T>>, done: seq<Entry<K, T>>)
    requires Midway(vs, visited, rest, inflight, done0, done)
    requires rest != [] && !rest[0].Completes()
    ensures Midway(vs, visited + [rest[0]], rest[1..], inflight[|Waiting(visited)| := rest[0].AfterPoll()], done0, done)
    ensures |Waiting(visited + [rest[0]])| == |Waiting(visited)| + 1
  {
    OneMoreVisit(vs, visited, rest);
    WaitingGrows(visited, rest[0], rest);
    hide Visits;
    var next := visited + [rest[0]];
    assert next[..|visited|] == visited;
    assert NoneFails(next);
  }

  lemma VisitFailed<K, T, E>(vs: seq<Slot<K, T, E>>, visited: seq<Slot<K, T, E>>, rest: seq<Slot<K, T, E>>,
                             inflight: seq<Slot<K, T, E>>, done0: seq<Entry<K, T>>, done: seq<Entry<K, T>>)
    requires Midway(vs, visited, rest, inflight, done0, done)
    requires rest != [] && Fails(rest[0])
    ensures !NoneFails(vs) && FirstFailure(vs, rest[0].fut.outcome.error)
  {
    OneMoreVisit(vs, visited, rest);
    assert vs[|visited|] == rest[0] && vs[..|visited|] == visited;
    assert Fails(vs[|visited|]);
  }

  class TryJoinAll<K, T, E> {
    var inflight: seq<Slot<K, T, E>>
    var done: seq<Entry<K, T>>

    constructor (items: seq<Slot<K, T, E>>)
      ensures inflight == items && done == []
    {
      inflight, done := items, [];
    }

    /** All keys with the outcome each has had or will have. */
    ghost function Held(): multiset<Entry<K, Result<T, E>>>
      reads this
    {
      Yielded<K, T, E>(done) + Outcomes(inflight)
    }

    /**
     * One pass: every slot in flight is polled exactly once, unless the first failure ends the
     * pass; completed values are appended in visiting order, the others stay in flight.
     */
    method Poll() returns (r: Polled<Result<seq<Entry<K, T>>, E>>)
      modifies this
      ensures multiset(Visits(old(inflight))) == multiset(old(inflight))
      ensures NoneFails(Visits(old(inflight))) ==>
                && inflight == Waiting(Visits(old(inflight)))
                && var all := old(done) + Completed(Visits(old(inflight)));
                   if inflight == [] then r == Ready(Ok(all)) && done == [] else r == NotReady && done == all
      ensures !NoneFails(Visits(old(inflight))) ==>
                inflight == [] && r.Ready? && r.value.Err? && FirstFailure(Visits(old(inflight)), r.value.error)
    {
      hide Midway, Visits, NoneFails, FirstFailure;
      ghost var vs := Visits(inflight);
      EachVisitedOnce(inflight);
      ghost var visited: seq<Slot<K, T, E>> := [];
      ghost var rest := inflight;
      PassStarts(inflight, done);
      var i := 0;
      while i < |inflight|
        invariant i == |Waiting(visited)| && inflight == Waiting(visited) + rest
        invariant Midway(vs, visited, rest, inflight, old(done), done)
        decreases |rest|
      {
        var slot := inflight[i];
        assert slot == rest[0];
        if slot.Completes() {
          match slot.fut.outcome
          case Ok(value) =>
            VisitCompleted(vs, visited, rest, inflight, old(done), done);
            SwapInside(Waiting(visited), rest);
            inflight := SwapRemove(inflight, i);
            done := done + [Entry(slot.key, value)];
            rest := SwapRemoveFirst(rest);
          case Err(error) =>
            VisitFailed(vs, visited, rest, inflight, old(done), done);
            inflight := [];
            return Ready(Err(error));
        } else {
          VisitPending(vs, visited, rest, inflight, old(done), done);
          WaitingGrows(visited, slot, rest);
          inflight := inflight[i := slot.AfterPoll()];
          i := i + 1;
          rest := rest[1..];
        }
        visited := visited + [slot];
      }
      PassEnds(vs, visited, rest, inflight, old(done), done);
      if inflight == [] {
        r := Ready(Ok(done));
        done := [];
      } else {
        r := NotReady;
      }
    }

    /** `Vec::swap_remove(i)`. */
    static function SwapRemove<A>(s: seq<A>, i: nat): seq<A>
      requires i < |s|
    {
      if i == |s| - 1 then s[..i] else s[..i] + [s[|s|-1]] + s[i+1..|s|-1]
    }

    /** The last element takes the place of the removed one; all others stay where they are. */
    static lemma SwapRemoveMovesLast<A>(s: seq<A>, i: nat)
      requires i < |s|
      ensures var r := SwapRemove(s, i);
              && |r| == |s| - 1 && (i < |r| ==> r[i] == s[|s|-1])
              && forall j :: 0 <= j < |r| && j != i ==> r[j] == s[j]
      ensures SwapRemoveFirst(s) == SwapRemove(s, 0)
    {
      assert SwapRemoveFirst(s) == SwapRemove(s, 0);
    }

    static lemma SwapInside<A>(a: seq<A>, b: seq<A>)
      requires b != []
      ensures SwapRemove(a + b, |a|) == a + SwapRemoveFirst(b)
    {
    }
  }

  lemma WaitingGrows<K, T, E>(visited: seq<Slot<K, T, E>>, slot: Slot<K, T, E>, rest: seq<Slot<K, T, E>>)
    requires !slot.Completes() && rest != []
    ensures (Waiting(visited) + rest)[|Waiting(visited)| := slot.AfterPoll()] == Waiting(visited + [slot]) + rest[1..]
  {
    assert (visited + [slot])[..|visited|] == visited;
    assert Waiting(visited + [slot]) == Waiting(visited) + [slot.AfterPoll()];
    hide Waiting;
    ReplacedInside(Waiting(visited), rest, slot.AfterPoll());
  }

  lemma ReplacedInside<A>(a: seq<A>, b: seq<A>, x: A)
    requires b != []
    ensures (a + b)[|a| := x] == a + [x] + b[1..]
  {
  }

  lemma PassEnds<K, T, E>(vs: seq<Slot<K, T, E>>, visited: seq<Slot<K, T, E>>, rest: seq<Slot<K, T, E>>,
                          inflight: seq<Slot<K, T, E>>, done0: seq<Entry<K, T>>, done: seq<Entry<K, T>>)
    requires Midway(vs, visited, rest, inflight, done0, done) && |inflight| <= |Waiting(visited)|
    ensures NoneFails(vs) && inflight == Waiting(vs) && done == done0 + Completed(vs)
  {
    assert rest == [];
    assert vs == visited;
  }

  // ---------- awaiting the join ----------

  /** Whether a future ends while its caller still has patience; `None` waits for ever. */
  predicate InTime(wait: nat, patience: Option<nat>) {
    patience.Some? ==> wait <= patience.value
  }

  function LongestWait<K, T, E>(s: seq<Slot<K, T, E>>): nat {
    if s == [] then 0
    else
      var rest := LongestWait(s[..|s|-1]);
      if s[|s|-1].fut.wait > rest then s[|s|-1].fut.wait else rest
  }

  lemma {:induction false} LongestIsMax<K, T, E>(s: seq<Slot<K, T, E>>)
    ensures forall x :: x in s ==> x.fut.wait <= LongestWait(s)
    ensures s != [] ==> exists x :: x in s && x.fut.wait == LongestWait(s)
  {
    if s != [] {
      assert s == s[..|s|-1] + [s[|s|-1]];
      LongestIsMax(s[..|s|-1]);
      assert s[|s|-1] in s;
    }
  }

  function Later<K, T, E>(s: Slot<K, T, E>, p: nat): Slot<K, T, E> {
    Slot(s.key, Future(s.fut.wait + p, s.fut.outcome))
  }

  function Sooner<K, T, E>(s: Slot<K, T, E>, p: nat): Slot<K, T, E> {
    Slot(s.key, Future(if p <= s.fut.wait then s.fut.wait - p else 0, s.fut.outcome))
  }

  /** After `p` passes without a failure, in flight is what waits longer, each with `p` polls less. */
  ghost predicate Shifted<K(!new), T(!new), E(!new)>(items: seq<Slot<K, T, E>>, inflight: seq<Slot<K, T, E>>, p: nat) {
    && (forall s {:trigger Later(s, p)} :: s in inflight ==> Later(s, p) in items)
    && (forall x {:trigger Sooner(x, p)} :: x in items && x.fut.wait >= p ==> Sooner(x, p) in inflight)
    && (forall x :: x in items && x.fut.wait < p ==> x.fut.outcome.Ok?)
  }

  lemma NotShifted<K(!new), T(!new), E(!new)>(items: seq<Slot<K, T, E>>)
    ensures Shifted(items, items, 0)
  {
    assert forall x: Slot<K, T, E> :: Later(x, 0) == x == Sooner(x, 0);
  }

  lemma {:induction false} WaitingAre<K, T, E>(vs: seq<Slot<K, T, E>>, s: Slot<K, T, E>)
    ensures s in Waiting(vs) <==> Later(s, 1) in vs
  {
    if vs != [] {
      var before, last := vs[..|vs|-1], vs[|vs|-1];
      assert vs == before + [last];
      WaitingAre(before, s);
    }
  }

  lemma SameElements<A>(a: seq<A>, b: seq<A>, x: A)
    requires multiset(a) == multiset(b)
    ensures x in a <==> x in b
  {
    assert x in a <==> x in multiset(a);
    assert x in b <==> x in multiset(b);
  }

  lemma ShiftOnce<K(!new), T(!new), E(!new)>(items: seq<Slot<K, T, E>>, inflight: seq<Slot<K, T, E>>, vs: seq<Slot<K, T, E>>, p: nat)
    requires Shifted(items, inflight, p) && multiset(vs) == multiset(inflight) && NoneFails(vs)
    ensures Shifted(items, Waiting(vs), p + 1)
  {
    forall s | s in Waiting(vs)
      ensures Later(s, p + 1) in items
    {
      WaitingAre(vs, s);
      SameElements(vs, inflight, Later(s, 1));
      assert Later(Later(s, 1), p) == Later(s, p + 1);
    }
    forall x | x in items && x.fut.wait >= p + 1
      ensures Sooner(x, p + 1) in Waiting(vs)
    {
      assert Sooner(x, p) in inflight;
      SameElements(vs, inflight, Sooner(x, p));
      WaitingAre(vs, Sooner(x, p + 1));
      assert Later(Sooner(x, p + 1), 1) == Sooner(x, p);
    }
    forall x | x in items && x.fut.wait == p
      ensures x.fut.outcome.Ok?
    {
      assert Sooner(x, p) in inflight;
      SameElements(vs, inflight, Sooner(x, p));
      assert !Fails(Sooner(x, p));
    }
  }

  /** The failure that ends a join is one of an earliest failing future. */
  ghost predicate FailsFirst<K(!new), T(!new), E(!new)>(items: seq<Slot<K, T, E>>, e: E, patience: Option<nat>) {
    exists s :: s in items && s.fut.outcome == Err(e) && InTime(s.fut.wait, patience)
                && forall x :: x in items && x.fut.outcome.Err? ==> s.fut.wait <= x.fut.wait
  }

  lemma FailureIsFirst<K(!new), T(!new), E(!new)>(items: seq<Slot<K, T, E>>, inflight: seq<Slot<K, T, E>>, vs: seq<Slot<K, T, E>>, p: nat, e: E,
                                                  patience: Option<nat>)
    requires Shifted(items, inflight, p) && multiset(vs) == multiset(inflight) && FirstFailure(vs, e) && InTime(p, patience)
    ensures FailsFirst(items, e, patience)
  {
    var i :| 0 <= i < |vs| && Fails(vs[i]) && vs[i].fut.outcome.error == e && NoneFails(vs[..i]);
    var s := vs[i];
    SameElements(vs, inflight, s);
    assert Later(s, p) in items;
  }

  lemma AllInTime<K(!new), T(!new), E(!new)>(items: seq<Slot<K, T, E>>, inflight: seq<Slot<K, T, E>>, p: nat)
    requires Shifted(items, inflight, p + 1) && inflight == [] && p <= LongestWait(items)
    ensures forall x :: x in items ==> x.fut.outcome.Ok? && x.fut.wait <= p
    ensures p == LongestWait(items)
  {
    LongestIsMax(items);
    forall x | x in items
      ensures x.fut.wait <= p
    {
      assert Sooner(x, p + 1) !in inflight;
    }
  }

  lemma SomeStillWaits<K(!new), T(!new), E(!new)>(items: seq<Slot<K, T, E>>, inflight: seq<Slot<K, T, E>>, p: nat)
    requires Shifted(items, inflight, p) && inflight != []
    ensures exists x :: x in items && x.fut.wait >= p
    ensures p <= LongestWait(items)
    ensures forall x :: x in items && x.fut.outcome.Err? ==> x.fut.wait >= p
  {
    LongestIsMax(items);
    var s := inflight[0];
    assert Later(s, p) in items;
  }

  /** The patience that is left when all have ended. */
  function Left(patience: Option<nat>, spent: nat): Option<nat>
    requires InTime(spent, patience)
  {
    if patience.Some? then Some(patience.value - spent) else None
  }

  /**
   * Polls until the join ends or its caller, having had enough, drops it. All values come out if
   * all futures end well and in time; otherwise an earliest failure if it is in time.
   */
  method Drive<K(!new), T(!new), E(!new)>(join: TryJoinAll<K, T, E>, patience: Option<nat>)
    returns (r: Polled<Result<seq<Entry<K, T>>, E>>, left: Option<nat>)
    requires join.done == []
    modifies join
    ensures r.Ready? && r.value.Ok? <==> forall x :: x in old(join.inflight) ==> x.fut.outcome.Ok? && InTime(x.fut.wait, patience)
    ensures r.Ready? && r.value.Ok? ==> Yielded<K, T, E>(r.value.value) == Outcomes(old(join.inflight))
    ensures r.Ready? && r.value.Ok? && patience.Some? ==> left.Some? && patience.value == left.value + LongestWait(old(join.inflight))
    ensures r.Ready? && r.value.Err? <==> exists x :: x in old(join.inflight) && x.fut.outcome.Err? && InTime(x.fut.wait, patience)
    ensures r.Ready? && r.value.Err? ==> FailsFirst(old(join.inflight), r.value.error, patience)
    ensures r.NotReady? ==> join.Held() == Outcomes(old(join.inflight))
    ensures left.Some? ==> patience.Some?
  {
    hide Visits, NoneFails, FirstFailure, Completed, Waiting, Outcomes, Yielded, Shifted, LongestWait, FailsFirst;
    ghost var items := join.inflight;
    var passes := 0;
    left := patience;
    NothingYielded<K, T, E>();
    NotShifted(items);
    while InTime(passes, patience)
      invariant join.Held() == Outcomes(items)
      invariant Shifted(items, join.inflight, passes) && passes <= LongestWait(items)
      invariant passes > 0 ==> join.inflight != []
      decreases LongestWait(items) + 1 - passes
    {
      ghost var vs := Visits(join.inflight);
      ghost var done, inflight := join.done, join.inflight;
      r := join.Poll();
      VisitsKeepOutcomes(inflight);
      if NoneFails(vs) {
        PassConserves(vs);
        YieldedConcat<K, T, E>(done, Completed(vs));
        ShiftOnce(items, inflight, vs, passes);
      }
      if r.Ready? {
        if r.value.Ok? {
          NoneWaiting<K, T, E>();
          AllInTime(items, join.inflight, passes);
          left := Left(patience, passes);
        } else {
          FailureIsFirst(items, inflight, vs, passes, r.value.error, patience);
          FirstIsOne(items, r.value.error, patience);
        }
        return;
      }
      SomeStillWaits(items, join.inflight, passes + 1);
      passes := passes + 1;
    }
    SomeStillWaits(items, join.inflight, passes);
    r := NotReady;
  }

  lemma FirstIsOne<K(!new), T(!new), E(!new)>(items: seq<Slot<K, T, E>>, e: E, patience: Option<nat>)
    requires FailsFirst(items, e, patience)
    ensures exists x :: x in items && x.fut.outcome.Err? && InTime(x.fut.wait, patience)
  {
  }

  lemma NothingYielded<K, T, E>()
    ensures Yielded<K, T, E>([]) == multiset{}
  {
  }

  lemma NoneWaiting<K, T, E>()
    ensures Outcomes<K, T, E>([]) == multiset{}
  {
  }

  lemma {:induction false} OutcomeOfMember<K, T, E>(s: seq<Slot<K, T, E>>, x: Slot<K, T, E>)
    requires x in s
    ensures Entry(x.key, x.fut.outcome) in Outcomes(s)
  {
    if s[|s|-1] != x {
      assert s == s[..|s|-1] + [s[|s|-1]];
      OutcomeOfMember(s[..|s|-1], x);
    }
  }

  lemma {:induction false} MemberOfOutcome<K, T, E>(s: seq<Slot<K, T, E>>, o: Entry<K, Result<T, E>>)
    requires o in Outcomes(s)
    ensures exists x :: x in s && x.key == o.key && x.fut.outcome == o.value
  {
    if s != [] {
      var last := s[|s|-1];
      assert s == s[..|s|-1] + [last];
      if o == Entry(last.key, last.fut.outcome) {
        assert last in s;
      } else {
        MemberOfOutcome(s[..|s|-1], o);
      }
    }
  }
}
