/** The lifecycle registry and its driver (`src/lifecycle.rs`), tied to the transition system of `Machine`. */
module Lifecycles {
  import opened Types
  import opened Errors
  import opened Timeouts
  import opened Machine
  import opened LifecycleRuns
  import opened LifecycleGuarantees

  /** How a lifecycle future ends: it returns, or it is dropped at an await. */
  datatype Ended = Returned(result: Outcome) | Dropped

  predicate FromHooks(errors: seq<Error>) {
    forall e :: e in errors ==> e.Hook?
  }

  function HookNames(errors: seq<Error>): seq<nat>
    requires FromHooks(errors)
  {
    seq<nat>(|errors|, i requires 0 <= i < |errors| => errors[i].name)
  }

  lemma AllTaken(s: State, hooks: seq<HookEntry>)
    requires s.started <= |s.hooks| == |hooks|
    requires var low := if NextStop(s.hooks, s.started) == 0 then 0 else NextStop(s.hooks, s.started) - 1;
             forall j: nat :: j < |hooks| ==>
               hooks[j] == if low <= j < s.started then HookEntry(s.hooks[j].hook, false) else s.hooks[j]
    ensures State(hooks, if NextStop(s.hooks, s.started) == 0 then 0 else NextStop(s.hooks, s.started) - 1, s.phase) == TookStop(s)
  {
    assert hooks == TookStop(s).hooks;
  }

  lemma StopsAt(hooks: seq<HookEntry>, n: nat)
    requires n <= |hooks|
    ensures NextStop(hooks, n) == if n == 0 || Stoppable(hooks[n-1]) then n else NextStop(hooks, n - 1)
  {
  }

  lemma TakenOrDone(s: State)
    requires s.started <= |s.hooks| && s.phase.Starting?
    ensures TookStart(s).phase.Started? <==> NextStart(s.hooks, s.started) == |s.hooks|
  {
  }

  /** The only OnStart that has broken is that of `i`, by failing. */
  ghost predicate OnlyFailed(trace: seq<Event>, i: nat) {
    && (forall j: nat :: StartFailed(j) in trace <==> j == i)
    && (forall j: nat :: StartCancelled(j) !in trace)
  }

  /** The only OnStart that has broken is that of `i`, by being dropped. */
  ghost predicate OnlyDropped(trace: seq<Event>, i: nat) {
    && (forall j: nat :: StartFailed(j) !in trace)
    && (forall j: nat :: StartCancelled(j) in trace <==> j == i)
  }

  lemma OneBreaks(trace: seq<Event>, i: nat)
    requires NoneBroke(trace)
    ensures OnlyFailed(trace + [StartFailed(i)], i) && OnlyDropped(trace + [StartCancelled(i)], i)
  {
    forall j: nat
      ensures StartFailed(j) !in trace && StartCancelled(j) !in trace
    {
      assert !StartBroke(trace, j);
    }
  }

  class Lifecycle {
    var hooks: seq<HookEntry>
    var started: nat
    var phase: Phase
    /** The steps taken so far. */
    ghost var log: seq<Label>

    function Now(): State
      reads this
    {
      State(hooks, started, phase)
    }

    /** The registry is where its steps lead to. */
    ghost predicate Valid()
      reads this
    {
      Runs(log) && After(log).state == Now()
    }

    ghost function At(): Config
      requires Valid()
      reads this
    {
      After(log)
    }

    constructor ()
      ensures Valid() && log == [] && At() == INITIAL && Passes(log) == 0
    {
      hooks, started, phase, log := [], 0, Registering, [];
    }

    /** Records a step that the fields have already taken. */
    ghost method Took(l: Label, was: State)
      requires Runs(log) && After(log).state == was && Enabled(After(log), l)
      requires Step(After(log), l).state == Now()
      modifies this`log
      ensures Valid() && log == old(log) + [l] && At() == Step(old(After(log)), l)
      ensures Passes(log) == old(Passes(log)) + (if l.BeginUnwind? || l.BeginStop? then 1 else 0)
    {
      Extended(log, After(log), l, Step(After(log), l));
      log := log + [l];
    }

    // ---------- the sections under the lock ----------

    method Append(h: Hook) returns (r: Outcome)
      requires Valid()
      modifies this
      ensures Valid() && log == old(log) + [Label.Append(h)] && Now() == Appended(old(Now()), h)
      ensures Passes(log) == old(Passes(log))
      ensures r.Ok? <==> old(Accepts(Now()))
      ensures r.Ok? <==> old(phase).Registering? || old(phase).Starting?
      ensures hooks == if r.Ok? then old(hooks) + [HookEntry(h, true)] else old(hooks)
      ensures started == old(started) && phase == old(phase)
      ensures old(phase).Started? ==> r == Err(AppendAfterStart)
      ensures old(phase).Stopping? ==> r == Err(AppendWhileStopping)
    {
      ghost var was := Now();
      match phase {
        case Registering =>
          hooks := hooks + [HookEntry(h, true)];
          r := DONE;
        case Starting =>
          hooks := hooks + [HookEntry(h, true)];
          r := DONE;
        case Started =>
          r := Err(AppendAfterStart);
        case Stopping =>
          r := Err(AppendWhileStopping);
      }
      Took(Label.Append(h), was);
    }

    /** Skips what has no OnStart and takes at most one hook out. */
    method NextToStart() returns (next: Option<nat>)
      requires started <= |hooks|
      modifies this`hooks, this`started, this`phase
      ensures Now() == TookStart(old(Now()))
      ensures next == if NextStart(old(hooks), old(started)) == |old(hooks)| then None else Some(started)
    {
      while true
        invariant old(started) <= started <= |hooks| && hooks == old(hooks) && phase == old(phase)
        invariant NextStart(hooks, started) == NextStart(hooks, old(started))
        decreases |hooks| - started
      {
        if started >= |hooks| {
          phase := Started;
          return None;
        }
        var idx := started;
        if !hooks[idx].held || !hooks[idx].hook.hasStart {
          started := started + 1;
          continue;
        }
        hooks := hooks[idx := HookEntry(hooks[idx].hook, false)];
        return Some(idx);
      }
    }

    method PutBackHook(idx: nat)
      requires idx < |hooks|
      modifies this`hooks, this`started
      ensures Now() == PutBack(old(Now()), idx)
    {
      hooks := hooks[idx := HookEntry(hooks[idx].hook, true)];
      started := started + 1;
    }

    method PrepareForUnwind()
      modifies this`hooks, this`started, this`phase
      ensures Now() == Prepared(old(Now()))
    {
      phase := Stopping;
      while started < |hooks|
        invariant old(started) <= started && (started <= |hooks| || started == old(started))
        invariant |hooks| == |old(hooks)| && phase == Stopping
        invariant forall j: nat :: j < |hooks| ==>
                    hooks[j] == if old(started) <= j < started && Startable(old(hooks)[j])
                                then HookEntry(old(hooks)[j].hook, false) else old(hooks)[j]
      {
        if !hooks[started].held {
          started := started + 1;
        } else if !hooks[started].hook.hasStart {
          started := started + 1;
        } else {
          hooks := hooks[started := HookEntry(hooks[started].hook, false)];
          started := started + 1;
        }
      }
      assert hooks == Prepared(old(Now())).hooks;
    }

    /** Takes the next hook with an OnStop out, from the top down. */
    method TakeNextStop() returns (next: Option<nat>)
      requires started <= |hooks|
      modifies this`hooks, this`started
      ensures Now() == TookStop(old(Now()))
      ensures next == if NextStop(old(hooks), old(started)) == 0 then None else Some(started)
    {
      hide NextStop, TookStop;
      while true
        invariant started <= old(started) <= |hooks| && |hooks| == |old(hooks)|
        invariant NextStop(old(hooks), started) == NextStop(old(hooks), old(started))
        invariant forall j: nat :: j < |hooks| ==>
                    hooks[j] == if started <= j < old(started) then HookEntry(old(hooks)[j].hook, false) else old(hooks)[j]
        decreases started
      {
        StopsAt(old(hooks), started);
        if started == 0 {
          next := None;
          break;
        }
        started := started - 1;
        var idx := started;
        if !hooks[idx].held {
          continue;
        }
        hooks := hooks[idx := HookEntry(hooks[idx].hook, false)];
        if !hooks[idx].hook.hasStop {
          continue;
        }
        next := Some(idx);
        break;
      }
      AllTaken(old(Now()), hooks);
    }

    // ---------- the futures that drive it ----------

    /** At an await, other tasks and the running hook itself may append. */
    method Others()
      requires Valid()
      modifies this
      ensures Valid() && old(log) <= log && Passes(log) == old(Passes(log))
      ensures At().driver == old(At().driver) && At().trace == old(At().trace) && At().errors == old(At().errors)
      ensures started == old(started) && phase == old(phase) && old(hooks) <= hooks
      ensures !old(Accepts(Now())) ==> hooks == old(hooks)
    {
      var n: nat :| true;
      for i := 0 to n
        invariant Valid() && old(log) <= log && Passes(log) == old(Passes(log))
        invariant At().driver == old(At().driver) && At().trace == old(At().trace) && At().errors == old(At().errors)
        invariant started == old(started) && phase == old(phase) && old(hooks) <= hooks
        invariant !old(Accepts(Now())) ==> hooks == old(hooks)
      {
        var h: Hook := *;
        var _ := Append(h);
      }
    }

    /** One OnStart: it finishes well (if `canFinish`), fails, or its future is dropped (if `mayDrop`). */
    method RunStart(idx: nat, canFinish: bool, mayDrop: bool) returns (o: Option<Outcome>)
      requires Valid() && At().driver == InOnStart(idx)
      modifies this
      ensures Valid() && old(log) <= log && Passes(log) == old(Passes(log))
      ensures o.Some? && o.value.Ok? ==> canFinish && At().driver.Taking?
      ensures o.Some? && o.value.Err? ==>
                At().driver.StartBroken? && o.value.error.Hook? && o.value.error.name == idx && OnlyFailed(At().trace, idx)
      ensures o.None? ==> mayDrop && At().driver.StartBroken? && OnlyDropped(At().trace, idx)
    {
      Others();
      RunIsFair(log);
      InBounds(At());
      OneBreaks(At().trace, idx);
      hide Runs, After, Inv, Prepared, Fair, StartBroke, OnlyFailed, OnlyDropped;
      ghost var was := Now();
      var ok: bool, drop: bool := *, *;
      if ok && canFinish {
        PutBackHook(idx);
        Took(FinishStart(true), was);
        return Some(DONE);
      }
      PrepareForUnwind();
      if drop && mayDrop {
        Took(DropStart, was);
        return None;
      }
      Took(FinishStart(false), was);
      var source: nat := *;
      return Some(Err(Error.Hook(idx, source)));
    }

    /**
     * `start`: OnStarts in registration order, one at a time. The future can be dropped while a
     * hook runs if `mayDrop`; after `patience` hooks the next one no longer finishes well.
     */
    method Start(patience: nat, mayDrop: bool) returns (r: Ended)
      requires Valid() && At().driver.Idle?
      modifies this
      ensures Valid() && old(log) <= log && Passes(log) == old(Passes(log))
      ensures r.Dropped? ==> mayDrop && At().driver.StartBroken? && exists i: nat :: OnlyDropped(At().trace, i)
      ensures r.Returned? && r.result.Ok? ==> At().driver.StartedUp? && NoneBroke(At().trace) && StartReturned in At().trace
      ensures r.Returned? && r.result.Err? ==>
                At().driver.StartBroken? && r.result.error.Hook? && OnlyFailed(At().trace, r.result.error.name)
    {
      hide Runs, After, Inv, NextStart, TookStart, OnlyFailed, OnlyDropped;
      ghost var was := Now();
      phase := Starting;
      Took(BeginStart, was);
      var left := patience;
      while true
        invariant Valid() && old(log) <= log && Passes(log) == old(Passes(log)) && At().driver.Taking?
        decreases left
      {
        RunKeepsInv(log);
        InBounds(At());
        was := Now();
        var next := NextToStart();
        Took(TakeStart, was);
        TakenOrDone(was);
        if next.None? {
          UpIsStarted(log);
          return Returned(DONE);
        }
        var o := RunStart(next.value, left > 0, mayDrop);
        match o {
          case Some(Ok(_)) => left := left - 1;
          case Some(Err(e)) => return Returned(Err(e));
          case None => return Dropped;
        }
      }
    }

    /** One OnStop under its guard: it finishes, or its future is dropped and the hook is written back. */
    method RunStop(idx: nat, mayDrop: bool) returns (o: Option<Outcome>)
      requires Valid() && At().driver.InOnStop? && At().driver.i == idx
      modifies this
      ensures Valid() && old(log) <= log && Passes(log) == old(Passes(log))
      ensures o.Some? ==>
                && Now() == old(Now()) && At().driver == InPass(old(At().driver.left))
                && At().errors == old(At().errors) + (if o.value.Err? then [idx] else [])
                && (o.value.Err? ==> o.value.error.Hook? && o.value.error.name == idx)
      ensures o.None? ==> mayDrop && At().driver.PassDropped?
    {
      RunKeepsInv(log);
      Others();
      ghost var was := Now();
      var failed: bool, drop: bool := *, *;
      if drop && mayDrop {
        PutBackHook(idx);
        Took(DropStop, was);
        return None;
      }
      Took(FinishStop(failed), was);
      if failed {
        var source: nat := *;
        return Some(Err(Error.Hook(idx, source)));
      }
      return Some(DONE);
    }

    /** Takes the next hook to stop, or finds the pass over. */
    method StopNext() returns (next: Option<nat>)
      requires Valid() && At().driver.InPass? && At().driver.left != Some(0)
      modifies this
      ensures Valid() && log == old(log) + [TakeStop] && Passes(log) == old(Passes(log))
      ensures At().errors == old(At().errors)
      ensures next.None? ==> At().driver.PassOver?
      ensures next.Some? ==> At().driver == InOnStop(next.value, Spent(old(At().driver.left))) && started < old(started)
    {
      RunKeepsInv(log);
      InBounds(At());
      hide Runs, After, Inv, Passes;
      ghost var was := Now();
      next := TakeNextStop();
      Took(TakeStop, was);
    }

    /** `stop`: OnStops in reverse order, until nothing is left. One that fails does not keep the others from running. */
    method Stop(mayDrop: bool) returns (r: Ended, errors: seq<Error>)
      requires Valid() && (At().driver.StartedUp? || At().driver.PassDropped?)
      modifies this
      ensures Valid() && old(log) <= log && Passes(log) == old(Passes(log)) + 1
      ensures SameBreaks(old(At().trace), At().trace)
      ensures r.Dropped? ==> mayDrop && At().driver.PassDropped?
      ensures r.Returned? ==> At().driver.PassOver? && r.result == AggregateErrors(errors)
      ensures r.Returned? && |errors| == 0 ==> r.result.Ok?
      ensures r.Returned? && |errors| == 1 ==> r.result == Err(errors[0])
      ensures r.Returned? && |errors| > 1 ==> r.result == Err(MultipleStop(errors))
      ensures r.Returned? ==> FromHooks(errors) && HookNames(errors) == At().errors
    {
      ghost var was := Now();
      ghost var before := At().trace;
      phase := Stopping;
      Took(BeginStop, was);
      BeganOnly(before);
      ghost var begun := log;
      r, errors := StopRest(mayDrop);
      Since(begun);
    }

    /** One more event that is no OnStart. */
    lemma BeganOnly(trace: seq<Event>)
      ensures SameBreaks(trace, trace + [PassBegan])
    {
    }

    /** Once a pass has begun no OnStart breaks any more. */
    lemma Since(begun: seq<Label>)
      requires Valid() && begun <= log && Runs(begun) && PastStart(After(begun).driver)
      ensures SameBreaks(After(begun).trace, At().trace)
    {
      assert log[..|begun|] == begun;
      StartsAreOver(log, |begun|);
    }

    /** The loop of `stop`. */
    method StopRest(mayDrop: bool) returns (r: Ended, errors: seq<Error>)
      requires Valid() && At().driver == InPass(None) && At().errors == []
      modifies this
      ensures Valid() && old(log) <= log && Passes(log) == old(Passes(log))
      ensures r.Dropped? ==> mayDrop && At().driver.PassDropped?
      ensures r.Returned? ==> At().driver.PassOver? && r.result == AggregateErrors(errors)
      ensures r.Returned? && |errors| == 0 ==> r.result.Ok?
      ensures r.Returned? && |errors| == 1 ==> r.result == Err(errors[0])
      ensures r.Returned? && |errors| > 1 ==> r.result == Err(MultipleStop(errors))
      ensures r.Returned? ==> FromHooks(errors) && HookNames(errors) == At().errors
    {
      hide Runs, After, Inv, Passes, TookStop, NextStop;
      errors := [];
      while true
        invariant Valid() && old(log) <= log && Passes(log) == old(Passes(log)) && At().driver == InPass(None)
        invariant FromHooks(errors) && HookNames(errors) == At().errors
        decreases started
      {
        var next := StopNext();
        if next.None? {
          return Returned(AggregateErrors(errors)), errors;
        }
        var o := RunStop(next.value, mayDrop);
        if o.None? {
          return Dropped, errors;
        }
        if o.value.Err? {
          errors := errors + [o.value.error];
        }
      }
    }

    /** `stop_first`: the same for at most `count` hooks. */
    method StopFirst(count: nat, mayDrop: bool) returns (r: Ended, errors: seq<Error>)
      requires Valid() && At().driver == InPass(Some(count)) && At().errors == []
      modifies this
      ensures Valid() && old(log) <= log && Passes(log) == old(Passes(log))
      ensures r.Dropped? ==> mayDrop && At().driver.PassDropped?
      ensures r.Returned? ==> At().driver.PassOver? && r.result == AggregateErrors(errors)
      ensures r.Returned? && |errors| == 0 ==> r.result.Ok?
      ensures r.Returned? && |errors| == 1 ==> r.result == Err(errors[0])
      ensures r.Returned? && |errors| > 1 ==> r.result == Err(MultipleStop(errors))
      ensures r.Returned? ==> FromHooks(errors) && HookNames(errors) == At().errors
    {
      hide Runs, After, Inv, Passes, TookStop, NextStop;
      errors := [];
      for n := 0 to count
        invariant Valid() && old(log) <= log && Passes(log) == old(Passes(log)) && At().driver == InPass(Some(count - n))
        invariant FromHooks(errors) && HookNames(errors) == At().errors
      {
        var next := StopNext();
        if next.None? {
          return Returned(AggregateErrors(errors)), errors;
        }
        var o := RunStop(next.value, mayDrop);
        if o.None? {
          return Dropped, errors;
        }
        if o.value.Err? {
          errors := errors + [o.value.error];
        }
      }
      RunKeepsInv(log);
      InBounds(At());
      Took(TakeStop, Now());
      return Returned(AggregateErrors(errors)), errors;
    }

    /** `prepare_for_unwind` followed by `unwind_started`. */
    method Unwind(mayDrop: bool) returns (r: Ended, errors: seq<Error>)
      requires Valid() && Enabled(At(), BeginUnwind)
      modifies this
      ensures Valid() && old(log) <= log && Passes(log) == old(Passes(log)) + 1
      ensures SameBreaks(old(At().trace), At().trace)
      ensures r.Dropped? ==> mayDrop && At().driver.PassDropped?
      ensures r.Returned? ==> At().driver.PassOver? && r.result == AggregateErrors(errors)
      ensures r.Returned? && |errors| == 0 ==> r.result.Ok?
      ensures r.Returned? && |errors| == 1 ==> r.result == Err(errors[0])
      ensures r.Returned? && |errors| > 1 ==> r.result == Err(MultipleStop(errors))
      ensures r.Returned? ==> FromHooks(errors) && HookNames(errors) == At().errors
    {
      ghost var was := Now();
      ghost var before := At().trace;
      PrepareForUnwind();
      Took(BeginUnwind, was);
      BeganOnly(before);
      ghost var begun := log;
      Others();
      phase := Stopping;
      var count := started;
      r, errors := StopFirst(count, mayDrop);
      Since(begun);
    }
  }
}
