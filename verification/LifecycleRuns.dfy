/** What holds in every run of the lifecycle, whatever is appended, fails or is dropped on the way. */
module LifecycleRuns {
  import opened Types
  import opened Machine

  // ---------- reading a history ----------

  predicate StartedFine(trace: seq<Event>, i: nat) {
    StartOk(i) in trace
  }

  predicate StopCompleted(trace: seq<Event>, i: nat) {
    StopDone(i, true) in trace || StopDone(i, false) in trace
  }

  /** A hook is active once its OnStart has finished well, or from the beginning if it has none. */
  predicate Active(hooks: seq<HookEntry>, trace: seq<Event>, i: nat)
    requires i < |hooks|
  {
    !hooks[i].hook.hasStart || StartedFine(trace, i)
  }

  /** The hooks whose OnStop is to run. */
  predicate Eligible(hooks: seq<HookEntry>, trace: seq<Event>, i: nat)
    requires i < |hooks|
  {
    hooks[i].hook.hasStop && Active(hooks, trace, i)
  }

  /** OnStarts begin in strictly increasing index order, so each at most once. */
  ghost predicate StartsIncrease(trace: seq<Event>) {
    forall a, b :: 0 <= a < b < |trace| && trace[a].StartBegan? && trace[b].StartBegan? ==> trace[a].i < trace[b].i
  }

  /** OnStops complete in strictly decreasing index order, so each at most once. */
  ghost predicate StopsDecrease(trace: seq<Event>) {
    forall a, b :: 0 <= a < b < |trace| && trace[a].StopDone? && trace[b].StopDone? ==> trace[a].i > trace[b].i
  }

  // ---------- the invariant ----------

  ghost predicate NoStops(trace: seq<Event>) {
    forall i: nat :: !StopCompleted(trace, i)
  }

  /** Up to `upTo`, exactly the hooks with an OnStart have begun it, and those below `ok` finished well. */
  ghost predicate StartEvents(hooks: seq<HookEntry>, trace: seq<Event>, upTo: nat, ok: nat)
    requires ok <= upTo <= |hooks|
  {
    && (forall i: nat :: StartBegan(i) in trace <==> i < upTo && hooks[i].hook.hasStart)
    && (forall i: nat :: StartedFine(trace, i) <==> i < ok && hooks[i].hook.hasStart)
  }

  ghost predicate AllHeld(hooks: seq<HookEntry>) {
    forall i: nat :: i < |hooks| ==> hooks[i].held
  }

  ghost predicate IdleWf(s: State, trace: seq<Event>) {
    s.phase == Registering && s.started == 0 && AllHeld(s.hooks) && trace == []
  }

  ghost predicate TakingWf(s: State, trace: seq<Event>) {
    && s.phase == Starting && s.started <= |s.hooks| && AllHeld(s.hooks)
    && StartEvents(s.hooks, trace, s.started, s.started)
    && NoStops(trace) && StartReturned !in trace
  }

  ghost predicate InOnStartWf(s: State, trace: seq<Event>, i: nat) {
    && s.phase == Starting && i == s.started < |s.hooks| && s.hooks[i].hook.hasStart && !s.hooks[i].held
    && (forall j: nat :: j < |s.hooks| && j != i ==> s.hooks[j].held)
    && StartEvents(s.hooks, trace, i + 1, i)
    && NoStops(trace) && StartReturned !in trace
  }

  ghost predicate StartedUpWf(s: State, trace: seq<Event>) {
    && s.phase == Started && s.started == |s.hooks| && AllHeld(s.hooks)
    && StartEvents(s.hooks, trace, |s.hooks|, |s.hooks|)
    && NoStops(trace) && StartReturned in trace
  }

  /**
   * While stopping, what is still held is active and lies below `top` and below every completed
   * OnStop; what is eligible is held, being stopped (`running`) or done; nothing else is done.
   */
  ghost predicate Split(hooks: seq<HookEntry>, trace: seq<Event>, top: nat, running: Option<nat>) {
    && (forall j: nat :: j < |hooks| && hooks[j].held ==> Active(hooks, trace, j) && j < top)
    && (forall j: nat :: j < |hooks| && Eligible(hooks, trace, j) ==>
                           hooks[j].held || running == Some(j) || StopCompleted(trace, j))
    && (forall j: nat :: StopCompleted(trace, j) ==> j < |hooks| && Eligible(hooks, trace, j))
    && (forall j: nat, k: nat :: StopCompleted(trace, j) && k < |hooks| && hooks[k].held ==> k < j)
  }

  ghost predicate StoppingWf(s: State, trace: seq<Event>) {
    s.phase == Stopping && s.started <= |s.hooks| && Split(s.hooks, trace, s.started, None)
  }

  ghost predicate InOnStopWf(s: State, trace: seq<Event>, i: nat) {
    && s.phase == Stopping && i == s.started < |s.hooks|
    && !s.hooks[i].held && Eligible(s.hooks, trace, i)
    && Split(s.hooks, trace, i, Some(i))
    && (forall j: nat :: StopCompleted(trace, j) ==> i < j)
  }

  ghost predicate NothingHeld(hooks: seq<HookEntry>) {
    forall j: nat :: j < |hooks| ==> !hooks[j].held
  }

  /** A pass started by `stop_first(started)` never runs out of its count early. */
  predicate Covers(left: Option<nat>, started: nat) {
    left.Some? ==> left.value >= started
  }

  ghost predicate DriverWf(c: Config) {
    var s, t := c.state, c.trace;
    match c.driver
    case Idle => IdleWf(s, t)
    case Taking => TakingWf(s, t)
    case InOnStart(i) => InOnStartWf(s, t, i)
    case StartedUp => StartedUpWf(s, t)
    case StartBroken => StoppingWf(s, t)
    case InPass(left) => StoppingWf(s, t) && Covers(left, s.started)
    case InOnStop(i, left) => InOnStopWf(s, t, i) && Covers(left, s.started)
    case PassOver => StoppingWf(s, t) && s.started == 0 && NothingHeld(s.hooks)
    case PassDropped => StoppingWf(s, t)
  }

  /** If start has returned, every OnStart has finished well. */
  ghost predicate ReturnMeansStarted(hooks: seq<HookEntry>, trace: seq<Event>) {
    StartReturned in trace ==> forall j: nat :: j < |hooks| && hooks[j].hook.hasStart ==> StartedFine(trace, j)
  }

  ghost predicate Inv(c: Config) {
    && DriverWf(c) && ReturnMeansStarted(c.state.hooks, c.trace)
    && StartsIncrease(c.trace) && StopsDecrease(c.trace)
  }

  // ---------- one more event ----------

  lemma OneMoreEvent(trace: seq<Event>, e: Event)
    ensures forall x :: x in trace + [e] <==> x in trace || x == e
    ensures forall i: nat :: StartedFine(trace + [e], i) <==> StartedFine(trace, i) || e == StartOk(i)
    ensures forall i: nat :: StopCompleted(trace + [e], i) <==> StopCompleted(trace, i) || (e.StopDone? && e.i == i)
  {
  }

  lemma OrderKept(trace: seq<Event>, e: Event)
    requires StartsIncrease(trace) && StopsDecrease(trace)
    requires e.StartBegan? ==> forall i: nat :: StartBegan(i) in trace ==> i < e.i
    requires e.StopDone? ==> forall i: nat :: StopCompleted(trace, i) ==> i > e.i
    ensures StartsIncrease(trace + [e]) && StopsDecrease(trace + [e])
  {
    forall a | 0 <= a < |trace| && trace[a].StartBegan? && e.StartBegan?
      ensures trace[a].i < e.i
    {
      assert StartBegan(trace[a].i) in trace;
    }
    forall a | 0 <= a < |trace| && trace[a].StopDone? && e.StopDone?
      ensures trace[a].i > e.i
    {
      assert trace[a] == StopDone(trace[a].i, trace[a].failed);
      assert StopCompleted(trace, trace[a].i);
    }
  }

  // ---------- every step keeps it ----------

  lemma AppendKeeps(c: Config, h: Hook)
    requires Inv(c)
    ensures Inv(Step(c, Append(h)))
  {
    hide StopCompleted, StartsIncrease, StopsDecrease;
  }

  lemma BeginStartKeeps(c: Config)
    requires Inv(c) && Enabled(c, BeginStart)
    ensures Inv(Step(c, BeginStart))
  {
  }

  lemma TakeStartKeeps(c: Config)
    requires Inv(c) && Enabled(c, TakeStart)
    ensures Inv(Step(c, TakeStart))
  {
    var e := if NextStart(c.state.hooks, c.state.started) == |c.state.hooks| then StartReturned
             else StartBegan(NextStart(c.state.hooks, c.state.started));
    OneMoreEvent(c.trace, e);
    OrderKept(c.trace, e);
    hide StopCompleted, StartedFine, StartsIncrease, StopsDecrease;
  }

  /** Preparing an unwind drops the hooks past the started ones that still have their OnStart to run. */
  lemma PreparedHolds(s: State)
    ensures |Prepared(s).hooks| == |s.hooks|
    ensures forall j: nat :: j < |s.hooks| ==>
              && Prepared(s).hooks[j].hook == s.hooks[j].hook
              && (Prepared(s).hooks[j].held <==> s.hooks[j].held && (j < s.started || !s.hooks[j].hook.hasStart))
  {
  }

  lemma PreparedFromStart(s: State, trace: seq<Event>)
    requires IdleWf(s, trace) || StartedUpWf(s, trace)
    ensures StoppingWf(Prepared(s), trace + [PassBegan])
  {
    OneMoreEvent(trace, PassBegan);
    PreparedHolds(s);
  }

  lemma PreparedAgain(s: State, trace: seq<Event>)
    requires StoppingWf(s, trace)
    ensures StoppingWf(Prepared(s), trace + [PassBegan])
  {
    OneMoreEvent(trace, PassBegan);
    PreparedHolds(s);
    hide StopCompleted, StartedFine;
  }

  /** A start that fails or is dropped leaves only active hooks. */
  lemma PreparedInOnStart(s: State, trace: seq<Event>, i: nat, e: Event)
    requires InOnStartWf(s, trace, i)
    requires e == StartFailed(i) || e == StartCancelled(i)
    ensures StoppingWf(Prepared(s), trace + [e])
  {
    OneMoreEvent(trace, e);
    PreparedHolds(s);
    hide StopCompleted, StartedFine;
  }

  lemma PutBackAfterStart(s: State, trace: seq<Event>, i: nat)
    requires InOnStartWf(s, trace, i)
    ensures TakingWf(PutBack(s, i), trace + [StartOk(i)])
    ensures StartReturned !in trace + [StartOk(i)]
  {
    OneMoreEvent(trace, StartOk(i));
    hide StopCompleted, StartedFine;
  }

  lemma FinishStartKeeps(c: Config, ok: bool)
    requires Inv(c) && Enabled(c, FinishStart(ok))
    ensures Inv(Step(c, FinishStart(ok)))
  {
    var e := if ok then StartOk(c.driver.i) else StartFailed(c.driver.i);
    OneMoreEvent(c.trace, e);
    OrderKept(c.trace, e);
    if ok {
      PutBackAfterStart(c.state, c.trace, c.driver.i);
    } else {
      PreparedInOnStart(c.state, c.trace, c.driver.i, e);
      PreparedHolds(c.state);
    }
    hide StopCompleted, StartedFine, StartsIncrease, StopsDecrease, StoppingWf, TakingWf, Prepared, PutBack;
  }

  lemma DropStartKeeps(c: Config)
    requires Inv(c) && Enabled(c, DropStart)
    ensures Inv(Step(c, DropStart))
  {
    var e := StartCancelled(c.driver.i);
    PreparedInOnStart(c.state, c.trace, c.driver.i, e);
    OneMoreEvent(c.trace, e);
    OrderKept(c.trace, e);
    hide StopCompleted, StartedFine, StartsIncrease, StopsDecrease, StoppingWf, Prepared;
  }

  lemma BeginUnwindKeeps(c: Config)
    requires Inv(c) && Enabled(c, BeginUnwind)
    ensures Inv(Step(c, BeginUnwind))
  {
    if c.driver.Idle? || c.driver.StartedUp? {
      PreparedFromStart(c.state, c.trace);
    } else {
      PreparedAgain(c.state, c.trace);
    }
    OneMoreEvent(c.trace, PassBegan);
    OrderKept(c.trace, PassBegan);
    PreparedHolds(c.state);
    hide StopCompleted, StartedFine, StartsIncrease, StopsDecrease, StoppingWf, IdleWf, StartedUpWf;
  }

  lemma BeginStopKeeps(c: Config)
    requires Inv(c) && Enabled(c, BeginStop)
    ensures Inv(Step(c, BeginStop))
  {
    OneMoreEvent(c.trace, PassBegan);
    OrderKept(c.trace, PassBegan);
    hide StopCompleted, StartedFine, StartsIncrease, StopsDecrease;
  }

  /** Looking for the next OnStop keeps only what lies below it. */
  lemma TookStopHolds(s: State)
    requires s.started <= |s.hooks|
    ensures |TookStop(s).hooks| == |s.hooks|
    ensures forall j: nat :: j < |s.hooks| ==>
              && TookStop(s).hooks[j].hook == s.hooks[j].hook
              && (TookStop(s).hooks[j].held <==> s.hooks[j].held && !(TookStop(s).started <= j < s.started))
    ensures forall j: nat :: TookStop(s).started < j < s.started ==> !Stoppable(s.hooks[j])
  {
  }

  lemma TakingLastStop(s: State, trace: seq<Event>)
    requires StoppingWf(s, trace) && NextStop(s.hooks, s.started) == 0
    ensures StoppingWf(TookStop(s), trace) && TookStop(s).started == 0 && NothingHeld(TookStop(s).hooks)
  {
    TookStopHolds(s);
    var s' := TookStop(s);
    assert s'.phase == s.phase && s'.started == 0;
    hide StopCompleted, StartedFine, TookStop;
  }

  lemma TakingNextStop(s: State, trace: seq<Event>)
    requires StoppingWf(s, trace) && NextStop(s.hooks, s.started) > 0
    ensures TookStop(s).started < s.started
    ensures InOnStopWf(TookStop(s), trace + [StopBegan(TookStop(s).started)], TookStop(s).started)
  {
    TookStopHolds(s);
    var s' := TookStop(s);
    var i := s'.started;
    assert s'.phase == s.phase && i < s.started && Stoppable(s.hooks[i]);
    OneMoreEvent(trace, StopBegan(i));
    hide StopCompleted, StartedFine, TookStop, NextStop;
  }

  lemma PassSpent(s: State, trace: seq<Event>)
    requires StoppingWf(s, trace) && s.started == 0
    ensures NothingHeld(s.hooks)
  {
  }

  lemma TakeStopKeeps(c: Config)
    requires Inv(c) && Enabled(c, TakeStop)
    ensures Inv(Step(c, TakeStop))
  {
    hide StopCompleted, StartedFine, StartsIncrease, StopsDecrease, StoppingWf, InOnStopWf, NothingHeld, TookStop, NextStop;
    var s' := TookStop(c.state);
    TookStopHolds(c.state);
    if c.driver.left == Some(0) {
      PassSpent(c.state, c.trace);
    } else if NextStop(c.state.hooks, c.state.started) == 0 {
      TakingLastStop(c.state, c.trace);
    } else {
      TakingNextStop(c.state, c.trace);
      OneMoreEvent(c.trace, StopBegan(s'.started));
      OrderKept(c.trace, StopBegan(s'.started));
    }
  }

  lemma FinishStopKeeps(c: Config, failed: bool)
    requires Inv(c) && Enabled(c, FinishStop(failed))
    ensures Inv(Step(c, FinishStop(failed)))
  {
    var e := StopDone(c.driver.i, failed);
    OneMoreEvent(c.trace, e);
    OrderKept(c.trace, e);
    hide StopCompleted, StartedFine, StartsIncrease, StopsDecrease;
  }

  /** A dropped OnStop is written back, to be tried again. */
  lemma WrittenBack(s: State, trace: seq<Event>, i: nat)
    requires InOnStopWf(s, trace, i)
    ensures StoppingWf(PutBack(s, i), trace + [StopCancelled(i)])
  {
    OneMoreEvent(trace, StopCancelled(i));
    hide StopCompleted, StartedFine;
  }

  lemma DropStopKeeps(c: Config)
    requires Inv(c) && Enabled(c, DropStop)
    ensures Inv(Step(c, DropStop))
  {
    var e := StopCancelled(c.driver.i);
    WrittenBack(c.state, c.trace, c.driver.i);
    OneMoreEvent(c.trace, e);
    OrderKept(c.trace, e);
    hide StopCompleted, StartedFine, StartsIncrease, StopsDecrease, StoppingWf;
  }

  lemma StepKeepsInv(c: Config, l: Label)
    requires Inv(c) && Enabled(c, l)
    ensures Inv(Step(c, l))
  {
    hide Inv;
    match l {
      case Append(h) => AppendKeeps(c, h);
      case BeginStart => BeginStartKeeps(c);
      case TakeStart => TakeStartKeeps(c);
      case FinishStart(ok) => FinishStartKeeps(c, ok);
      case DropStart => DropStartKeeps(c);
      case BeginUnwind => BeginUnwindKeeps(c);
      case BeginStop => BeginStopKeeps(c);
      case TakeStop => TakeStopKeeps(c);
      case FinishStop(failed) => FinishStopKeeps(c, failed);
      case DropStop => DropStopKeeps(c);
    }
  }

  lemma LastStep(labels: seq<Label>)
    requires Runs(labels) && labels != []
    ensures var before, l := labels[..|labels|-1], labels[|labels|-1];
            Runs(before) && Enabled(After(before), l) && After(labels) == Step(After(before), l)
  {
  }

  lemma {:induction false} RunKeepsInv(labels: seq<Label>)
    requires Runs(labels)
    ensures Inv(After(labels))
  {
    if labels != [] {
      RunKeepsInv(labels[..|labels|-1]);
      StepKeepsInv(After(labels[..|labels|-1]), labels[|labels|-1]);
    }
  }

  /** One more step makes a longer run. */
  lemma Extended(labels: seq<Label>, c: Config, l: Label, c': Config)
    requires Runs(labels) && After(labels) == c && Enabled(c, l) && Step(c, l) == c'
    ensures Runs(labels + [l]) && After(labels + [l]) == c'
    ensures Passes(labels + [l]) == Passes(labels) + (if l.BeginUnwind? || l.BeginStop? then 1 else 0)
  {
    assert (labels + [l])[..|labels|] == labels;
  }

  /** What a driver method needs of the invariant: the cursor is on the list, and a hook at work is on it. */
  lemma InBounds(c: Config)
    requires Inv(c)
    ensures c.state.started <= |c.state.hooks|
    ensures c.driver.InOnStart? || c.driver.InOnStop? ==> c.driver.i == c.state.started < |c.state.hooks|
    ensures c.driver.Taking? ==> c.state.phase.Starting?
    ensures c.driver.InOnStop? || c.driver.InPass? ==> !Accepts(c.state)
  {
  }
}
