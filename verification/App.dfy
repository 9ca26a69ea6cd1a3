/** Whole runs of an application: build, start, wait, stop (`src/app.rs`). */
module App {
  import opened Types
  import opened Errors
  import opened Timeouts
  import opened Machine
  import opened LifecycleRuns
  import opened LifecycleGuarantees
  import opened Lifecycles
  import opened ModuleTree
  import opened Preparation
  import opened Resolution
  import opened Validation
  import Build
  import Invoke

  /** The flags behind a shutdown handle; how waiters are woken is left out. */
  class Shutdowner {
    var requested: bool
    var fromFailure: bool

    constructor ()
      ensures !requested && !fromFailure
    {
      requested, fromFailure := false, false;
    }

    method Shutdown()
      modifies this`requested
      ensures requested
    {
      requested := true;
    }

    method Fail()
      modifies this
      ensures requested && fromFailure
    {
      fromFailure := true;
      Shutdown();
    }

    /** At an await anyone may ask for shutdown and a background task may fail. */
    method Others()
      modifies this
      ensures old(requested) ==> requested
      ensures old(fromFailure) ==> fromFailure
    {
      var asks: bool, fails: bool := *, *;
      if asks {
        Shutdown();
      }
      if fails {
        Fail();
      }
    }
  }

  // ---------- combining results ----------

  function FinishRun(phase: Outcome, cleanup: Outcome): Outcome {
    match phase
    case Ok(_) => cleanup
    case Err(e) => Err(WithCleanup(e, cleanup))
  }

  /** A requested shutdown is graceful; one that stems from a failed task is not. */
  function FinishInterrupt(isFailure: bool, cleanup: Outcome): Outcome {
    if isFailure then
      match cleanup
      case Ok(_) => Err(TaskFailedDuringStart)
      case Err(e) =>
        if e.UnwindTimeout? || e.StopTimeout? then Err(WithCleanup(TaskFailedDuringStart, Err(e)))
        else Err(e)
    else cleanup
  }

  /** The hooks whose failures are found in an error, in the order they are listed. */
  function HooksIn(e: Error): seq<nat>
    decreases e, 0
  {
    match e
    case Hook(name, _) => [name]
    case MultipleStop(errors) => HooksInAll(errors)
    case CleanupAfterFailure(cleanup, earlier) => HooksIn(cleanup) + HooksIn(earlier)
    case _ => []
  }

  function HooksInAll(errors: seq<Error>): seq<nat>
    decreases errors, 1, |errors|
  {
    if errors == [] then [] else HooksIn(errors[0]) + HooksInAll(errors[1..])
  }

  lemma {:induction false} HooksInAllAreNames(errors: seq<Error>)
    requires FromHooks(errors)
    ensures HooksInAll(errors) == HookNames(errors)
  {
    if errors != [] {
      assert errors[0] in errors;
      assert forall e :: e in errors[1..] ==> e in errors;
      HooksInAllAreNames(errors[1..]);
      assert HookNames(errors) == [errors[0].name] + HookNames(errors[1..]);
    }
  }

  /** Aggregation loses no failure, adds none and keeps their order. */
  lemma AggregateReportsAll(errors: seq<Error>)
    requires FromHooks(errors)
    ensures AggregateErrors(errors).Ok? <==> errors == []
    ensures |errors| == 1 ==> AggregateErrors(errors) == Err(errors[0])
    ensures |errors| > 1 ==> AggregateErrors(errors) == Err(MultipleStop(errors))
    ensures AggregateErrors(errors).Err? ==> HooksIn(AggregateErrors(errors).error) == HookNames(errors)
  {
    HooksInAllAreNames(errors);
    if |errors| == 1 {
      assert errors[0] in errors;
      assert HookNames(errors) == [errors[0].name];
    }
  }

  /** Which phase errors there are: user code failed or took too long. */
  predicate IsUserError(e: Error) {
    e.ConstructorFailed? || e.InvokerFailed? || e.Hook? || e == BuildTimeout || e == StartTimeout
  }

  // ---------- the pass at the end ----------

  datatype Budgets = Budgets(build: Option<nat>, start: Option<nat>, stop: Option<nat>)

  /**
   * How a stop or unwind pass has gone: what it returns lists the failures in stop order, unless
   * it expired. `late` says whether a pass that ends does so only after its budget.
   */
  ghost predicate PassEnded(c: Config, budget: Option<nat>, late: bool, pass: Ending) {
    && (pass.Expired? ==> budget.Some? && c.driver.PassDropped?)
    && (pass.Finished? ==>
          && c.driver.PassOver? && (pass.late <==> budget.Some? && late)
          && (pass.result.Ok? <==> c.errors == [])
          && (pass.result.Err? ==> HooksIn(pass.result.error) == c.errors)
          && (|c.errors| == 1 ==> pass.result.Err? && pass.result.error.Hook? && pass.result.error.name == c.errors[0])
          && (|c.errors| > 1 ==> pass.result.Err? && pass.result.error.MultipleStop?))
  }

  lemma PassOverEnds(c: Config, budget: Option<nat>, errors: seq<Error>, late: bool)
    requires c.driver.PassOver? && FromHooks(errors) && HookNames(errors) == c.errors
    ensures PassEnded(c, budget, late, Finished(AggregateErrors(errors), budget.Some? && late))
  {
    AggregateReportsAll(errors);
    assert |c.errors| == |errors|;
  }

  /** Every hook due was stopped without failing, and in time. */
  predicate Clean(pass: Ending) {
    pass.Finished? && pass.result.Ok? && !pass.late
  }

  /** What was wrong with a pass: the hooks' failures if it ended with some, else that it took too long. */
  function Trouble(pass: Ending, timeout: Error): Error {
    if pass.Finished? && pass.result.Err? then pass.result.error else timeout
  }

  /** What a pass comes to: nothing if it was clean, else its trouble. */
  function Comes(pass: Ending, timeout: Error): Outcome {
    if Clean(pass) then DONE else Err(Trouble(pass, timeout))
  }

  /** Every OnStop failure of the pass is found in the result, exactly if the pass was not cut off by its budget. */
  ghost predicate Retained(c: Config, pass: Ending, r: Outcome) {
    forall i: nat :: i in c.errors ==> r.Err? && (i in HooksIn(r.error) <==> pass.Finished?)
  }

  /** Whether every OnStop failure of the pass can be found in `r`. */
  ghost predicate Retains(c: Config, r: Outcome) {
    forall i: nat :: i in c.errors ==> r.Err? && i in HooksIn(r.error)
  }

  /** A phase error names no hook, or one whose OnStart failed. */
  predicate NamesBrokenStart(e: Error, trace: seq<Event>) {
    IsUserError(e) && (e.Hook? ==> StartFailed(e.name) in trace)
  }

  /** A hook whose OnStart failed is not among those whose OnStop failed. */
  lemma BrokenIsNotStopped(labels: seq<Label>, i: nat, j: nat)
    requires Runs(labels) && Passes(labels) <= 1
    requires StartFailed(i) in After(labels).trace && j in After(labels).errors
    ensures i != j
  {
    OnePassReportsAll(labels);
    FailuresAreStops(After(labels).trace, j);
    if StopCompleted(After(labels).trace, i) {
      OnlyDueHooksStop(labels, i);
    }
  }

  lemma {:induction false} FailuresAreStops(trace: seq<Event>, j: nat)
    ensures j in Failures(trace) <==> StopDone(j, true) in trace
  {
    if trace != [] {
      FailuresAreStops(trace[..|trace|-1], j);
      assert trace == trace[..|trace|-1] + [trace[|trace|-1]];
    }
  }

  lemma PhaseErrorRetains(labels: seq<Label>, budget: Option<nat>, late: bool, pass: Ending, e: Error)
    requires Runs(labels) && Passes(labels) == 1 && PassEnded(After(labels), budget, late, pass)
    requires NamesBrokenStart(e, After(labels).trace)
    ensures Retained(After(labels), pass, FinishRun(Err(e), Comes(pass, UnwindTimeout)))
  {
    var c := After(labels);
    forall i: nat | i in c.errors
      ensures i !in HooksIn(e)
    {
      if e.Hook? {
        BrokenIsNotStopped(labels, e.name, i);
      }
    }
  }

  /**
   * The failure of an OnStop can be lost: a pass in which one has failed expires while another
   * hook is stopping, and what comes out does not tell.
   */
  lemma ExpiredLoses(e: Error) returns (labels: seq<Label>)
    requires IsUserError(e) && (e.Hook? ==> e.name != 1)
    ensures Runs(labels) && Passes(labels) == 1 && 1 in After(labels).errors && StopDone(1, true) in After(labels).trace
    ensures PassEnded(After(labels), Some(0), false, Expired)
    ensures !Retains(After(labels), FinishRun(Err(e), Comes(Expired, UnwindTimeout)))
    ensures !Retains(After(labels), FinishRun(DONE, Comes(Expired, UnwindTimeout)))
  {
    var c;
    labels, c := DroppedAfterAFailure();
    assert HooksIn(UnwindTimeout) == [] && 1 !in HooksIn(e);
    assert 1 in c.errors;
  }

  /** `unwind_lifecycle`. */
  method UnwindLifecycle(lifecycle: Lifecycle, budget: Option<nat>, late: bool) returns (cleanup: Outcome, pass: Ending)
    requires lifecycle.Valid() && Enabled(lifecycle.At(), BeginUnwind)
    modifies lifecycle
    ensures lifecycle.Valid() && old(lifecycle.log) <= lifecycle.log && SameBreaks(old(lifecycle.At().trace), lifecycle.At().trace)
    ensures Passes(lifecycle.log) == old(Passes(lifecycle.log)) + 1
    ensures PassEnded(lifecycle.At(), budget, late, pass) && cleanup == Comes(pass, UnwindTimeout)
  {
    var ended, errors := lifecycle.Unwind(budget.Some?);
    match ended {
      case Returned(result) =>
        pass := Finished(result, budget.Some? && late);
        PassOverEnds(lifecycle.At(), budget, errors, late);
      case Dropped =>
        pass := Expired;
    }
    cleanup := WithTimeout(budget, pass, UnwindTimeout);
  }

  /** `BuiltApp::stop`. */
  method StopApp(lifecycle: Lifecycle, budget: Option<nat>, late: bool) returns (r: Outcome, pass: Ending)
    requires lifecycle.Valid() && lifecycle.At().driver.StartedUp?
    modifies lifecycle
    ensures lifecycle.Valid() && old(lifecycle.log) <= lifecycle.log && SameBreaks(old(lifecycle.At().trace), lifecycle.At().trace)
    ensures Passes(lifecycle.log) == old(Passes(lifecycle.log)) + 1
    ensures PassEnded(lifecycle.At(), budget, late, pass) && r == Comes(pass, StopTimeout)
  {
    var ended, errors := lifecycle.Stop(budget.Some?);
    match ended {
      case Returned(result) =>
        pass := Finished(result, budget.Some? && late);
        PassOverEnds(lifecycle.At(), budget, errors, late);
      case Dropped =>
        pass := Expired;
    }
    r := WithTimeout(budget, pass, StopTimeout);
  }

  // ---------- starting ----------

  /**
   * What the OnStarts have done decides how start ends: one that failed comes out as it is; one
   * that was dropped is a timeout, or nothing when something else dropped it; otherwise all went
   * well, though perhaps too late.
   */
  ghost predicate StartEnded(trace: seq<Event>, budget: Option<nat>, fate: Fate, r: Option<Outcome>) {
    match r
    case None => !fate.cause.Timer? && exists i: nat :: OnlyDropped(trace, i)
    case Some(Ok(_)) => AllStarted(trace) && !(budget.Some? && fate.late)
    case Some(Err(e)) =>
      if e.StartTimeout? then
        budget.Some? && ((fate.late && AllStarted(trace)) || (fate.cause.Timer? && exists i: nat :: OnlyDropped(trace, i)))
      else e.Hook? && OnlyFailed(trace, e.name)
  }

  ghost predicate AllStarted(trace: seq<Event>) {
    NoneBroke(trace) && StartReturned in trace
  }

  lemma SameStart(t: seq<Event>, t': seq<Event>, budget: Option<nat>, fate: Fate, r: Option<Outcome>)
    requires StartEnded(t, budget, fate, r) && SameBreaks(t, t')
    ensures StartEnded(t', budget, fate, r)
  {
    assert forall i: nat :: OnlyDropped(t, i) ==> OnlyDropped(t', i);
    assert NoneBroke(t) ==> NoneBroke(t') by {
      assert forall i: nat :: StartBroke(t', i) ==> StartBroke(t, i);
    }
  }

  /** `start_hooks`; nothing is returned when something other than its timer has dropped it. */
  method StartHooks(lifecycle: Lifecycle, budget: Option<nat>, patience: nat, fate: Fate) returns (r: Option<Outcome>)
    requires lifecycle.Valid() && lifecycle.At().driver.Idle?
    modifies lifecycle
    ensures lifecycle.Valid() && old(lifecycle.log) <= lifecycle.log && Passes(lifecycle.log) == old(Passes(lifecycle.log))
    ensures StartEnded(lifecycle.At().trace, budget, fate, r)
    ensures lifecycle.At().driver.StartBroken? || lifecycle.At().driver.StartedUp?
    ensures r.Some? && r.value.Ok? ==> lifecycle.At().driver.StartedUp?
    ensures r.None? ==> fate.patience.Some?
    ensures r.Some? && r.value.Err? ==> NamesBrokenStart(r.value.error, lifecycle.At().trace)
  {
    var ended := lifecycle.Start(patience, PatienceOf(budget, fate).Some?);
    match ended {
      case Returned(result) =>
        r := Some(WithTimeout(budget, Finished(result, fate.late), StartTimeout));
      case Dropped =>
        r := if fate.cause.Timer? then Some(WithTimeout(budget, Expired, StartTimeout)) else None;
    }
  }

  // ---------- a run ----------

  /** All that a run depends on besides its options, budgets and hooks. */
  datatype World = World(user: UserCode, signalsFail: Option<nat>, graphFails: Option<nat>, build: Fate, start: Fate, stopsLate: bool)

  /** How a run left its last phase before the final pass. */
  datatype Left =
    | Rejected(error: Error)      // before anything was built
    | PhaseFailed(error: Error)   // build or start failed
    | Interrupted                 // a shutdown request during build or start
    | Signalled                   // an OS signal during build or start
    | Served                      // started up, then told to stop

  datatype Story = Story(left: Left, pass: Ending)

  /** After a run that got past preparation there has been one pass, and nothing can be appended any more. */
  ghost predicate PassedOnce(lifecycle: Lifecycle, budget: Option<nat>, late: bool, pass: Ending)
    reads lifecycle
  {
    lifecycle.Valid() && Passes(lifecycle.log) == 1 && PassEnded(lifecycle.At(), budget, late, pass)
  }

  /** What a run returns for how it went. */
  ghost predicate Reports(story: Story, isFailure: bool, r: Outcome) {
    var pass := story.pass;
    && (r.Ok? <==>
          !story.left.Rejected? && !story.left.PhaseFailed? && !(story.left.Interrupted? && isFailure) && Clean(pass))
    && match story.left
       case Rejected(e) => r == Err(e)
       case PhaseFailed(e) => r == Err(if Clean(pass) then e else CleanupAfterFailure(Trouble(pass, UnwindTimeout), e))
       case Interrupted =>
         if !isFailure then r == Comes(pass, UnwindTimeout)
         else if Clean(pass) then r == Err(TaskFailedDuringStart)
         else if pass.Finished? && pass.result.Err? then r == pass.result
         else r == Err(CleanupAfterFailure(UnwindTimeout, TaskFailedDuringStart))
       case Signalled => r == Comes(pass, UnwindTimeout)
       case Served => r == Comes(pass, StopTimeout)
  }

  /** How a run is left whose phase was dropped, but not by its timer. */
  function LeftFor(cause: Cause): Left {
    if cause.Request? then Left.Interrupted else Signalled
  }

  /** How a run is left that got as far as its start, given what start has come to. */
  predicate LeavesStart(left: Left, cause: Cause, started: Option<Outcome>) {
    match started
    case None => left == LeftFor(cause)
    case Some(Ok(_)) => left.Served?
    case Some(Err(e)) => left == PhaseFailed(e)
  }

  /** How a run is left by what its start came to, as the OnStarts tell. */
  ghost predicate LeftByStart(trace: seq<Event>, budget: Option<nat>, fate: Fate, left: Left) {
    exists started :: StartEnded(trace, budget, fate, started) && LeavesStart(left, fate.cause, started)
  }

  /** No run that a failed OnStart has ended is left as if it had not. */
  lemma FailedStartShows(trace: seq<Event>, budget: Option<nat>, fate: Fate, left: Left, i: nat)
    requires LeftByStart(trace, budget, fate, left)
    ensures StartFailed(i) in trace <==> left.PhaseFailed? && left.error.Hook? && left.error.name == i
  {
    assert StartBroke(trace, i) <== StartFailed(i) in trace;
  }

  /** Where a run that came past preparation was left is decided by what user code, hooks and timers did. */
  ghost predicate LeftBy(state: BuildState, trace: seq<Event>, budgets: Budgets, world: World, left: Left, built: Build.Run)
    reads state, state.container, state.container.scopes
  {
    && Invoke.BuildEnded(state.container, state.invokers, budgets.build, world.build, built)
    && match built
       case Failed(e) => left == PhaseFailed(e) && NoneBroke(trace)
       case Cancelled => left == LeftFor(world.build.cause) && NoneBroke(trace)
       case Completed => LeftByStart(trace, budgets.start, world.start, left)
  }

  /** A run is left with a constructor's or invoker's error exactly if user code has answered with it. */
  lemma BuildFailureShows(state: BuildState, trace: seq<Event>, budgets: Budgets, world: World, left: Left, built: Build.Run, e: Error)
    requires LeftBy(state, trace, budgets, world, left, built) && (e.ConstructorFailed? || e.InvokerFailed?)
    ensures left == PhaseFailed(e) <==> exists a :: a in state.container.answers && !a.ok && ErrorOf(a) == e
  {
    hide Build.Truthful, Invoke.AllWell, Invoke.Stopped, Invoke.ThroughInTime, NoneBroke;
    var answers := state.container.answers;
    if built.Failed? && !built.error.BuildTimeout? {
      var n := |answers| - 1;
      assert answers == answers[..n] + [answers[n]];
      assert answers[n] in answers && ErrorOf(answers[n]) == built.error;
    }
  }

  /** A run that returns `Ok` has had no failing answer. */
  lemma NoFailedAnswer(state: BuildState, trace: seq<Event>, budgets: Budgets, world: World, left: Left, built: Build.Run)
    requires LeftBy(state, trace, budgets, world, left, built) && !left.PhaseFailed?
    ensures Build.NoFailure(state.container.answers)
  {
    hide Build.Truthful, Invoke.AllWell, Invoke.Stopped, Invoke.ThroughInTime, NoneBroke, Build.NoFailure, Build.Shows;
  }

  /** Why a run was rejected: the signal handlers come first, the graph file last. */
  ghost predicate RejectedBy(options: seq<ModOption>, signalsFail: Option<nat>, graphFails: Option<nat>, left: Left) {
    if signalsFail.Some? then left == Rejected(Io(signalsFail.value))
    else if !Buildable(options) then left.Rejected? && Unbuildable(options, left.error)
    else if graphFails.Some? then left == Rejected(Io(graphFails.value))
    else !left.Rejected?
  }

  /** `into_build_state`: preparation, then the graph file if one is asked for. */
  method IntoBuildState(options: seq<ModOption>, user: UserCode, graphFails: Option<nat>) returns (r: Outcome, state: BuildState)
    ensures fresh(state) && fresh(state.container) && fresh(state.container.scopes) && state.container.user == user
    ensures r.Ok? ==> Invoke.JustValidated(state.container, state.invokers)
    ensures RejectedBy(options, None, graphFails, if r.Ok? then Served else Rejected(r.error))
    ensures r.Ok? ==> forall e :: MembersAt(state.container.W(), e) == MembersInAll(options, e, ROOT, 1)
  {
    hide Buildable, Unbuildable, Invoke.JustValidated, MembersAt, MembersInAll;
    r, state := Prepare(options, user);
    if r.Ok? && graphFails.Some? {
      r := Err(Io(graphFails.value));
    }
  }

  /**
   * Each provider some invoker needs has been constructed, once, and no other; each invoker has
   * been handed what its dependencies stand for.
   */
  ghost predicate BuiltAsNeeded(state: BuildState, handed: seq<seq<Term>>)
    reads state, state.container, state.container.scopes
  {
    var c := state.container;
    && KeysWf(c.W()) && InvokersBound(c.W(), c.supplied, state.invokers) && NoDup(c.constructed)
    && (forall k :: k in c.constructed <==> Invoke.Needed(c.W(), c.supplied, state.invokers, k))
    && Invoke.Handed(c.W(), c.supplied, state.invokers, handed)
  }

  /** A build completes exactly if nothing that is needed fails and all of it fits into the time there is. */
  ghost predicate BuildDecided(state: BuildState, budget: Option<nat>, fate: Fate, built: Build.Run)
    reads state, state.container, state.container.scopes
  {
    var c := state.container;
    && KeysWf(c.W()) && InvokersBound(c.W(), c.supplied, state.invokers)
    && (built.Completed? <==>
          && Invoke.NothingFails(c.W(), c.supplied, c.user, state.invokers)
          && Invoke.ThroughInTime(c.W(), c.supplied, c.user, c.layers, state.invokers, budget, fate)
          && !(budget.Some? && fate.late))
  }

  /** A build: the invokers run, and may append hooks. */
  method RunBuild(state: BuildState, lifecycle: Lifecycle, budget: Option<nat>, fate: Fate)
    returns (built: Build.Run, handed: seq<seq<Term>>)
    requires Invoke.JustValidated(state.container, state.invokers) && lifecycle.Valid() && lifecycle.At().driver.Idle?
    modifies state.container, lifecycle
    ensures lifecycle.Valid() && old(lifecycle.log) <= lifecycle.log && Passes(lifecycle.log) == old(Passes(lifecycle.log))
    ensures lifecycle.At().driver.Idle? && NoneBroke(lifecycle.At().trace)
    ensures state.container.W() == old(state.container.W())
    ensures Invoke.BuildEnded(state.container, state.invokers, budget, fate, built)
    ensures BuildDecided(state, budget, fate, built)
    ensures built.Completed? ==> BuiltAsNeeded(state, handed)
    ensures built.Failed? ==> built.error.ConstructorFailed? || built.error.InvokerFailed? || built.error.BuildTimeout?
  {
    hide Invoke.JustValidated, InvokersBound, KeysWf, Invoke.Needed, NoDup, Invoke.Handed, Build.Truthful, Build.NoFailure,
      Invoke.NothingFails, Invoke.ThroughInTime, Invoke.Stopped;
    built, handed := Invoke.RunInvokers(state.container, state.invokers, budget, fate);
    if built.Failed? && !built.error.BuildTimeout? {
      Invoke.NotATimeout(state.container, state.invokers, PatienceOf(budget, fate), built.error);
    }
    lifecycle.Others();
    RunIsFair(lifecycle.log);
  }

  /** A phase that was dropped, but not by its timer: a shutdown request is looked at before a signal. */
  method Interrupted(lifecycle: Lifecycle, shutdown: Shutdowner, budget: Option<nat>, late: bool, cause: Cause)
    returns (r: Outcome, story: Story)
    requires lifecycle.Valid() && Enabled(lifecycle.At(), BeginUnwind) && Passes(lifecycle.log) == 0
    modifies lifecycle, shutdown
    ensures PassedOnce(lifecycle, budget, late, story.pass) && Reports(story, shutdown.fromFailure, r)
    ensures SameBreaks(old(lifecycle.At().trace), lifecycle.At().trace)
    ensures Retained(lifecycle.At(), story.pass, r)
    ensures story.left == if cause.Request? || old(shutdown.requested) then Left.Interrupted else Signalled
    ensures cause == Request(true) ==> shutdown.fromFailure
  {
    match cause {
      case Request(byFailure) =>
        if byFailure {
          shutdown.Fail();
        } else {
          shutdown.Shutdown();
        }
      case _ =>
    }
    if shutdown.requested {
      var cleanup, pass := UnwindLifecycle(lifecycle, budget, late);
      shutdown.Others();
      r, story := FinishInterrupt(shutdown.fromFailure, cleanup), Story(Left.Interrupted, pass);
    } else {
      shutdown.Shutdown();
      var cleanup, pass := UnwindLifecycle(lifecycle, budget, late);
      shutdown.Others();
      r, story := FinishRun(DONE, cleanup), Story(Signalled, pass);
    }
  }

  /** A phase that failed: unwind and keep its error. */
  method Unwound(lifecycle: Lifecycle, budget: Option<nat>, late: bool, e: Error) returns (cleanup: Outcome, pass: Ending)
    requires lifecycle.Valid() && Enabled(lifecycle.At(), BeginUnwind) && Passes(lifecycle.log) == 0
    requires NamesBrokenStart(e, lifecycle.At().trace)
    modifies lifecycle
    ensures PassedOnce(lifecycle, budget, late, pass) && cleanup == Comes(pass, UnwindTimeout)
    ensures SameBreaks(old(lifecycle.At().trace), lifecycle.At().trace)
    ensures Retained(lifecycle.At(), pass, FinishRun(Err(e), cleanup))
  {
    ghost var before := lifecycle.log;
    cleanup, pass := UnwindLifecycle(lifecycle, budget, late);
    assert lifecycle.log[..|before|] == before;
    HistoryGrows(lifecycle.log, |before|);
    PhaseErrorRetains(lifecycle.log, budget, late, pass, e);
  }

  /** Every hook of the application has started well, if it had to, and has stopped, if it had to. */
  ghost predicate AllServed(c: Config) {
    forall i: nat :: i < |c.state.hooks| ==>
      && (c.state.hooks[i].hook.hasStart ==> StartedFine(c.trace, i))
      && (c.state.hooks[i].hook.hasStop ==> StopCompleted(c.trace, i))
  }

  lemma ServedAll(labels: seq<Label>, k: nat)
    requires Runs(labels) && k <= |labels| && After(labels).driver.PassOver?
    requires Runs(labels[..k]) && After(labels[..k]).driver.StartedUp?
    ensures AllServed(After(labels))
  {
    RunKeepsInv(labels[..k]);
    RunKeepsInv(labels);
    HistoryGrows(labels, k);
    var c := After(labels);
    forall i: nat | i < |c.state.hooks|
      ensures c.state.hooks[i].hook.hasStart ==> StartedFine(c.trace, i)
      ensures c.state.hooks[i].hook.hasStop ==> StopCompleted(c.trace, i)
    {
      StoppedExactly(labels, i);
    }
  }

  /** The rest of `run` after the build: start the hooks, wait, stop. */
  method Serve(lifecycle: Lifecycle, shutdown: Shutdowner, budgets: Budgets, world: World, patience: nat) returns (r: Outcome, story: Story)
    requires lifecycle.Valid() && lifecycle.At().driver.Idle? && Passes(lifecycle.log) == 0 && !shutdown.requested
    modifies lifecycle, shutdown
    ensures Reports(story, shutdown.fromFailure, r)
    ensures PassedOnce(lifecycle, budgets.stop, world.stopsLate, story.pass) && Retained(lifecycle.At(), story.pass, r)
    ensures LeftByStart(lifecycle.At().trace, budgets.start, world.start, story.left) && !story.left.Rejected?
    ensures story.left.PhaseFailed? ==> IsUserError(story.left.error)
    ensures story.left.Served? && story.pass.Finished? ==> AllServed(lifecycle.At())
  {
    hide Runs, After, Passes, AllServed, StartEnded, SameBreaks, NoneBroke, PassEnded, Retained;
    var started := StartHooks(lifecycle, budgets.start, patience, world.start);
    ghost var up, trace := lifecycle.log, lifecycle.At().trace;
    var pass;
    match started {
      case None =>
        r, story := Interrupted(lifecycle, shutdown, budgets.stop, world.stopsLate, world.start.cause);
      case Some(Err(e)) =>
        var cleanup;
        cleanup, pass := Unwound(lifecycle, budgets.stop, world.stopsLate, e);
        r, story := FinishRun(started.value, cleanup), Story(PhaseFailed(e), pass);
      case Some(Ok(_)) =>
        shutdown.Others();
        if !shutdown.requested {
          shutdown.Shutdown();
        }
        r, pass := StopApp(lifecycle, budgets.stop, world.stopsLate);
        story := Story(Served, pass);
        Stopped(lifecycle, up, budgets.stop, world.stopsLate, pass, r);
    }
    SameStart(trace, lifecycle.At().trace, budgets.start, world.start, started);
  }

  lemma Stopped(lifecycle: Lifecycle, up: seq<Label>, budget: Option<nat>, late: bool, pass: Ending, r: Outcome)
    requires lifecycle.Valid() && up <= lifecycle.log && Runs(up) && After(up).driver.StartedUp?
    requires PassEnded(lifecycle.At(), budget, late, pass) && r == Comes(pass, StopTimeout)
    ensures pass.Finished? ==> AllServed(lifecycle.At())
    ensures Retained(lifecycle.At(), pass, r)
  {
    if pass.Finished? {
      assert lifecycle.log[..|up|] == up;
      ServedAll(lifecycle.log, |up|);
    }
  }

  /**
   * `run`. Unless preparation is rejected there is exactly one pass of OnStops. What user code,
   * hooks and timers did decides how the run was left, and so what it returns: `Ok` means that
   * no constructor, invoker or OnStart failed, no failed task interrupted a phase, and the pass
   * was clean and in time. OnStop failures are all in the result unless the pass was cut off. A
   * run that served has built exactly what its invokers need and handed it to them, and if it
   * stopped in time, started and stopped every hook.
   */
  method Run(options: seq<ModOption>, budgets: Budgets, world: World, patience: nat)
    returns (r: Outcome, story: Story, built: Build.Run, handed: seq<seq<Term>>, state: BuildState, lifecycle: Lifecycle,
             shutdown: Shutdowner)
    ensures state.container.user == world.user
    ensures Reports(story, shutdown.fromFailure, r)
    ensures RejectedBy(options, world.signalsFail, world.graphFails, story.left)
    ensures lifecycle.Valid() && (story.left.Rejected? ==> lifecycle.log == [])
    ensures !story.left.Rejected? ==>
              && PassedOnce(lifecycle, budgets.stop, world.stopsLate, story.pass) && Retained(lifecycle.At(), story.pass, r)
              && LeftBy(state, lifecycle.At().trace, budgets, world, story.left, built)
    ensures !story.left.Rejected? ==> BuildDecided(state, budgets.build, world.build, built)
    ensures !story.left.Rejected? && built.Completed? ==> BuiltAsNeeded(state, handed)
    ensures !story.left.Rejected? ==> forall e :: MembersAt(state.container.W(), e) == MembersInAll(options, e, ROOT, 1)
    ensures story.left.PhaseFailed? ==> IsUserError(story.left.error)
    ensures story.left.Served? && story.pass.Finished? ==> AllServed(lifecycle.At())
    ensures r.Ok? ==> Build.NoFailure(state.container.answers) && forall i: nat :: StartFailed(i) !in lifecycle.At().trace
  {
    hide Runs, After, Invoke.JustValidated, MembersAt, MembersInAll, PassEnded, Retained, AllServed, Buildable, Unbuildable, BuiltAsNeeded, BuildDecided,
      StartEnded, SameBreaks, NoneBroke, Invoke.BuildEnded, LeftByStart, Passes, Build.NoFailure;
    shutdown := new Shutdowner();
    lifecycle := new Lifecycle();
    built, handed := Build.Cancelled, [];
    if world.signalsFail.Some? {
      state := new BuildState(world.user);
      r := Err(Io(world.signalsFail.value));
      story := Story(Rejected(r.error), Expired);
      return;
    }
    var prepared;
    prepared, state := IntoBuildState(options, world.user, world.graphFails);
    if prepared.Err? {
      r, story := prepared, Story(Rejected(prepared.error), Expired);
      return;
    }
    built, handed := RunBuild(state, lifecycle, budgets.build, world.build);
    ghost var trace := lifecycle.At().trace;
    match built {
      case Failed(e) =>
        var cleanup, pass := Unwound(lifecycle, budgets.stop, world.stopsLate, e);
        r, story := FinishRun(Err(e), cleanup), Story(PhaseFailed(e), pass);
        StillNoneBroke(trace, lifecycle.At().trace);
      case Cancelled =>
        r, story := Interrupted(lifecycle, shutdown, budgets.stop, world.stopsLate, world.build.cause);
        StillNoneBroke(trace, lifecycle.At().trace);
      case Completed =>
        r, story := Serve(lifecycle, shutdown, budgets, world, patience);
        if r.Ok? {
          NoFailedStart(lifecycle.At().trace, budgets.start, world.start, story.left);
        }
    }
    if r.Ok? {
      NoFailedAnswer(state, lifecycle.At().trace, budgets, world, story.left, built);
    }
  }

  lemma StillNoneBroke(t: seq<Event>, t': seq<Event>)
    requires NoneBroke(t) && SameBreaks(t, t')
    ensures NoneBroke(t') && forall i: nat :: StartFailed(i) !in t'
  {
    forall i: nat
      ensures !StartBroke(t', i) && StartFailed(i) !in t'
    {
      assert !StartBroke(t, i);
    }
  }

  lemma NoFailedStart(trace: seq<Event>, budget: Option<nat>, fate: Fate, left: Left)
    requires LeftByStart(trace, budget, fate, left) && !left.PhaseFailed?
    ensures forall i: nat :: StartFailed(i) !in trace
  {
    forall i: nat
      ensures StartFailed(i) !in trace
    {
      FailedStartShows(trace, budget, fate, left, i);
    }
  }

  /**
   * `ModrunBuilder::start`, with nothing to wait for: it either leaves an application that is up
   * and unstopped, or has unwound it and keeps the error. No result when its caller dropped it.
   */
  method StartOnly(options: seq<ModOption>, budgets: Budgets, world: World, patience: nat)
    returns (r: Option<Outcome>, story: Story, built: Build.Run, handed: seq<seq<Term>>, state: BuildState, lifecycle: Lifecycle)
    ensures lifecycle.Valid() && state.container.user == world.user
    ensures r.Some? ==> RejectedBy(options, None, world.graphFails, story.left) && (story.left.Rejected? ==> lifecycle.log == [])
    ensures r.Some? && !story.left.Rejected? ==>
              && LeftBy(state, lifecycle.At().trace, budgets, world, story.left, built)
              && BuildDecided(state, budgets.build, world.build, built) && (built.Completed? ==> BuiltAsNeeded(state, handed))
    ensures r.Some? && r.value.Ok? ==> story.left.Served? && lifecycle.At().driver.StartedUp? && Passes(lifecycle.log) == 0
    ensures r.Some? && r.value.Err? ==>
              (story.left.Rejected? || story.left.PhaseFailed?) && Reports(story, false, r.value)
    ensures r.Some? && story.left.PhaseFailed? ==>
              && PassedOnce(lifecycle, budgets.stop, world.stopsLate, story.pass) && Retained(lifecycle.At(), story.pass, r.value)
              && IsUserError(story.left.error)
    ensures r.None? ==> (built.Cancelled? && world.build.patience.Some?) || (built.Completed? && world.start.patience.Some?)
  {
    hide Runs, After, Invoke.JustValidated, MembersAt, MembersInAll, PassEnded, Retained, Buildable, Unbuildable, BuiltAsNeeded, BuildDecided,
      StartEnded, SameBreaks, NoneBroke, Passes, Invoke.AllWell, Invoke.Stopped, Invoke.ThroughInTime, Build.Truthful, Build.NoFailure, Build.Shows;
    lifecycle := new Lifecycle();
    built, handed := Build.Cancelled, [];
    var prepared;
    prepared, state := IntoBuildState(options, world.user, world.graphFails);
    if prepared.Err? {
      r, story := Some(prepared), Story(Rejected(prepared.error), Expired);
      return;
    }
    built, handed := RunBuild(state, lifecycle, budgets.build, world.build);
    ghost var trace := lifecycle.At().trace;
    if built.Cancelled? {
      r, story := None, Story(Left.Interrupted, Expired);
      return;
    }
    if built.Failed? {
      var cleanup, pass := Unwound(lifecycle, budgets.stop, world.stopsLate, built.error);
      r, story := Some(Err(WithCleanup(built.error, cleanup))), Story(PhaseFailed(built.error), pass);
      StillNoneBroke(trace, lifecycle.At().trace);
      return;
    }
    var started := StartHooks(lifecycle, budgets.start, patience, world.start);
    trace := lifecycle.At().trace;
    if started.None? {
      r, story := None, Story(Left.Interrupted, Expired);
    } else if started.value.Err? {
      var cleanup, pass := Unwound(lifecycle, budgets.stop, world.stopsLate, started.value.error);
      r, story := Some(CombineResults(started.value, cleanup)), Story(PhaseFailed(started.value.error), pass);
      SameStart(trace, lifecycle.At().trace, budgets.start, world.start, started);
    } else {
      r, story := Some(DONE), Story(Served, Expired);
    }
  }
}
