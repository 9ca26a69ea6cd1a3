/** The promises of the lifecycle, for every run and every interleaving (`src/lifecycle.rs`). */
module LifecycleGuarantees {
  import opened Types
  import opened Machine
  import opened LifecycleRuns

  // ---------- who is stopped ----------

  predicate StartBroke(trace: seq<Event>, i: nat) {
    StartFailed(i) in trace || StartCancelled(i) in trace
  }

  /** OnStop only begins for hooks it is due to, and a broken OnStart is never a finished one. */
  ghost predicate Deserved(hooks: seq<HookEntry>, trace: seq<Event>) {
    && (forall j: nat :: StopBegan(j) in trace ==> j < |hooks| && Eligible(hooks, trace, j))
    && (forall j: nat :: StartBroke(trace, j) ==> j < |hooks| && hooks[j].hook.hasStart && !StartedFine(trace, j))
  }

  ghost predicate NoneBroke(trace: seq<Event>) {
    forall j: nat :: !StartBroke(trace, j)
  }

  ghost predicate Fair(c: Config) {
    && Deserved(c.state.hooks, c.trace)
    && (InStart(c.driver) ==> NoneBroke(c.trace))
  }

  /** Before start, in it, or after one that has returned. */
  predicate InStart(d: Driver) {
    d.Idle? || d.Taking? || d.InOnStart? || d.StartedUp?
  }

  lemma OneMoreBreak(trace: seq<Event>, e: Event)
    ensures forall j: nat :: StartBroke(trace + [e], j) <==> StartBroke(trace, j) || e == StartFailed(j) || e == StartCancelled(j)
  {
  }

  /** The hooks themselves never change, and grow by exactly the accepted appends. */
  function Kinds(hooks: seq<HookEntry>): (r: seq<Hook>)
    ensures |r| == |hooks|
  {
    seq(|hooks|, i requires 0 <= i < |hooks| => hooks[i].hook)
  }

  lemma StepKeepsKinds(c: Config, l: Label)
    requires Inv(c) && Enabled(c, l)
    ensures Kinds(Step(c, l).state.hooks) == Kinds(c.state.hooks) + (if l.Append? && Accepts(c.state) then [l.hook] else [])
  {
    var hooks, hooks' := c.state.hooks, Step(c, l).state.hooks;
    if l.TakeStop? {
      TookStopHolds(c.state);
    } else if l.FinishStart? || l.DropStart? || l.BeginUnwind? {
      PreparedHolds(c.state);
    }
    assert forall j: nat :: j < |hooks| ==> hooks'[j].hook == hooks[j].hook;
  }

  lemma DeservedAgain(hooks: seq<HookEntry>, hooks': seq<HookEntry>, trace: seq<Event>, e: Event)
    requires Deserved(hooks, trace)
    requires Kinds(hooks) == Kinds(hooks')
    requires e.StartOk? ==> NoneBroke(trace)
    requires e.StopBegan? ==> e.i < |hooks'| && Eligible(hooks', trace + [e], e.i)
    requires e.StartFailed? || e.StartCancelled? ==> e.i < |hooks| && hooks[e.i].hook.hasStart && !StartedFine(trace, e.i)
    ensures Deserved(hooks', trace + [e])
  {
    OneMoreEvent(trace, e);
    OneMoreBreak(trace, e);
    forall j: nat | j < |hooks| ensures hooks'[j].hook == hooks[j].hook {
      assert Kinds(hooks)[j] == Kinds(hooks')[j];
    }
    hide StartBroke, StartedFine, Kinds;
  }

  /** What a step records is due. */
  lemma EventIsDue(c: Config, l: Label, e: Event)
    requires Inv(c) && Enabled(c, l) && Inv(Step(c, l)) && Step(c, l).trace == c.trace + [e]
    ensures e.StartOk? ==> c.driver.InOnStart?
    ensures e.StopBegan? ==> e.i < |Step(c, l).state.hooks| && Eligible(Step(c, l).state.hooks, c.trace + [e], e.i)
    ensures e.StartFailed? || e.StartCancelled? ==>
              e.i < |c.state.hooks| && c.state.hooks[e.i].hook.hasStart && !StartedFine(c.trace, e.i)
    ensures e.StartFailed? || e.StartCancelled? <==> Step(c, l).driver.StartBroken? && c.driver.InOnStart?
  {
    hide StartBroke, StartedFine, StopCompleted, StartsIncrease, StopsDecrease, Split, TookStop, Prepared, NoStops, AllHeld;
    assert e == Step(c, l).trace[|c.trace|];
  }

  /** A step records at most one event, and never leads back to start. */
  lemma StepRecords(c: Config, l: Label)
    requires Enabled(c, l)
    ensures var c' := Step(c, l);
            && (c'.trace == c.trace || (|c'.trace| == |c.trace| + 1 && c'.trace == c.trace + [c'.trace[|c.trace|]]))
            && (InStart(c'.driver) ==> InStart(c.driver) && !c'.driver.StartBroken?)
  {
    hide TookStop, NextStop, Prepared, PutBack, Appended, TookStart, NextStart;
  }

  lemma StepKeepsFair(c: Config, l: Label)
    requires Inv(c) && Fair(c) && Enabled(c, l)
    ensures Fair(Step(c, l))
  {
    hide StartBroke, StartedFine, Inv, Deserved, Kinds, Step, Enabled;
    StepKeepsKinds(c, l);
    StepKeepsInv(c, l);
    StepRecords(c, l);
    var c' := Step(c, l);
    if c'.trace == c.trace {
      DeservedStill(c.state.hooks, c'.state.hooks, c.trace);
    } else {
      var e := c'.trace[|c.trace|];
      EventIsDue(c, l, e);
      OneMoreBreak(c.trace, e);
      if l.Append? {
        SameTrace(c, l);
      }
      DeservedAgain(c.state.hooks, c'.state.hooks, c.trace, e);
    }
  }

  lemma SameTrace(c: Config, l: Label)
    requires Enabled(c, l) && l.Append?
    ensures Step(c, l).trace == c.trace
  {
  }

  lemma DeservedStill(hooks: seq<HookEntry>, hooks': seq<HookEntry>, trace: seq<Event>)
    requires Deserved(hooks, trace) && Kinds(hooks) <= Kinds(hooks')
    ensures Deserved(hooks', trace)
  {
    forall j: nat | j < |hooks|
      ensures hooks'[j].hook == hooks[j].hook
    {
      assert Kinds(hooks)[j] == Kinds(hooks')[j];
    }
    hide StartBroke, StartedFine, Kinds;
  }

  lemma {:induction false} RunIsFair(labels: seq<Label>)
    requires Runs(labels)
    ensures Inv(After(labels)) && Fair(After(labels))
  {
    if labels != [] {
      RunIsFair(labels[..|labels|-1]);
      StepKeepsInv(After(labels[..|labels|-1]), labels[|labels|-1]);
      StepKeepsFair(After(labels[..|labels|-1]), labels[|labels|-1]);
    }
  }

  /** In every run OnStarts go up and OnStops come down, each at most once. */
  lemma OrderOfHooks(labels: seq<Label>)
    requires Runs(labels)
    ensures StartsIncrease(After(labels).trace) && StopsDecrease(After(labels).trace)
  {
    RunKeepsInv(labels);
  }

  /** OnStop is only for a hook whose OnStart finished well, or that has none. */
  lemma OnlyDueHooksStop(labels: seq<Label>, i: nat)
    requires Runs(labels)
    requires StopBegan(i) in After(labels).trace || StopCompleted(After(labels).trace, i)
    ensures i < |After(labels).state.hooks| && Eligible(After(labels).state.hooks, After(labels).trace, i)
    ensures !StartBroke(After(labels).trace, i)
  {
    RunIsFair(labels);
  }

  /** Once a pass is over, exactly the hooks it was due to have completed OnStop. */
  lemma StoppedExactly(labels: seq<Label>, i: nat)
    requires Runs(labels) && After(labels).driver.PassOver?
    ensures StopCompleted(After(labels).trace, i) <==>
            i < |After(labels).state.hooks| && Eligible(After(labels).state.hooks, After(labels).trace, i)
    ensures var c := After(labels);
            StopDone(i, true) in c.trace || StopDone(i, false) in c.trace <==>
              i < |c.state.hooks| && c.state.hooks[i].hook.hasStop && (c.state.hooks[i].hook.hasStart ==> StartOk(i) in c.trace)
  {
    RunKeepsInv(labels);
  }

  // ---------- cancelled passes ----------

  /** The hooks whose OnStop completed, in that order. */
  function Completions(trace: seq<Event>): seq<nat> {
    if trace == [] then []
    else
      var last := trace[|trace|-1];
      Completions(trace[..|trace|-1]) + (if last.StopDone? then [last.i] else [])
  }

  /** The hooks below `n` that are to be stopped, last first. */
  function Due(hooks: seq<HookEntry>, trace: seq<Event>, n: nat): seq<nat>
    requires n <= |hooks|
  {
    if n == 0 then []
    else (if Eligible(hooks, trace, n - 1) then [n - 1] else []) + Due(hooks, trace, n - 1)
  }

  predicate Descends(s: seq<nat>) {
    forall a, b :: 0 <= a < b < |s| ==> s[a] > s[b]
  }

  lemma {:induction false} CompletionsAreStops(trace: seq<Event>)
    ensures forall i: nat :: i in Completions(trace) <==> StopCompleted(trace, i)
  {
    if trace != [] {
      var n := |trace| - 1;
      assert trace == trace[..n] + [trace[n]];
      CompletionsAreStops(trace[..n]);
      OneMoreEvent(trace[..n], trace[n]);
      hide StopCompleted;
    }
  }

  lemma {:induction false} CompletionsDescend(trace: seq<Event>)
    requires StopsDecrease(trace)
    ensures Descends(Completions(trace))
  {
    if trace != [] {
      var n := |trace| - 1;
      CompletionsDescend(trace[..n]);
      var before := Completions(trace[..n]);
      CompletionsAreStops(trace[..n]);
      forall a | 0 <= a < |before| && trace[n].StopDone? ensures before[a] > trace[n].i {
        assert before[a] in before;
        assert StopCompleted(trace[..n], before[a]);
        var b :| 0 <= b < n && trace[b].StopDone? && trace[b].i == before[a];
      }
      hide StopsDecrease, StopCompleted;
    }
  }

  lemma DescendingHead(s: seq<nat>, n: nat)
    requires n > 0 && Descends(s) && n - 1 in s && forall i: nat :: i in s ==> i < n
    ensures s == [n - 1] + s[1..] && Descends(s[1..])
    ensures forall i: nat :: i in s[1..] <==> i < n - 1 && i in s
  {
    assert s[0] in s;
  }

  lemma {:induction false} DescendingIsDue(s: seq<nat>, hooks: seq<HookEntry>, trace: seq<Event>, n: nat)
    requires n <= |hooks| && Descends(s)
    requires forall i: nat :: i in s <==> i < n && Eligible(hooks, trace, i)
    ensures s == Due(hooks, trace, n)
  {
    hide Eligible, Descends;
    if n == 0 {
      var first := if s == [] then 0 else s[0];
      assert first !in s;
    } else if Eligible(hooks, trace, n - 1) {
      DescendingHead(s, n);
      DescendingIsDue(s[1..], hooks, trace, n - 1);
    } else {
      DescendingIsDue(s, hooks, trace, n - 1);
    }
  }

  /** However often stopping was cancelled and tried again, the hooks due complete once each, last first. */
  lemma CompletionsAreDue(labels: seq<Label>)
    requires Runs(labels) && After(labels).driver.PassOver?
    ensures var c := After(labels); Completions(c.trace) == Due(c.state.hooks, c.trace, |c.state.hooks|)
  {
    var c := After(labels);
    RunKeepsInv(labels);
    CompletionsDescend(c.trace);
    CompletionsAreStops(c.trace);
    DescendingIsDue(Completions(c.trace), c.state.hooks, c.trace, |c.state.hooks|);
  }

  lemma {:induction false} SameDue(hooks: seq<HookEntry>, trace: seq<Event>, hooks': seq<HookEntry>, trace': seq<Event>, n: nat)
    requires Kinds(hooks) == Kinds(hooks') && n <= |hooks|
    requires forall i: nat :: StartedFine(trace, i) <==> StartedFine(trace', i)
    ensures n <= |hooks'| && Due(hooks, trace, n) == Due(hooks', trace', n)
  {
    assert |Kinds(hooks)| == |Kinds(hooks')|;
    if n > 0 {
      assert Kinds(hooks)[n-1] == Kinds(hooks')[n-1];
      SameDue(hooks, trace, hooks', trace', n - 1);
    }
  }

  /** A run with cancelled passes and one without complete the same OnStops in the same order. */
  lemma RetryMatchesOnePass(retried: seq<Label>, straight: seq<Label>)
    requires Runs(retried) && Runs(straight)
    requires After(retried).driver.PassOver? && After(straight).driver.PassOver?
    requires Kinds(After(retried).state.hooks) == Kinds(After(straight).state.hooks)
    requires forall i: nat :: StartedFine(After(retried).trace, i) <==> StartedFine(After(straight).trace, i)
    ensures Completions(After(retried).trace) == Completions(After(straight).trace)
  {
    var c, c' := After(retried), After(straight);
    CompletionsAreDue(retried);
    CompletionsAreDue(straight);
    SameDue(c.state.hooks, c.trace, c'.state.hooks, c'.trace, |c.state.hooks|);
    assert |Kinds(c.state.hooks)| == |Kinds(c'.state.hooks)|;
  }

  // ---------- no accepted hook is lost ----------

  lemma {:induction false} PrefixRuns(labels: seq<Label>, k: nat)
    requires Runs(labels) && k <= |labels|
    ensures Runs(labels[..k])
  {
    if k < |labels| {
      PrefixRuns(labels[..|labels|-1], k);
      assert labels[..|labels|-1][..k] == labels[..k];
    } else {
      assert labels[..k] == labels;
    }
  }

  lemma StepStaysClosed(c: Config, l: Label)
    requires Inv(c) && Enabled(c, l) && !Accepts(c.state)
    ensures !Accepts(Step(c, l).state)
  {
  }

  /** Hooks are never reordered or dropped from the list; after start has finished or stop begun it is fixed. */
  lemma {:induction false} HooksOnlyGrow(labels: seq<Label>, k: nat)
    requires Runs(labels) && k <= |labels|
    ensures Runs(labels[..k])
    ensures Kinds(After(labels[..k]).state.hooks) <= Kinds(After(labels).state.hooks)
    ensures !Accepts(After(labels[..k]).state) ==>
              !Accepts(After(labels).state) && Kinds(After(labels[..k]).state.hooks) == Kinds(After(labels).state.hooks)
  {
    PrefixRuns(labels, k);
    if k < |labels| {
      var before := labels[..|labels|-1];
      assert before[..k] == labels[..k];
      HooksOnlyGrow(before, k);
      RunKeepsInv(before);
      StepKeepsKinds(After(before), labels[|labels|-1]);
      if !Accepts(After(before).state) {
        StepStaysClosed(After(before), labels[|labels|-1]);
      }
    } else {
      assert labels[..k] == labels;
    }
  }

  /** An append is accepted before start and while it is running, and at no other time. */
  lemma AppendedWhenOpen(labels: seq<Label>, h: Hook)
    requires Runs(labels)
    ensures var d, more := After(labels).driver, labels + [Append(h)];
            && Runs(more)
            && Kinds(After(more).state.hooks) ==
               Kinds(After(labels).state.hooks) + (if d.Idle? || d.Taking? || d.InOnStart? then [h] else [])
  {
    hide Runs, After, Inv, Kinds, Step;
    var c := After(labels);
    RunKeepsInv(labels);
    StepKeepsKinds(c, Append(h));
    OpenInStart(c);
    Extended(labels, c, Append(h), Step(c, Append(h)));
  }

  lemma OpenInStart(c: Config)
    requires Inv(c)
    ensures Enabled(c, Append(Hook(false, false)))
    ensures Accepts(c.state) <==> c.driver.Idle? || c.driver.Taking? || c.driver.InOnStart?
  {
    hide StartsIncrease, StopsDecrease, StartEvents, Split, AllHeld, NoStops, NothingHeld, ReturnMeansStarted;
  }

  /**
   * If append accepts a hook, then in every run where start returns and stopping completes, its
   * OnStart has finished well and its OnStop has completed.
   */
  lemma NoAcceptedHookIsLost(labels: seq<Label>, k: nat)
    requires Runs(labels) && k < |labels| && labels[k].Append?
    requires Runs(labels[..k]) && Accepts(After(labels[..k]).state)
    requires StartReturned in After(labels).trace && After(labels).driver.PassOver?
    ensures var i, c := |After(labels[..k]).state.hooks|, After(labels);
            && i < |c.state.hooks| && c.state.hooks[i].hook == labels[k].hook
            && (labels[k].hook.hasStart ==> StartedFine(c.trace, i))
            && (labels[k].hook.hasStop ==> StopCompleted(c.trace, i))
  {
    var i, c := |After(labels[..k]).state.hooks|, After(labels);
    HooksOnlyGrow(labels, k + 1);
    assert labels[..k+1][..k] == labels[..k];
    RunKeepsInv(labels[..k]);
    StepKeepsKinds(After(labels[..k]), labels[k]);
    var then' := Kinds(After(labels[..k+1]).state.hooks);
    assert |then'| == i + 1 && then'[i] == labels[k].hook;
    assert Kinds(c.state.hooks)[i] == then'[i];
    RunKeepsInv(labels);
    StoppedExactly(labels, i);
  }

  // ---------- stop_first and stop ----------

  /** The same configuration with a pass that is not bounded by a count. */
  function Unbounded(c: Config): Config {
    match c.driver
    case InPass(_) => c.(driver := InPass(None))
    case InOnStop(i, _) => c.(driver := InOnStop(i, None))
    case _ => c
  }

  /** A pass of `stop_first(started)` goes step by step like one of `stop`. */
  lemma StopFirstIsStop(c: Config, l: Label)
    requires Inv(c) && Enabled(c, l) && !l.BeginUnwind?
    ensures Enabled(Unbounded(c), l)
    ensures Unbounded(Step(c, l)) == Step(Unbounded(c), l)
  {
    if l.TakeStop? && c.driver.left == Some(0) {
      assert TookStop(c.state).hooks == c.state.hooks;
    }
  }

  /** After a finished start, an unwind is a stop. */
  lemma UnwindAfterStartIsStop(c: Config)
    requires Inv(c) && c.driver.StartedUp?
    ensures Unbounded(Step(c, BeginUnwind)) == Step(c, BeginStop)
  {
    assert Prepared(c.state).hooks == c.state.hooks;
  }

  // ---------- the failures of OnStop hooks ----------

  /** Every OnStop that failed, in order. */
  function Failures(trace: seq<Event>): seq<nat> {
    if trace == [] then []
    else
      var last := trace[|trace|-1];
      Failures(trace[..|trace|-1]) + (if last.StopDone? && last.failed then [last.i] else [])
  }

  /** No pass is begun anew while failures of a cancelled one are still to report. */
  predicate ForgetsNothing(labels: seq<Label>)
    requires Runs(labels)
    decreases |labels|
  {
    labels == [] ||
    var before, last := labels[..|labels|-1], labels[|labels|-1];
    ForgetsNothing(before) && !((last.BeginUnwind? || last.BeginStop?) && After(before).errors != [])
  }

  /** The failure a step records, if any. */
  function NewFailure(c: Config, l: Label): seq<nat> {
    if l == FinishStop(true) && c.driver.InOnStop? then [c.driver.i] else []
  }

  lemma OneMoreFailure(trace: seq<Event>, e: Event)
    ensures Failures(trace + [e]) == Failures(trace) + (if e.StopDone? && e.failed then [e.i] else [])
  {
    assert (trace + [e])[..|trace|] == trace;
  }

  lemma FailureStep(c: Config, l: Label)
    requires Enabled(c, l)
    ensures Failures(Step(c, l).trace) == Failures(c.trace) + NewFailure(c, l)
    ensures Step(c, l).errors == if l.BeginUnwind? || l.BeginStop? then [] else c.errors + NewFailure(c, l)
  {
    hide Failures, TookStop, NextStop, Prepared, TookStart, NextStart, PutBack, Appended;
    var t := Step(c, l).trace;
    if |t| > |c.trace| {
      OneMoreFailure(c.trace, t[|c.trace|]);
    }
  }

  lemma NothingYet()
    ensures Runs([]) && After([]).errors == Failures(After([]).trace) == [] && ForgetsNothing([])
  {
  }

  lemma {:induction false} NoMoreErrorsThanFailures(labels: seq<Label>)
    requires Runs(labels)
    ensures |After(labels).errors| <= |Failures(After(labels).trace)|
  {
    hide Runs, After, Failures, Step;
    NothingYet();
    if labels != [] {
      LastStep(labels);
      NoMoreErrorsThanFailures(labels[..|labels|-1]);
      FailureStep(After(labels[..|labels|-1]), labels[|labels|-1]);
    }
  }

  lemma SameEnd(a: seq<nat>, b: seq<nat>, end: seq<nat>)
    ensures a + end == b + end <==> a == b
  {
    if a + end == b + end {
      assert |a| == |b|;
      assert a == (a + end)[..|a|] && b == (b + end)[..|b|];
    }
  }

  lemma ForgetsStep(labels: seq<Label>)
    requires Runs(labels) && labels != []
    ensures var before, l := labels[..|labels|-1], labels[|labels|-1];
            && Runs(before)
            && (ForgetsNothing(labels) <==>
                  ForgetsNothing(before) && !((l.BeginUnwind? || l.BeginStop?) && After(before).errors != []))
  {
  }

  /** What one step does to the failures of a run and to those its pass will report. */
  lemma ReportedStep(errors: seq<nat>, failures: seq<nat>, new': seq<nat>, begins: bool)
    requires |errors| <= |failures| && (begins ==> new' == [])
    ensures (if begins then [] else errors + new') == failures + new' <==> errors == failures && !(begins && errors != [])
  {
    if !begins {
      SameEnd(errors, failures, new');
    }
  }

  /** A pass reports every OnStop failure of the run exactly if no earlier, cancelled pass had any. */
  lemma {:induction false} FailuresReportedIff(labels: seq<Label>)
    requires Runs(labels)
    ensures After(labels).errors == Failures(After(labels).trace) <==> ForgetsNothing(labels)
  {
    hide Runs, After, Failures, Step, ForgetsNothing;
    NothingYet();
    if labels != [] {
      LastStep(labels);
      ForgetsStep(labels);
      var before, l := labels[..|labels|-1], labels[|labels|-1];
      var c := After(before);
      FailuresReportedIff(before);
      NoMoreErrorsThanFailures(before);
      FailureStep(c, l);
      ReportedStep(c.errors, Failures(c.trace), NewFailure(c, l), l.BeginUnwind? || l.BeginStop?);
    }
  }

  lemma {:induction false} NothingBeforeAPass(labels: seq<Label>)
    requires Runs(labels) && Passes(labels) == 0
    ensures var c := After(labels); c.errors == [] && Failures(c.trace) == [] && !c.driver.InPass? && !c.driver.InOnStop?
  {
    if labels != [] {
      NothingBeforeAPass(labels[..|labels|-1]);
      FailureStep(After(labels[..|labels|-1]), labels[|labels|-1]);
    }
  }

  /** The failures of a run come in the order of its OnStops, the last hook first. */
  lemma {:induction false} FailuresDescend(trace: seq<Event>)
    requires StopsDecrease(trace)
    ensures Descends(Failures(trace))
    ensures forall i: nat :: i in Failures(trace) <==> StopDone(i, true) in trace
  {
    if trace != [] {
      var n := |trace| - 1;
      var before, last := trace[..n], trace[n];
      assert trace == before + [last];
      OneMoreFailure(before, last);
      EarlierDecrease(trace);
      FailuresDescend(before);
      var failures := Failures(before);
      forall a | 0 <= a < |failures|
        ensures StopDone(failures[a], true) in before
      {
        assert failures[a] in failures;
      }
      hide Failures, StopsDecrease;
    }
  }

  /** An OnStop that has just ended lies below all that ended before. */
  lemma EarlierDecrease(trace: seq<Event>)
    requires StopsDecrease(trace) && trace != []
    ensures StopsDecrease(trace[..|trace|-1])
    ensures var last := trace[|trace|-1]; last.StopDone? ==> forall i: nat :: StopDone(i, true) in trace[..|trace|-1] ==> i > last.i
  {
  }

  /** The only pass of a run reports every OnStop failure there has been. */
  lemma {:induction false} OnePassReportsAll(labels: seq<Label>)
    requires Runs(labels) && Passes(labels) <= 1
    ensures After(labels).errors == Failures(After(labels).trace)
  {
    if labels != [] {
      var before, l := labels[..|labels|-1], labels[|labels|-1];
      FailureStep(After(before), l);
      OnePassReportsAll(before);
      if l.BeginUnwind? || l.BeginStop? {
        NothingBeforeAPass(before);
      }
    }
  }

  lemma {:induction false} HistoryGrows(labels: seq<Label>, k: nat)
    requires Runs(labels) && k <= |labels|
    ensures Runs(labels[..k]) && After(labels[..k]).trace <= After(labels).trace
  {
    PrefixRuns(labels, k);
    if k < |labels| {
      HistoryGrows(labels[..|labels|-1], k);
      assert labels[..|labels|-1][..k] == labels[..k];
    } else {
      assert labels[..k] == labels;
    }
  }

  /** Start is behind: it has returned, failed or been dropped, or was never begun and never will be. */
  predicate PastStart(d: Driver) {
    !d.Idle? && !d.Taking? && !d.InOnStart?
  }

  /** The same OnStarts have failed and been dropped, and start has returned in both or in neither. */
  ghost predicate SameBreaks(t: seq<Event>, t': seq<Event>) {
    && (forall i: nat :: StartFailed(i) in t' <==> StartFailed(i) in t)
    && (forall i: nat :: StartCancelled(i) in t' <==> StartCancelled(i) in t)
    && (StartReturned in t' <==> StartReturned in t)
  }

  /** An application that is up has been started without a break. */
  lemma UpIsStarted(labels: seq<Label>)
    requires Runs(labels) && After(labels).driver.StartedUp?
    ensures NoneBroke(After(labels).trace) && StartReturned in After(labels).trace
  {
    RunIsFair(labels);
  }

  lemma StepPastStart(c: Config, l: Label)
    requires Enabled(c, l) && PastStart(c.driver)
    ensures PastStart(Step(c, l).driver) && SameBreaks(c.trace, Step(c, l).trace)
  {
    hide TookStop, NextStop, Prepared, PutBack, Appended, TookStart, NextStart;
  }

  /** Nothing is started any more once start is behind. */
  lemma {:induction false} StartsAreOver(labels: seq<Label>, k: nat)
    requires Runs(labels) && k <= |labels| && Runs(labels[..k]) && PastStart(After(labels[..k]).driver)
    ensures PastStart(After(labels).driver) && SameBreaks(After(labels[..k]).trace, After(labels).trace)
  {
    hide Runs, After, Step, Enabled;
    if k < |labels| {
      LastStep(labels);
      var before := labels[..|labels|-1];
      assert before[..k] == labels[..k];
      StartsAreOver(before, k);
      StepPastStart(After(before), labels[|labels|-1]);
    } else {
      assert labels[..k] == labels;
    }
  }

  const HELD := HookEntry(Hook(false, true), true)
  const TAKEN := HookEntry(Hook(false, true), false)

  /** Two stop-only hooks; the second fails, and the pass is dropped while the first is stopping. */
  lemma DroppedAfterAFailure() returns (labels: seq<Label>, c: Config)
    ensures Runs(labels) && After(labels) == c && Passes(labels) == 1
    ensures c.state == State([HELD, TAKEN], 1, Stopping) && c.driver.PassDropped? && c.errors == [1] && StopDone(1, true) in c.trace
  {
    labels, c := SecondHookFails();
    var c' := Config(State([TAKEN, TAKEN], 0, Stopping), InOnStop(0, Some(0)), c.trace + [StopBegan(0)], [1]);
    assert TookStop(c.state) == c'.state;
    Extended(labels, c, TakeStop, c');
    labels, c := labels + [TakeStop], c';
    c' := Config(State([HELD, TAKEN], 1, Stopping), PassDropped, c.trace + [StopCancelled(0)], [1]);
    Extended(labels, c, DropStop, c');
    labels, c := labels + [DropStop], c';
  }

  /** Two stop-only hooks; the second fails, the first is cancelled and tried again: the failure is gone. */
  lemma AFailureCanBeForgotten() returns (labels: seq<Label>)
    ensures Runs(labels) && After(labels).driver.PassOver?
    ensures StopDone(1, true) in After(labels).trace && After(labels).errors == []
  {
    var c;
    labels, c := DroppedAfterAFailure();
    labels := ForgottenFrom(labels, c);
  }

  lemma SecondHookFails() returns (labels: seq<Label>, c: Config)
    ensures Runs(labels) && After(labels) == c && c.state == State([HELD, TAKEN], 1, Stopping) && Passes(labels) == 1
    ensures c.driver == InPass(Some(1)) && StopDone(1, true) in c.trace && c.errors == [1]
  {
    labels, c := PassOverTwo();
    var c' := Config(State([HELD, TAKEN], 1, Stopping), InOnStop(1, Some(1)), c.trace + [StopBegan(1)], []);
    assert TookStop(c.state) == c'.state;
    Extended(labels, c, TakeStop, c');
    labels, c := labels + [TakeStop], c';
    c' := Config(c.state, InPass(Some(1)), c.trace + [StopDone(1, true)], [1]);
    Extended(labels, c, FinishStop(true), c');
    labels, c := labels + [FinishStop(true)], c';
  }

  /** A pass has begun over two stop-only hooks. */
  lemma PassOverTwo() returns (labels: seq<Label>, c: Config)
    ensures Runs(labels) && After(labels) == c && c.state == State([HELD, HELD], 2, Stopping) && Passes(labels) == 1
    ensures c.driver == InPass(Some(2)) && c.errors == []
  {
    hide Runs, After, Passes;
    labels, c := TwoAppended();
    var c' := Config(State([HELD, HELD], 2, Stopping), InPass(Some(2)), [PassBegan], []);
    assert Prepared(c.state) == c'.state;
    Extended(labels, c, BeginUnwind, c');
    labels, c := labels + [BeginUnwind], c';
  }

  lemma TwoAppended() returns (labels: seq<Label>, c: Config)
    ensures Runs(labels) && After(labels) == c && Passes(labels) == 0
    ensures c == Config(State([HELD, HELD], 0, Registering), Idle, [], [])
  {
    labels, c := [], INITIAL;
    assert Runs(labels) && After(labels) == c && Passes(labels) == 0;
    hide Runs, After, Passes;
    var h := Hook(false, true);
    var c' := Config(State([HELD], 0, Registering), Idle, [], []);
    Extended(labels, c, Append(h), c');
    labels, c := labels + [Append(h)], c';
    c' := Config(State([HELD, HELD], 0, Registering), Idle, [], []);
    Extended(labels, c, Append(h), c');
    labels, c := labels + [Append(h)], c';
  }

  lemma ForgottenFrom(before: seq<Label>, was: Config) returns (labels: seq<Label>)
    requires Runs(before) && After(before) == was && was.driver.PassDropped? && StopDone(1, true) in was.trace
    requires was.state == State([HELD, TAKEN], 1, Stopping)
    ensures Runs(labels) && After(labels).driver.PassOver?
    ensures StopDone(1, true) in After(labels).trace && After(labels).errors == []
  {
    var c := was;
    var c' := Config(State([HELD, TAKEN], 2, Stopping), InPass(Some(2)), c.trace + [PassBegan], []);
    assert Prepared(c.state) == c'.state;
    Extended(before, c, BeginUnwind, c');
    labels, c := before + [BeginUnwind], c';
    c' := Config(State([TAKEN, TAKEN], 0, Stopping), InOnStop(0, Some(1)), c.trace + [StopBegan(0)], []);
    assert NextStop(c.state.hooks, 1) == 1;
    assert TookStop(c.state) == c'.state;
    Extended(labels, c, TakeStop, c');
    labels, c := labels + [TakeStop], c';
    c' := Config(c.state, InPass(Some(1)), c.trace + [StopDone(0, false)], []);
    Extended(labels, c, FinishStop(false), c');
    labels, c := labels + [FinishStop(false)], c';
    c' := Config(c.state, PassOver, c.trace, []);
    assert TookStop(c.state) == c'.state;
    Extended(labels, c, TakeStop, c');
    labels := labels + [TakeStop];
  }
}
