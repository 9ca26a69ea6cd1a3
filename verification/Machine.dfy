/**
 * The lifecycle as a transition system (`src/lifecycle.rs`). Sections under the lock are single
 * steps; appends may come between any two of them; at an await the running hook may finish, fail
 * or be dropped. A history of events makes whole runs statable.
 */
module Machine {
  import opened Types

  /** Which callbacks a hook has. */
  datatype Hook = Hook(hasStart: bool, hasStop: bool)

  /** A registered hook; `held` says whether the registry still holds it (`inner` is `Some`). */
  datatype HookEntry = HookEntry(hook: Hook, held: bool)

  datatype Phase = Registering | Starting | Started | Stopping

  datatype State = State(hooks: seq<HookEntry>, started: nat, phase: Phase)

  // ---------- the sections under the lock ----------

  predicate Accepts(s: State) {
    s.phase.Registering? || s.phase.Starting?
  }

  function Appended(s: State, h: Hook): State {
    if Accepts(s) then s.(hooks := s.hooks + [HookEntry(h, true)]) else s
  }

  predicate Startable(e: HookEntry) {
    e.held && e.hook.hasStart
  }

  /** The first hook at or after `from` whose OnStart is still to run, else the number of hooks. */
  function NextStart(hooks: seq<HookEntry>, from: nat): (i: nat)
    requires from <= |hooks|
    ensures from <= i <= |hooks|
    ensures forall j :: from <= j < i ==> !Startable(hooks[j])
    ensures i < |hooks| ==> Startable(hooks[i])
    decreases |hooks| - from
  {
    if from == |hooks| || Startable(hooks[from]) then from else NextStart(hooks, from + 1)
  }

  /** Skips hooks without OnStart and takes the next one out, or declares start finished. */
  function TookStart(s: State): State
    requires s.started <= |s.hooks|
  {
    var i := NextStart(s.hooks, s.started);
    if i == |s.hooks| then s.(started := i, phase := Started)
    else s.(started := i, hooks := s.hooks[i := HookEntry(s.hooks[i].hook, false)])
  }

  function PutBack(s: State, i: nat): State
    requires i < |s.hooks|
  {
    s.(hooks := s.hooks[i := HookEntry(s.hooks[i].hook, true)], started := s.started + 1)
  }

  /** `prepare_for_unwind`: stop-only hooks count as started, never-started ones are dropped. */
  function Prepared(s: State): State {
    State(seq(|s.hooks|, i requires 0 <= i < |s.hooks| =>
                if i >= s.started && Startable(s.hooks[i]) then HookEntry(s.hooks[i].hook, false) else s.hooks[i]),
          if s.started < |s.hooks| then |s.hooks| else s.started,
          Stopping)
  }

  predicate Stoppable(e: HookEntry) {
    e.held && e.hook.hasStop
  }

  /** One more than the last hook below `upTo` whose OnStop is still to run; 0 when there is none. */
  function NextStop(hooks: seq<HookEntry>, upTo: nat): (n: nat)
    requires upTo <= |hooks|
    ensures n <= upTo
    ensures forall j :: n <= j < upTo ==> !Stoppable(hooks[j])
    ensures n > 0 ==> Stoppable(hooks[n-1])
  {
    if upTo == 0 || Stoppable(hooks[upTo-1]) then upTo else NextStop(hooks, upTo - 1)
  }

  /** Takes hooks out from the top down to the next with an OnStop; drops those without. */
  function TookStop(s: State): State
    requires s.started <= |s.hooks|
  {
    var n := NextStop(s.hooks, s.started);
    var low := if n == 0 then 0 else n - 1;
    State(seq(|s.hooks|, i requires 0 <= i < |s.hooks| =>
                if low <= i < s.started then HookEntry(s.hooks[i].hook, false) else s.hooks[i]),
          low, s.phase)
  }

  // ---------- runs ----------

  datatype Event =
    | StartBegan(i: nat)
    | StartOk(i: nat)
    | StartFailed(i: nat)
    | StartCancelled(i: nat)
    | StartReturned
    | PassBegan
    | StopBegan(i: nat)
    | StopDone(i: nat, failed: bool)
    | StopCancelled(i: nat)

  /** Where the code that drives the lifecycle is. `left` bounds the rest of a `stop_first` pass. */
  datatype Driver =
    | Idle
    | Taking
    | InOnStart(i: nat)
    | StartedUp
    | StartBroken
    | InPass(left: Option<nat>)
    | InOnStop(i: nat, left: Option<nat>)
    | PassOver
    | PassDropped

  /** `errors` holds the failures of the current pass. */
  datatype Config = Config(state: State, driver: Driver, trace: seq<Event>, errors: seq<nat>)

  datatype Label =
    | Append(hook: Hook)
    | BeginStart
    | TakeStart
    | FinishStart(ok: bool)
    | DropStart
    | BeginUnwind
    | BeginStop
    | TakeStop
    | FinishStop(failed: bool)
    | DropStop

  const INITIAL := Config(State([], 0, Registering), Idle, [], [])

  /** Steps the application can take; the driver starts once, and unwinds or stops afterwards. */
  predicate Enabled(c: Config, l: Label) {
    match l
    case Append(_) => true
    case BeginStart => c.driver.Idle?
    case TakeStart => c.driver.Taking? && c.state.started <= |c.state.hooks|
    case FinishStart(_) => c.driver.InOnStart? && c.driver.i < |c.state.hooks|
    case DropStart => c.driver.InOnStart? && c.driver.i < |c.state.hooks|
    case BeginUnwind => c.driver.Idle? || c.driver.StartBroken? || c.driver.StartedUp? || c.driver.PassDropped?
    case BeginStop => c.driver.StartedUp? || c.driver.PassDropped?
    case TakeStop => c.driver.InPass? && c.state.started <= |c.state.hooks|
    case FinishStop(_) => c.driver.InOnStop?
    case DropStop => c.driver.InOnStop? && c.driver.i < |c.state.hooks|
  }

  function Spent(left: Option<nat>): Option<nat> {
    if left.Some? && left.value > 0 then Some(left.value - 1) else left
  }

  function Step(c: Config, l: Label): Config
    requires Enabled(c, l)
  {
    var s := c.state;
    match l
    case Append(h) => c.(state := Appended(s, h))
    case BeginStart => c.(state := s.(phase := Starting), driver := Taking)
    case TakeStart =>
      var s' := TookStart(s);
      if s'.phase.Started? then c.(state := s', driver := StartedUp, trace := c.trace + [StartReturned])
      else c.(state := s', driver := InOnStart(s'.started), trace := c.trace + [StartBegan(s'.started)])
    case FinishStart(ok) =>
      var i := c.driver.i;
      if ok then c.(state := PutBack(s, i), driver := Taking, trace := c.trace + [StartOk(i)])
      else c.(state := Prepared(s), driver := StartBroken, trace := c.trace + [StartFailed(i)])
    case DropStart =>
      var i := c.driver.i;
      c.(state := Prepared(s), driver := StartBroken, trace := c.trace + [StartCancelled(i)])
    case BeginUnwind =>
      var s' := Prepared(s);
      c.(state := s', driver := InPass(Some(s'.started)), trace := c.trace + [PassBegan], errors := [])
    case BeginStop =>
      c.(state := s.(phase := Stopping), driver := InPass(None), trace := c.trace + [PassBegan], errors := [])
    case TakeStop =>
      if c.driver.left == Some(0) then c.(driver := PassOver)
      else
        var s' := TookStop(s);
        if NextStop(s.hooks, s.started) == 0 then c.(state := s', driver := PassOver)
        else c.(state := s', driver := InOnStop(s'.started, Spent(c.driver.left)), trace := c.trace + [StopBegan(s'.started)])
    case FinishStop(failed) =>
      var i := c.driver.i;
      c.(driver := InPass(c.driver.left), trace := c.trace + [StopDone(i, failed)],
         errors := if failed then c.errors + [i] else c.errors)
    case DropStop =>
      var i := c.driver.i;
      c.(state := PutBack(s, i), driver := PassDropped, trace := c.trace + [StopCancelled(i)])
  }

  /** Whether the steps can be taken one after the other from the initial configuration. */
  predicate Runs(labels: seq<Label>)
    decreases |labels|, 0
  {
    labels == [] || (Runs(labels[..|labels|-1]) && Enabled(After(labels[..|labels|-1]), labels[|labels|-1]))
  }

  /** The configuration a run ends in. */
  function After(labels: seq<Label>): Config
    requires Runs(labels)
    decreases |labels|, 1
  {
    if labels == [] then INITIAL else Step(After(labels[..|labels|-1]), labels[|labels|-1])
  }

  /** How many unwind or stop passes have begun. */
  function Passes(labels: seq<Label>): nat {
    if labels == [] then 0
    else
      var last := labels[|labels|-1];
      Passes(labels[..|labels|-1]) + (if last.BeginUnwind? || last.BeginStop? then 1 else 0)
  }
}
