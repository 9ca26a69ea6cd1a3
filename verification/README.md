# A verified model of modrun

modrun wires constructors into a dependency graph, builds what the invokers ask for in waves, and then runs
lifecycle hooks. This Dafny project models that machinery and proves what the code promises of it. Check it
with `dafny verify dfyconfig.toml`.

## What is modelled

**Values.** A `TypeId` is a free term (`Plain`, `ArcOf`, `GroupOf`), so `Arc<T>` is injective and never equal to
`T`. What a constructor returns is a free term too, `App(key, args)`: two values are equal only if the same
provider ran on the same arguments. Group aggregates, supplied values and `Arc` handles are terms likewise, so
"the right value" is an equation with content.

**The container** (`src/container`, `src/scope.rs`).
* `Types`, `Errors`, `Scopes`: keys, values, errors; the scope tree, whose stored ancestor chains are the walks over
  parent links.
* `Resolution`: the reference definitions. `Bind` says what a dependency on a type is bound to from a scope (a cached
  value, a provider, or nothing), `GraphOf` is the dependency multigraph, `Denotes` is naive recursive evaluation,
  `Wf` the invariant every registration keeps.
* `Digraph`: layers, ranks, walks and reachability in a multigraph, without any container.
* `Registration`, `Container`: the class with the source's maps, lists and bitmap, and its registration methods.
* `Lookups`: the four resolution walks, as loops over the ancestor chain that skip unmarked scopes.
* `Layering`, `Freezing`, `Cycles`, `Validation`: in-degree bookkeeping and Kahn's algorithm, the memo tables, the
  depth-first cycle search, and `validate`.
* `Pending`, `Progress`, `Build`, `TryJoin`, `Invoke`: collecting what is needed, replaying the layers as waves, joining
  the started constructors in any order, and running the invokers. What user code will do, which calls fail and how
  long futures wait, is an input of the model (`UserCode`), and so is what lies ahead of a phase (`Fate`): when it is
  dropped, if ever, by what, and whether it ends late. Results are stated in terms of these inputs, and of a record of
  every call and answer.
* `Schedule`: the order in which a build calls constructors and how long it waits for them, told from the wiring and user
  code alone.
* `ModuleTree`, `Encapsulation`, `Preparation`, `Claims`: applying a tree of options depth first, what each option means
  for those who depend on it and what a module hides, validating the result, and which trees can be applied at all.

**The lifecycle** (`src/lifecycle.rs`).
* `Machine`: sections under the lock are single steps of a transition system with a history of events. Appends may
  come between any two steps; a running hook may finish, fail or be dropped. A run is a sequence of labels.
* `LifecycleRuns`: an inductive invariant and its proof, step by step.
* `LifecycleGuarantees`: the promises, for all runs.
* `Lifecycle`: the class with the source's fields and loops. Each locked section is proved equal to a step of the
  machine; the driver futures only take such steps, so every guarantee about runs holds of the object.

**Runs of the application** (`src/app.rs`, `src/error.rs`). `Timeouts` and `App`: budgets, timers, signals and
shutdown requests are inputs (`World`). What the hooks do is left open and recorded in the lifecycle's history, which
the results refer to; anyone may ask for shutdown, and a task may fail, while a pass goes on.

## Main results

* Well-wired programs do not go wrong. `validate` accepts exactly the containers where every dependency resolves,
  required groups have members and the graph is acyclic; afterwards the build fails only in user code or by running
  out of its budget, whatever order constructors complete in, and a failure user code has answered with comes out.
  `Error::Cycle`, `MissingProvider`, `NotConstructed` and the failing `expect`s are unreachable
  (`Validation.Validate`, `Build.BuildPending`, `Invoke.RunInvokers`).
* One budget covers the whole build. A build completes exactly if user code does not fail in anything that is needed and
  the waits add up to no more than there is: for each invoker in turn the slowest constructor of every wave it needs
  anew, then the invoker itself (`Invoke.RunInvokers`, `Invoke.CompletesExactlyIf`).
* Private bindings shadow. The nearest private entry on the way to the root wins, whatever is public; the public one is
  the answer exactly when there is none; and a module's private entries change nothing for the scopes outside it
  (`Resolution.NearestPrivateWins`, `Resolution.PublicExactlyIfUnshadowed`, `Encapsulation.ModuleHidesPrivate`).
* The wave build preserves meaning. Every value handed to an invoker is what naive evaluation of the graph gives, and
  exactly the providers some invoker needs are constructed, once each (`Invoke.RunInvokers`).
* Kahn's algorithm and the depth-first search agree (`Validation.Validate`, `Cycles.DetectCycles`,
  `Digraph.CompleteIffAcyclic`), and the frozen layers are canonical (`Digraph.LayerIsLongestChain`).
* In every run of the lifecycle OnStarts go up, OnStops come down, exactly the hooks that are due are stopped, no
  accepted hook is lost, and a cancelled stop that is tried again completes the same hooks in the same order as one
  that was not.
* Every run of the application past preparation makes one pass of OnStops. How a run was left is decided by the answers
  of constructors and invokers, by the history of OnStarts and by the timers, so no failure is swallowed: `Ok` means
  that none of them failed, no failed task interrupted a phase, and the pass was clean and in time (`App.Run`).

## Where the code and its documentation differ

* The README of modrun promises that OnStop failures "are retained in the returned error". The code keeps them exactly
  when the pass is not cut off by `stop_timeout`: an expired pass is dropped together with the failures it had
  collected, and only the timeout is reported (`App.PhaseErrorRetains`, `App.Run`). `App.ExpiredLoses` is such a pass.
* The comments on `StopGuard` speak of a follow-up pass that retries a cancelled OnStop. Such a pass reports every
  failure of the run exactly when no pass it follows had collected one (`LifecycleGuarantees.FailuresReportedIff`);
  `LifecycleGuarantees.AFailureCanBeForgotten` is a run where a failure is lost.

## Model

| member | source | states |
|---|---|---|
| `Scopes.ParentWalkIsChain` | src/scope.rs:38-46 | following parent links from a scope gives a chain that starts there, has no duplicates, falls strictly and ends at the root |
| `Scopes.ScopeTree.Child` | src/scope.rs:38-46 | a new scope gets the next id and its parent's chain with itself in front; all others stay, and every stored chain is still the walk over parent links |
| `Scopes.ScopeTree.ChainsReachRoot` | src/scope.rs:55-61 | every stored chain starts at its scope, falls without a repeat and ends at the root |
| `Resolution.SkipUnmarked` | src/container/graph.rs:13-32 | skipping a scope whose bit is not set never changes what a type is bound to |
| `Resolution.NearestPrivateWins` | src/container/graph.rs:10-59 | the nearest scope of the chain with a private entry decides, its value before its provider before its alias, whatever is public or lies further up |
| `Resolution.PublicOtherwise` | src/container/graph.rs:10-59 | with nothing private on the chain the public value is the answer, or else the public provider |
| `Resolution.PublicExactlyIfUnshadowed` | src/container/graph.rs:34-59 | a public provider is bound exactly if no scope of the chain has a private entry and there is no public value |
| `Resolution.BindAfterBuild` | src/container/storage.rs:81-124 | resolution is stable under construction: the only change to a binding is from "provided by k" to k's value, also through the `Arc` alias, when k is built |
| `Resolution.CachedWithoutProviders` | src/container/mod.rs:135-144 | taking providers out of the map cannot disturb a lookup that finds a value |
| `Resolution.ResidualTargets` | src/container/graph.rs:120-138 | the dependencies unsatisfied at run time are the registered ones minus the built ones (members stay listed) |
| `Resolution.GraphIsWellFormed` | src/container/graph.rs:204-225 | dependency and membership edges of a reachable container only lead to registered providers |
| `Resolution.OnlyAggregatesNeedMembers` | src/container/group.rs:42-73 | a group member is depended on by its aggregate and by nothing else |
| `Resolution.DenotesOnce` | src/container/build.rs:80-160 | a provider stands for at most one value, so the value handed out is determined by the wiring alone |
| `Resolution.ValueOrHandle` | src/container/storage.rs:64-108 | a dependency on a type is given what its provider stands for, one on the `Arc` of it a handle to that, and nothing else |
| `Resolution.OneShotDenotes` | src/provide.rs:267-290 | a one-shot provider stands for the value it was registered with |
| `Resolution.ConstructorDenotes` | src/container/build.rs:98-133 | a constructor applied to what its dependencies stand for gives what its provider stands for |
| `Resolution.AggregateDenotes` | src/container/group.rs:179-186 | the members' values in registration order make the aggregate's value |
| `Registration.ProviderKeepsWf` | src/container/mod.rs:83-111 | registering a provider keeps one private binding per type and scope and one public one per type, with aliases at live providers |
| `Registration.AggregateKeepsWf` | src/container/group.rs:128-176 | so does registering a group's aggregate |
| `Registration.MemberKeepsWf` | src/container/group.rs:42-73 | so does adding a member, whose ordinal is fresh and which comes last in its group |
| `Registration.ScopeKeepsWf` | src/scope.rs:38-46 | so does adding a scope |
| `Registration.StoreKeepsCaches` | src/container/storage.rs:81-124 | filing a constructed value under its type and `Arc` keeps the caches equal to supplied plus built values |
| `Registration.SupplyKeepsSupplied` | src/container/storage.rs:33-62 | supplying a value into a free slot never collides with a provider and keeps the bitmap sound |
| `Registration.SuppliedIsHandedOut` | src/container/storage.rs:33-62 | a supplied value is handed out as it is under its type and as a handle under `Arc`, wherever it is not shadowed |
| `Containers.Container.constructor` | src/container/mod.rs:47-65 | a new container is empty and consistent |
| `Containers.Container.EnterScope` | src/container/mod.rs:75-77 | switches the active scope and returns the one to go back to |
| `Containers.Container.LeaveScope` | src/container/mod.rs:79-81 | restores it |
| `Containers.Container.MarkPrivateScope` | src/container/mod.rs:118-124 | grows the bitmap and sets the scope's bit |
| `Containers.Container.EnsureAbsent` | src/container/storage.rs:126-157 | reports a conflict exactly when the slot is occupied, with the error for its kind |
| `Containers.Container.InsertProvider` | src/container/mod.rs:83-111 | fails, changing nothing, exactly if the type or its `Arc` is taken; otherwise the new state, with the provider last in the order and under its own scope, and consistency is kept |
| `Containers.Container.InsertValue` | src/container/storage.rs:33-62 | likewise for a supplied value, with the value nodes it records and which of the two names the error carries |
| `Containers.Container.EnsureGroupVirtual` | src/container/group.rs:128-176 | registers the aggregate once; fails exactly if the group is new and its slot taken, naming the type that is |
| `Containers.Container.InsertGroupMember` | src/container/group.rs:42-73 | registers the group if needed, with the error of that, and appends the member at the end, under its own scope |
| `Containers.Container.RequireGroup` | src/container/group.rs:75-77 | registers the group if needed, with the error of that, and puts it among the required ones |
| `Containers.Container.StoreConstructed` | src/container/storage.rs:81-108 | files a value under its type and, as a handle, under `Arc` |
| `Containers.Container.StoreValue` | src/container/storage.rs:110-124 | files one entry publicly, or privately with its scope marked |
| `Containers.Container.TakeProvider` | src/container/mod.rs:135-139 | removes a provider and returns it |
| `Containers.Container.PutProvider` | src/container/mod.rs:141-144 | puts it back |
| `Lookups.LookupValueRefFrom` | src/container/graph.rs:13-32 | the loop that skips unmarked scopes finds exactly the cached value the type is bound to, also while providers are out of the map: the nearest private entry if that is a value, the public value only if nothing is private |
| `Lookups.ResolveProvider` | src/container/graph.rs:34-59 | finds exactly the provider the type is bound to when values are ignored, registered under the type or its target: the nearest private one, the public one only if there is none |
| `Lookups.GroupTypeIsIndexed` | src/container/group.rs:87-93 | the group tables and the public index name the same aggregate |
| `Lookups.CanResolve` | src/container/graph.rs:293-303 | true exactly if the type is bound to anything, although it ignores shadowing |
| `Lookups.ResolveValueBinding` | src/container/graph.rs:356-387 | answers exactly when a ready value is bound, naming where that value is filed: the nearest private scope, or for a public value the scope of its first node |
| `Lookups.WalksAgree` | src/container/graph.rs:293-387 | a type resolves exactly when a ready value or a provider is found; with no ready value the provider found is the one bound |
| `Digraph.AcyclicHasNoClosedWalk` | src/container/graph.rs:389-448 | a ranked graph has no closed walk |
| `Digraph.CompleteIffAcyclic` | src/container/graph.rs:199-269 | peeling off ready nodes gets through the whole graph exactly when it is acyclic |
| `Digraph.LayerIsLongestChain` | src/container/graph.rs:204-267 | a key's layer is the length of its longest dependency chain |
| `Digraph.LayersAreMinimal` | src/container/graph.rs:204-267 | no schedule that respects dependencies runs a key in an earlier wave |
| `Digraph.LayersPartition` | src/container/graph.rs:204-267 | the layers of an acyclic graph hold each provider once, none is empty, each follows registration order |
| `Layering.InitialReady` | src/container/graph.rs:227-236 | the first wave is the nodes without dependencies in registration order |
| `Layering.DegreeLeft` | src/container/graph.rs:243-247 | while an edge is still to be released its target's in-degree is positive: no underflow |
| `Layering.Release` | src/container/graph.rs:242-252 | releasing a key's edges, multi-edges included, leaves in-degree equal to the number of unprocessed incoming edges; a key enters the next wave when it reaches zero, once |
| `Layering.SortedWaveIsReady` | src/container/graph.rs:253-255 | sorted by registration index a wave does not depend on the order edges were listed in |
| `Layering.Waves` | src/container/graph.rs:227-256 | Kahn's loop terminates with the canonical layers; what keeps a positive in-degree is exactly what no layer holds |
| `Freezing.CanResolveCached` | src/container/graph.rs:305-317 | the memo table never changes an answer |
| `Freezing.ValueSatisfiesCached` | src/container/graph.rs:337-354 | nor does this one |
| `Freezing.ResolveProviderKeyCached` | src/container/graph.rs:319-335 | nor this one |
| `Freezing.ProviderEdges` | src/container/graph.rs:206-223 | one edge per dependency that no supplied value satisfies, with multiplicity |
| `Freezing.AddGroupVirtualEdges` | src/container/graph.rs:271-291 | one edge from each aggregate to each member, in whatever order groups are listed |
| `Freezing.PositionOf` | src/container/graph.rs:450-455 | where the reported cycle starts: the first place of the repeated key on the path |
| `Freezing.FindStuck` | src/container/graph.rs:258-266 | when a key is left, the first one with a positive in-degree is found |
| `Freezing.FreezeLayers` | src/container/graph.rs:199-269 | succeeds exactly if peeling completes, then the frozen layers are the canonical ones; otherwise it reports a cycle and sets no layers |
| `Cycles.RepeatedKeyClosesWalk` | src/container/graph.rs:450-455 | the path from the repeated key on, closed by that key, is a walk of real edges |
| `Cycles.Visit` | src/container/graph.rs:402-448 | terminates on any graph; success finishes everything below with path and `on_path` restored, failure names a closed walk |
| `Cycles.VisitMembers` | src/container/graph.rs:402-448 | an aggregate's members are visited through the group tables |
| `Cycles.MembersAreFinished` | src/container/graph.rs:389-400 | although members are no start nodes, finishing all others finishes them |
| `Cycles.DetectCycles` | src/container/graph.rs:389-400 | reports a cycle exactly if there is one, and what it reports is one |
| `Validation.CheckProviders` | src/container/graph.rs:148-162 | fails exactly if some provider misses a dependency; reports the first such provider in registration order and the first dependency it misses |
| `Validation.CheckInvokers` | src/container/graph.rs:164-174 | the same for invokers, in their order |
| `Validation.ValidateRequiredGroups` | src/container/graph.rs:184-197 | fails exactly if a required group is empty |
| `Validation.Validate` | src/container/graph.rs:140-182 | `Ok` exactly for well-wired containers, and then the layers are frozen; the error names a real defect, the first of its kind, and no earlier check fails |
| `Pending.CollectPending` | src/container/graph.rs:68-88 | adds exactly what an unsatisfied dependency still needs: closed under unsatisfied dependencies and membership, nothing unreachable; ends on cyclic graphs too |
| `Pending.CollectGroupPending` | src/container/graph.rs:90-118 | the same from a group's aggregate |
| `Pending.CollectProviderPending` | src/container/graph.rs:120-138 | the same from a provider |
| `Progress.DependencyIsCached` | src/container/storage.rs:64-79 | a dependency of a provider that may start is cached with the value it stands for, even while providers are out of the map |
| `Progress.WaveIsStartable` | src/container/build.rs:49-78 | in wave `i` every dependency of a pending key of layer `i` has been built |
| `Progress.NothingLeft` | src/container/build.rs:49-78 | after the last layer nothing is pending |
| `Progress.ResidualIsUnbuilt` | src/container/graph.rs:68-138 | what is reached through unsatisfied dependencies is registered and not built |
| `Progress.EveryProviderDenotes` | src/container/graph.rs:140-182 | on a validated container naive evaluation of every provider ends with a value |
| `TryJoin.EachVisitedOnce` | src/future.rs:39-60 | the index loop visits each future exactly once although `swap_remove` moves them |
| `TryJoin.TryJoinAll.SwapRemoveMovesLast` | src/future.rs:39-60 | the last future takes the place of the one that has ended, all others keep theirs |
| `TryJoin.PassConserves` | src/future.rs:39-60 | a pass loses, duplicates and mispairs nothing |
| `TryJoin.TryJoinAll.Poll` | src/future.rs:39-60 | completed values are appended, the others stay in flight; the first error ends the pass with nothing in flight |
| `TryJoin.Drive` | src/future.rs:39-60 | over any number of polls: all values, each with its own key, exactly if every future ends well while the caller waits, and that takes as long as the slowest; an earliest failure exactly if one is there in time; otherwise nothing is lost or duplicated |
| `Schedule.PendingInOrder` | src/container/build.rs:55-64 | the keys of a wave keep the order of their layer |
| `Build.Get` | src/container/storage.rs:64-79 | the value bound from the active scope: as it is, or as a handle where the entry is that of an `Arc`; else `NotConstructed` |
| `Build.CollectGroupMemberValues` | src/container/group.rs:103-126 | drains the members' values in registration order |
| `Build.ConstructAggregate` | src/container/group.rs:179-186 | on a built group aggregation cannot fail, and gives the value the group stands for |
| `Build.CallInScope` | src/container/build.rs:98-116 | a provider is out of the map during its own call and in its own scope; map and scope are as before afterwards; it fails only if the constructor does, and what it answers is recorded |
| `Build.EnterConstructing` | src/container/build.rs:85-89 | only a key that is already being constructed can stop a wave from entering |
| `Build.LeaveConstructing` | src/container/build.rs:25-36 | the guard clears exactly the wave's keys |
| `Build.ConstructAll` | src/container/build.rs:96-133 | every key of the wave is called once, before anything of the wave is stored; the first that fails outright comes out and is the last called |
| `Build.StoreAll` | src/container/build.rs:135-157 | stored values are what their providers stand for, and their keys leave `pending` |
| `Build.JoinConstructs` | src/container/build.rs:163-174 | whatever order they complete in, each key gets the value it stands for; a failure comes out exactly if one is there in time, and the wait is cut off exactly if none is and some future is not |
| `Build.StoreAndJoin` | src/container/build.rs:135-157 | finished values are stored even if the join then fails or is cut off; the others only when all have joined |
| `Build.RunWave` | src/container/build.rs:80-160 | fails exactly if a constructor's failure is there in time, is cut off exactly if none is and some future is late; takes as long as its slowest constructor; constructors are called in order; however it ends, `constructing` is empty, scope and providers are back, the caches are right |
| `Build.BuildPending` | src/container/build.rs:49-78 | builds exactly what was pending, layer by layer; the patience used is the sum of the waves; a constructor's failure comes out in time and no later wave runs; what is cut off is the first wave that would take too long; the cycle error at its end is unreachable |
| `Build.EnsureBuilt` | src/container/build.rs:39-47 | builds exactly what the roots need and is not built; fails exactly when user code has answered with a failure, which is what comes out; takes the time of the waves for what was missing |
| `Invoke.CallInvoker` | src/app.rs:477-488 | an invoker is handed the values its dependencies stand for from its own scope; its failure comes out exactly if it fails and its future, if it has one, ends while the caller waits; the wait is taken from the patience |
| `Invoke.InvokeOne` | src/app.rs:477-493 | one invoker: its build, then its call; says which of the two stopped it and how much time both took, and restores the active scope unless the future is dropped |
| `Invoke.InvokeAll` | src/app.rs:469-496 | each invoker is called once, in order, each after its own build; after a failure nothing more of user code is called; one patience is spent on all, and is cut off at the invoker whose waits exceed it |
| `Invoke.AskedIsNew` | src/container/build.rs:39-47 | what an invoker has built for it is what it needs and no invoker before it |
| `Invoke.RunInvokers` | src/app.rs:466-503 | the main theorem of the build: it completes exactly if nothing needed fails and all waits together fit into the one budget; a user error comes out exactly if user code has answered with it, and in time; a timeout or drop comes during the very wait that exceeds the time left, with no failure in hand |
| `Invoke.CompletesExactlyIf` | src/app.rs:466-503 | how a build has ended decides nothing more: completion is that no needed constructor and no invoker fails, the sum of waits is within the budget, and it is not late |
| `Invoke.SameHanded` | src/container/build.rs:163-174 | two builds of one wiring hand out the same values, whatever order constructors complete in |
| `Invoke.ValidateAndRun` | src/app.rs:435-503 | validation and build together: rejected exactly if not well wired, otherwise as `RunInvokers` |
| `ModuleTree.RejectedForGood` | src/module.rs:96-111 | nothing is applied after an option that is rejected, and its error is the one that comes out |
| `ModuleTree.MemberAppended` | src/container/group.rs:63-72 | a new member comes after all earlier ones of its group and leaves other groups alone |
| `Encapsulation.ProvidedHere` | src/container/mod.rs:83-111 | a provider is registered last, under the scope of its module, and is what its scope (if private) or every scope without a private entry on its chain (if public) then finds, also under `Arc` |
| `Encapsulation.SuppliedHere` | src/container/storage.rs:33-62 | the same for a supplied value: as it is under its type, as a handle under `Arc` |
| `Encapsulation.MemberHere` | src/container/group.rs:42-73 | a member comes last in its group and in the order, under the scope of its module; other groups stay |
| `Encapsulation.EarlierComesFirst` | src/module.rs:96-111 | what earlier options have registered stays before what later ones do |
| `Encapsulation.ModuleScopeIsBelow` | src/module.rs:96-111 | a module gets a new scope right below the one it is used in |
| `Encapsulation.ModuleHidesPrivate` | src/container/graph.rs:10-59 | a module's private entries are its own: from any scope there was before, what was bound privately is bound as it was, and all else to what is public |
| `Encapsulation.RequiredByOptions` | src/container/group.rs:75-77 | the required groups are exactly those some option of the tree requires |
| `ModuleTree.BuildState.ApplyLeaf` | src/provide_group.rs:51-117 | each option is rejected with its own error, or leaves its own mark on the container and no other |
| `ModuleTree.BuildState.ApplyModule` | src/module.rs:96-111 | a module's options apply in a fresh child scope, and the scope is restored even on error |
| `ModuleTree.BuildState.ApplyAll` | src/app.rs:451-453 | options apply depth first and stop at the first error, which comes out; members and invokers come in that order |
| `Preparation.SeedBuiltins` | src/container/storage.rs:175-183 | the two built-in values go into an empty container without conflict |
| `Preparation.Prepare` | src/app.rs:435-463 | accepts exactly the option trees that apply cleanly and are well wired; otherwise the error of the rejected option, or a real defect of the wiring; a group the tree requires has members in the tree, and one reported as empty is required by it and has none |
| `Claims.AppliesIffNoClash` | src/container/storage.rs:126-157 | a tree of options applies exactly if no member mismatches its group and no two options, built-in values included, claim one slot under a type or its `Arc`; members of one group share theirs |
| `Claims.LeafClaims` | src/container/storage.rs:126-157 | one option is accepted exactly if its claim goes with those before it |
| `Preparation.GroupInRegistrationOrder` | src/container/group.rs:103-126 | for any module tree an injected group lists its members' values in depth-first registration order, nothing more |
| `LifecycleRuns.AppendKeeps` | src/lifecycle.rs:556-573 | appends at any point keep the lifecycle's invariant |
| `LifecycleRuns.PreparedInOnStart` | src/lifecycle.rs:654-672 | after a failed or dropped OnStart exactly the started and the stop-only hooks are left |
| `LifecycleRuns.WrittenBack` | src/lifecycle.rs:469-484 | a dropped OnStop is put back with `started` one above it, ready to be tried again |
| `LifecycleRuns.TakingNextStop` | src/lifecycle.rs:724-740 | the next hook taken is due, lies below all completed ones and skips none |
| `LifecycleRuns.StepKeepsInv` | src/lifecycle.rs:556-740 | every step keeps the invariant |
| `LifecycleRuns.RunKeepsInv` | src/lifecycle.rs:556-740 | so it holds in every run |
| `LifecycleGuarantees.OrderOfHooks` | src/lifecycle.rs:596-740 | OnStarts begin in strictly increasing order, OnStops complete in strictly decreasing order, each at most once |
| `LifecycleGuarantees.OnlyDueHooksStop` | src/lifecycle.rs:575-594 | OnStop never begins for a hook whose OnStart failed, was dropped or never ran |
| `LifecycleGuarantees.StoppedExactly` | src/lifecycle.rs:680-717 | after a pass exactly the hooks with an OnStop that started well or have no OnStart have been stopped |
| `LifecycleGuarantees.CompletionsAreDue` | src/lifecycle.rs:689-740 | however often stopping was cancelled, the completed OnStops are the due ones, last first |
| `LifecycleGuarantees.RetryMatchesOnePass` | src/lifecycle.rs:469-484 | a run with cancelled passes completes the same OnStops in the same order as one without |
| `LifecycleGuarantees.HooksOnlyGrow` | src/lifecycle.rs:556-573 | hooks are never reordered or dropped from the list, which is fixed once start has finished or stop begun |
| `LifecycleGuarantees.AppendedWhenOpen` | src/lifecycle.rs:556-573 | an append before start or while it is running adds exactly its hook at the end; at any other time it adds none |
| `LifecycleGuarantees.NoAcceptedHookIsLost` | src/lifecycle.rs:546-573 | an accepted hook is started and stopped in every run where start returns and stopping completes |
| `LifecycleGuarantees.StopFirstIsStop` | src/lifecycle.rs:704-717 | a pass of `stop_first(started)` goes step by step like one of `stop` |
| `LifecycleGuarantees.UnwindAfterStartIsStop` | src/lifecycle.rs:680-702 | after a finished start an unwind is a stop |
| `LifecycleGuarantees.FailuresReportedIff` | src/lifecycle.rs:689-717 | a pass reports every OnStop failure of the run exactly if no earlier, cancelled pass had one |
| `LifecycleGuarantees.OnePassReportsAll` | src/lifecycle.rs:689-717 | the only pass of a run reports them all |
| `LifecycleGuarantees.FailuresDescend` | src/lifecycle.rs:689-717 | the failures of a run are its failed OnStops, last hook first |
| `LifecycleGuarantees.AFailureCanBeForgotten` | src/lifecycle.rs:469-484 | a concrete run that loses a failure |
| `LifecycleGuarantees.StartsAreOver` | src/lifecycle.rs:596-649 | once start has returned, failed, been dropped or been passed over, no OnStart begins to fail or be dropped any more |
| `Lifecycles.Lifecycle.Append` | src/lifecycle.rs:556-573 | accepted, and recorded last, exactly while registering or starting; which error otherwise, and then nothing changes |
| `Lifecycles.Lifecycle.NextToStart` | src/lifecycle.rs:600-623 | one locked section: skip hooks without OnStart, take the next, or finish |
| `Lifecycles.Lifecycle.RunStart` | src/lifecycle.rs:629-648 | an OnStart finishes and is put back, fails, or is dropped; the last two prepare the unwind |
| `Lifecycles.Lifecycle.Start` | src/lifecycle.rs:583-649 | returns `Ok` only started up, with no OnStart broken; an error names the only one that failed, a drop leaves the only one that was dropped |
| `Lifecycles.Lifecycle.PrepareForUnwind` | src/lifecycle.rs:654-672 | one locked section, proved equal to its specification |
| `Lifecycles.Lifecycle.TakeNextStop` | src/lifecycle.rs:724-740 | one locked section, proved equal to its specification |
| `Lifecycles.Lifecycle.RunStop` | src/lifecycle.rs:430-484 | an OnStop finishes, well or not, or is dropped and written back |
| `Lifecycles.Lifecycle.Stop` | src/lifecycle.rs:689-702 | runs to the end although hooks fail; returns `Ok` without failures, a single failure as it is, several in stop order |
| `Lifecycles.Lifecycle.StopFirst` | src/lifecycle.rs:704-717 | the same for a bounded pass |
| `Lifecycles.Lifecycle.Unwind` | src/lifecycle.rs:680-687 | the same from any state an unwind can start in |
| `Timeouts.WithTimeout` | src/app.rs:647-667 | `Ok` exactly if the future finished well, and in time where there is a budget; a real error is preferred over a timeout |
| `App.AggregateReportsAll` | src/error.rs:332-338 | aggregation loses no failure, adds none and keeps their order; a single failure is not wrapped |
| `App.PhaseErrorRetains` | src/app.rs:543-548 | next to a phase error, the OnStop failures of the pass are in the result exactly if the pass was not cut off |
| `App.ExpiredLoses` | src/app.rs:585-600 | a concrete pass that expires after a failure, whose result does not tell of it |
| `App.BrokenIsNotStopped` | src/lifecycle.rs:580-583 | a hook whose OnStart failed is not among those whose OnStop failed |
| `App.ServedAll` | src/app.rs:353-374 | once started up and stopped in time every hook has started, if it had to, and stopped, if it had to |
| `App.UnwindLifecycle` | src/app.rs:585-600 | one pass, bounded by the stop budget, with what it returns |
| `App.StartHooks` | src/app.rs:671-678 | what the OnStarts did decides what start comes to: a failure comes out as it is; a drop is a timeout or, if the timer was not the cause, nothing; lateness is a timeout |
| `App.FailedStartShows` | src/app.rs:334-361 | an OnStart has failed exactly if its error is what the run keeps |
| `App.StopApp` | src/app.rs:695-714 | one pass, bounded by the stop budget, with what it returns |
| `App.BuildFailureShows` | src/app.rs:305-315 | a run is left with a constructor's or invoker's error exactly if user code has answered with it |
| `App.Interrupted` | src/app.rs:316-331 | a shutdown request or signal during a phase: one pass; which of the two is told by the cause and the flag; `Ok` exactly if it is clean, in time and no failed task asked |
| `App.RunBuild` | src/app.rs:305-315 | ends as `RunInvokers` says; completes exactly if nothing needed fails and all fits into the time there is, and has then constructed exactly what is needed and handed it out |
| `App.Serve` | src/app.rs:334-374 | starting, waiting and stopping make one pass; what the OnStarts did decides how the run is left, and an error of theirs is kept bare or as `earlier` |
| `App.Run` | src/app.rs:296-374 | every path past preparation makes one pass; what user code, hooks and timers did decides how the run was left and what it returns; `Ok` only if no constructor, invoker or OnStart failed; a phase error is kept, bare or as `earlier`, and so is a task failure when the unwind times out; OnStop failures are retained unless the pass expired; a served run has built what is needed and served every hook |
| `App.StartOnly` | src/app.rs:397-412 | leaves a started application, built as needed, and no pass; or unwinds once and keeps the error |

## Left out

- Tokio, wakers, `Pin`, real timers and OS signals: a future is its outcome and the number of polls it still waits, and is awaited for a given number of polls or until it ends; one that never ends shows up as one that is dropped. `Lifecycles.Lifecycle.Start` takes a bound on hooks, so that appending without end shows up as a hook that fails or is dropped.
- `src/shutdown.rs` and `src/task.rs`: two flags that anyone may set at an await stand for them.
- A caller that drops the future of `run` or `start` itself, and a `RunningApp` that is dropped without `stop`.
- `src/provide.rs`, `src/invoke.rs`, `src/wiring.rs`: macros, arities, type erasure and downcasts; one constructor with a dependency list covers them. The four kinds of `provide` differ only in whether they are asynchronous and may fail, and in the model every one may fail.
- `src/graph/dot.rs`, tracing, banner, the hasher: output and speed only.
- Panics, poisoned mutexes and the exhaustion of `u32` ids.
- Error texts; an error a hook returns is named by the hook's index. A hook that itself returns one of the library's timeout errors is not told apart from other failures.
- `AncestorIter` as an object: the lookup loops run an index over the stored chain.
- `key_name`, `is_group_type` and other accessors without branches of their own.
- `validate` and `visit`: their branches for a key missing from `providers`; in a consistent container there is none.
- Values of group members are a field of `Container`, and a hook's callbacks are two fixed flags; a closure's OnStart is consumed by its call, which no later step looks at.
- `App.Serve`: takes what drops the start as an input, and does not derive it from a request made while the build was running.
- `Lifecycles.Lifecycle.Unwind`: `prepare_for_unwind` and the first section of `unwind_started` are one step of the machine; only rejected appends could come between.
