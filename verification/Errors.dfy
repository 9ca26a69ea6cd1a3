/** Error constructors and how they are combined (`src/error.rs`); message texts are left out. */
module Errors {
  import opened Types

  datatype Error =
    | EmptyGroup(element: Ty)
    | GroupMemberTypeMismatch(expected: Ty, actual: Ty)
    | AlreadyProvided(ty: Ty)
    | AlreadyProvidedPrivate(scope: ScopeId, ty: Ty)
    | Cycle(keys: seq<Key>)
    | NotConstructed(ty: Ty)
    | MissingProvider(ty: Ty, scope: ScopeId)
    | ProviderMissingDep(provider: Ty, scope: ScopeId, dependency: Ty)
    | InvokerMissingDep(scope: ScopeId, dependency: Ty)
    | ConstructorFailed(key: Key)
    | InvokerFailed(index: nat)
    | AppendAfterStart
    | AppendWhileStopping
    | BuildTimeout
    | StartTimeout
    | StopTimeout
    | UnwindTimeout
    | TaskFailedDuringStart
    | MultipleStop(errors: seq<Error>)
    | CleanupAfterFailure(cleanup: Error, earlier: Error)
    | Hook(name: nat, source: nat)
    | Io(source: nat)

  type Outcome = Result<Unit, Error>

  const DONE: Outcome := Ok(Unit)

  /** The error a failing call of user code comes out as. */
  function ErrorOf(a: Answer): Error {
    match a
    case Constructed(k, _) => ConstructorFailed(k)
    case Invoked(i, _) => InvokerFailed(i)
  }
}
