/** Keys, values and records shared by the container model (`src/container/types.rs`). */
module Types {

  datatype Option<+T> = None | Some(value: T)

  datatype Result<+T, +E> = Ok(value: T) | Err(error: E)

  /** The only result value of the operations that return nothing. */
  datatype Unit = Unit

  /**
   * A Rust `TypeId`. The free constructors make `Arc` and `Group` injective, disjoint and
   * without fixed points; every other type is `Plain`.
   */
  datatype Ty = Plain(id: nat) | ArcOf(pointee: Ty) | GroupOf(element: Ty)

  type ScopeId = nat

  const ROOT: ScopeId := 0

  /** `ordinal` is 0 for singletons and group aggregates, positive for group members. */
  datatype Key = Key(ty: Ty, scope: ScopeId, isPrivate: bool, ordinal: nat) {
    predicate IsGroupMember() {
      ordinal > 0
    }
  }

  function PrivateKey(ty: Ty, scope: ScopeId): Key {
    Key(ty, scope, true, 0)
  }

  /** The key of the aggregate provider of `Group<element>`. */
  function VirtualKey(element: Ty): Key {
    Key(GroupOf(element), ROOT, false, 0)
  }

  /**
   * Values are terms: what a constructor returns is determined by which provider ran and
   * by the arguments it was given. `Handle(v)` is an `Arc` pointing at `v`.
   */
  datatype Term =
    | Supplied(n: nat)
    | App(key: Key, args: seq<Term>)
    | Aggregate(items: seq<Term>)
    | Handle(target: Term)

  /** A cached value; `extract` is set on the entry filed under `Arc<T>`. */
  datatype Stored = Stored(handle: Term, extract: bool) {
    /** What `get` returns for this entry. */
    function Injected(): Term {
      if extract then Handle(handle) else handle
    }
  }

  datatype Body =
    | Constructor(isAsync: bool)            // a user constructor
    | TakeOnce(value: nat)                  // the one-shot provider behind `supply_group`
    | AggregateOf(element: Ty)              // the aggregate behind `Group<element>`

  datatype Provider = Provider(result: Ty, deps: seq<Ty>, body: Body)

  /** An invoker with the scope it was registered in. */
  datatype Invoker = Invoker(scope: ScopeId, deps: seq<Ty>, isAsync: bool)

  /**
   * What user code will do. A provider is constructed at most once and an invoker called at most
   * once, so how a call ends, and how often its future first answers "pending" if it is
   * asynchronous, are functions of the key and of the invoker's index.
   */
  datatype UserCode = UserCode(
    constructorFails: Key -> bool,
    constructorWaits: Key -> nat,
    invokerFails: nat -> bool,
    invokerWaits: nat -> nat)

  /** An answer user code has given. */
  datatype Answer = Constructed(key: Key, ok: bool) | Invoked(index: nat, ok: bool)

  datatype Values = Values(pub: map<Ty, Stored>, priv: map<(Ty, ScopeId), Stored>)

  datatype ValueNode = ValueNode(ty: Ty, scope: ScopeId, isPrivate: bool)

  /** The group tables that registration fills in (`src/container/group.rs`). */
  datatype Groups = Groups(
    members: map<Ty, seq<Key>>,
    registrations: map<Ty, Key>,
    virtualToElement: map<Key, Ty>,
    byType: map<Ty, Ty>,
    required: set<Ty>,
    nextMemberId: nat)

  function MembersOf(g: Groups, element: Ty): seq<Key> {
    if element in g.members then g.members[element] else []
  }

  /** Everything registration decides and construction leaves alone. */
  datatype Wiring = Wiring(
    chains: seq<seq<ScopeId>>,
    marks: seq<bool>,
    providers: map<Key, Provider>,
    publicIndex: map<Ty, Key>,
    privateAlias: map<(Ty, ScopeId), Key>,
    order: seq<Key>,
    orderIndex: map<Key, nat>,
    groups: Groups)

  predicate NoDup<T(==)>(s: seq<T>) {
    forall i, j :: 0 <= i < j < |s| ==> s[i] != s[j]
  }

  function Elems<T>(s: seq<T>): set<T> {
    set x | x in s
  }
}
