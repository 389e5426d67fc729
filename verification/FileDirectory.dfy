/**
 The loader's key directory over the store: what a request or a forget does to both, and
 all interleavings of any number of requests, forgets and other users as a step system.
 */
module FileDirectory {
  import opened Prelude
  import opened StoreState
  import opened StoreInvariant
  import opened StoreWorld
  import opened WorldInvariant
  import opened FileKey

  /** Directory entries are weak handles: they do not count as users. */
  type Directory = map<Key, Token>

  datatype Routed<+T> = Routed(state: State, directory: Directory, reply: Result<T, AssetError>)

  ghost function CreateFor(s: State, directory: Directory, key: Key): Routed<Token>
    requires forall i :: i in s.free ==> i < |s.slots|
  {
    var out := Create(s);
    Routed(out.state, if out.reply.Ok? then directory[key := out.reply.value] else directory, out.reply)
  }

  /** `upgradable`: whether some strong owner of the mapped token is left. */
  ghost function HandleFor(s: State, directory: Directory, key: Key, upgradable: bool): Routed<Token>
    requires forall i :: i in s.free ==> i < |s.slots|
  {
    if key !in directory then CreateFor(s, directory, key) else
    match Upgrade(s, directory[key], upgradable)
    case Err(error) => Routed(s, directory, Err(error))
    case Ok(Some(handle)) => Routed(s, directory, Ok(handle))
    case Ok(None) => CreateFor(s, directory, key)
  }

  function Forget(s: State, directory: Directory, key: Key, strongUsers: nat): Routed<()> {
    if key !in directory then Routed(s, directory, Ok(())) else
    var out := Remove(s, directory[key].id, strongUsers);
    match out.reply
    case Err(error) => Routed(out.state, directory, Err(error))
    case Ok(_) => Routed(out.state, directory - {key}, Ok(()))
  }

  /** A request that holds its handle: before `acquire`, or after it until the handle is dropped. */
  datatype Request = Request(key: Key, handle: Token, retry: bool, acquired: bool)

  datatype Loader = Loader(
    world: World,
    directory: Directory,
    requests: map<nat, Request>,
    /** History: the key each permit was requested under. */
    producers: map<Permit, Key>)

  datatype Step =
    | Route(request: nat, key: Key, retry: bool)
    | AcquireFor(request: nat)
    | Finish(request: nat)
    | ForgetKey(key: Key)
    | Other(action: Action)

  function Start(storeId: nat): Loader {
    Loader(StoreWorld.Start(storeId), map[], map[], map[])
  }

  /** Requests that own a strong handle with this token. */
  function Holders(requests: map<nat, Request>, token: Token): set<nat> {
    set r | r in requests && requests[r].handle == token
  }

  /** The loader keeps its store to itself: others neither create, remove nor acquire. */
  predicate Elsewhere(a: Action) {
    !a.DoCreate? && !a.DoRemove? && !a.DoHandle?
  }

  /** Nobody drops a handle that a request owns. */
  ghost predicate Can(l: Loader, s: Step) {
    match s
    case Route(r, _, _) => r !in l.requests && l.world.open && l.world.scan.None?
    case AcquireFor(r) => r in l.requests && !l.requests[r].acquired && l.world.open && l.world.scan.None?
    case Finish(r) => r in l.requests && l.requests[r].acquired
    case ForgetKey(_) => l.world.open && l.world.scan.None?
    case Other(a) =>
      && Elsewhere(a) && StoreWorld.Can(l.world, a)
      && (a.DropHandle? ==> |Holders(l.requests, a.handle)| < l.world.users[a.handle])
  }

  ghost function Routing(l: Loader, key: Key): Routed<Token>
    requires Valid(l.world.store)
  {
    HandleFor(l.world.store, l.directory, key, key in l.directory && Upgradable(l.world, l.directory[key]))
  }

  ghost function AfterRoute(l: Loader, r: nat, key: Key, retry: bool): Loader
    requires Valid(l.world.store)
  {
    var routed := Routing(l, key);
    var w := l.world.(store := routed.state);
    if routed.reply.Err? then l.(world := w) else
    var handle := routed.reply.value;
    l.(world := w.(users := w.users + multiset{handle}, tokens := w.tokens + {handle}),
       directory := routed.directory,
       requests := l.requests[r := Request(key, handle, retry, false)])
  }

  function OpOf(request: Request): HandleOp {
    if request.retry then OpRetry else OpAcquire
  }

  function AfterAcquire(l: Loader, r: nat): Loader
    requires r in l.requests
  {
    var request := l.requests[r];
    var reply := HandleOut(OpOf(request), l.world.store, request.handle).reply;
    l.(world := AfterHandle(l.world, OpOf(request), request.handle),
       requests := l.requests[r := request.(acquired := true)],
       producers := if reply.Ok? && reply.value.AcquiredProducer?
                    then l.producers[reply.value.permit := request.key] else l.producers)
  }

  function AfterFinish(l: Loader, r: nat): Loader
    requires r in l.requests
  {
    l.(world := l.world.(users := l.world.users - multiset{l.requests[r].handle}), requests := l.requests - {r})
  }

  ghost function Forgetting(l: Loader, key: Key): Routed<()> {
    Forget(l.world.store, l.directory, key, if key in l.directory then UsersOf(l.world, l.directory[key].id) else 0)
  }

  ghost function AfterForget(l: Loader, key: Key): Loader {
    l.(world := l.world.(store := Forgetting(l, key).state), directory := Forgetting(l, key).directory)
  }

  ghost function Do(l: Loader, s: Step): Loader
    requires Valid(l.world.store) && Can(l, s)
  {
    match s
    case Route(r, key, retry) => AfterRoute(l, r, key, retry)
    case AcquireFor(r) => AfterAcquire(l, r)
    case Finish(r) => AfterFinish(l, r)
    case ForgetKey(key) => AfterForget(l, key)
    case Other(a) => l.(world := StoreWorld.Do(l.world, a))
  }

  // ---- the invariant

  /** Mapped keys name live identities, and no two keys the same one. */
  ghost predicate Mapped(l: Loader) {
    && (forall key :: key in l.directory ==> Owned(l.world.store, l.directory[key]))
    && (forall j, k :: j in l.directory && k in l.directory && j != k ==> l.directory[j] != l.directory[k])
  }

  /** A request holds the very handle its key is mapped to, and one strong count for it. */
  ghost predicate Requests(l: Loader) {
    && (forall r :: r in l.requests ==>
          l.requests[r].key in l.directory && l.directory[l.requests[r].key] == l.requests[r].handle)
    && (forall token :: |Holders(l.requests, token)| <= l.world.users[token])
  }

  /** The key of a live permit is mapped to the identity it produces. */
  ghost predicate Producers(l: Loader) {
    forall p :: p in l.world.permits ==>
      p in l.producers && l.producers[p] in l.directory && l.directory[l.producers[p]].id == p.id
  }

  ghost predicate Inv(l: Loader) {
    StoreWorld.Inv(l.world) && Mapped(l) && Requests(l) && Producers(l)
  }
}
