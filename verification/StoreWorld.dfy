/**
 A store together with everything its callers own, as a step system. Every step is one
 critical section of one thread, one reference-count change, or one completion of an
 attempt cell; any thread may take any enabled step next. `collect` takes several steps,
 one per strong count it reads, with the store lock held throughout.
 */
module StoreWorld {
  import opened Prelude
  import opened StoreState
  import opened StoreInvariant
  import opened Collection

  /** A `collect` between locking and unlocking: slots before `next` have been scanned. */
  datatype Scan = Scan(budget: nat, next: nat, idle: set<Token>)

  datatype World = World(
    store: State,
    open: bool,
    scan: Option<Scan>,
    /** Strong handles callers own, those inside snapshots included. */
    users: multiset<Token>,
    /** Permits neither consumed nor dropped. */
    permits: set<Permit>,
    /** Outcomes decided under the lock whose `complete` has not run yet. */
    pending: map<nat, Outcome>,
    /** Every outcome ever published, by cell. */
    outcomes: map<nat, Outcome>,
    /** Completed cells whose last owner is gone. */
    freed: set<nat>,
    waiters: multiset<nat>,
    /** History: tokens created, attempts started (by cell) and values committed. */
    tokens: set<Token>,
    attempts: map<nat, Permit>,
    snapshots: set<Snapshot>)

  datatype Action =
    | DoCreate
    | DoHandle(op: HandleOp, handle: Token)
    | DoObserve(handle: Token)
    | DoUpgrade(weak: Token)
    | DoCommit(permit: Permit, value: Value, bytes: U64)
    | DoFail(permit: Permit, error: Fault)
    | DoCancel(permit: Permit)
    | DropPermit(permit: Permit)
    | Complete(cell: nat)
    | Poll(cell: nat)
    | CloneWaiter(cell: nat)
    | DropWaiter(cell: nat)
    | FreeCell(cell: nat)
    | CloneHandle(handle: Token)
    | DropHandle(handle: Token)
    | DoRemove(id: AssetId)
    | CollectBegin(budget: nat)
    | CollectScan
    | CollectEnd
    | CloseStore

  function Start(storeId: nat): World {
    World(Empty(storeId), true, None, multiset{}, {}, map[], map[], {}, multiset{}, {}, map[], {})
  }

  /** The snapshot an outcome owns. */
  function SnapshotIn(outcome: Outcome): Option<Snapshot> {
    match outcome
    case Published(snapshot) => Some(snapshot)
    case Faulted(failure) => failure.previous
    case Cancelled(_, _, previous) => previous
    case Closed => None
  }

  predicate Holds(outcome: Outcome, token: Token) {
    SnapshotIn(outcome).Some? && SnapshotIn(outcome).value.token == token
  }

  /** Strong owners of a token other than the store. */
  ghost function StrongUsers(w: World, token: Token): nat {
    w.users[token]
    + |set c | c in w.pending && Holds(w.pending[c], token)|
    + |set c | c in w.outcomes && c !in w.freed && Holds(w.outcomes[c], token)|
  }

  ghost predicate Pinned(w: World, token: Token) {
    || token in w.users
    || (exists c :: c in w.pending && Holds(w.pending[c], token))
    || (exists c :: c in w.outcomes && c !in w.freed && Holds(w.outcomes[c], token))
  }

  /** Steps that need the store lock, which a running `collect` holds. */
  predicate NeedsLock(a: Action) {
    a.DoCreate? || a.DoHandle? || a.DoObserve? || a.DoUpgrade? || a.DoCommit? || a.DoFail? || a.DoCancel?
    || a.DropPermit? || a.DoRemove? || a.CollectBegin? || a.CloseStore?
  }

  /** What ownership demands of the caller, and the lock of everyone. */
  ghost predicate Can(w: World, a: Action) {
    && (NeedsLock(a) ==> w.scan.None?)
    && match a
       case DoCreate => w.open
       case DoHandle(_, handle) => w.open && handle in w.users
       case DoObserve(handle) => w.open && handle in w.users
       case DoUpgrade(weak) => w.open && weak in w.tokens
       case DoCommit(permit, _, _) => permit in w.permits
       case DoFail(permit, _) => permit in w.permits
       case DoCancel(permit) => permit in w.permits
       case DropPermit(permit) => permit in w.permits
       case Complete(cell) => cell in w.pending
       case Poll(cell) => cell in w.waiters && cell in w.outcomes
       case CloneWaiter(cell) => cell in w.waiters
       case DropWaiter(cell) => cell in w.waiters
       case FreeCell(cell) => cell in w.outcomes && cell !in w.waiters && forall p :: p in w.permits ==> p.cell != cell
       case CloneHandle(handle) => handle in w.users
       case DropHandle(handle) => handle in w.users
       case DoRemove(_) => w.open
       case CollectBegin(_) => w.open
       case CollectScan => w.scan.Some? && w.scan.value.next < |w.store.slots|
       case CollectEnd => w.scan.Some? && w.scan.value.next == |w.store.slots|
       case CloseStore => w.open
  }

  function Owner(snapshot: Option<Snapshot>): multiset<Token> {
    if snapshot.Some? then multiset{snapshot.value.token} else multiset{}
  }

  function Gain(w: World, acquired: Acquired): World {
    match acquired
    case AcquiredReady(snapshot) => w.(users := w.users + Owner(Some(snapshot)))
    case AcquiredFailed(failure) => w.(users := w.users + Owner(failure.previous))
    case AcquiredWaiter(waiter) => w.(waiters := w.waiters + multiset{waiter.cell})
    case AcquiredProducer(permit) =>
      w.(permits := w.permits + {permit}, attempts := w.attempts[permit.cell := permit])
  }

  function Seen(observation: Observation): Option<Snapshot> {
    match observation
    case ObservedMissing(_) => None
    case ObservedProducing(_, _, current) => current
    case ObservedReady(snapshot) => Some(snapshot)
    case ObservedFailed(failure) => failure.previous
  }

  /** A permit settled its attempt: its outcome is on the way to the cell. */
  function Settle(w: World, permit: Permit, outcome: Outcome): World {
    w.(permits := w.permits - {permit}, pending := w.pending[permit.cell := outcome])
  }

  ghost function AfterCreate(w: World): World
    requires Valid(w.store)
  {
    var out := Create(w.store);
    var n := w.(store := out.state);
    if out.reply.Err? then n else
    n.(users := n.users + multiset{out.reply.value}, tokens := n.tokens + {out.reply.value})
  }

  function AfterHandle(w: World, op: HandleOp, handle: Token): World {
    var out := HandleOut(op, w.store, handle);
    var n := w.(store := out.state);
    if out.reply.Err? then n else Gain(n, out.reply.value)
  }

  function AfterObserve(w: World, handle: Token): World {
    var out := Observe(w.store, handle);
    var n := w.(store := out.state);
    if out.reply.Err? then n else n.(users := n.users + Owner(Seen(out.reply.value)))
  }

  ghost function AfterUpgrade(w: World, weak: Token): World {
    var reply := Upgrade(w.store, weak, Upgradable(w, weak));
    if reply.Ok? && reply.value.Some? then w.(users := w.users + multiset{reply.value.value}) else w
  }

  /** A rejected permit stays with its owner, who drops it next. */
  function AfterCommit(w: World, permit: Permit, value: Value, bytes: U64): World {
    if !w.open then w else
    var out := Commit(w.store, permit, value, bytes);
    var n := w.(store := out.state);
    if out.reply.Err? then n else
    Settle(n, permit, Published(out.reply.value)).(
      users := n.users + multiset{out.reply.value.token}, snapshots := n.snapshots + {out.reply.value})
  }

  function AfterFail(w: World, permit: Permit, error: Fault): World {
    if !w.open then w else
    var out := Fail(w.store, permit, error);
    var n := w.(store := out.state);
    if out.reply.Err? then n else
    Settle(n, permit, Faulted(out.reply.value)).(users := n.users + Owner(out.reply.value.previous))
  }

  function AfterCancel(w: World, permit: Permit): World {
    if !w.open then w else
    var out := Cancel(w.store, permit);
    var n := w.(store := out.state);
    if out.reply.Err? then n else Settle(n, permit, out.reply.value)
  }

  /** Dropping an unfinished permit cancels; the result of that cancel is ignored. */
  function AfterDrop(w: World, permit: Permit): World {
    AfterCancel(w, permit).(permits := w.permits - {permit})
  }

  function AfterComplete(w: World, cell: nat): World
    requires cell in w.pending
  {
    w.(pending := w.pending - {cell},
       outcomes := if cell in w.outcomes then w.outcomes else w.outcomes[cell := w.pending[cell]])
  }

  ghost function AfterRemove(w: World, id: AssetId): World {
    w.(store := Remove(w.store, id, UsersOf(w, id)).state)
  }

  /** `collect` looks at one slot and reads the strong count of its token. */
  ghost function AfterScan(w: World): World
    requires Can(w, CollectScan)
  {
    var scan := w.scan.value;
    var slot := w.store.slots[scan.next];
    var idle := if slot.entry.Some? && StrongUsers(w, slot.entry.value.token) == 0
                then scan.idle + {slot.entry.value.token} else scan.idle;
    w.(scan := Some(scan.(next := scan.next + 1, idle := idle)))
  }

  function AfterCollect(w: World): World
    requires w.scan.Some?
  {
    w.(store := Collected(w.store, w.scan.value.idle, w.scan.value.budget), scan := None)
  }

  /** Every attempt still running gets `StoreClosed`. */
  ghost function AfterClose(w: World): World {
    w.(open := false,
       pending := map c | c in w.pending.Keys + w.attempts.Keys && (c in w.pending || IsActive(w.store, c)) ::
                    if c in w.pending then w.pending[c] else Closed)
  }

  ghost function Do(w: World, a: Action): World
    requires Valid(w.store) && Can(w, a)
  {
    match a
    case DoCreate => AfterCreate(w)
    case DoHandle(op, handle) => AfterHandle(w, op, handle)
    case DoObserve(handle) => AfterObserve(w, handle)
    case DoUpgrade(weak) => AfterUpgrade(w, weak)
    case DoCommit(permit, value, bytes) => AfterCommit(w, permit, value, bytes)
    case DoFail(permit, error) => AfterFail(w, permit, error)
    case DoCancel(permit) => AfterCancel(w, permit)
    case DropPermit(permit) => AfterDrop(w, permit)
    case Complete(cell) => AfterComplete(w, cell)
    case Poll(cell) => w.(users := w.users + Owner(SnapshotIn(w.outcomes[cell])))
    case CloneWaiter(cell) => w.(waiters := w.waiters + multiset{cell})
    case DropWaiter(cell) => w.(waiters := w.waiters - multiset{cell})
    case FreeCell(cell) => w.(freed := w.freed + {cell})
    case CloneHandle(handle) => w.(users := w.users + multiset{handle})
    case DropHandle(handle) => w.(users := w.users - multiset{handle})
    case DoRemove(id) => AfterRemove(w, id)
    case CollectBegin(budget) => w.(scan := Some(Scan(budget, 0, {})))
    case CollectScan => AfterScan(w)
    case CollectEnd => AfterCollect(w)
    case CloseStore => AfterClose(w)
  }

  /** `Weak::upgrade` succeeds while the store or anyone else owns the token. */
  ghost predicate Upgradable(w: World, token: Token) {
    Pinned(w, token) || exists i: nat :: Live(w.store, i) && EntryAt(w.store, i).token == token
  }

  /** The strong count `remove` reads for the identity it was given. */
  ghost function UsersOf(w: World, id: AssetId): nat {
    if Lookup(w.store, id).Ok? then StrongUsers(w, EntryAt(w.store, id.slot).token) else 0
  }

  // ---- the invariant, one predicate per concern

  predicate Owned(s: State, token: Token) {
    Live(s, token.id.slot) && EntryAt(s, token.id.slot).token == token
  }

  ghost predicate Tokens(w: World) {
    && (forall t :: t in w.tokens ==> t.id in w.store.issued && t.addr < w.store.arcs)
    && (forall t, u :: t in w.tokens && u in w.tokens && t.id == u.id ==> t == u)
    && (forall i: nat :: Live(w.store, i) ==> EntryAt(w.store, i).token in w.tokens)
  }

  /** Whoever owns a token owns it in a live slot; scanned tokens found idle stay idle. */
  ghost predicate Pins(w: World) {
    && (w.open ==> forall t :: Pinned(w, t) ==> Owned(w.store, t))
    && (w.scan.Some? ==>
          && w.open && w.scan.value.next <= |w.store.slots|
          && forall t :: t in w.scan.value.idle ==> !Pinned(w, t))
  }

  /** An outcome is about the attempt whose cell holds it. */
  predicate Describes(outcome: Outcome, attempt: Permit) {
    match outcome
    case Published(snapshot) => snapshot.token.id == attempt.id
    case Faulted(failure) => failure.id == attempt.id && failure.attempt == attempt.attempt
    case Cancelled(id, number, _) => id == attempt.id && number == attempt.attempt
    case Closed => true
  }

  /** An attempt is running, decided or completed, and never two of these at once. */
  ghost predicate Attempts(w: World) {
    && (forall c :: c in w.attempts ==> c < w.store.arcs && w.attempts[c].cell == c)
    && (forall p :: p in w.permits ==> p.cell in w.attempts && w.attempts[p.cell] == p)
    && (forall c :: c in w.pending ==> c in w.attempts && c !in w.outcomes && Describes(w.pending[c], w.attempts[c]))
    && (forall c :: c in w.outcomes ==> c in w.attempts && Describes(w.outcomes[c], w.attempts[c]))
    && (forall c :: c in w.attempts ==>
          (c !in w.pending && c !in w.outcomes <==> w.open && Guards(w.store, w.attempts[c])))
    && (w.open ==> forall p :: Guards(w.store, p) ==> p.cell in w.attempts && w.attempts[p.cell] == p)
  }

  /** Permits guard running attempts, and all of them while touches are left; waiters have a cell. */
  ghost predicate Permits(w: World) {
    && (w.open ==> forall p :: p in w.permits ==> Guards(w.store, p))
    && (w.open && w.store.touch < U64_MAX ==>
          forall c :: c in w.attempts && Guards(w.store, w.attempts[c]) ==> w.attempts[c] in w.permits)
    && (forall c :: c in w.waiters ==> c in w.attempts && c !in w.freed)
    && (forall c :: c in w.freed ==> c in w.outcomes)
  }

  /** Committed values are fixed by identity and generation, and only such values are ever held. */
  ghost predicate Snapshots(w: World) {
    && (forall x, y :: x in w.snapshots && y in w.snapshots && x.token.id == y.token.id && x.generation == y.generation
          ==> x == y)
    && (forall x :: x in w.snapshots ==> x.token in w.tokens)
    && (forall x, i: nat :: x in w.snapshots && Live(w.store, i) && EntryAt(w.store, i).token.id == x.token.id
          ==> x.generation <= EntryAt(w.store, i).contentGeneration)
    && (forall i: nat :: Live(w.store, i) && Retains(w.store.slots[i]) ==>
          SnapshotOf(EntryAt(w.store, i), Retained(EntryAt(w.store, i).phase).value) in w.snapshots)
    && (forall c :: c in w.pending && SnapshotIn(w.pending[c]).Some? ==> SnapshotIn(w.pending[c]).value in w.snapshots)
    && (forall c :: c in w.outcomes && SnapshotIn(w.outcomes[c]).Some? ==>
          SnapshotIn(w.outcomes[c]).value in w.snapshots)
  }

  ghost predicate Inv(w: World) {
    Valid(w.store) && Tokens(w) && Pins(w) && Attempts(w) && Permits(w) && Snapshots(w)
  }
}
