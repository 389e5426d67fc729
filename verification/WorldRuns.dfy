/** What holds in every run of a store and its callers, from the empty store on. */
module WorldRuns {
  import opened Prelude
  import opened StoreState
  import opened StoreInvariant
  import opened Collection
  import opened StoreWorld
  import opened WorldInvariant

  lemma StartInv(storeId: nat)
    ensures Inv(Start(storeId))
  {
  }

  lemma LockedKeepsInv(w: World, a: Action)
    requires Inv(w) && Can(w, a) && NeedsLock(a)
    ensures Inv(Do(w, a))
  {
    match a
    case DoCreate => CreateStep(w);
    case DoHandle(op, handle) => HandleStep(w, op, handle);
    case DoObserve(handle) => ObserveStep(w, handle);
    case DoUpgrade(weak) => UpgradeStep(w, weak);
    case DoCommit(permit, value, bytes) => CommitStep(w, permit, value, bytes);
    case DoFail(permit, error) => FailStep(w, permit, error);
    case DoCancel(permit) => CancelStep(w, permit);
    case DropPermit(permit) => DropStep(w, permit);
    case DoRemove(id) => RemoveStep(w, id);
    case CollectBegin(budget) => LockStep(w, Do(w, a));
    case CloseStore => CloseStep(w);
  }

  predicate Counts(a: Action) {
    a.CloneHandle? || a.DropHandle? || a.CloneWaiter? || a.DropWaiter? || a.FreeCell?
  }

  lemma UnlockedKeepsInv(w: World, a: Action)
    requires Inv(w) && Can(w, a) && !NeedsLock(a) && !Counts(a)
    ensures Inv(Do(w, a))
  {
    match a
    case Complete(cell) => CompleteStep(w, cell);
    case Poll(cell) => PollStep(w, cell);
    case CollectScan => ScanStep(w);
    case CollectEnd => CollectStep(w);
  }

  lemma CountsKeepInv(w: World, a: Action)
    requires Inv(w) && Can(w, a) && Counts(a)
    ensures Inv(Do(w, a))
  {
    match a
    case CloneHandle(handle) => CloneHandleStep(w, handle);
    case DropHandle(handle) => DropHandleStep(w, handle);
    case CloneWaiter(cell) => WaiterStep(w, cell);
    case DropWaiter(cell) => WaiterStep(w, cell);
    case FreeCell(cell) => FreeStep(w, cell);
  }

  lemma DropHandleStep(w: World, handle: Token)
    requires Inv(w)
    ensures Inv(w.(users := w.users - multiset{handle}))
  {
    CountsStep(w, w.(users := w.users - multiset{handle}));
  }

  lemma WaiterStep(w: World, cell: nat)
    requires Inv(w) && cell in w.waiters
    ensures Inv(w.(waiters := w.waiters + multiset{cell})) && Inv(w.(waiters := w.waiters - multiset{cell}))
  {
    CountsStep(w, w.(waiters := w.waiters + multiset{cell}));
    CountsStep(w, w.(waiters := w.waiters - multiset{cell}));
  }

  lemma FreeStep(w: World, cell: nat)
    requires Inv(w) && cell in w.outcomes && cell !in w.waiters
    ensures Inv(w.(freed := w.freed + {cell}))
  {
    CountsStep(w, w.(freed := w.freed + {cell}));
  }

  lemma CloneHandleStep(w: World, handle: Token)
    requires Inv(w) && handle in w.users
    ensures Inv(w.(users := w.users + multiset{handle}))
  {
    assert Pinned(w, handle);
    CountsStep(w, w.(users := w.users + multiset{handle}));
  }

  lemma StepKeepsInv(w: World, a: Action)
    requires Inv(w) && Can(w, a)
    ensures Inv(Do(w, a))
  {
    if NeedsLock(a) { LockedKeepsInv(w, a); }
    else if Counts(a) { CountsKeepInv(w, a); }
    else { UnlockedKeepsInv(w, a); }
  }

  /** `Valid` only makes `Do` defined; no run is ever cut short by it, as RunKeepsInv shows. */
  ghost predicate StepAt(run: seq<World>, actions: seq<Action>, k: nat)
    requires k < |actions| && k + 1 < |run|
  {
    Valid(run[k].store) && Can(run[k], actions[k]) && run[k + 1] == Do(run[k], actions[k])
  }

  /** `run` is what the callers' steps `actions` make of an empty store. */
  ghost predicate IsRun(run: seq<World>, actions: seq<Action>) {
    && |run| == |actions| + 1
    && run[0] == Start(run[0].store.storeId)
    && forall k: nat | k < |actions| :: StepAt(run, actions, k)
  }

  lemma {:induction false} RunKeepsInv(run: seq<World>, actions: seq<Action>, k: nat)
    requires IsRun(run, actions) && k < |run|
    ensures Inv(run[k])
  {
    if k == 0 {
      StartInv(run[0].store.storeId);
    } else {
      RunKeepsInv(run, actions, k - 1);
      assert StepAt(run, actions, k - 1);
      StepKeepsInv(run[k - 1], actions[k - 1]);
    }
  }

  // ---- what only ever grows

  /** Nothing on record is lost: committed values, issued identities, decided and published outcomes. */
  ghost predicate Grows(w: World, n: World) {
    && w.snapshots <= n.snapshots
    && w.store.issued <= n.store.issued
    && (forall c :: c in w.outcomes ==> c in n.outcomes && n.outcomes[c] == w.outcomes[c])
    && (forall c :: c in w.pending ==>
          (c in n.pending && n.pending[c] == w.pending[c]) || (c in n.outcomes && n.outcomes[c] == w.pending[c]))
  }

  lemma NotYetDecided(w: World, p: Permit)
    requires Inv(w) && p in w.permits && w.open
    ensures p.cell !in w.pending && p.cell !in w.outcomes
  {
    assert Guards(w.store, p) && w.attempts[p.cell] == p;
  }

  lemma HandleGrows(w: World, op: HandleOp, handle: Token)
    requires Inv(w) && w.open && handle in w.users
    ensures Grows(w, AfterHandle(w, op, handle))
  {
    assert Pinned(w, handle);
    HandleCases(op, w.store, handle);
  }

  lemma ObserveGrows(w: World, handle: Token)
    requires Inv(w) && w.open && handle in w.users
    ensures Grows(w, AfterObserve(w, handle))
  {
    assert Pinned(w, handle);
    ObserveEffect(w.store, handle);
  }

  lemma CommitGrows(w: World, p: Permit, value: Value, bytes: U64)
    requires Inv(w) && p in w.permits
    ensures Grows(w, AfterCommit(w, p, value, bytes))
  {
    if w.open {
      NotYetDecided(w, p);
      CommitEffect(w.store, p, value, bytes);
    }
  }

  lemma FailGrows(w: World, p: Permit, error: Fault)
    requires Inv(w) && p in w.permits
    ensures Grows(w, AfterFail(w, p, error))
  {
    if w.open {
      NotYetDecided(w, p);
      FailEffect(w.store, p, error);
    }
  }

  lemma CancelGrows(w: World, p: Permit)
    requires Inv(w) && p in w.permits
    ensures Grows(w, AfterCancel(w, p)) && Grows(w, AfterDrop(w, p))
  {
    if w.open {
      NotYetDecided(w, p);
      CancelEffect(w.store, p);
    }
  }

  lemma LockedGrows(w: World, a: Action)
    requires Inv(w) && Can(w, a) && NeedsLock(a)
    ensures Grows(w, Do(w, a))
  {
    match a
    case DoCreate => CreateGrows(w);
    case DoHandle(op, handle) => HandleGrows(w, op, handle);
    case DoObserve(handle) => ObserveGrows(w, handle);
    case DoCommit(permit, value, bytes) => CommitGrows(w, permit, value, bytes);
    case DoFail(permit, error) => FailGrows(w, permit, error);
    case DoCancel(permit) => CancelGrows(w, permit);
    case DropPermit(permit) => CancelGrows(w, permit);
    case DoRemove(id) => RemoveGrows(w, id);
    case _ =>
  }

  lemma RemoveGrows(w: World, id: AssetId)
    requires Inv(w)
    ensures Grows(w, AfterRemove(w, id))
  {
    RemoveKeepsValid(w.store, id, UsersOf(w, id));
  }

  lemma CreateGrows(w: World)
    requires Inv(w)
    ensures Grows(w, AfterCreate(w))
  {
    CreateKeepsValid(w.store);
  }

  lemma StepGrows(w: World, a: Action)
    requires Inv(w) && Can(w, a)
    ensures Grows(w, Do(w, a))
  {
    if NeedsLock(a) { LockedGrows(w, a); }
  }

  lemma {:induction false} RunGrows(run: seq<World>, actions: seq<Action>, j: nat, k: nat)
    requires IsRun(run, actions) && j <= k < |run|
    ensures Grows(run[j], run[k])
  {
    if j < k {
      RunGrows(run, actions, j, k - 1);
      RunStepGrows(run, actions, k - 1);
    }
  }

  lemma RunStepGrows(run: seq<World>, actions: seq<Action>, k: nat)
    requires IsRun(run, actions) && k < |actions|
    ensures Grows(run[k], run[k + 1])
  {
    RunKeepsInv(run, actions, k);
    assert StepAt(run, actions, k);
    StepGrows(run[k], actions[k]);
  }

  // ---- single flight

  /**
   In an open store no two live permits are for the same identity, and each guards the
   attempt its entry runs: that identity, that attempt number, that cell.
   */
  lemma SingleFlight(run: seq<World>, actions: seq<Action>, k: nat, p: Permit)
    requires IsRun(run, actions) && k < |run| && run[k].open && p in run[k].permits
    ensures Guards(run[k].store, p)
    ensures forall q :: q in run[k].permits && q.id == p.id ==> q == p
  {
    RunKeepsInv(run, actions, k);
    var w := run[k];
    forall q | q in w.permits && q.id == p.id ensures q == p { assert Guards(w.store, p) && Guards(w.store, q); }
  }

  /** A live permit is refused for lack of touches or for byte overflow only: never as stale, foreign or expired. */
  lemma PermitsAreHonoured(
    run: seq<World>, actions: seq<Action>, k: nat, p: Permit, value: Value, bytes: U64, error: Fault)
    requires IsRun(run, actions) && k < |run| && run[k].open && p in run[k].permits
    ensures Guards(run[k].store, p)
    ensures var s := run[k].store;
      && (Commit(s, p, value, bytes).reply.Err? <==> s.touch == U64_MAX || BytesAfter(s, p, bytes) > U64_MAX)
      && (Commit(s, p, value, bytes).reply.Err? ==>
            Commit(s, p, value, bytes).reply.error
              == if s.touch == U64_MAX then GenerationExhausted else ResidentBytesOverflow)
      && (Fail(s, p, error).reply.Err? <==> s.touch == U64_MAX)
      && (Cancel(s, p).reply.Err? <==> s.touch == U64_MAX)
  {
    SingleFlight(run, actions, k, p);
    RunKeepsInv(run, actions, k);
    CommitKeepsValid(run[k].store, p, value, bytes);
    FailKeepsValid(run[k].store, p, error);
    CancelKeepsValid(run[k].store, p);
  }

  // ---- one outcome per attempt

  /** Every attempt is running, decided or completed, and exactly one of the three. */
  lemma OneState(run: seq<World>, actions: seq<Action>, k: nat, c: nat)
    requires IsRun(run, actions) && k < |run| && c in run[k].attempts
    ensures var w := run[k];
      && (c in w.pending ==> c !in w.outcomes)
      && (c !in w.pending && c !in w.outcomes <==> w.open && Guards(w.store, w.attempts[c]))
      && (w.open ==> (Guards(w.store, w.attempts[c]) <==> IsActive(w.store, c)))
  {
    RunKeepsInv(run, actions, k);
    if run[k].open { ActiveAttempts(run[k], c); }
  }

  /** An attempt whose permit is gone is over, while the store has touches left or is closed. */
  lemma NoPermitNoAttempt(run: seq<World>, actions: seq<Action>, k: nat, c: nat)
    requires IsRun(run, actions) && k < |run| && c in run[k].attempts && run[k].attempts[c] !in run[k].permits
    requires run[k].store.touch < U64_MAX || !run[k].open
    ensures c in run[k].pending || c in run[k].outcomes
  {
    RunKeepsInv(run, actions, k);
  }

  /** What is decided when the attempt of `p` is cancelled: it keeps its previous value. */
  function Cancelling(s: State, p: Permit): Outcome
    requires Guards(s, p)
  {
    var entry := EntryAt(s, p.id.slot);
    Cancelled(p.id, p.attempt, SnapshotOption(entry, entry.phase.previous))
  }

  /**
   Dropping an unfinished permit of an open store decides its attempt as cancelled if and
   only if a touch is left; without one the identity stays producing with no producer.
   In a closed store its attempt was over before.
   */
  lemma DropEndsAttempt(run: seq<World>, actions: seq<Action>, k: nat, p: Permit)
    requires IsRun(run, actions) && k < |actions| && actions[k] == DropPermit(p)
    ensures var w, n := run[k], run[k + 1];
      && p !in n.permits
      && (w.open ==>
            && Guards(w.store, p)
            && (p.cell in n.pending <==> w.store.touch < U64_MAX)
            && (p.cell in n.pending ==> n.pending[p.cell] == Cancelling(w.store, p))
            && (p.cell !in n.pending ==> Guards(n.store, p) && p.cell !in n.outcomes))
      && (!w.open ==> (p.cell in w.pending || p.cell in w.outcomes) && n == w.(permits := w.permits - {p}))
  {
    RunKeepsInv(run, actions, k);
    assert StepAt(run, actions, k);
    DroppedPermit(run[k], p);
  }

  lemma DroppedPermit(w: World, p: Permit)
    requires Inv(w) && p in w.permits
    ensures var n := AfterDrop(w, p);
      && p !in n.permits
      && (w.open ==>
            && Guards(w.store, p)
            && (p.cell in n.pending <==> w.store.touch < U64_MAX)
            && (p.cell in n.pending ==> n.pending[p.cell] == Cancelling(w.store, p))
            && (p.cell !in n.pending ==> Guards(n.store, p) && p.cell !in n.outcomes))
      && (!w.open ==> (p.cell in w.pending || p.cell in w.outcomes) && n == w.(permits := w.permits - {p}))
  {
    assert w.attempts[p.cell] == p;
    if w.open { CancelEffect(w.store, p); }
  }

  /**
   A commit whose permit is dropped later was rejected, whatever ran in between, and the
   drop decides the attempt as cancelled if and only if somebody left it a touch.
   */
  lemma RejectedCommitThenDrop(
    run: seq<World>, actions: seq<Action>, j: nat, k: nat, p: Permit, value: Value, bytes: U64)
    requires IsRun(run, actions) && j < k < |actions| && run[j].open && run[k].open
    requires actions[j] == DoCommit(p, value, bytes) && actions[k] == DropPermit(p)
    ensures Commit(run[j].store, p, value, bytes).reply.Err? && Guards(run[k].store, p)
    ensures p.cell in run[k + 1].pending <==> run[k].store.touch < U64_MAX
    ensures p.cell in run[k + 1].pending ==> run[k + 1].pending[p.cell] == Cancelling(run[k].store, p)
  {
    DropEndsAttempt(run, actions, k, p);
    DropperOwns(run, actions, k, p);
    if Commit(run[j].store, p, value, bytes).reply.Ok? { CommittedIsDecided(run, actions, j, k, p); }
  }

  lemma DropperOwns(run: seq<World>, actions: seq<Action>, k: nat, p: Permit)
    requires IsRun(run, actions) && k < |actions| && actions[k] == DropPermit(p)
    ensures p in run[k].permits
  {
    assert StepAt(run, actions, k);
  }

  lemma CommitDecides(run: seq<World>, actions: seq<Action>, j: nat)
    requires IsRun(run, actions) && j < |actions| && run[j].open && actions[j].DoCommit?
    requires Commit(run[j].store, actions[j].permit, actions[j].value, actions[j].bytes).reply.Ok?
    ensures actions[j].permit.cell in run[j + 1].pending
  {
    assert StepAt(run, actions, j);
  }

  lemma DecidedStays(run: seq<World>, actions: seq<Action>, j: nat, k: nat, c: nat)
    requires IsRun(run, actions) && j <= k < |run| && c in run[j].pending
    ensures c in run[k].pending || c in run[k].outcomes
  {
    RunGrows(run, actions, j, k);
  }

  lemma CommittedIsDecided(run: seq<World>, actions: seq<Action>, j: nat, k: nat, p: Permit)
    requires IsRun(run, actions) && j < k < |run| && run[j].open && run[k].open
    requires actions[j].DoCommit? && actions[j].permit == p
    requires Commit(run[j].store, p, actions[j].value, actions[j].bytes).reply.Ok?
    ensures p !in run[k].permits
  {
    CommitDecides(run, actions, j);
    DecidedStays(run, actions, j + 1, k, p.cell);
    RunKeepsInv(run, actions, k);
    if p in run[k].permits { NotYetDecided(run[k], p); }
  }

  /** With no permit and no completion under way, every attempt ever started has its outcome. */
  lemma QuiescentIsComplete(run: seq<World>, actions: seq<Action>, k: nat)
    requires IsRun(run, actions) && k < |run| && run[k].permits == {} && run[k].pending == map[]
    requires run[k].store.touch < U64_MAX || !run[k].open
    ensures run[k].attempts.Keys == run[k].outcomes.Keys
  {
    RunKeepsInv(run, actions, k);
    forall c | c in run[k].attempts ensures c in run[k].outcomes { NoPermitNoAttempt(run, actions, k, c); }
  }

  /**
   Every waiter of an attempt, whenever it polls, sees the same outcome of that very
   attempt: what was decided under the lock is what is published, once and for all.
   */
  lemma OutcomeIsFixed(run: seq<World>, actions: seq<Action>, j: nat, k: nat, c: nat)
    requires IsRun(run, actions) && j <= k < |run|
    ensures c in run[j].outcomes ==>
      && c in run[k].outcomes && run[k].outcomes[c] == run[j].outcomes[c]
      && c in run[j].attempts && Describes(run[j].outcomes[c], run[j].attempts[c])
    ensures c in run[j].pending && c in run[k].outcomes ==> run[k].outcomes[c] == run[j].pending[c]
  {
    RunKeepsInv(run, actions, j);
    RunKeepsInv(run, actions, k);
    RunGrows(run, actions, j, k);
  }

  // ---- the renderer key

  function AsSet(snapshot: Option<Snapshot>): set<Snapshot> {
    if snapshot.Some? then {snapshot.value} else {}
  }

  function HandedBy(acquired: Acquired): set<Snapshot> {
    match acquired
    case AcquiredReady(snapshot) => {snapshot}
    case AcquiredFailed(failure) => AsSet(failure.previous)
    case _ => {}
  }

  function HandedByHandle(s: State, op: HandleOp, handle: Token): set<Snapshot> {
    var reply := HandleOut(op, s, handle).reply;
    if reply.Ok? then HandedBy(reply.value) else {}
  }

  function HandedByObserve(s: State, handle: Token): set<Snapshot> {
    var reply := Observe(s, handle).reply;
    if reply.Ok? then AsSet(Seen(reply.value)) else {}
  }

  function HandedByCommit(s: State, permit: Permit, value: Value, bytes: U64): set<Snapshot> {
    var reply := Commit(s, permit, value, bytes).reply;
    if reply.Ok? then {reply.value} else {}
  }

  function HandedByFail(s: State, permit: Permit, error: Fault): set<Snapshot> {
    var reply := Fail(s, permit, error).reply;
    if reply.Ok? then AsSet(reply.value.previous) else {}
  }

  /** The snapshots a step hands to its caller. */
  function Handed(w: World, a: Action): set<Snapshot> {
    match a
    case DoHandle(op, handle) => HandedByHandle(w.store, op, handle)
    case DoObserve(handle) => HandedByObserve(w.store, handle)
    case DoCommit(permit, value, bytes) => if w.open then HandedByCommit(w.store, permit, value, bytes) else {}
    case DoFail(permit, error) => if w.open then HandedByFail(w.store, permit, error) else {}
    case Poll(cell) => if cell in w.outcomes then AsSet(SnapshotIn(w.outcomes[cell])) else {}
    case _ => {}
  }

  /** What a step hands out has been committed, once, and is on record from then on. */
  lemma HandedIsRecorded(w: World, a: Action)
    requires Valid(w.store) && Pins(w) && Permits(w) && Snapshots(w) && Can(w, a)
    ensures Handed(w, a) <= w.snapshots + Committed(w, a)
  {
    match a
    case DoHandle(op, handle) => UserIsOwned(w, handle); HandleHandsRecorded(w, op, handle);
    case DoObserve(handle) => UserIsOwned(w, handle); ObserveHandsRecorded(w, handle);
    case DoFail(permit, error) => if w.open { FailHandsRecorded(w, permit, error); }
    case _ =>
  }

  /** The value a step commits. */
  function Committed(w: World, a: Action): set<Snapshot> {
    match a
    case DoCommit(permit, value, bytes) => if w.open then HandedByCommit(w.store, permit, value, bytes) else {}
    case _ => {}
  }

  lemma CommittedIsRecorded(w: World, a: Action)
    requires Valid(w.store) && Can(w, a)
    ensures Committed(w, a) <= Do(w, a).snapshots
  {
  }

  lemma UserIsOwned(w: World, handle: Token)
    requires Pins(w) && w.open && handle in w.users
    ensures Owned(w.store, handle)
  {
    assert Pinned(w, handle);
  }

  lemma HandleHandsRecorded(w: World, op: HandleOp, handle: Token)
    requires Valid(w.store) && Snapshots(w) && Owned(w.store, handle)
    ensures HandedByHandle(w.store, op, handle) <= w.snapshots
  {
    HandleCases(op, w.store, handle);
    RetainedIsRecorded(w, handle.id.slot);
  }

  /** Whatever an entry retains was recorded when it was committed. */
  lemma RetainedIsRecorded(w: World, i: nat)
    requires Snapshots(w) && Live(w.store, i)
    ensures AsSet(SnapshotOption(EntryAt(w.store, i), Retained(EntryAt(w.store, i).phase))) <= w.snapshots
  {
  }

  lemma ObserveHandsRecorded(w: World, handle: Token)
    requires Valid(w.store) && Snapshots(w) && Owned(w.store, handle)
    ensures HandedByObserve(w.store, handle) <= w.snapshots
  {
    ObserveEffect(w.store, handle);
    RetainedIsRecorded(w, handle.id.slot);
  }

  lemma FailHandsRecorded(w: World, p: Permit, error: Fault)
    requires Valid(w.store) && Snapshots(w) && Guards(w.store, p)
    ensures HandedByFail(w.store, p, error) <= w.snapshots
  {
    FailEffect(w.store, p, error);
    RetainedIsRecorded(w, p.id.slot);
  }

  /**
   The renderer key is sound: two snapshots handed out anywhere in a run with equal
   identity and content generation hold the same value and the same bytes.
   */
  lemma RendererKey(run: seq<World>, actions: seq<Action>, j: nat, k: nat, x: Snapshot, y: Snapshot)
    requires IsRun(run, actions) && j < |actions| && k < |actions|
    requires x in Handed(run[j], actions[j]) && y in Handed(run[k], actions[k])
    requires x.token.id == y.token.id && x.generation == y.generation
    ensures x.value == y.value && x.bytes == y.bytes
  {
    StepHandsRecorded(run, actions, j);
    StepHandsRecorded(run, actions, k);
    RunGrows(run, actions, j + 1, |actions|);
    RunGrows(run, actions, k + 1, |actions|);
    RunKeepsInv(run, actions, |actions|);
  }

  lemma StepHandsRecorded(run: seq<World>, actions: seq<Action>, k: nat)
    requires IsRun(run, actions) && k < |actions|
    ensures Handed(run[k], actions[k]) <= run[k + 1].snapshots
  {
    RunKeepsInv(run, actions, k);
    assert StepAt(run, actions, k);
    HandedIsRecorded(run[k], actions[k]);
    CommittedIsRecorded(run[k], actions[k]);
    RunStepGrows(run, actions, k);
  }

  // ---- identities

  /** The identity step `k` of a run creates, if it does. */
  ghost function Created(run: seq<World>, actions: seq<Action>, k: nat): Option<AssetId>
    requires k < |actions| == |run| - 1 && Valid(run[k].store)
  {
    if actions[k].DoCreate? && Create(run[k].store).reply.Ok? then Some(Create(run[k].store).reply.value.id) else None
  }

  lemma CreatedIsNew(run: seq<World>, actions: seq<Action>, k: nat)
    requires IsRun(run, actions) && k < |actions|
    ensures Valid(run[k].store)
    ensures var id := Created(run, actions, k);
      id.Some? ==> id.value !in run[k].store.issued && id.value in run[k + 1].store.issued
  {
    RunKeepsInv(run, actions, k);
    assert StepAt(run, actions, k);
    CreateKeepsValid(run[k].store);
  }

  /** No two `create` calls of a run return the same identity, however slots are recycled between them. */
  lemma IdentitiesAreUnique(run: seq<World>, actions: seq<Action>, j: nat, k: nat)
    requires IsRun(run, actions) && j < k < |actions|
    ensures Valid(run[j].store) && Valid(run[k].store)
    ensures var a, b := Created(run, actions, j), Created(run, actions, k); a.Some? && b.Some? ==> a != b
  {
    CreatedIsNew(run, actions, j);
    CreatedIsNew(run, actions, k);
    RunGrows(run, actions, j + 1, k);
  }

  // ---- pins

  /**
   A strong handle, or a snapshot, of an open store is never stale or foreign, and the
   identity it pins can be neither removed nor emptied by a collection.
   */
  lemma PinIsSound(run: seq<World>, actions: seq<Action>, k: nat, token: Token)
    requires IsRun(run, actions) && k < |run| && run[k].open && Pinned(run[k], token)
    ensures Live(run[k].store, token.id.slot)
    ensures var w := run[k];
      && Validate(w.store, token) == Ok(EntryAt(w.store, token.id.slot))
      && Remove(w.store, token.id, UsersOf(w, token.id)) == Out(w.store, Err(LiveUsers(StrongUsers(w, token))))
      && StrongUsers(w, token) > 0
  {
    RunKeepsInv(run, actions, k);
    OwnedIsValid(run[k].store, token);
    UsersArePins(run[k], token);
  }

  /** A collection that ends now leaves the slot of everything pinned as it is. */
  lemma CollectSparesPinned(run: seq<World>, actions: seq<Action>, k: nat, token: Token)
    requires IsRun(run, actions) && k < |actions| && actions[k].CollectEnd? && Pinned(run[k], token)
    ensures Live(run[k].store, token.id.slot) && EntryAt(run[k].store, token.id.slot).token == token
    ensures token.id.slot < |run[k + 1].store.slots|
    ensures run[k + 1].store.slots[token.id.slot] == run[k].store.slots[token.id.slot]
  {
    RunKeepsInv(run, actions, k);
    CollectEnds(run, actions, k);
    PinnedIsSpared(run[k], token);
  }

  lemma CollectEnds(run: seq<World>, actions: seq<Action>, k: nat)
    requires IsRun(run, actions) && k < |actions| && actions[k].CollectEnd?
    ensures run[k].scan.Some? && run[k + 1] == AfterCollect(run[k])
  {
    assert StepAt(run, actions, k);
  }

  lemma PinnedIsSpared(w: World, token: Token)
    requires Valid(w.store) && Pins(w) && w.scan.Some? && Pinned(w, token)
    ensures Owned(w.store, token) && token.id.slot < |AfterCollect(w).store.slots|
    ensures AfterCollect(w).store.slots[token.id.slot] == w.store.slots[token.id.slot]
  {
    CollectKeepsValid(w.store, w.scan.value.idle, w.scan.value.budget);
  }

  /** A weak handle upgrades exactly while its own identity is live, never to a later occupant. */
  lemma UpgradeIffLive(run: seq<World>, actions: seq<Action>, k: nat, weak: Token)
    requires IsRun(run, actions) && k < |run| && run[k].open && weak in run[k].tokens
    requires weak.id.store == run[k].store.storeId
    ensures var w := run[k];
      Upgrade(w.store, weak, Upgradable(w, weak)) == Ok(if Lookup(w.store, weak.id).Ok? then Some(weak) else None)
  {
    RunKeepsInv(run, actions, k);
    var w, i := run[k], weak.id.slot;
    if Lookup(w.store, weak.id).Ok? {
      assert SlotOk(w.store, i);
      assert EntryAt(w.store, i).token in w.tokens;
    }
  }

  // ---- bytes, counters and slots in every reachable state

  /** Bytes are conserved and fit the machine word: what is accounted for is what entries retain. */
  lemma BytesAreConserved(run: seq<World>, actions: seq<Action>, k: nat)
    requires IsRun(run, actions) && k < |run|
    ensures run[k].store.readyBytes == TotalBytes(run[k].store.slots) <= U64_MAX
    ensures forall i | 0 <= i < |run[k].store.slots| :: SlotBytes(run[k].store.slots[i]) <= run[k].store.readyBytes
  {
    RunKeepsInv(run, actions, k);
    var slots := run[k].store.slots;
    forall i | 0 <= i < |slots| ensures SlotBytes(slots[i]) <= run[k].store.readyBytes {
      TotalBytesUpdate(slots, i, slots[i]);
    }
  }

  /** The touch dominates attempts, attempts dominate contents; last touches are never shared. */
  lemma CountersDominate(run: seq<World>, actions: seq<Action>, k: nat, i: nat)
    requires IsRun(run, actions) && k < |run| && Live(run[k].store, i)
    ensures var s, entry := run[k].store, EntryAt(run[k].store, i);
      && entry.contentGeneration <= entry.attemptGeneration < entry.lastTouch <= s.touch <= U64_MAX
      && (entry.phase.Producing? ==> entry.contentGeneration < entry.attemptGeneration)
      && (Retained(entry.phase).Some? ==> Retained(entry.phase).value.generation == entry.contentGeneration)
      && (forall j: nat :: Live(s, j) && j != i ==> EntryAt(s, j).lastTouch != entry.lastTouch)
  {
    RunKeepsInv(run, actions, k);
    var s := run[k].store;
    assert SlotOk(s, i);
    forall j: nat | Live(s, j) && j != i ensures EntryAt(s, j).lastTouch != EntryAt(s, i).lastTouch {
      assert Apart(EntryAt(s, i), EntryAt(s, j));
    }
  }

  /** A slot is free exactly when it is empty and its current generation was never issued. */
  lemma FreeIsEmptyAndUnissued(run: seq<World>, actions: seq<Action>, k: nat, i: nat)
    requires IsRun(run, actions) && k < |run|
    ensures var s := run[k].store;
      i in s.free <==>
        i < |s.slots| && s.slots[i].entry.None? && AssetId(s.storeId, i, s.slots[i].generation) !in s.issued
  {
    RunKeepsInv(run, actions, k);
    var s := run[k].store;
    if i < |s.slots| {
      assert SlotOk(s, i);
      var id := AssetId(s.storeId, i, s.slots[i].generation);
      assert id in s.issued <==> WasIssued(s, id);
    }
  }

  /** An empty slot that is not free has used its last generation and is never handed out again. */
  lemma RetiredIsNeverReused(run: seq<World>, actions: seq<Action>, j: nat, k: nat, i: nat)
    requires IsRun(run, actions) && j <= k < |actions|
    requires i < |run[j].store.slots| && run[j].store.slots[i].entry.None? && i !in run[j].store.free
    ensures run[j].store.slots[i].generation == U32_MAX
    ensures Valid(run[k].store)
    ensures Created(run, actions, k).Some? ==> Created(run, actions, k).value.slot != i
  {
    RunKeepsInv(run, actions, j);
    RunKeepsInv(run, actions, k + 1);
    RunGrows(run, actions, j, k);
    RunGrows(run, actions, k, k + 1);
    CreatedIsNew(run, actions, k);
    assert SlotOk(run[j].store, i);
    assert WasIssued(run[j].store, AssetId(run[j].store.storeId, i, U32_MAX));
    var id := Created(run, actions, k);
    if id.Some? { LastGenerationEndsSlot(run[k].store, run[k + 1].store, run[j].store.storeId, i, id.value); }
  }

  /** Once the last generation of a slot is issued, all its identities are. */
  lemma LastGenerationEndsSlot(s: State, n: State, storeId: nat, i: nat, id: AssetId)
    requires Valid(s) && Valid(n) && AssetId(storeId, i, U32_MAX) in s.issued && s.issued <= n.issued && id in n.issued
    ensures id.slot == i ==> id in s.issued
  {
    assert WasIssued(s, AssetId(storeId, i, U32_MAX)) && WasIssued(n, AssetId(storeId, i, U32_MAX));
    assert WasIssued(n, id);
    assert SlotOk(s, i) && SlotOk(n, i);
    if id.slot == i { assert WasIssued(s, id); }
  }
}
