/**
 The ledger of strong owners: every handle and snapshot a step hands out is counted as a user
 of its identity until it is dropped, so what callers hold is what `remove` sees.
 */
module Ledger {
  import opened Prelude
  import opened StoreState
  import opened StoreInvariant
  import opened StoreWorld
  import opened WorldInvariant
  import opened WorldRuns

  // ---- what a step hands out

  /** The strong handle a step hands out. */
  ghost function HandleFrom(w: World, a: Action): Option<Token>
    requires Valid(w.store)
  {
    match a
    case DoCreate => if Create(w.store).reply.Ok? then Some(Create(w.store).reply.value) else None
    case DoUpgrade(weak) =>
      var reply := Upgrade(w.store, weak, Upgradable(w, weak));
      if reply.Ok? then reply.value else None
    case CloneHandle(handle) => Some(handle)
    case _ => None
  }

  /** `Handed` has exactly the snapshots in the replies of the operations, whatever wraps them. */
  lemma HandedIsInReplies(w: World, a: Action, x: Snapshot)
    requires Can(w, a)
    ensures a.DoHandle? ==>
      (x in Handed(w, a) <==>
        var reply := HandleOut(a.op, w.store, a.handle).reply;
        || reply == Ok(AcquiredReady(x))
        || exists f: Failure | f.previous == Some(x) :: reply == Ok(AcquiredFailed(f)))
    ensures a.DoObserve? ==>
      (x in Handed(w, a) <==>
        var reply := Observe(w.store, a.handle).reply;
        || reply == Ok(ObservedReady(x))
        || (exists f: Failure | f.previous == Some(x) :: reply == Ok(ObservedFailed(f)))
        || exists id, n :: reply == Ok(ObservedProducing(id, n, Some(x))))
    ensures a.DoCommit? && w.open ==>
      (x in Handed(w, a) <==> Commit(w.store, a.permit, a.value, a.bytes).reply == Ok(x))
    ensures a.DoFail? && w.open ==>
      (x in Handed(w, a) <==>
        exists f: Failure | f.previous == Some(x) :: Fail(w.store, a.permit, a.error).reply == Ok(f))
    ensures a.Poll? ==>
      (x in Handed(w, a) <==>
        || w.outcomes[a.cell] == Published(x)
        || (exists f: Failure | f.previous == Some(x) :: w.outcomes[a.cell] == Faulted(f))
        || exists id, n :: w.outcomes[a.cell] == Cancelled(id, n, Some(x)))
  {
  }

  /** The owners of `t` among the handles and snapshots a step hands out. */
  ghost function Given(w: World, a: Action, t: Token): nat
    requires Valid(w.store)
  {
    (if HandleFrom(w, a) == Some(t) then 1 else 0) + |set x | x in Handed(w, a) && x.token == t|
  }

  function Dropped(a: Action, t: Token): nat {
    if a == DropHandle(t) then 1 else 0
  }

  lemma OwnersIn(o: Option<Snapshot>, t: Token)
    ensures |set x | x in AsSet(o) && x.token == t| == Owner(o)[t]
  {
    var owners := set x | x in AsSet(o) && x.token == t;
    assert owners == if o.Some? && o.value.token == t then {o.value} else {};
  }

  lemma HandleMoves(w: World, op: HandleOp, handle: Token, t: Token)
    requires Valid(w.store)
    ensures AfterHandle(w, op, handle).users[t] == w.users[t] + Given(w, DoHandle(op, handle), t)
  {
    var reply := HandleOut(op, w.store, handle).reply;
    var o := if reply.Err? then None else
             match reply.value
             case AcquiredReady(snapshot) => Some(snapshot)
             case AcquiredFailed(failure) => failure.previous
             case _ => None;
    assert Handed(w, DoHandle(op, handle)) == AsSet(o);
    OwnersIn(o, t);
  }

  lemma ObserveMoves(w: World, handle: Token, t: Token)
    requires Valid(w.store)
    ensures AfterObserve(w, handle).users[t] == w.users[t] + Given(w, DoObserve(handle), t)
  {
    var reply := Observe(w.store, handle).reply;
    OwnersIn(if reply.Ok? then Seen(reply.value) else None, t);
  }

  lemma CommitMoves(w: World, p: Permit, value: Value, bytes: U64, t: Token)
    requires Valid(w.store)
    ensures AfterCommit(w, p, value, bytes).users[t] == w.users[t] + Given(w, DoCommit(p, value, bytes), t)
  {
    var reply := Commit(w.store, p, value, bytes).reply;
    var o := if w.open && reply.Ok? then Some(reply.value) else None;
    assert Handed(w, DoCommit(p, value, bytes)) == AsSet(o);
    OwnersIn(o, t);
  }

  lemma FailMoves(w: World, p: Permit, error: Fault, t: Token)
    requires Valid(w.store)
    ensures AfterFail(w, p, error).users[t] == w.users[t] + Given(w, DoFail(p, error), t)
  {
    var reply := Fail(w.store, p, error).reply;
    OwnersIn(if w.open && reply.Ok? then reply.value.previous else None, t);
  }

  lemma CreateMoves(w: World, t: Token)
    requires Valid(w.store)
    ensures AfterCreate(w).users[t] == w.users[t] + Given(w, DoCreate, t)
  {
    OwnersIn(None, t);
  }

  lemma UpgradeMoves(w: World, weak: Token, t: Token)
    requires Valid(w.store)
    ensures AfterUpgrade(w, weak).users[t] == w.users[t] + Given(w, DoUpgrade(weak), t)
  {
    OwnersIn(None, t);
  }

  lemma CloneMoves(w: World, handle: Token, t: Token)
    requires Valid(w.store)
    ensures (w.users + multiset{handle})[t] == w.users[t] + Given(w, CloneHandle(handle), t)
  {
    OwnersIn(None, t);
  }

  lemma PollMoves(w: World, cell: nat, t: Token)
    requires Valid(w.store) && cell in w.outcomes
    ensures (w.users + Owner(SnapshotIn(w.outcomes[cell])))[t] == w.users[t] + Given(w, Poll(cell), t)
  {
    OwnersIn(SnapshotIn(w.outcomes[cell]), t);
  }

  predicate HandsOut(a: Action) {
    a.DoCreate? || a.DoHandle? || a.DoObserve? || a.DoUpgrade? || a.DoCommit? || a.DoFail? || a.Poll? || a.CloneHandle?
  }

  lemma NothingGiven(w: World, a: Action, t: Token)
    requires Valid(w.store) && !HandsOut(a)
    ensures Given(w, a, t) == 0
  {
    OwnersIn(None, t);
    assert Handed(w, a) == AsSet(None);
  }

  lemma RestKeepsUsers(w: World, a: Action)
    requires Valid(w.store) && Can(w, a) && !HandsOut(a) && !a.DropHandle?
    ensures Do(w, a).users == w.users
  {
  }

  lemma StoreMoves(w: World, a: Action, t: Token)
    requires Valid(w.store) && Can(w, a) && (a.DoHandle? || a.DoObserve? || a.DoCommit? || a.DoFail?)
    ensures Do(w, a).users[t] == w.users[t] + Given(w, a, t)
  {
    match a
    case DoHandle(op, handle) => HandleMoves(w, op, handle, t);
    case DoObserve(handle) => ObserveMoves(w, handle, t);
    case DoCommit(p, value, bytes) => CommitMoves(w, p, value, bytes, t);
    case DoFail(p, error) => FailMoves(w, p, error, t);
  }

  lemma OthersMove(w: World, a: Action, t: Token)
    requires Valid(w.store) && Can(w, a) && (a.DoCreate? || a.DoUpgrade? || a.CloneHandle? || a.Poll?)
    ensures Do(w, a).users[t] == w.users[t] + Given(w, a, t)
  {
    match a
    case DoCreate => CreateMoves(w, t);
    case DoUpgrade(weak) => UpgradeMoves(w, weak, t);
    case CloneHandle(handle) => CloneMoves(w, handle, t);
    case Poll(cell) => PollMoves(w, cell, t);
  }

  /** What callers hold moves by what a step hands out and by what they drop, and by nothing else. */
  lemma UsersMove(w: World, a: Action, t: Token)
    requires Valid(w.store) && Can(w, a)
    ensures Do(w, a).users[t] == w.users[t] + Given(w, a, t) - Dropped(a, t)
  {
    if a.DoHandle? || a.DoObserve? || a.DoCommit? || a.DoFail? { StoreMoves(w, a, t); }
    else if HandsOut(a) { OthersMove(w, a, t); }
    else {
      NothingGiven(w, a, t);
      if !a.DropHandle? { RestKeepsUsers(w, a); }
    }
  }

  // ---- what cells own

  /** The cells, other than freed ones, with an outcome that owns `t`. */
  function Owning(outcomes: map<nat, Outcome>, freed: set<nat>, t: Token): set<nat> {
    set c | c in outcomes && c !in freed && Holds(outcomes[c], t)
  }

  /** Owners of `t` in outcomes decided and in outcomes published. */
  function CellOwners(w: World, t: Token): nat {
    |Owning(w.pending, {}, t)| + |Owning(w.outcomes, w.freed, t)|
  }

  lemma OwningParts(w: World, t: Token)
    ensures StrongUsers(w, t) == w.users[t] + CellOwners(w, t)
  {
    assert Owning(w.pending, {}, t) == set c | c in w.pending && Holds(w.pending[c], t);
    assert Owning(w.outcomes, w.freed, t) == set c | c in w.outcomes && c !in w.freed && Holds(w.outcomes[c], t);
  }

  /** The outcome a step decides under the lock. */
  function Decided(w: World, a: Action): Option<Outcome> {
    if !w.open then None else
    match a
    case DoCommit(p, value, bytes) =>
      var reply := Commit(w.store, p, value, bytes).reply;
      if reply.Ok? then Some(Published(reply.value)) else None
    case DoFail(p, error) =>
      var reply := Fail(w.store, p, error).reply;
      if reply.Ok? then Some(Faulted(reply.value)) else None
    case DoCancel(p) => Cancelling(w.store, p)
    case DropPermit(p) => Cancelling(w.store, p)
    case _ => None
  }

  function Cancelling(s: State, p: Permit): Option<Outcome> {
    var reply := Cancel(s, p).reply;
    if reply.Ok? then Some(reply.value) else None
  }

  /** One more owner when a cell is about to get an outcome with a snapshot of `t`. */
  function Kept(outcome: Option<Outcome>, t: Token): nat {
    if outcome.Some? && Holds(outcome.value, t) then 1 else 0
  }

  /** One less when a cell with such an outcome loses its last owner. */
  function Released(w: World, a: Action, t: Token): nat {
    if a.FreeCell? && a.cell in Owning(w.outcomes, w.freed, t) then 1 else 0
  }

  lemma OwningGains(outcomes: map<nat, Outcome>, freed: set<nat>, cell: nat, outcome: Outcome, t: Token)
    requires cell !in outcomes && cell !in freed
    ensures |Owning(outcomes[cell := outcome], freed, t)| == |Owning(outcomes, freed, t)| + Kept(Some(outcome), t)
  {
    var before, after := Owning(outcomes, freed, t), Owning(outcomes[cell := outcome], freed, t);
    assert after == if Holds(outcome, t) then before + {cell} else before;
  }

  lemma OwningLoses(outcomes: map<nat, Outcome>, cell: nat, t: Token)
    requires cell in outcomes
    ensures |Owning(outcomes - {cell}, {}, t)| == |Owning(outcomes, {}, t)| - Kept(Some(outcomes[cell]), t)
  {
    var before, after := Owning(outcomes, {}, t), Owning(outcomes - {cell}, {}, t);
    assert after == before - {cell};
  }

  lemma OwningFreed(outcomes: map<nat, Outcome>, freed: set<nat>, cell: nat, t: Token)
    ensures Owning(outcomes, freed + {cell}, t) == Owning(outcomes, freed, t) - {cell}
  {
  }

  /** A permit method decides an outcome or leaves the cells alone. */
  ghost predicate Decides(w: World, n: World, cell: nat, outcome: Option<Outcome>) {
    && n.outcomes == w.outcomes && n.freed == w.freed
    && n.pending == if outcome.None? then w.pending else w.pending[cell := outcome.value]
  }

  lemma CommitDecides(w: World, p: Permit, value: Value, bytes: U64)
    ensures Decides(w, AfterCommit(w, p, value, bytes), p.cell, Decided(w, DoCommit(p, value, bytes)))
  {
  }

  lemma FailDecides(w: World, p: Permit, error: Fault)
    ensures Decides(w, AfterFail(w, p, error), p.cell, Decided(w, DoFail(p, error)))
  {
  }

  lemma CancelDecides(w: World, p: Permit)
    ensures Decides(w, AfterCancel(w, p), p.cell, Decided(w, DoCancel(p)))
    ensures Decides(w, AfterDrop(w, p), p.cell, Decided(w, DropPermit(p)))
  {
  }

  lemma PermitDecides(w: World, a: Action)
    requires Valid(w.store) && Can(w, a) && (a.DoCommit? || a.DoFail? || a.DoCancel? || a.DropPermit?)
    ensures Decides(w, Do(w, a), a.permit.cell, Decided(w, a))
  {
    match a
    case DoCommit(p, value, bytes) => CommitDecides(w, p, value, bytes);
    case DoFail(p, error) => FailDecides(w, p, error);
    case DoCancel(p) => CancelDecides(w, p);
    case DropPermit(p) => CancelDecides(w, p);
  }

  lemma DecidedKeeps(w: World, n: World, cell: nat, outcome: Option<Outcome>, t: Token)
    requires Decides(w, n, cell, outcome) && (outcome.Some? ==> cell !in w.pending)
    ensures CellOwners(n, t) == CellOwners(w, t) + Kept(outcome, t)
  {
    if outcome.Some? { OwningGains(w.pending, {}, cell, outcome.value, t); }
  }

  lemma PermitKeeps(w: World, a: Action, t: Token)
    requires Inv(w) && Can(w, a) && (a.DoCommit? || a.DoFail? || a.DoCancel? || a.DropPermit?)
    ensures CellOwners(Do(w, a), t) == CellOwners(w, t) + Kept(Decided(w, a), t)
  {
    if w.open { NotYetDecided(w, a.permit); }
    PermitDecides(w, a);
    DecidedKeeps(w, Do(w, a), a.permit.cell, Decided(w, a), t);
  }

  /** The completion moves an outcome from the way to its cell into the cell. */
  lemma CompleteKeeps(w: World, cell: nat, t: Token)
    requires cell in w.pending && cell !in w.outcomes && cell !in w.freed
    ensures CellOwners(AfterComplete(w, cell), t) == CellOwners(w, t)
  {
    OwningLoses(w.pending, cell, t);
    OwningGains(w.outcomes, w.freed, cell, w.pending[cell], t);
  }

  lemma FreeReleases(w: World, cell: nat, t: Token)
    requires cell in w.outcomes
    ensures CellOwners(w.(freed := w.freed + {cell}), t) == CellOwners(w, t) - Released(w, FreeCell(cell), t)
  {
    OwningFreed(w.outcomes, w.freed, cell, t);
  }

  lemma CloseKeeps(w: World, t: Token)
    ensures CellOwners(AfterClose(w), t) == CellOwners(w, t)
  {
    assert Owning(AfterClose(w).pending, {}, t) == Owning(w.pending, {}, t);
  }

  predicate Settling(a: Action) {
    a.DoCommit? || a.DoFail? || a.DoCancel? || a.DropPermit? || a.Complete? || a.FreeCell? || a.CloseStore?
  }

  lemma LockedKeepsCells(w: World, a: Action)
    requires Valid(w.store) && Can(w, a) && NeedsLock(a) && !Settling(a)
    ensures Decides(w, Do(w, a), 0, None)
  {
    match a
    case DoHandle(op, handle) => HandleKeepsCells(w, op, handle);
    case DoObserve(handle) => ObserveKeepsCells(w, handle);
    case _ =>
  }

  lemma GainKeepsCells(w: World, acquired: Acquired)
    ensures Decides(w, Gain(w, acquired), 0, None)
  {
  }

  lemma HandleKeepsCells(w: World, op: HandleOp, handle: Token)
    ensures Decides(w, AfterHandle(w, op, handle), 0, None)
  {
    var out := HandleOut(op, w.store, handle);
    if out.reply.Ok? { GainKeepsCells(w.(store := out.state), out.reply.value); }
  }

  lemma ObserveKeepsCells(w: World, handle: Token)
    ensures Decides(w, AfterObserve(w, handle), 0, None)
  {
  }

  lemma OwnersKeepCells(w: World, n: World)
    requires n == w.(users := n.users, waiters := n.waiters)
    ensures Decides(w, n, 0, None)
  {
  }

  lemma CountsKeepCells(w: World, a: Action)
    requires Valid(w.store) && Can(w, a) && Counts(a) && !a.FreeCell?
    ensures Decides(w, Do(w, a), 0, None)
  {
    match a
    case CloneHandle(handle) => OwnersKeepCells(w, w.(users := w.users + multiset{handle}));
    case DropHandle(handle) => OwnersKeepCells(w, w.(users := w.users - multiset{handle}));
    case CloneWaiter(cell) => OwnersKeepCells(w, w.(waiters := w.waiters + multiset{cell}));
    case DropWaiter(cell) => OwnersKeepCells(w, w.(waiters := w.waiters - multiset{cell}));
  }

  lemma CollectKeepsCells(w: World, a: Action)
    requires Valid(w.store) && Can(w, a) && (a.CollectScan? || a.CollectEnd?)
    ensures Decides(w, Do(w, a), 0, None)
  {
    if a.CollectScan? { ScanKeepsCells(w); }
  }

  lemma ScanKeepsCells(w: World)
    requires Can(w, CollectScan)
    ensures Decides(w, AfterScan(w), 0, None)
  {
  }

  lemma UnlockedKeepsCells(w: World, a: Action)
    requires Valid(w.store) && Can(w, a) && !NeedsLock(a) && !Settling(a)
    ensures Decides(w, Do(w, a), 0, None)
  {
    if Counts(a) { CountsKeepCells(w, a); }
    else if a.CollectScan? || a.CollectEnd? { CollectKeepsCells(w, a); }
  }

  lemma SettlingMoves(w: World, a: Action, t: Token)
    requires Inv(w) && Can(w, a) && Settling(a)
    ensures CellOwners(Do(w, a), t) == CellOwners(w, t) + Kept(Decided(w, a), t) - Released(w, a, t)
  {
    if a.Complete? { CompleteKeeps(w, a.cell, t); }
    else if a.FreeCell? { FreeReleases(w, a.cell, t); }
    else if a.CloseStore? { CloseKeeps(w, t); }
    else { PermitKeeps(w, a, t); }
  }

  lemma CellsMove(w: World, a: Action, t: Token)
    requires Inv(w) && Can(w, a)
    ensures CellOwners(Do(w, a), t) == CellOwners(w, t) + Kept(Decided(w, a), t) - Released(w, a, t)
  {
    if Settling(a) { SettlingMoves(w, a, t); }
    else {
      if NeedsLock(a) { LockedKeepsCells(w, a); } else { UnlockedKeepsCells(w, a); }
      DecidedKeeps(w, Do(w, a), 0, None, t);
    }
  }

  /**
   The strong count moves by one for each handle and snapshot handed out and for each outcome
   that keeps a snapshot, and back only when a caller drops one or a cell is freed.
   */
  lemma StrongUsersMove(w: World, a: Action, t: Token)
    requires Inv(w) && Can(w, a)
    ensures StrongUsers(Do(w, a), t)
         == StrongUsers(w, t) + Given(w, a, t) + Kept(Decided(w, a), t) - Dropped(a, t) - Released(w, a, t)
  {
    UsersMove(w, a, t);
    CellsMove(w, a, t);
    OwningParts(w, t);
    OwningParts(Do(w, a), t);
  }

  // ---- over a run

  /** Owners of `t` handed out in the first `k` steps. */
  ghost function HandedOut(run: seq<World>, actions: seq<Action>, k: nat, t: Token): nat
    requires IsRun(run, actions) && k <= |actions|
  {
    if k == 0 then 0 else
    assert StepAt(run, actions, k - 1);
    HandedOut(run, actions, k - 1, t) + Given(run[k - 1], actions[k - 1], t)
  }

  function DroppedSoFar(actions: seq<Action>, k: nat, t: Token): nat
    requires k <= |actions|
  {
    if k == 0 then 0 else DroppedSoFar(actions, k - 1, t) + Dropped(actions[k - 1], t)
  }

  lemma UsersMoveAt(run: seq<World>, actions: seq<Action>, k: nat, t: Token)
    requires IsRun(run, actions) && k < |actions|
    ensures Valid(run[k].store)
    ensures run[k + 1].users[t] == run[k].users[t] + Given(run[k], actions[k], t) - Dropped(actions[k], t)
  {
    assert StepAt(run, actions, k);
    UsersMove(run[k], actions[k], t);
  }

  /** The books balance: what was handed out is what callers still hold and what they have dropped. */
  lemma {:induction false} LedgerBalances(run: seq<World>, actions: seq<Action>, k: nat, t: Token)
    requires IsRun(run, actions) && k <= |actions|
    ensures HandedOut(run, actions, k, t) == run[k].users[t] + DroppedSoFar(actions, k, t)
  {
    if k > 0 {
      LedgerBalances(run, actions, k - 1, t);
      UsersMoveAt(run, actions, k - 1, t);
    }
  }

  /**
   While a handle or snapshot handed out for an identity has not been dropped, its store,
   if open, resolves it, and answers a removal with at least that many users.
   */
  lemma UndroppedBlocksRemove(run: seq<World>, actions: seq<Action>, k: nat, t: Token)
    requires IsRun(run, actions) && k <= |actions| && run[k].open
    requires HandedOut(run, actions, k, t) > DroppedSoFar(actions, k, t)
    ensures var w := run[k];
      && Live(w.store, t.id.slot) && Validate(w.store, t) == Ok(EntryAt(w.store, t.id.slot))
      && Remove(w.store, t.id, UsersOf(w, t.id)) == Out(w.store, Err(LiveUsers(StrongUsers(w, t))))
      && StrongUsers(w, t) >= HandedOut(run, actions, k, t) - DroppedSoFar(actions, k, t)
  {
    LedgerBalances(run, actions, k, t);
    assert t in run[k].users;
    PinIsSound(run, actions, k, t);
  }

  /** In particular a snapshot pins its identity from the step that handed it out until it is dropped. */
  lemma SnapshotPins(run: seq<World>, actions: seq<Action>, j: nat, k: nat, x: Snapshot)
    requires IsRun(run, actions) && j < k <= |actions| && run[k].open && x in Handed(run[j], actions[j])
    requires forall i | j < i < k :: actions[i] != DropHandle(x.token)
    ensures var w := run[k];
      && Pinned(w, x.token) && Live(w.store, x.token.id.slot)
      && Remove(w.store, x.token.id, UsersOf(w, x.token.id)) == Out(w.store, Err(LiveUsers(StrongUsers(w, x.token))))
      && StrongUsers(w, x.token) > 0
  {
    HandedIsUser(run, actions, j, x);
    UsersStay(run, actions, j + 1, k, x.token);
    PinIsSound(run, actions, k, x.token);
  }

  lemma HandedIsUser(run: seq<World>, actions: seq<Action>, j: nat, x: Snapshot)
    requires IsRun(run, actions) && j < |actions| && x in Handed(run[j], actions[j])
    ensures x.token in run[j + 1].users
  {
    UsersMoveAt(run, actions, j, x.token);
    assert x in set y | y in Handed(run[j], actions[j]) && y.token == x.token;
  }

  lemma {:induction false} UsersStay(run: seq<World>, actions: seq<Action>, j: nat, k: nat, t: Token)
    requires IsRun(run, actions) && j <= k <= |actions| && t in run[j].users
    requires forall i | j <= i < k :: actions[i] != DropHandle(t)
    ensures t in run[k].users
    decreases k
  {
    if j < k {
      UsersStay(run, actions, j, k - 1, t);
      UsersMoveAt(run, actions, k - 1, t);
    }
  }

  // ---- waiters

  /** The cell of the waiter a step hands out. */
  function WaiterFrom(w: World, a: Action): Option<nat> {
    match a
    case DoHandle(op, handle) =>
      var reply := HandleOut(op, w.store, handle).reply;
      if reply.Ok? && reply.value.AcquiredWaiter? then Some(reply.value.waiter.cell) else None
    case CloneWaiter(cell) => Some(cell)
    case _ => None
  }

  function Joins(w: World, a: Action, c: nat): nat {
    if WaiterFrom(w, a) == Some(c) then 1 else 0
  }

  function Leaves(a: Action, c: nat): nat {
    if a == DropWaiter(c) then 1 else 0
  }

  lemma HandleJoins(w: World, op: HandleOp, handle: Token, c: nat)
    ensures AfterHandle(w, op, handle).waiters[c] == w.waiters[c] + Joins(w, DoHandle(op, handle), c)
  {
  }

  lemma LockedKeepsWaiters(w: World, a: Action)
    requires Valid(w.store) && Can(w, a) && NeedsLock(a) && !a.DoHandle?
    ensures Do(w, a).waiters == w.waiters
  {
  }

  lemma UnlockedKeepsWaiters(w: World, a: Action)
    requires Valid(w.store) && Can(w, a) && !NeedsLock(a) && !a.CloneWaiter? && !a.DropWaiter?
    ensures Do(w, a).waiters == w.waiters
  {
  }

  /** Waiters move by those handed out and those dropped, and by nothing else. */
  lemma WaitersMove(w: World, a: Action, c: nat)
    requires Valid(w.store) && Can(w, a)
    ensures Do(w, a).waiters[c] == w.waiters[c] + Joins(w, a, c) - Leaves(a, c)
  {
    if a.DoHandle? { HandleJoins(w, a.op, a.handle, c); }
    else if NeedsLock(a) { LockedKeepsWaiters(w, a); }
    else if !a.CloneWaiter? && !a.DropWaiter? { UnlockedKeepsWaiters(w, a); }
  }

  function JoinedSoFar(run: seq<World>, actions: seq<Action>, k: nat, c: nat): nat
    requires k <= |actions| && k <= |run|
  {
    if k == 0 then 0 else JoinedSoFar(run, actions, k - 1, c) + Joins(run[k - 1], actions[k - 1], c)
  }

  function LeftSoFar(actions: seq<Action>, k: nat, c: nat): nat
    requires k <= |actions|
  {
    if k == 0 then 0 else LeftSoFar(actions, k - 1, c) + Leaves(actions[k - 1], c)
  }

  lemma {:induction false} WaitersBalance(run: seq<World>, actions: seq<Action>, k: nat, c: nat)
    requires IsRun(run, actions) && k <= |actions|
    ensures JoinedSoFar(run, actions, k, c) == run[k].waiters[c] + LeftSoFar(actions, k, c)
  {
    if k > 0 {
      WaitersBalance(run, actions, k - 1, c);
      assert StepAt(run, actions, k - 1);
      WaitersMove(run[k - 1], actions[k - 1], c);
    }
  }

  /**
   While a waiter handed out for an attempt has not been dropped, its cell is there, and the
   waiter can see the outcome as soon as there is one.
   */
  lemma UndroppedWaiterSees(run: seq<World>, actions: seq<Action>, k: nat, c: nat)
    requires IsRun(run, actions) && k <= |actions| && JoinedSoFar(run, actions, k, c) > LeftSoFar(actions, k, c)
    ensures var w := run[k];
      c in w.attempts && c !in w.freed && (c in w.outcomes ==> Can(w, Poll(c)))
  {
    WaitersBalance(run, actions, k, c);
    RunKeepsInv(run, actions, k);
    assert c in run[k].waiters;
  }
}
