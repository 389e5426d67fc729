/**
 Least recently used, over whole runs: every successful access makes its identity the most
 recent one, nothing else moves a last touch, and a collection takes values in that order.
 */
module Recency {
  import opened Prelude
  import opened StoreState
  import opened StoreInvariant
  import opened Collection
  import opened StoreWorld
  import opened WorldInvariant
  import opened WorldRuns
  import opened CollectRuns
  import opened TokenLife

  function Reached<T>(reply: Result<T, AssetError>, id: AssetId): Option<AssetId> {
    if reply.Ok? then Some(id) else None
  }

  /** The identity a step accessed with success. */
  ghost function Accessed(w: World, a: Action): Option<AssetId>
    requires Valid(w.store)
  {
    match a
    case DoCreate => if Create(w.store).reply.Ok? then Some(Create(w.store).reply.value.id) else None
    case DoHandle(op, handle) => Reached(HandleOut(op, w.store, handle).reply, handle.id)
    case DoObserve(handle) => Reached(Observe(w.store, handle).reply, handle.id)
    case DoCommit(p, value, bytes) => if w.open then Reached(Commit(w.store, p, value, bytes).reply, p.id) else None
    case DoFail(p, error) => if w.open then Reached(Fail(w.store, p, error).reply, p.id) else None
    case DoCancel(p) => if w.open then Reached(Cancel(w.store, p).reply, p.id) else None
    case DropPermit(p) => if w.open then Reached(Cancel(w.store, p).reply, p.id) else None
    case _ => None
  }

  /** An accessed identity carries the new touch; every other one that lives afterwards keeps its own. */
  ghost predicate Ages(s: State, n: State, accessed: Option<AssetId>) {
    && s.touch <= n.touch
    && (accessed.Some? ==>
          var id := accessed.value;
          s.touch < n.touch && Lookup(n, id).Ok? && EntryAt(n, id.slot).lastTouch == n.touch)
    && (forall id | Lookup(n, id).Ok? && accessed != Some(id) ::
          Lookup(s, id).Ok? && EntryAt(n, id.slot).lastTouch == EntryAt(s, id.slot).lastTouch)
  }

  lemma CreateAges(s: State)
    requires Valid(s)
    ensures var out := Create(s);
      Ages(s, out.state, if out.reply.Ok? then Some(out.reply.value.id) else None)
  {
    CreateKeepsValid(s);
    if Create(s).reply.Ok? { CreateEffect(s); }
  }

  /** One live entry was rewritten and carries the new touch. */
  ghost predicate Renews(s: State, n: State, id: AssetId) {
    && Lookup(s, id).Ok? && n.storeId == s.storeId && |n.slots| == |s.slots|
    && (forall j | 0 <= j < |s.slots| && j != id.slot :: n.slots[j] == s.slots[j])
    && n.slots[id.slot].generation == s.slots[id.slot].generation
    && Live(n, id.slot) && EntryAt(n, id.slot).lastTouch == n.touch == s.touch + 1
  }

  ghost predicate RenewsIf<T>(s: State, out: Out<T>, id: AssetId) {
    if out.reply.Ok? then Renews(s, out.state, id) else Same(s, out.state)
  }

  lemma RenewedAges<T>(s: State, out: Out<T>, id: AssetId)
    requires RenewsIf(s, out, id)
    ensures Ages(s, out.state, Reached(out.reply, id))
  {
  }

  lemma HandleRenews(op: HandleOp, s: State, handle: Token)
    requires Valid(s)
    ensures RenewsIf(s, HandleOut(op, s, handle), handle.id)
  {
    if s.touch < U64_MAX && Validate(s, handle).Ok? { AttemptsLeft(s, handle.id.slot); }
  }

  lemma CommitRenews(s: State, p: Permit, value: Value, bytes: U64)
    ensures RenewsIf(s, Commit(s, p, value, bytes), p.id)
  {
  }

  lemma FailRenews(s: State, p: Permit, error: Fault)
    ensures RenewsIf(s, Fail(s, p, error), p.id)
  {
  }

  lemma CancelRenews(s: State, p: Permit)
    ensures RenewsIf(s, Cancel(s, p), p.id)
  {
  }

  lemma HandleAges(w: World, op: HandleOp, handle: Token)
    requires Valid(w.store)
    ensures Ages(w.store, AfterHandle(w, op, handle).store, Accessed(w, DoHandle(op, handle)))
  {
    HandleRenews(op, w.store, handle);
    RenewedAges(w.store, HandleOut(op, w.store, handle), handle.id);
    assert AfterHandle(w, op, handle).store == HandleOut(op, w.store, handle).state;
  }

  lemma ObserveAges(w: World, handle: Token)
    requires Valid(w.store)
    ensures Ages(w.store, AfterObserve(w, handle).store, Accessed(w, DoObserve(handle)))
  {
    RenewedAges(w.store, Observe(w.store, handle), handle.id);
  }

  lemma CommitAges(w: World, p: Permit, value: Value, bytes: U64)
    requires Valid(w.store)
    ensures Ages(w.store, AfterCommit(w, p, value, bytes).store, Accessed(w, DoCommit(p, value, bytes)))
  {
    CommitRenews(w.store, p, value, bytes);
    RenewedAges(w.store, Commit(w.store, p, value, bytes), p.id);
  }

  lemma FailAges(w: World, p: Permit, error: Fault)
    requires Valid(w.store)
    ensures Ages(w.store, AfterFail(w, p, error).store, Accessed(w, DoFail(p, error)))
  {
    FailRenews(w.store, p, error);
    RenewedAges(w.store, Fail(w.store, p, error), p.id);
  }

  lemma CancelAges(w: World, p: Permit)
    requires Valid(w.store)
    ensures AfterDrop(w, p).store == AfterCancel(w, p).store && Accessed(w, DropPermit(p)) == Accessed(w, DoCancel(p))
    ensures Ages(w.store, AfterCancel(w, p).store, Accessed(w, DoCancel(p)))
  {
    CancelRenews(w.store, p);
    RenewedAges(w.store, Cancel(w.store, p), p.id);
  }

  lemma CollectAges(w: World)
    requires w.scan.Some?
    ensures Ages(w.store, AfterCollect(w).store, None)
  {
  }

  lemma RemoveAges(w: World, id: AssetId)
    requires Valid(w.store)
    ensures Ages(w.store, AfterRemove(w, id).store, None)
  {
    RemoveKeepsValid(w.store, id, UsersOf(w, id));
  }

  lemma PublishAges(w: World, a: Action)
    requires Valid(w.store) && Can(w, a) && (a.DoCommit? || a.DoFail?)
    ensures Ages(w.store, Do(w, a).store, Accessed(w, a))
  {
    match a
    case DoCommit(p, value, bytes) => CommitAges(w, p, value, bytes);
    case DoFail(p, error) => FailAges(w, p, error);
  }

  lemma GiveUpAges(w: World, a: Action)
    requires Valid(w.store) && Can(w, a) && (a.DoCancel? || a.DropPermit?)
    ensures Ages(w.store, Do(w, a).store, Accessed(w, a))
  {
    match a
    case DoCancel(p) => CancelAges(w, p);
    case DropPermit(p) => CancelAges(w, p);
  }

  lemma HandleOrObserveAges(w: World, a: Action)
    requires Valid(w.store) && Can(w, a) && (a.DoHandle? || a.DoObserve?)
    ensures Ages(w.store, Do(w, a).store, Accessed(w, a))
  {
    match a
    case DoHandle(op, handle) => HandleAges(w, op, handle);
    case DoObserve(handle) => ObserveAges(w, handle);
  }

  lemma StepAges(w: World, a: Action)
    requires Inv(w) && Can(w, a)
    ensures Ages(w.store, Do(w, a).store, Accessed(w, a))
  {
    if a.DoCreate? { CreateAges(w.store); }
    else if a.DoHandle? || a.DoObserve? { HandleOrObserveAges(w, a); }
    else if a.DoCommit? || a.DoFail? { PublishAges(w, a); }
    else if a.DoCancel? || a.DropPermit? { GiveUpAges(w, a); }
    else if a.DoRemove? { RemoveAges(w, a.id); }
    else if a.CollectEnd? { CollectAges(w); }
    else { RestKeepsStore(w, a); }
  }

  /**
   Every access that succeeds, `create` and the end of an attempt included, makes its identity
   the most recent of all, and no step moves the recency of any other identity.
   */
  lemma AccessIsMostRecent(run: seq<World>, actions: seq<Action>, k: nat)
    requires IsRun(run, actions) && k < |actions|
    ensures Valid(run[k].store)
    ensures var s, n, accessed := run[k].store, run[k + 1].store, Accessed(run[k], actions[k]);
      && Ages(s, n, accessed)
      && (accessed.Some? ==>
            forall j: nat | Live(n, j) && j != accessed.value.slot ::
              EntryAt(n, j).lastTouch < EntryAt(n, accessed.value.slot).lastTouch)
  {
    RunKeepsInv(run, actions, k);
    RunKeepsInv(run, actions, k + 1);
    assert StepAt(run, actions, k);
    StepAges(run[k], actions[k]);
    var n, accessed := run[k + 1].store, Accessed(run[k], actions[k]);
    if accessed.Some? {
      var i := accessed.value.slot;
      forall j: nat | Live(n, j) && j != i ensures EntryAt(n, j).lastTouch < EntryAt(n, i).lastTouch {
        assert SlotOk(n, j) && Apart(EntryAt(n, j), EntryAt(n, i));
      }
    }
  }

  ghost predicate AccessAt(run: seq<World>, actions: seq<Action>, k: nat, id: AssetId)
    requires k < |actions| && k < |run|
  {
    Valid(run[k].store) && Accessed(run[k], actions[k]) == Some(id)
  }

  lemma AccessedNow(run: seq<World>, actions: seq<Action>, k: nat, id: AssetId)
    requires IsRun(run, actions) && k < |actions| && AccessAt(run, actions, k, id)
    ensures Lookup(run[k + 1].store, id).Ok?
    ensures EntryAt(run[k + 1].store, id.slot).lastTouch == run[k + 1].store.touch > run[k].store.touch
  {
    AccessIsMostRecent(run, actions, k);
  }

  lemma NotAccessedNow(run: seq<World>, actions: seq<Action>, k: nat, id: AssetId)
    requires IsRun(run, actions) && k < |actions| && !AccessAt(run, actions, k, id) && Lookup(run[k + 1].store, id).Ok?
    ensures Lookup(run[k].store, id).Ok?
    ensures EntryAt(run[k + 1].store, id.slot).lastTouch == EntryAt(run[k].store, id.slot).lastTouch
  {
    AccessIsMostRecent(run, actions, k);
  }

  lemma {:induction false} TouchGrows(run: seq<World>, actions: seq<Action>, j: nat, k: nat)
    requires IsRun(run, actions) && j <= k < |run|
    ensures run[j].store.touch <= run[k].store.touch
  {
    if j < k {
      TouchGrows(run, actions, j, k - 1);
      AccessIsMostRecent(run, actions, k - 1);
    }
  }

  /** Until its next access an identity keeps the touch of its last one. */
  lemma {:induction false} TouchOfLastAccess(run: seq<World>, actions: seq<Action>, j: nat, k: nat, id: AssetId)
    requires IsRun(run, actions) && j < k < |run| && AccessAt(run, actions, j, id)
    requires forall i: nat | j < i < k :: !AccessAt(run, actions, i, id)
    requires Lookup(run[k].store, id).Ok?
    ensures EntryAt(run[k].store, id.slot).lastTouch == run[j + 1].store.touch
    decreases k
  {
    if k == j + 1 {
      AccessedNow(run, actions, j, id);
    } else {
      NotAccessedNow(run, actions, k - 1, id);
      TouchOfLastAccess(run, actions, j, k - 1, id);
    }
  }

  /** From an access on, an identity is at least that recent. */
  lemma {:induction false} RecentSince(run: seq<World>, actions: seq<Action>, j: nat, k: nat, id: AssetId)
    requires IsRun(run, actions) && j < k < |run| && AccessAt(run, actions, j, id) && Lookup(run[k].store, id).Ok?
    ensures EntryAt(run[k].store, id.slot).lastTouch >= run[j + 1].store.touch
    decreases k
  {
    if AccessAt(run, actions, k - 1, id) {
      AccessedNow(run, actions, k - 1, id);
      TouchGrows(run, actions, j + 1, k);
    } else {
      NotAccessedNow(run, actions, k - 1, id);
      RecentSince(run, actions, j, k - 1, id);
    }
  }

  /** Recency is the order of last accesses: who was accessed after the other's last access is the more recent. */
  lemma LaterAccessIsMoreRecent(
    run: seq<World>, actions: seq<Action>, j: nat, k: nat, m: nat, older: AssetId, newer: AssetId)
    requires IsRun(run, actions) && j < k < m < |run|
    requires AccessAt(run, actions, j, older) && AccessAt(run, actions, k, newer)
    requires forall i: nat | j < i < m :: !AccessAt(run, actions, i, older)
    requires Lookup(run[m].store, older).Ok? && Lookup(run[m].store, newer).Ok?
    ensures EntryAt(run[m].store, older.slot).lastTouch < EntryAt(run[m].store, newer.slot).lastTouch
  {
    TouchOfLastAccess(run, actions, j, m, older);
    RecentSince(run, actions, k, m, newer);
    TouchGrows(run, actions, j + 1, k);
    AccessedNow(run, actions, k, newer);
  }

  /**
   Least recently used goes first: a collection that takes the value of an identity leaves
   none to an identity that was last accessed earlier, had no user when the collection
   locked the store, and is not producing.
   */
  lemma LeastRecentlyUsedGoesFirst(
    run: seq<World>, actions: seq<Action>, j: nat, k: nat, begin: nat, end: nat, older: AssetId, newer: AssetId)
    requires IsRun(run, actions) && j < k < begin < end < |actions|
    requires AccessAt(run, actions, j, older) && AccessAt(run, actions, k, newer)
    requires forall i: nat | j < i < begin :: !AccessAt(run, actions, i, older)
    requires actions[begin].CollectBegin? && actions[end].CollectEnd?
    requires forall i | begin < i < end :: !actions[i].CollectEnd?
    requires Lookup(run[begin].store, older).Ok? && Lookup(run[begin].store, newer).Ok?
    requires !Pinned(run[begin], EntryAt(run[begin].store, older.slot).token)
    requires !EntryAt(run[begin].store, older.slot).phase.Producing?
    ensures |run[end + 1].store.slots| == |run[begin].store.slots|
    ensures run[end + 1].store.slots[newer.slot] != run[begin].store.slots[newer.slot] ==>
      Live(run[end + 1].store, older.slot) && Retained(EntryAt(run[end + 1].store, older.slot).phase).None?
  {
    LaterAccessIsMoreRecent(run, actions, j, k, begin, older, newer);
    CollectIsOneStep(run, actions, begin, end);
    RunKeepsInv(run, actions, begin);
    var s, idle, budget := run[begin].store, run[end].scan.value.idle, actions[begin].budget;
    if Collected(s, idle, budget).slots[newer.slot] != s.slots[newer.slot] {
      OldestGoFirst(s, idle, budget, older.slot, newer.slot);
    }
  }
}
