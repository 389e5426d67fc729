/** A whole `collect` among its callers: lock, one strong count after another, eviction, unlock. */
module CollectRuns {
  import opened Prelude
  import opened StoreState
  import opened StoreInvariant
  import opened Collection
  import opened StoreWorld
  import opened WorldInvariant
  import opened WorldRuns
  import opened CleanExits

  lemma NoNewOwner(w: World, n: World, t: Token)
    requires !Pinned(w, t) && t !in n.users && n.pending == w.pending && n.outcomes == w.outcomes && w.freed <= n.freed
    ensures !Pinned(n, t)
  {
  }

  lemma PollOwns(w: World, cell: nat, t: Token)
    requires Permits(w) && cell in w.waiters && cell in w.outcomes && !Pinned(w, t)
    ensures t !in w.users + Owner(SnapshotIn(w.outcomes[cell]))
  {
    assert cell !in w.freed && !Holds(w.outcomes[cell], t);
  }

  lemma CompletePins(w: World, cell: nat, t: Token)
    requires cell in w.pending && cell !in w.outcomes && !Pinned(w, t)
    ensures !Pinned(AfterComplete(w, cell), t)
  {
    var n := AfterComplete(w, cell);
    forall c | c in n.outcomes && c !in n.freed ensures !Holds(n.outcomes[c], t) {
      assert c != cell ==> c in w.outcomes;
    }
  }

  /** Under the store lock nobody can become an owner of a token without one. */
  lemma UnpinnedStays(w: World, a: Action, t: Token)
    requires Inv(w) && Can(w, a) && w.scan.Some? && !Pinned(w, t)
    ensures !Pinned(Do(w, a), t)
  {
    match a
    case Complete(cell) => CompletePins(w, cell, t);
    case Poll(cell) => PollOwns(w, cell, t); NoNewOwner(w, Do(w, a), t);
    case CloneWaiter(_) => NoNewOwner(w, Do(w, a), t);
    case DropWaiter(_) => NoNewOwner(w, Do(w, a), t);
    case FreeCell(_) => NoNewOwner(w, Do(w, a), t);
    case CloneHandle(_) => NoNewOwner(w, Do(w, a), t);
    case DropHandle(_) => NoNewOwner(w, Do(w, a), t);
    case CollectScan => NoNewOwner(w, AfterScan(w), t);
    case CollectEnd => NoNewOwner(w, AfterCollect(w), t);
  }

  lemma LockKeepsStore(w: World, a: Action)
    requires Valid(w.store) && Can(w, a) && w.scan.Some? && !a.CollectEnd?
    ensures var n := Do(w, a);
      && n.store == w.store && n.scan.Some? && n.scan.value.budget == w.scan.value.budget
      && (if a.CollectScan? then n == AfterScan(w) else n.scan == w.scan)
  {
  }

  /** `w` is a collection of `start` under way: what had no owner then has none now and was found. */
  ghost predicate Collecting(start: World, budget: nat, w: World) {
    && w.scan.Some? && w.scan.value.budget == budget && w.store == start.store
    && (forall t :: !Pinned(start, t) ==> !Pinned(w, t))
    && (forall i: nat :: i < w.scan.value.next && Live(w.store, i) && !Pinned(start, EntryAt(w.store, i).token)
          ==> EntryAt(w.store, i).token in w.scan.value.idle)
  }

  lemma CollectingStep(start: World, budget: nat, w: World, a: Action)
    requires Inv(w) && Can(w, a) && Collecting(start, budget, w) && !a.CollectEnd?
    ensures Collecting(start, budget, Do(w, a))
  {
    var n := Do(w, a);
    LockKeepsStore(w, a);
    forall t | !Pinned(start, t) ensures !Pinned(n, t) { UnpinnedStays(w, a, t); }
    if a.CollectScan? {
      var i := w.scan.value.next;
      if Live(w.store, i) { UsersArePins(w, EntryAt(w.store, i).token); }
    }
  }

  lemma {:induction false} CollectingRun(run: seq<World>, actions: seq<Action>, j: nat, k: nat)
    requires IsRun(run, actions) && j < k < |run| && actions[j].CollectBegin?
    requires forall i | j < i < k :: !actions[i].CollectEnd?
    ensures Collecting(run[j], actions[j].budget, run[k])
    decreases k
  {
    if k == j + 1 {
      CollectBegins(run, actions, j);
    } else {
      CollectingRun(run, actions, j, k - 1);
      RunKeepsInv(run, actions, k - 1);
      assert StepAt(run, actions, k - 1);
      CollectingStep(run[j], actions[j].budget, run[k - 1], actions[k - 1]);
    }
  }

  lemma CollectBegins(run: seq<World>, actions: seq<Action>, j: nat)
    requires IsRun(run, actions) && j < |actions| && actions[j].CollectBegin?
    ensures Collecting(run[j], actions[j].budget, run[j + 1])
  {
    assert StepAt(run, actions, j);
    forall t | !Pinned(run[j], t) ensures !Pinned(run[j + 1], t) { NoNewOwner(run[j], run[j + 1], t); }
  }

  /**
   However handles are cloned and dropped while `collect` reads the counts one by one, it
   collects from the state it locked, considers every identity that had no user when it
   locked, and takes content from none that has a user when it unlocks.
   */
  lemma CollectIsOneStep(run: seq<World>, actions: seq<Action>, j: nat, k: nat)
    requires IsRun(run, actions) && j < k < |actions| && actions[j].CollectBegin? && actions[k].CollectEnd?
    requires forall i | j < i < k :: !actions[i].CollectEnd?
    ensures run[k].scan.Some?
    ensures var s, idle := run[j].store, run[k].scan.value.idle;
      && run[k + 1].store == Collected(s, idle, actions[j].budget)
      && (forall i: nat :: Live(s, i) && !Pinned(run[j], EntryAt(s, i).token) ==> EntryAt(s, i).token in idle)
      && (forall t :: t in idle ==> !Pinned(run[k + 1], t))
  {
    CollectingRun(run, actions, j, k);
    RunKeepsInv(run, actions, k);
    assert StepAt(run, actions, k);
    forall t | t in run[k].scan.value.idle ensures !Pinned(run[k + 1], t) { UnpinnedStays(run[k], actions[k], t); }
  }

  /**
   An interleaved collection empties only identities that have no user when it unlocks and
   that nobody produces, and if it misses its budget, nothing is left of those that had no
   user when it locked.
   */
  lemma CollectFreesTheUnused(run: seq<World>, actions: seq<Action>, j: nat, k: nat)
    requires IsRun(run, actions) && j < k < |actions| && actions[j].CollectBegin? && actions[k].CollectEnd?
    requires forall i | j < i < k :: !actions[i].CollectEnd?
    ensures var s, n := run[j].store, run[k + 1].store;
      && |n.slots| == |s.slots|
      && (forall i: nat | i < |s.slots| && n.slots[i] != s.slots[i] ::
            && Live(s, i) && Live(n, i) && Emptied(EntryAt(s, i), EntryAt(n, i))
            && !Pinned(run[k + 1], EntryAt(n, i).token) && s.readyBytes > actions[j].budget)
      && (n.readyBytes > actions[j].budget ==>
            forall i: nat | Live(n, i) && !EntryAt(n, i).phase.Producing? && Retained(EntryAt(n, i).phase).Some? ::
              Pinned(run[j], EntryAt(n, i).token))
  {
    CollectIsOneStep(run, actions, j, k);
    RunKeepsInv(run, actions, j);
    var s, idle, budget := run[j].store, run[k].scan.value.idle, actions[j].budget;
    var evicted := ReportExists(s, idle, budget);
    ReportIsExact(s, idle, budget, evicted);
    CollectMeetsBudget(s, idle, budget, evicted);
  }
}
