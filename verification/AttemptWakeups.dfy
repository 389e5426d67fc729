/** Every step of the attempt protocol keeps its invariant; no wakeup is lost or doubled. */
module AttemptWakeups {
  import opened Prelude
  import opened StoreState
  import opened AttemptProtocol
  import opened AttemptLocks

  // ---- what a step at `here` may change without disturbing other operations

  predicate OwnedBy(life: Life, here: Place) {
    life.Idle? || life == Polling(here) || life == Dropping(here)
  }

  predicate WorkedBy(stage: Stage, here: Place) {
    stage.Open? || ((stage.Claimed? || stage.Draining? || stage.Waking?) && stage.at == here)
  }

  /** Cells change only under their one worker, waiters under their owner; an open slot is its poller's. */
  ghost predicate Local(sys: Sys, n: Sys, here: Place) {
    && |sys.cells| <= |n.cells| && |sys.waiters| <= |n.waiters|
    && (forall c | 0 <= c < |sys.cells| ::
          n.cells[c].stage == sys.cells[c].stage || (WorkedBy(sys.cells[c].stage, here) && !n.cells[c].stage.Open?))
    && (forall w | 0 <= w < |sys.waiters| ::
          && n.waiters[w].cell == sys.waiters[w].cell
          && (n.waiters[w].life == sys.waiters[w].life || OwnedBy(sys.waiters[w].life, here))
          && (n.waiters[w].slot == sys.waiters[w].slot || OwnedBy(sys.waiters[w].life, here)
              || (sys.waiters[w].cell < |sys.cells| && !sys.cells[sys.waiters[w].cell].stage.Open?)))
    && n.closing == sys.closing
    && (forall s :: s in sys.stores ==> s in n.stores || (s in sys.closing && sys.closing[s] == here))
  }

  lemma FrameStays(sys: Sys, n: Sys, here: Place, p: Place, f: Frame)
    requires Local(sys, n, here) && p != here && FrameOk(sys, p, f)
    ensures FrameOk(n, p, f)
  {
  }

  lemma GotoKeepsFrames(sys: Sys, n: Sys, t: nat, f: Frame)
    requires Frames(sys) && Running(sys, t) && n.threads == Goto(sys, t, f).threads
    requires Local(sys, n, TopPlace(sys, t)) && FrameOk(n, TopPlace(sys, t), f)
    ensures Frames(n)
  {
    var here := TopPlace(sys, t);
    forall p | At(n, p) ensures FrameOk(n, p, FrameAt(n, p)) {
      if p != here {
        assert At(sys, p) && FrameAt(n, p) == FrameAt(sys, p);
        FrameStays(sys, n, here, p, FrameAt(sys, p));
      }
    }
  }

  lemma ReturnKeepsFrames(sys: Sys, n: Sys, t: nat)
    requires Frames(sys) && Running(sys, t) && n.threads == Return(sys, t).threads
    requires Local(sys, n, TopPlace(sys, t))
    ensures Frames(n)
  {
    var here := TopPlace(sys, t);
    forall p | At(n, p) ensures FrameOk(n, p, FrameAt(n, p)) {
      assert At(sys, p) && FrameAt(n, p) == FrameAt(sys, p) && p != here;
      FrameStays(sys, n, here, p, FrameAt(sys, p));
    }
  }

  lemma PushKeepsFrames(sys: Sys, n: Sys, t: nat, f: Frame)
    requires Frames(sys) && n.threads == Push(sys, t, f).threads
    requires Local(sys, n, Place(t, |Stack(sys, t)|)) && FrameOk(n, Place(t, |Stack(sys, t)|), f)
    ensures Frames(n)
  {
    var here := Place(t, |Stack(sys, t)|);
    forall p | At(n, p) ensures FrameOk(n, p, FrameAt(n, p)) {
      if p != here {
        assert At(sys, p) && FrameAt(n, p) == FrameAt(sys, p);
        FrameStays(sys, n, here, p, FrameAt(sys, p));
      }
    }
  }

  /** Stores, names and closings stand. */
  predicate SameStores(sys: Sys, n: Sys) {
    n.stores == sys.stores && n.names == sys.names && n.closing == sys.closing
  }

  lemma StoresStay(sys: Sys, n: Sys)
    requires Stores(sys) && SameStores(sys, n) && |sys.cells| <= |n.cells|
    ensures Stores(n)
  {
    forall s | s in n.stores ensures StoreOk(n, s) { assert StoreOk(sys, s); }
  }

  /** Changing cells and waiters first makes no difference to stacks and locks. */
  lemma GotoAfterData(sys: Sys, d: Sys, t: nat, f: Frame)
    requires Running(sys, t) && d.threads == sys.threads && d.locks == sys.locks
    ensures Running(d, t)
    ensures Goto(d, t, f).threads == Goto(sys, t, f).threads && Goto(d, t, f).locks == Goto(sys, t, f).locks
    ensures SameElsewhere(sys, Goto(d, t, f), TopPlace(sys, t))
    ensures At(Goto(d, t, f), TopPlace(sys, t)) && FrameAt(Goto(d, t, f), TopPlace(sys, t)) == f
    ensures FrameAt(sys, TopPlace(sys, t)) == Top(sys, t)
  {
  }

  lemma ReturnAfterData(sys: Sys, d: Sys, t: nat)
    requires Running(sys, t) && d.threads == sys.threads && d.locks == sys.locks
    ensures Running(d, t)
    ensures Return(d, t).threads == Return(sys, t).threads && Return(d, t).locks == Return(sys, t).locks
    ensures SameElsewhere(sys, Return(d, t), TopPlace(sys, t))
    ensures FrameAt(sys, TopPlace(sys, t)) == Top(sys, t)
  {
  }

  // ---- the cells a step does not work on

  predicate Works(f: Frame, c: nat) {
    Claims(f, c) || Drains(f, c) || Wakes(f, c)
  }

  /** Frames elsewhere are where they were. */
  ghost predicate SameElsewhere(sys: Sys, n: Sys, here: Place) {
    forall p | At(sys, p) && p != here :: At(n, p) && FrameAt(n, p) == FrameAt(sys, p)
  }

  /** Waiters of a cell as its worker sees them. */
  ghost predicate SameWaiters(sys: Sys, n: Sys, c: nat) {
    && |sys.waiters| <= |n.waiters|
    && forall w | 0 <= w < |sys.waiters| && sys.waiters[w].cell == c ::
         && n.waiters[w].cell == c && n.waiters[w].woken == sys.waiters[w].woken
         && (n.waiters[w].life.Released? ==> sys.waiters[w].life.Released?)
  }

  /** What the frame at `here` was doing for cell `c` it still does. */
  ghost predicate KeepsWork(sys: Sys, n: Sys, here: Place, c: nat) {
    At(sys, here) && Works(FrameAt(sys, here), c) ==>
      && At(n, here)
      && (Claims(FrameAt(sys, here), c) ==> Claims(FrameAt(n, here), c))
      && (Drains(FrameAt(sys, here), c) ==> Drains(FrameAt(n, here), c))
      && (Wakes(FrameAt(sys, here), c) ==> Wakes(FrameAt(n, here), c))
  }

  lemma StageStays(sys: Sys, n: Sys, here: Place, c: nat)
    requires c < |sys.cells| && StageOk(sys, c) && c < |n.cells| && n.cells[c] == sys.cells[c]
    requires KeepsWork(sys, n, here, c)
    requires SameElsewhere(sys, n, here) && SameWaiters(sys, n, c)
    ensures StageOk(n, c)
  {
  }

  lemma MoveKeepsStages(sys: Sys, n: Sys, here: Place)
    requires Stages(sys) && n.cells == sys.cells && SameElsewhere(sys, n, here)
    requires forall c: nat | c < |sys.cells| :: SameWaiters(sys, n, c)
    requires forall c: nat | c < |sys.cells| :: KeepsWork(sys, n, here, c)
    ensures Stages(n)
  {
    forall c: nat | c < |n.cells| ensures StageOk(n, c) { StageStays(sys, n, here, c); }
  }

  /** Only cell `c` was worked on. */
  lemma OtherStagesStay(sys: Sys, n: Sys, here: Place, c: nat)
    requires Stages(sys) && |n.cells| == |sys.cells| && SameElsewhere(sys, n, here)
    requires forall d: nat | d < |sys.cells| && d != c :: n.cells[d] == sys.cells[d] && SameWaiters(sys, n, d)
    requires forall d: nat | d < |sys.cells| && d != c :: KeepsWork(sys, n, here, d)
    requires c < |n.cells| ==> StageOk(n, c)
    ensures Stages(n)
  {
    forall d: nat | d < |n.cells| ensures StageOk(n, d) {
      if d != c { StageStays(sys, n, here, d); }
    }
  }

  lemma WaiterStays(sys: Sys, n: Sys, w: nat)
    requires w < |sys.waiters| && WaiterOk(sys, w) && w < |n.waiters| && n.waiters[w] == sys.waiters[w]
    requires |sys.cells| <= |n.cells|
    requires var c := sys.waiters[w].cell;
      && n.cells[c].stage == sys.cells[c].stage && n.cells[c].outcome == sys.cells[c].outcome
      && (w in sys.cells[c].registered ==> w in n.cells[c].registered)
    ensures WaiterOk(n, w)
  {
  }

  /** The owner changes its waiter; cells stand. */
  lemma OwnerKeepsWaits(sys: Sys, n: Sys, w: nat)
    requires Waits(sys) && n.cells == sys.cells && |n.waiters| == |sys.waiters|
    requires forall v: nat | v < |sys.waiters| && v != w :: n.waiters[v] == sys.waiters[v]
    requires w < |n.waiters| ==> WaiterOk(n, w)
    ensures Waits(n)
  {
    forall v: nat | v < |n.waiters| ensures WaiterOk(n, v) {
      if v != w { WaiterStays(sys, n, v); }
    }
  }

  // ---- steps that change no data

  /** `f` does the same work for the same cell. */
  predicate SameWork(f: Frame, next: Frame) {
    && ((f.DrainLock? || f.Drain?) ==> Claims(next, f.cell))
    && ((f.Pick? || f.TakeLock? || f.Take?) ==> Drains(next, f.cell))
    && ((f.WakeNext? || f.Wake?) ==> Wakes(next, f.cell))
  }

  lemma SameDataKeeps(sys: Sys, n: Sys, here: Place)
    requires Stages(sys) && Waits(sys) && Stores(sys)
    requires n.cells == sys.cells && n.waiters == sys.waiters && SameStores(sys, n) && SameElsewhere(sys, n, here)
    requires forall c: nat | c < |sys.cells| :: KeepsWork(sys, n, here, c)
    ensures Stages(n) && Waits(n) && Stores(n)
  {
    MoveKeepsStages(sys, n, here);
    OwnerKeepsWaits(sys, n, |n.waiters|);
    StoresStay(sys, n);
  }

  lemma MoveStep(sys: Sys, t: nat, f: Frame)
    requires Inv(sys) && CanGo(sys, t) && Follows(Top(sys, t), f) && SameWork(Top(sys, t), f)
    requires FrameOk(sys, TopPlace(sys, t), f)
    ensures Inv(Goto(sys, t, f))
  {
    var n, here := Goto(sys, t, f), TopPlace(sys, t);
    GotoKeepsLocks(sys, n, t, f);
    FrameIgnoresThreads(sys, n, here, f);
    GotoKeepsFrames(sys, n, t, f);
    GotoAfterData(sys, sys, t, f);
    SameDataKeeps(sys, n, here);
  }

  lemma FrameIgnoresThreads(sys: Sys, n: Sys, p: Place, f: Frame)
    requires n.cells == sys.cells && n.waiters == sys.waiters && SameStores(sys, n) && FrameOk(sys, p, f)
    ensures FrameOk(n, p, f)
  {
  }

  lemma ReturnStep(sys: Sys, t: nat)
    requires Inv(sys) && Running(sys, t)
    requires forall c: nat :: !Works(Top(sys, t), c)
    ensures Inv(Return(sys, t))
  {
    var n, here := Return(sys, t), TopPlace(sys, t);
    ReturnKeepsLocks(sys, n, t);
    ReturnKeepsFrames(sys, n, t);
    ReturnAfterData(sys, sys, t);
    SameDataKeeps(sys, n, here);
  }

  // ---- steps of a poll that touch the waiter

  /** The poll of `w` by `t` changes its own waiter and goes on, or returns. */
  lemma PollerStep(sys: Sys, n: Sys, t: nat, w: nat, waiter: Waiter)
    requires Inv(sys) && Running(sys, t) && w < |sys.waiters|
    requires forall c: nat :: !Works(Top(sys, t), c)
    requires sys.waiters[w].life == Polling(TopPlace(sys, t)) && !waiter.life.Released? && waiter.cell < |sys.cells|
    requires waiter.cell == sys.waiters[w].cell && waiter.woken == sys.waiters[w].woken
    requires waiter.seen.Some? ==> waiter.seen == sys.waiters[w].seen || waiter.seen == sys.cells[waiter.cell].outcome
    requires n.cells == sys.cells && n.waiters == sys.waiters[w := waiter] && SameStores(sys, n)
    requires Locks(n) && Frames(n)
    requires SameElsewhere(sys, n, TopPlace(sys, t))
    requires waiter.waiting.Some? ==>
      waiter.life.Idle? && Covered(sys.cells[waiter.cell].stage, w, waiter, waiter.waiting.value)
    ensures Inv(n)
  {
    assert FrameAt(sys, TopPlace(sys, t)) == Top(sys, t);
    MoveKeepsStages(sys, n, TopPlace(sys, t));
    assert WaiterOk(sys, w);
    OwnerKeepsWaits(sys, n, w);
    StoresStay(sys, n);
  }

  lemma PollReadStep(sys: Sys, t: nat, c: nat, w: nat, k: Waker)
    requires Inv(sys) && Running(sys, t) && Top(sys, t) == PollRead(c, w, k) && PolledBy(sys, TopPlace(sys, t), c, w)
    ensures Inv(Return(PutWaiter(sys, w, sys.waiters[w].(life := Idle, seen := sys.cells[c].outcome)), t))
  {
    var d := PutWaiter(sys, w, sys.waiters[w].(life := Idle, seen := sys.cells[c].outcome));
    var n := Return(d, t);
    ReturnAfterData(sys, d, t);
    assert WaiterOk(sys, w);
    ReturnKeepsLocks(sys, n, t);
    ReturnKeepsFrames(sys, n, t);
    PollerStep(sys, n, t, w, n.waiters[w]);
  }

  lemma InstallStep(sys: Sys, t: nat, c: nat, w: nat, k: Waker)
    requires Inv(sys) && CanGo(sys, t) && Top(sys, t) == Install(c, w, k) && PolledBy(sys, TopPlace(sys, t), c, w)
    ensures Inv(Goto(PutWaiter(sys, w, sys.waiters[w].(slot := Some(k))), t, DropWaker(c, w, k)))
  {
    var d := PutWaiter(sys, w, sys.waiters[w].(slot := Some(k)));
    var n := Goto(d, t, DropWaker(c, w, k));
    GotoAfterData(sys, d, t, DropWaker(c, w, k));
    assert WaiterOk(sys, w);
    GotoKeepsLocks(sys, n, t, DropWaker(c, w, k));
    GotoKeepsFrames(sys, n, t, DropWaker(c, w, k));
    PollerStep(sys, n, t, w, n.waiters[w]);
  }

  function AfterRecheck(sys: Sys, c: nat, w: nat, k: Waker): Waiter
    requires c < |sys.cells| && w < |sys.waiters|
  {
    var idle, outcome := sys.waiters[w].(life := Idle), sys.cells[c].outcome;
    if outcome.Some? then idle.(seen := outcome) else idle.(waiting := Some(k))
  }

  /** Pending is returned only while the cell is open, and then the slot holds this waker. */
  lemma RecheckStep(sys: Sys, t: nat, c: nat, w: nat, k: Waker)
    requires Inv(sys) && Running(sys, t) && Top(sys, t) == Recheck(c, w, k) && Recorded(sys, TopPlace(sys, t), c, w, k)
    ensures Inv(Return(PutWaiter(sys, w, AfterRecheck(sys, c, w, k)), t))
    ensures var waiter := AfterRecheck(sys, c, w, k);
      && (waiter.waiting == Some(k) <==> sys.cells[c].outcome.None?)
      && (waiter.waiting == Some(k) ==> waiter.slot == Some(k) && w in sys.cells[c].registered)
      && (sys.cells[c].outcome.Some? ==> waiter.seen == sys.cells[c].outcome && waiter.waiting.None?)
  {
    var d := PutWaiter(sys, w, AfterRecheck(sys, c, w, k));
    var n := Return(d, t);
    ReturnAfterData(sys, d, t);
    assert WaiterOk(sys, w) && StageOk(sys, c);
    ReturnKeepsLocks(sys, n, t);
    ReturnKeepsFrames(sys, n, t);
    PollerStep(sys, n, t, w, n.waiters[w]);
  }

  // ---- steps of a completion

  /** A worker changes its cell, and waiters of that cell, and goes on. */
  lemma WorkerGoes(sys: Sys, d: Sys, t: nat, f: Frame, c: nat)
    requires Inv(sys) && CanGo(sys, t) && Follows(Top(sys, t), f)
    requires forall e: nat | e != c :: !Works(Top(sys, t), e)
    requires d.threads == sys.threads && d.locks == sys.locks && SameStores(sys, d)
    requires Local(sys, d, TopPlace(sys, t)) && FrameOk(d, TopPlace(sys, t), f)
    requires |d.cells| == |sys.cells|
    requires forall e: nat | e < |sys.cells| && e != c :: d.cells[e] == sys.cells[e] && SameWaiters(sys, d, e)
    ensures var n := Goto(d, t, f);
      && Locks(n) && Frames(n) && Stores(n)
      && At(n, TopPlace(sys, t)) && FrameAt(n, TopPlace(sys, t)) == f
      && ((c < |n.cells| ==> StageOk(n, c)) ==> Stages(n))
  {
    var n, here := Goto(d, t, f), TopPlace(sys, t);
    GotoAfterData(sys, d, t, f);
    GotoKeepsLocks(sys, n, t, f);
    FrameIgnoresThreads(d, n, here, f);
    GotoKeepsFrames(sys, n, t, f);
    StoresStay(sys, n);
    if c < |n.cells| ==> StageOk(n, c) {
      forall e: nat | e < |sys.cells| && e != c ensures SameWaiters(sys, n, e) { assert SameWaiters(sys, d, e); }
      OtherStagesStay(sys, n, here, c);
    }
  }

  lemma PublishStep(sys: Sys, t: nat, c: nat, o: Outcome)
    requires Inv(sys) && CanGo(sys, t) && Top(sys, t) == Publish(c, o) && c < |sys.cells| && sys.cells[c].outcome.None?
    ensures var cell := sys.cells[c].(outcome := Some(o), stage := Claimed(TopPlace(sys, t)));
      Inv(Goto(PutCell(sys, c, cell), t, DrainLock(c)))
  {
    var here := TopPlace(sys, t);
    var d := PutCell(sys, c, sys.cells[c].(outcome := Some(o), stage := Claimed(here)));
    var n := Goto(d, t, DrainLock(c));
    assert StageOk(sys, c);
    WorkerGoes(sys, d, t, DrainLock(c), c);
    forall w: nat | w < |n.waiters| ensures WaiterOk(n, w) { assert WaiterOk(sys, w); }
  }

  /** Draining takes the whole registry: the wakers of all waiting polls are in it. */
  lemma DrainStep(sys: Sys, t: nat, c: nat)
    requires Inv(sys) && CanGo(sys, t) && Top(sys, t) == Drain(c)
    requires c < |sys.cells| && sys.cells[c].stage == Claimed(TopPlace(sys, t))
    ensures var cell := sys.cells[c];
      var drained := cell.(registered := {}, stage := Draining(TopPlace(sys, t), cell.registered, []));
      Inv(Goto(PutCell(sys, c, drained), t, Pick(c)))
  {
    var here, cell := TopPlace(sys, t), sys.cells[c];
    var d := PutCell(sys, c, cell.(registered := {}, stage := Draining(here, cell.registered, [])));
    var n := Goto(d, t, Pick(c));
    assert StageOk(sys, c);
    WorkerGoes(sys, d, t, Pick(c), c);
    DrainKeepsStage(sys, n, c, here);
    forall w: nat | w < |n.waiters| ensures WaiterOk(n, w) { DrainKeepsWaiter(sys, n, c, w); }
  }

  lemma DrainKeepsWaiter(sys: Sys, n: Sys, c: nat, w: nat)
    requires c < |sys.cells| && sys.cells[c].stage.Claimed? && w < |sys.waiters| && WaiterOk(sys, w)
    requires n.waiters == sys.waiters && |n.cells| == |sys.cells| && n.cells[c].stage.Draining?
    requires n.cells[c].outcome == sys.cells[c].outcome
    requires n.cells[c].stage.todo == sys.cells[c].registered
    requires forall d | 0 <= d < |sys.cells| && d != c :: n.cells[d] == sys.cells[d]
    ensures WaiterOk(n, w)
  {
  }

  lemma DrainKeepsStage(sys: Sys, n: Sys, c: nat, here: Place)
    requires c < |sys.cells| && StageOk(sys, c) && n.waiters == sys.waiters && |n.cells| == |sys.cells|
    requires n.cells[c] == sys.cells[c].(registered := {}, stage := Draining(here, sys.cells[c].registered, []))
    requires At(n, here) && Drains(FrameAt(n, here), c) && sys.cells[c].outcome.Some?
    ensures StageOk(n, c)
  {
  }

  lemma DrainedStep(sys: Sys, t: nat, c: nat)
    requires Inv(sys) && CanGo(sys, t) && Top(sys, t) == Pick(c) && c < |sys.cells|
    requires sys.cells[c].stage.Draining? && sys.cells[c].stage.at == TopPlace(sys, t) && sys.cells[c].stage.todo == {}
    ensures var cell := sys.cells[c].(stage := Waking(TopPlace(sys, t), sys.cells[c].stage.taken));
      Inv(Goto(PutCell(sys, c, cell), t, WakeNext(c)))
  {
    var here := TopPlace(sys, t);
    var d := PutCell(sys, c, sys.cells[c].(stage := Waking(here, sys.cells[c].stage.taken)));
    var n := Goto(d, t, WakeNext(c));
    assert StageOk(sys, c);
    WorkerGoes(sys, d, t, WakeNext(c), c);
    DrainedKeepsStage(sys, n, c, here);
    forall w: nat | w < |n.waiters| ensures WaiterOk(n, w) { assert WaiterOk(sys, w); }
  }

  /** What was taken from a cell nobody was woken for yet. */
  lemma DrainedKeepsStage(sys: Sys, n: Sys, c: nat, here: Place)
    requires c < |sys.cells| && StageOk(sys, c) && Waits(sys) && n.waiters == sys.waiters && |n.cells| == |sys.cells|
    requires sys.cells[c].stage.Draining?
    requires n.cells[c] == sys.cells[c].(stage := Waking(here, sys.cells[c].stage.taken))
    requires At(n, here) && Wakes(FrameAt(n, here), c)
    ensures StageOk(n, c)
  {
    var taken := sys.cells[c].stage.taken;
    forall i | 0 <= i < |taken| ensures sys.waiters[taken[i].0].woken == [] { assert WaiterOk(sys, taken[i].0); }
  }

  /** Cell `c` after the waker in the slot of `w` was taken. */
  function Taken(sys: Sys, c: nat, w: nat): Cell
    requires c < |sys.cells| && w < |sys.waiters| && sys.cells[c].stage.Draining?
  {
    var stage, slot := sys.cells[c].stage, sys.waiters[w].slot;
    var taken := if slot.Some? then stage.taken + [(w, slot.value)] else stage.taken;
    sys.cells[c].(stage := stage.(todo := stage.todo - {w}, taken := taken))
  }

  function AfterTake(sys: Sys, c: nat, w: nat): Sys
    requires c < |sys.cells| && w < |sys.waiters| && sys.cells[c].stage.Draining?
  {
    PutWaiter(PutCell(sys, c, Taken(sys, c, w)), w, sys.waiters[w].(slot := None))
  }

  lemma TakeIsLocal(sys: Sys, c: nat, w: nat)
    requires c < |sys.cells| && w < |sys.waiters| && sys.cells[c].stage.Draining? && sys.waiters[w].cell == c
    ensures var d := AfterTake(sys, c, w);
      && Local(sys, d, sys.cells[c].stage.at) && FrameOk(d, sys.cells[c].stage.at, Pick(c))
      && SameStores(sys, d) && d.threads == sys.threads && d.locks == sys.locks && |d.cells| == |sys.cells|
      && forall e: nat | e < |sys.cells| && e != c :: d.cells[e] == sys.cells[e] && SameWaiters(sys, d, e)
  {
  }

  lemma TakeStep(sys: Sys, t: nat, c: nat, w: nat)
    requires Inv(sys) && CanGo(sys, t) && Top(sys, t) == Take(c, w) && c < |sys.cells| && w < |sys.waiters|
    requires FrameOk(sys, TopPlace(sys, t), Take(c, w))
    ensures Inv(Goto(AfterTake(sys, c, w), t, Pick(c)))
  {
    assert StageOk(sys, c);
    var d := AfterTake(sys, c, w);
    var n := Goto(d, t, Pick(c));
    TakeIsLocal(sys, c, w);
    WorkerGoes(sys, d, t, Pick(c), c);
    TakeKeepsStage(sys, n, c, w);
    TakeKeepsWaits(sys, n, c, w);
  }

  lemma TakeKeepsWaits(sys: Sys, n: Sys, c: nat, w: nat)
    requires c < |sys.cells| && w < |sys.waiters| && Waits(sys) && StageOk(sys, c)
    requires sys.cells[c].stage.Draining? && w in sys.cells[c].stage.todo
    requires n.cells == sys.cells[c := Taken(sys, c, w)] && n.waiters == sys.waiters[w := sys.waiters[w].(slot := None)]
    ensures Waits(n)
  {
    forall v: nat | v < |n.waiters| ensures WaiterOk(n, v) { TakeKeepsWaiter(sys, n, c, w, v); }
  }

  lemma TakeKeepsStage(sys: Sys, n: Sys, c: nat, w: nat)
    requires c < |sys.cells| && w < |sys.waiters| && StageOk(sys, c)
    requires sys.cells[c].stage.Draining? && w in sys.cells[c].stage.todo
    requires n.cells == sys.cells[c := Taken(sys, c, w)] && n.waiters == sys.waiters[w := sys.waiters[w].(slot := None)]
    requires At(n, sys.cells[c].stage.at) && Drains(FrameAt(n, sys.cells[c].stage.at), c)
    ensures StageOk(n, c)
  {
  }

  lemma TakeKeepsWaiter(sys: Sys, n: Sys, c: nat, w: nat, v: nat)
    requires c < |sys.cells| && w < |sys.waiters| && v < |sys.waiters| && WaiterOk(sys, v) && StageOk(sys, c)
    requires sys.cells[c].stage.Draining? && w in sys.cells[c].stage.todo
    requires n.cells == sys.cells[c := Taken(sys, c, w)] && n.waiters == sys.waiters[w := sys.waiters[w].(slot := None)]
    ensures WaiterOk(n, v)
  {
    if sys.waiters[v].waiting.Some? && sys.waiters[v].cell == c {
      var stage := sys.cells[c].stage;
      var k := sys.waiters[v].waiting.value;
      if v == w {
        assert (w, k) !in stage.taken;
        assert n.cells[c].stage.taken[|stage.taken|] == (w, k);
      } else if (v, k) in stage.taken {
        var i :| 0 <= i < |stage.taken| && stage.taken[i] == (v, k);
        assert n.cells[c].stage.taken[i] == (v, k);
      }
    }
  }

  /** The first waker in the hands of `complete` is called. */
  function AfterWake(sys: Sys, c: nat): Sys
    requires c < |sys.cells| && sys.cells[c].stage.Waking? && sys.cells[c].stage.rest != []
    requires sys.cells[c].stage.rest[0].0 < |sys.waiters|
  {
    var stage := sys.cells[c].stage;
    var w := stage.rest[0].0;
    PutWaiter(PutCell(sys, c, sys.cells[c].(stage := Waking(stage.at, stage.rest[1..]))),
              w, sys.waiters[w].(woken := sys.waiters[w].woken + [stage.rest[0].1]))
  }

  /** `n` has the cells and waiters of `sys` after that call. */
  predicate WakesFirst(sys: Sys, n: Sys, c: nat) {
    && c < |sys.cells| && sys.cells[c].stage.Waking? && sys.cells[c].stage.rest != []
    && sys.cells[c].stage.rest[0].0 < |sys.waiters|
    && n.cells == AfterWake(sys, c).cells && n.waiters == AfterWake(sys, c).waiters
  }

  lemma WakeIsLocal(sys: Sys, c: nat)
    requires c < |sys.cells| && sys.cells[c].stage.Waking? && sys.cells[c].stage.rest != []
    requires sys.cells[c].stage.rest[0].0 < |sys.waiters| && sys.waiters[sys.cells[c].stage.rest[0].0].cell == c
    ensures var d := AfterWake(sys, c);
      && Local(sys, d, sys.cells[c].stage.at) && FrameOk(d, sys.cells[c].stage.at, Wake(c))
      && SameStores(sys, d) && d.threads == sys.threads && d.locks == sys.locks && |d.cells| == |sys.cells|
      && forall e: nat | e < |sys.cells| && e != c :: d.cells[e] == sys.cells[e] && SameWaiters(sys, d, e)
  {
  }

  lemma WakeStep(sys: Sys, t: nat, c: nat)
    requires Inv(sys) && CanGo(sys, t) && Top(sys, t) == WakeNext(c) && FrameOk(sys, TopPlace(sys, t), WakeNext(c))
    requires sys.cells[c].stage.rest != [] && sys.cells[c].stage.rest[0].0 < |sys.waiters|
    ensures Inv(Goto(AfterWake(sys, c), t, Wake(c)))
  {
    assert StageOk(sys, c);
    var d := AfterWake(sys, c);
    var n := Goto(d, t, Wake(c));
    WakeIsLocal(sys, c);
    WorkerGoes(sys, d, t, Wake(c), c);
    WakeKeepsStage(sys, n, c);
    WakeKeepsWaits(sys, n, c);
  }

  lemma WakeKeepsStage(sys: Sys, n: Sys, c: nat)
    requires WakesFirst(sys, n, c) && StageOk(sys, c)
    requires At(n, sys.cells[c].stage.at) && Wakes(FrameAt(n, sys.cells[c].stage.at), c)
    ensures StageOk(n, c)
  {
  }

  lemma WakeKeepsWaits(sys: Sys, n: Sys, c: nat)
    requires WakesFirst(sys, n, c) && Waits(sys) && StageOk(sys, c)
    ensures Waits(n)
  {
    forall v: nat | v < |n.waiters| ensures WaiterOk(n, v) { WakeKeepsWaiter(sys, n, c, v); }
  }

  lemma WakeKeepsWaiter(sys: Sys, n: Sys, c: nat, v: nat)
    requires WakesFirst(sys, n, c) && v < |sys.waiters| && WaiterOk(sys, v) && StageOk(sys, c)
    ensures WaiterOk(n, v)
  {
    var rest := sys.cells[c].stage.rest;
    if sys.waiters[v].waiting.Some? && sys.waiters[v].cell == c {
      var k := sys.waiters[v].waiting.value;
      if (v, k) in rest {
        var i :| 0 <= i < |rest| && rest[i] == (v, k);
        if i > 0 { assert rest[1..][i - 1] == (v, k); }
      }
    }
  }

  lemma DoneStep(sys: Sys, t: nat, c: nat)
    requires Inv(sys) && Running(sys, t) && Top(sys, t) == WakeNext(c) && FrameOk(sys, TopPlace(sys, t), WakeNext(c))
    requires sys.cells[c].stage.rest == []
    ensures Inv(Return(PutCell(sys, c, sys.cells[c].(stage := Done)), t))
  {
    var here := TopPlace(sys, t);
    var d := PutCell(sys, c, sys.cells[c].(stage := Done));
    var n := Return(d, t);
    ReturnAfterData(sys, d, t);
    assert StageOk(sys, c);
    ReturnKeepsLocks(sys, n, t);
    ReturnKeepsFrames(sys, n, t);
    OtherStagesStay(sys, n, here, c);
    forall w: nat | w < |n.waiters| ensures WaiterOk(n, w) { assert WaiterOk(sys, w); }
    StoresStay(sys, n);
  }
}
