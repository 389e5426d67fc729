/** Every step of every operation, and every call, keeps the invariant of the protocol. */
module AttemptSteps {
  import opened Prelude
  import opened StoreState
  import opened StoreInvariant
  import opened Retirement
  import opened CleanExits
  import opened AttemptProtocol
  import opened AttemptLocks
  import opened AttemptWakeups

  // ---- registering and deregistering a waiter

  /** A registration is only ever an addition. */
  lemma RegisterKeepsData(sys: Sys, n: Sys, here: Place, c: nat)
    requires Stages(sys) && Waits(sys) && c < |sys.cells| && SameElsewhere(sys, n, here)
    requires At(sys, here) ==> forall e: nat :: !Works(FrameAt(sys, here), e)
    requires n.cells == Register(sys, c).cells && n.waiters == Register(sys, c).waiters
    requires Stores(sys) && SameStores(sys, n)
    ensures Stages(n) && Waits(n) && Stores(n)
  {
    assert StageOk(sys, c);
    RegisterKeepsStage(sys, n, here, c);
    OtherStagesStay(sys, n, here, c);
    forall w: nat | w < |n.waiters| ensures WaiterOk(n, w) {
      if w < |sys.waiters| { WaiterStays(sys, n, w); }
    }
    StoresStay(sys, n);
  }

  lemma RegisterKeepsStage(sys: Sys, n: Sys, here: Place, c: nat)
    requires c < |sys.cells| && StageOk(sys, c) && SameElsewhere(sys, n, here) && KeepsWork(sys, n, here, c)
    requires n.cells == Register(sys, c).cells && n.waiters == Register(sys, c).waiters
    ensures StageOk(n, c)
  {
  }

  lemma CloneStep(sys: Sys, t: nat, c: nat)
    requires Inv(sys) && CanGo(sys, t) && Top(sys, t) == CloneInsert(c) && c < |sys.cells|
    ensures Inv(Return(Register(sys, c), t))
  {
    var d := Register(sys, c);
    var n := Return(d, t);
    ReturnAfterData(sys, d, t);
    ReturnKeepsLocks(sys, n, t);
    ReturnKeepsFrames(sys, n, t);
    RegisterKeepsData(sys, n, TopPlace(sys, t), c);
  }

  lemma JoinStep(sys: Sys, t: nat, s: nat, c: nat)
    requires Inv(sys) && CanGo(sys, t) && Top(sys, t) == JoinInsert(s, c) && c < |sys.cells|
    ensures Inv(Goto(Register(sys, c), t, StoreLeave(s)))
  {
    var d := Register(sys, c);
    var n := Goto(d, t, StoreLeave(s));
    GotoAfterData(sys, d, t, StoreLeave(s));
    GotoKeepsLocks(sys, n, t, StoreLeave(s));
    GotoKeepsFrames(sys, n, t, StoreLeave(s));
    RegisterKeepsData(sys, n, TopPlace(sys, t), c);
  }

  /** Whoever holds the registry of a cell that is being drained is the one that drains it. */
  lemma DrainerHoldsRegistry(sys: Sys, t: nat, c: nat)
    requires Locks(sys) && c < |sys.cells| && StageOk(sys, c) && sys.cells[c].stage.Draining?
    requires Running(sys, t) && RegistryLock(c) in Holds(Top(sys, t))
    ensures Drains(Top(sys, t), c)
  {
    var p := sys.cells[c].stage.at;
    assert At(sys, p) && Drains(FrameAt(sys, p), c) && !Foreign(FrameAt(sys, p));
    assert FrameAt(sys, p) == Top(sys, p.thread);
    assert Running(sys, p.thread) && RegistryLock(c) in Holds(Top(sys, p.thread));
    assert sys.locks[RegistryLock(c)] == p.thread;
    assert p.thread == t;
  }

  lemma DropperFindsNoDrain(sys: Sys, t: nat, c: nat, w: nat)
    requires Locks(sys) && Stages(sys) && c < |sys.cells| && Running(sys, t) && Top(sys, t) == DropRemove(c, w)
    ensures StageOk(sys, c) && !sys.cells[c].stage.Draining?
  {
    if sys.cells[c].stage.Draining? { DrainerHoldsRegistry(sys, t, c); }
  }

  function AfterRemove(sys: Sys, c: nat, w: nat): Sys
    requires c < |sys.cells| && w < |sys.waiters|
  {
    PutWaiter(PutCell(sys, c, sys.cells[c].(registered := sys.cells[c].registered - {w})),
              w, sys.waiters[w].(slot := None, life := Released))
  }

  lemma RemoveStep(sys: Sys, t: nat, c: nat, w: nat)
    requires Inv(sys) && CanGo(sys, t) && Top(sys, t) == DropRemove(c, w)
    requires FrameOk(sys, TopPlace(sys, t), DropRemove(c, w))
    ensures Inv(Goto(AfterRemove(sys, c, w), t, DropSlot))
  {
    DropperFindsNoDrain(sys, t, c, w);
    var d := AfterRemove(sys, c, w);
    var n := Goto(d, t, DropSlot);
    RemoveIsLocal(sys, c, w, TopPlace(sys, t));
    GotoAfterData(sys, d, t, DropSlot);
    WorkerGoes(sys, d, t, DropSlot, c);
    RemoveKeepsStage(sys, n, c, w, TopPlace(sys, t));
    RemoveKeepsWaits(sys, n, c, w);
  }

  lemma RemoveIsLocal(sys: Sys, c: nat, w: nat, here: Place)
    requires c < |sys.cells| && w < |sys.waiters| && sys.waiters[w].cell == c && sys.waiters[w].life == Dropping(here)
    ensures var d := AfterRemove(sys, c, w);
      && Local(sys, d, here)
      && forall e: nat | e < |sys.cells| && e != c :: d.cells[e] == sys.cells[e] && SameWaiters(sys, d, e)
  {
  }

  lemma RemoveKeepsStage(sys: Sys, n: Sys, c: nat, w: nat, here: Place)
    requires c < |sys.cells| && w < |sys.waiters| && StageOk(sys, c) && !sys.cells[c].stage.Draining?
    requires SameElsewhere(sys, n, here) && KeepsWork(sys, n, here, c)
    requires n.cells == AfterRemove(sys, c, w).cells && n.waiters == AfterRemove(sys, c, w).waiters
    ensures StageOk(n, c)
  {
  }

  lemma RemoveKeepsWaits(sys: Sys, n: Sys, c: nat, w: nat)
    requires c < |sys.cells| && w < |sys.waiters| && Waits(sys)
    requires sys.waiters[w].cell == c && sys.waiters[w].life.Dropping?
    requires n.cells == AfterRemove(sys, c, w).cells && n.waiters == AfterRemove(sys, c, w).waiters
    ensures Waits(n)
  {
    forall v: nat | v < |n.waiters| ensures WaiterOk(n, v) {
      assert WaiterOk(sys, v);
      if v != w { WaiterStays(sys, n, v); }
    }
  }

  // ---- under the lock of a store

  /** New cells are open and empty; the others stand. */
  lemma GrownCellsKeep(sys: Sys, n: Sys, here: Place)
    requires Stages(sys) && Waits(sys) && n.waiters == sys.waiters && SameElsewhere(sys, n, here)
    requires At(sys, here) ==> forall e: nat :: !Works(FrameAt(sys, here), e)
    requires n.cells == sys.cells || n.cells == sys.cells + [Cell(None, {}, Open)]
    ensures Stages(n) && Waits(n)
  {
    forall c: nat | c < |n.cells| ensures StageOk(n, c) {
      if c < |sys.cells| { StageStays(sys, n, here, c); }
    }
    forall w: nat | w < |n.waiters| ensures WaiterOk(n, w) { WaiterStays(sys, n, w); }
  }

  /** What an operation on a valid store leaves to do refers to cells of attempts that ran. */
  ghost predicate Sound(sys: Sys, s: nat, op: Op, exit: Exit)
    requires s in sys.stores
  {
    && Clean(sys.stores[s], op, exit)
    && (forall c: nat :: Ends(exit, c) ==> IsActive(sys.stores[s], c))
    && (forall i, j | 0 <= i < j < |exit.completes| :: exit.completes[i].0 != exit.completes[j].0)
    && (exit.joins.Some? ==> !op.OpClose? && WorkOf(sys, s, exit) == NoWork)
    && (op.OpClose? ==> exit.starts.None? && forall c: nat :: IsActive(sys.stores[s], c) ==> Ends(exit, c))
  }

  lemma ExitIsSound(sys: Sys, s: nat, op: Op)
    requires s in sys.stores && Valid(sys.stores[s])
    ensures Sound(sys, s, op, ExitOf(sys.stores[s], op))
  {
    ExitIsClean(sys.stores[s], op);
    if op.OpClose? { CloseEndsAll(sys.stores[s]); }
    if op.OpHandle? { JoinerLeavesNothing(sys, s, op.op, op.handle); } else { OthersDoNotJoin(sys.stores[s], op); }
  }

  lemma JoinerLeavesNothing(sys: Sys, s: nat, h: HandleOp, handle: Token)
    requires s in sys.stores
    ensures var exit := HandleExit(h, sys.stores[s], handle); exit.joins.Some? ==> WorkOf(sys, s, exit) == NoWork
  {
  }

  lemma OthersDoNotJoin(s: State, op: Op)
    requires Valid(s) && !op.OpHandle?
    ensures ExitOf(s, op).joins.None?
  {
    if op.OpCollect? { CollectIsClean(s, op.idle, op.budget); }
  }

  lemma BodyIsDefined(sys: Sys, s: nat, op: Op, exit: Exit)
    requires Stores(sys) && s in sys.stores && Sound(sys, s, op, exit)
    ensures CellsOk(sys, WorkOf(sys, s, exit).completes)
    ensures exit.joins.Some? ==> CellOf(sys, s, exit.joins.value) < |sys.cells|
  {
    assert StoreOk(sys, s);
    forall i | 0 <= i < |exit.completes| ensures CellOf(sys, s, exit.completes[i].0) < |sys.cells| {
      assert Ends(exit, exit.completes[i].0);
    }
  }

  lemma BodyKeepsStores(sys: Sys, n: Sys, s: nat, op: Op, exit: Exit)
    requires Stores(sys) && s in sys.stores && Sound(sys, s, op, exit)
    requires var d := AfterBody(sys, s, op, exit); n.stores == d.stores && n.names == d.names && n.cells == d.cells
    ensures Stores(n)
  {
    forall r | r in n.stores ensures StoreOk(n, r) { assert StoreOk(sys, r) && StoreOk(sys, s); }
  }

  lemma BodyIsLocal(sys: Sys, s: nat, op: Op, exit: Exit, here: Place)
    requires MayUse(sys, here, s, op)
    ensures var d := AfterBody(sys, s, op, exit);
      Local(sys, d, here) && d.threads == sys.threads && d.locks == sys.locks
  {
  }

  /** The clean exit of a valid store makes the drop under the guard an empty one. */
  lemma DropsAreOk(sys: Sys, s: nat, op: Op, exit: Exit, here: Place)
    requires Stores(sys) && s in sys.stores && Sound(sys, s, op, exit)
    ensures FrameOk(AfterBody(sys, s, op, exit), here, DropsOf(sys, s, op, exit))
    ensures Follows(StoreBody(s, op), DropsOf(sys, s, op, exit))
  {
    BodyIsDefined(sys, s, op, exit);
    assert !Orphans(op, exit);
    EmptyDropsAreOk(sys, AfterBody(sys, s, op, exit), s, op, exit, here);
  }

  lemma EmptyDropsAreOk(sys: Sys, d: Sys, s: nat, op: Op, exit: Exit, here: Place)
    requires |sys.cells| <= |d.cells| && exit.underLock == multiset{} && !Orphans(op, exit)
    requires CellsOk(sys, WorkOf(sys, s, exit).completes)
    requires exit.joins.Some? ==> CellOf(sys, s, exit.joins.value) < |sys.cells| && WorkOf(sys, s, exit) == NoWork
    ensures FrameOk(d, here, DropsOf(sys, s, op, exit))
  {
    var work := WorkOf(sys, s, exit);
    assert CellsOk(d, work.completes);
  }

  lemma BodyStep(sys: Sys, t: nat, s: nat, op: Op, exit: Exit)
    requires Inv(sys) && CanGo(sys, t) && Top(sys, t) == StoreBody(s, op)
    requires MayUse(sys, TopPlace(sys, t), s, op) && Sound(sys, s, op, exit)
    ensures Inv(Goto(AfterBody(sys, s, op, exit), t, DropsOf(sys, s, op, exit)))
  {
    var d, f := AfterBody(sys, s, op, exit), DropsOf(sys, s, op, exit);
    var n := Goto(d, t, f);
    BodyIsLocal(sys, s, op, exit, TopPlace(sys, t));
    DropsAreOk(sys, s, op, exit, TopPlace(sys, t));
    LocalGoto(sys, d, t, f);
    GotoAfterData(sys, d, t, f);
    BodyKeepsRest(sys, n, s, op, exit, TopPlace(sys, t));
  }

  lemma BodyKeepsRest(sys: Sys, n: Sys, s: nat, op: Op, exit: Exit, here: Place)
    requires Stages(sys) && Waits(sys) && Stores(sys) && s in sys.stores && Sound(sys, s, op, exit)
    requires SameElsewhere(sys, n, here) && At(sys, here) && FrameAt(sys, here).StoreBody?
    requires n == AfterBody(sys, s, op, exit).(threads := n.threads, locks := n.locks)
    ensures Stages(n) && Waits(n) && Stores(n)
  {
    GrownCellsKeep(sys, n, here);
    BodyKeepsStores(sys, n, s, op, exit);
  }

  lemma LocalGoto(sys: Sys, d: Sys, t: nat, f: Frame)
    requires Locks(sys) && Frames(sys) && CanGo(sys, t) && Follows(Top(sys, t), f)
    requires d.threads == sys.threads && d.locks == sys.locks
    requires Local(sys, d, TopPlace(sys, t)) && FrameOk(d, TopPlace(sys, t), f)
    ensures Running(d, t) && Locks(Goto(d, t, f)) && Frames(Goto(d, t, f))
  {
    var n := Goto(d, t, f);
    GotoAfterData(sys, d, t, f);
    GotoKeepsLocks(sys, n, t, f);
    SameDataSameFrame(d, n, TopPlace(sys, t), f);
    GotoKeepsFrames(sys, n, t, f);
  }

  lemma SameDataSameFrame(d: Sys, n: Sys, p: Place, f: Frame)
    requires n == d.(threads := n.threads, locks := n.locks) && FrameOk(d, p, f)
    ensures FrameOk(n, p, f)
  {
  }

  /** The next completion of a list is a call of its own. */
  lemma CompleteNextStep(sys: Sys, t: nat, completes: seq<(nat, Outcome)>, late: multiset<Held>)
    requires Inv(sys) && CanGo(sys, t) && Top(sys, t) == CompleteAll(completes, late) && completes != []
    requires FrameOk(sys, TopPlace(sys, t), CompleteAll(completes, late))
    ensures Inv(Push(Goto(sys, t, CompleteAll(completes[1..], late)), t, PublishLock(completes[0].0, completes[0].1)))
  {
    var rest := CompleteAll(completes[1..], late);
    MoveStep(sys, t, rest);
    var m := Goto(sys, t, rest);
    GotoAfterData(sys, sys, t, rest);
    var f := PublishLock(completes[0].0, completes[0].1);
    PushStep(m, Push(m, t, f), t, f, |m.waiters|);
  }

  // ---- every step keeps the invariant

  lemma InvIsPlaced(sys: Sys, t: nat)
    requires Inv(sys) && Running(sys, t)
    ensures Placed(sys, t)
  {
    var p, f := TopPlace(sys, t), Top(sys, t);
    assert At(sys, p) && FrameAt(sys, p) == f;
    assert FrameOk(sys, p, f);
    if f.Take? || f.WakeNext? { assert StageOk(sys, f.cell); }
  }

  predicate InPoll(f: Frame) {
    f.PollLock? || f.PollRead? || f.MatchLock? || f.MatchRead? || f.CloneWaker? || f.InstallLock? || f.Install? ||
    f.DropWaker? || f.RecheckLock? || f.Recheck?
  }

  predicate InPublish(f: Frame) {
    f.PublishLock? || f.Publish? || f.DropOutcome? || f.DrainLock? || f.Drain?
  }

  predicate InWake(f: Frame) {
    f.Pick? || f.TakeLock? || f.Take? || f.WakeNext? || f.Wake?
  }

  /** Frames that only go on or return: they change no cell, waiter or store. */
  predicate Passes(f: Frame) {
    f.PollLock? || f.MatchLock? || f.MatchRead? || f.CloneWaker? || f.InstallLock? || f.DropWaker? || f.RecheckLock? ||
    f.PublishLock? || f.DropOutcome? || f.DrainLock? || f.TakeLock? || f.Wake? || f.CloneLock? || f.DropLock? ||
    f.DropSlot? || f.StoreEnter? || f.DropLocked? || f.JoinLock? || f.StoreLeave? || f.DropValues?
  }

  /** What such a frame goes on as: with no more locks, on the same work, with what it relies on. */
  ghost predicate PassesOn(sys: Sys, here: Place, f: Frame, move: Move) {
    || (move.Back? && forall c: nat :: !Works(f, c))
    || (move.On? && Follows(f, move.frame) && SameWork(f, move.frame) && FrameOk(sys, here, move.frame))
  }

  lemma PollFramesPass(sys: Sys, here: Place, f: Frame, pick: Choice)
    requires Defined(sys, here, f) && Passes(f) && InPoll(f)
    ensures Effect(sys, here, f, pick) == sys && PassesOn(sys, here, f, Next(sys, here, f, pick))
  {
  }

  lemma WaiterFramesPass(sys: Sys, here: Place, f: Frame, pick: Choice)
    requires Defined(sys, here, f) && (f.CloneLock? || f.DropLock? || f.DropSlot?)
    ensures Effect(sys, here, f, pick) == sys && PassesOn(sys, here, f, Next(sys, here, f, pick))
  {
  }

  lemma CompleteFramesPass(sys: Sys, here: Place, f: Frame, pick: Choice)
    requires Defined(sys, here, f) && Passes(f) && (InPublish(f) || InWake(f))
    ensures Effect(sys, here, f, pick) == sys && PassesOn(sys, here, f, Next(sys, here, f, pick))
  {
  }

  lemma StoreFramesPass(sys: Sys, here: Place, f: Frame, pick: Choice)
    requires Defined(sys, here, f) && (f.StoreEnter? || f.DropLocked?)
    ensures Effect(sys, here, f, pick) == sys && PassesOn(sys, here, f, Next(sys, here, f, pick))
  {
  }

  lemma LeavingFramesPass(sys: Sys, here: Place, f: Frame, pick: Choice)
    requires Defined(sys, here, f) && (f.JoinLock? || f.StoreLeave? || f.DropValues?)
    ensures Effect(sys, here, f, pick) == sys && PassesOn(sys, here, f, Next(sys, here, f, pick))
  {
  }

  lemma FramesPass(sys: Sys, here: Place, f: Frame, pick: Choice)
    requires Defined(sys, here, f) && Passes(f)
    ensures Effect(sys, here, f, pick) == sys && PassesOn(sys, here, f, Next(sys, here, f, pick))
  {
    if InPublish(f) || InWake(f) { CompleteFramesPass(sys, here, f, pick); }
    else if InPoll(f) { PollFramesPass(sys, here, f, pick); }
    else if f.CloneLock? || f.DropLock? || f.DropSlot? { WaiterFramesPass(sys, here, f, pick); }
    else if f.StoreEnter? || f.DropLocked? { StoreFramesPass(sys, here, f, pick); }
    else { LeavingFramesPass(sys, here, f, pick); }
  }

  lemma PassingStep(sys: Sys, t: nat, move: Move)
    requires Inv(sys) && CanGo(sys, t) && PassesOn(sys, TopPlace(sys, t), Top(sys, t), move)
    ensures Inv(Apply(sys, t, move))
  {
    if move.Back? { ReturnStep(sys, t); } else { MoveStep(sys, t, move.frame); }
  }

  lemma PassAdvances(sys: Sys, t: nat, pick: Choice)
    requires Inv(sys) && CanGo(sys, t) && Placed(sys, t) && Passes(Top(sys, t))
    ensures Inv(Advance(sys, t, pick))
  {
    FramesPass(sys, TopPlace(sys, t), Top(sys, t), pick);
    PassingStep(sys, t, Next(sys, TopPlace(sys, t), Top(sys, t), pick));
  }

  lemma PollReadAdvances(sys: Sys, t: nat, pick: Choice)
    requires Inv(sys) && CanGo(sys, t) && Placed(sys, t) && Top(sys, t).PollRead?
    ensures Inv(Advance(sys, t, pick))
  {
    match Top(sys, t)
    case PollRead(c, w, k) =>
      if sys.cells[c].outcome.Some? { PollReadStep(sys, t, c, w, k); } else { MoveStep(sys, t, MatchLock(c, w, k)); }
  }

  lemma InstallAdvances(sys: Sys, t: nat, pick: Choice)
    requires Inv(sys) && CanGo(sys, t) && Placed(sys, t) && Top(sys, t).Install?
    ensures Inv(Advance(sys, t, pick))
  {
    InstallStep(sys, t, Top(sys, t).cell, Top(sys, t).waiter, Top(sys, t).waker);
  }

  lemma RecheckAdvances(sys: Sys, t: nat, pick: Choice)
    requires Inv(sys) && CanGo(sys, t) && Placed(sys, t) && Top(sys, t).Recheck?
    ensures Inv(Advance(sys, t, pick))
  {
    RecheckStep(sys, t, Top(sys, t).cell, Top(sys, t).waiter, Top(sys, t).waker);
  }

  lemma PublishAdvances(sys: Sys, t: nat, pick: Choice)
    requires Inv(sys) && CanGo(sys, t) && Placed(sys, t) && (Top(sys, t).Publish? || Top(sys, t).Drain?)
    ensures Inv(Advance(sys, t, pick))
  {
    match Top(sys, t)
    case Publish(c, o) =>
      if sys.cells[c].outcome.Some? { MoveStep(sys, t, DropOutcome); } else { PublishStep(sys, t, c, o); }
    case Drain(c) => DrainStep(sys, t, c);
  }

  lemma WakeAdvances(sys: Sys, t: nat, pick: Choice)
    requires Inv(sys) && CanGo(sys, t) && Placed(sys, t)
    requires Top(sys, t).Pick? || Top(sys, t).Take? || Top(sys, t).WakeNext?
    ensures Inv(Advance(sys, t, pick))
  {
    match Top(sys, t)
    case Pick(c) =>
      if sys.cells[c].stage.todo == {} { DrainedStep(sys, t, c); }
      else if pick.slot in sys.cells[c].stage.todo { MoveStep(sys, t, TakeLock(c, pick.slot)); }
    case Take(c, w) => TakeStep(sys, t, c, w);
    case WakeNext(c) => if sys.cells[c].stage.rest == [] { DoneStep(sys, t, c); } else { WakeStep(sys, t, c); }
  }

  lemma CloneAdvances(sys: Sys, t: nat, pick: Choice)
    requires Inv(sys) && CanGo(sys, t) && Placed(sys, t) && Top(sys, t).CloneInsert?
    ensures Inv(Advance(sys, t, pick))
  {
    CloneStep(sys, t, Top(sys, t).cell);
  }

  lemma JoinAdvances(sys: Sys, t: nat, pick: Choice)
    requires Inv(sys) && CanGo(sys, t) && Placed(sys, t) && Top(sys, t).JoinInsert?
    ensures Inv(Advance(sys, t, pick))
  {
    JoinStep(sys, t, Top(sys, t).store, Top(sys, t).cell);
  }

  lemma RemoveAdvances(sys: Sys, t: nat, pick: Choice)
    requires Inv(sys) && CanGo(sys, t) && Placed(sys, t) && Top(sys, t).DropRemove?
    ensures Inv(Advance(sys, t, pick))
  {
    RemoveStep(sys, t, Top(sys, t).cell, Top(sys, t).waiter);
  }

  /** How an operation on a valid store comes out is sound. */
  lemma LegalIsSound(sys: Sys, t: nat, pick: Choice)
    requires Running(sys, t) && Legal(sys, t, pick) && Top(sys, t).StoreBody?
    ensures Top(sys, t).store in sys.stores && Sound(sys, Top(sys, t).store, Top(sys, t).op, pick.exit)
  {
    ExitIsSound(sys, Top(sys, t).store, Top(sys, t).op);
  }

  lemma BodyAdvances(sys: Sys, t: nat, pick: Choice)
    requires Inv(sys) && CanGo(sys, t) && Placed(sys, t) && Top(sys, t).StoreBody?
    requires Top(sys, t).store in sys.stores && Sound(sys, Top(sys, t).store, Top(sys, t).op, pick.exit)
    ensures Inv(Advance(sys, t, pick))
  {
    BodyAdvanceIs(sys, t, pick);
    BodyStep(sys, t, Top(sys, t).store, Top(sys, t).op, pick.exit);
  }

  lemma BodyAdvanceIs(sys: Sys, t: nat, pick: Choice)
    requires Placed(sys, t) && Top(sys, t).StoreBody?
    ensures var s, op, exit := Top(sys, t).store, Top(sys, t).op, pick.exit;
      && Running(AfterBody(sys, s, op, exit), t)
      && Advance(sys, t, pick) == Goto(AfterBody(sys, s, op, exit), t, DropsOf(sys, s, op, exit))
  {
  }

  lemma CompletionsAdvance(sys: Sys, t: nat, pick: Choice)
    requires Inv(sys) && CanGo(sys, t) && Placed(sys, t) && Top(sys, t).CompleteAll?
    ensures Inv(Advance(sys, t, pick))
  {
    var completes, late := Top(sys, t).completes, Top(sys, t).late;
    if completes != [] { CompleteNextStep(sys, t, completes, late); }
    else if late != multiset{} { MoveStep(sys, t, DropValues(Work(late, [], multiset{}))); }
    else { ReturnStep(sys, t); }
  }

  lemma AdvanceKeepsInv(sys: Sys, t: nat, pick: Choice)
    requires Inv(sys) && CanGo(sys, t) && Legal(sys, t, pick)
    ensures Placed(sys, t) && Inv(Advance(sys, t, pick))
  {
    InvIsPlaced(sys, t);
    var f := Top(sys, t);
    if Passes(f) { PassAdvances(sys, t, pick); }
    else if f.PollRead? { PollReadAdvances(sys, t, pick); }
    else if f.Install? { InstallAdvances(sys, t, pick); }
    else if f.Recheck? { RecheckAdvances(sys, t, pick); }
    else if InPublish(f) { PublishAdvances(sys, t, pick); }
    else if InWake(f) { WakeAdvances(sys, t, pick); }
    else if f.StoreBody? { LegalIsSound(sys, t, pick); BodyAdvances(sys, t, pick); }
    else if f.CompleteAll? { CompletionsAdvance(sys, t, pick); }
    else if f.DropRemove? { RemoveAdvances(sys, t, pick); }
    else if f.JoinInsert? { JoinAdvances(sys, t, pick); }
    else { CloneAdvances(sys, t, pick); }
  }

  // ---- calls

  /** A call pushes a frame; a poll or a drop first takes its idle waiter. */
  lemma PushStep(sys: Sys, n: Sys, t: nat, f: Frame, w: nat)
    requires Inv(sys) && MayPush(sys, t) && Holds(f) == {} && SameStores(sys, n)
    requires n.threads == Push(sys, t, f).threads && n.locks == sys.locks && n.cells == sys.cells
    requires n.waiters == sys.waiters || (w < |sys.waiters| && CalledOn(sys, n, w))
    requires FrameOk(n, Place(t, |Stack(sys, t)|), f)
    ensures Inv(n)
  {
    var here := Place(t, |Stack(sys, t)|);
    PushKeepsLocks(sys, n, t, f);
    PushKeepsFrames(sys, n, t, f);
    MoveKeepsStages(sys, n, here);
    if w < |sys.waiters| { assert WaiterOk(sys, w); }
    OwnerKeepsWaits(sys, n, if n.waiters == sys.waiters then |n.waiters| else w);
    StoresStay(sys, n);
  }

  predicate CalledOn(sys: Sys, n: Sys, w: nat)
    requires w < |sys.waiters|
  {
    && sys.waiters[w].life.Idle? && |n.waiters| == |sys.waiters| && !n.waiters[w].life.Released?
    && n.waiters == sys.waiters[w := sys.waiters[w].(life := n.waiters[w].life, waiting := None)]
  }

  lemma SameThreadsKeepLocks(sys: Sys, n: Sys)
    requires Locks(sys) && n.threads == sys.threads && n.locks == sys.locks
    ensures Locks(n)
  {
    forall p | At(n, p) && p.depth + 1 < |Stack(n, p.thread)| ensures Calls(FrameAt(n, p)) {
      assert At(sys, p) && FrameAt(n, p) == FrameAt(sys, p);
    }
    forall t: nat, l | Running(n, t) && l in Holds(Top(n, t)) ensures l in n.locks && n.locks[l] == t {
      assert Running(sys, t) && l in Holds(Top(sys, t));
    }
  }

  lemma NewStoreStep(sys: Sys, t: nat, s: nat)
    requires Inv(sys) && CallOk(sys, NewStore(s))
    ensures Inv(Started(sys, t, NewStore(s)))
  {
    var n, here := Started(sys, t, NewStore(s)), Place(t, |Stack(sys, t)|);
    SameThreadsKeepLocks(sys, n);
    forall p | At(n, p) ensures FrameOk(n, p, FrameAt(n, p)) { FrameStays(sys, n, here, p, FrameAt(sys, p)); }
    GrownCellsKeep(sys, n, here);
    EmptyIsValid(s);
    forall r | r in n.stores ensures StoreOk(n, r) {
      if r != s { assert StoreOk(sys, r); }
    }
  }

  lemma ClosingKeepsFrames(sys: Sys, n: Sys, t: nat, s: nat)
    requires Frames(sys) && CallOk(sys, CallClose(s)) && n == Started(sys, t, CallClose(s))
    ensures Frames(n)
  {
    var here := Place(t, |Stack(sys, t)|);
    forall p | At(n, p) ensures FrameOk(n, p, FrameAt(n, p)) {
      if p != here {
        assert At(sys, p) && FrameAt(n, p) == FrameAt(sys, p);
        UnusedStoreStays(sys, n, p, FrameAt(sys, p), s, here);
      }
    }
  }

  /** A store is being dropped: no call on it was under way, and none starts. */
  lemma CloseCallStep(sys: Sys, t: nat, s: nat)
    requires Inv(sys) && MayPush(sys, t) && CallOk(sys, CallClose(s))
    ensures Inv(Started(sys, t, CallClose(s)))
  {
    var n := Started(sys, t, CallClose(s));
    PushKeepsLocks(sys, n, t, StoreEnter(s, OpClose));
    ClosingKeepsFrames(sys, n, t, s);
    GrownCellsKeep(sys, n, Place(t, |Stack(sys, t)|));
    forall r | r in n.stores ensures StoreOk(n, r) { assert StoreOk(sys, r); }
  }

  lemma UnusedStoreStays(sys: Sys, n: Sys, p: Place, f: Frame, s: nat, here: Place)
    requires FrameOk(sys, p, f) && !Uses(f, s) && n.closing == sys.closing[s := here]
    requires n.cells == sys.cells && n.waiters == sys.waiters && n.stores == sys.stores
    ensures FrameOk(n, p, f)
  {
  }

  lemma PollCallStep(sys: Sys, t: nat, w: nat, k: Waker)
    requires Inv(sys) && MayPush(sys, t) && CallOk(sys, CallPoll(w, k))
    ensures Inv(Started(sys, t, CallPoll(w, k)))
  {
    assert WaiterOk(sys, w);
    PushStep(sys, Started(sys, t, CallPoll(w, k)), t, PollLock(sys.waiters[w].cell, w, k), w);
  }

  lemma DropCallStep(sys: Sys, t: nat, w: nat)
    requires Inv(sys) && MayPush(sys, t) && CallOk(sys, CallDrop(w))
    ensures Inv(Started(sys, t, CallDrop(w)))
  {
    assert WaiterOk(sys, w);
    PushStep(sys, Started(sys, t, CallDrop(w)), t, DropLock(sys.waiters[w].cell, w), w);
  }

  lemma StartedKeepsInv(sys: Sys, t: nat, call: Call)
    requires Inv(sys) && MayCall(sys, t) && CallOk(sys, call)
    ensures Inv(Started(sys, t, call))
  {
    match call
    case NewStore(s) => NewStoreStep(sys, t, s);
    case CallPoll(w, k) => PollCallStep(sys, t, w, k);
    case CallClone(c) => PushStep(sys, Push(sys, t, CloneLock(c)), t, CloneLock(c), |sys.waiters|);
    case CallDrop(w) => DropCallStep(sys, t, w);
    case CallStore(s, op) => PushStep(sys, Push(sys, t, StoreEnter(s, op)), t, StoreEnter(s, op), |sys.waiters|);
    case CallClose(s) => CloseCallStep(sys, t, s);
  }
}
