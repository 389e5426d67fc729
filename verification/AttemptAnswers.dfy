/** What polls return and where waiters come from, step by step of the attempt protocol. */
module AttemptAnswers {
  import opened Prelude
  import opened StoreState
  import opened StoreInvariant
  import opened Retirement
  import opened CleanExits
  import opened AttemptProtocol
  import opened AttemptLocks
  import opened AttemptWakeups
  import opened AttemptSteps
  import opened AttemptRuns

  // ---- polls

  /** What a poll that has just returned told its caller. */
  predicate Answered(sys: Sys, n: Sys, w: nat, k: Waker)
    requires w < |sys.waiters| && sys.waiters[w].cell < |sys.cells|
  {
    var outcome := sys.cells[sys.waiters[w].cell].outcome;
    && w < |n.waiters| && n.waiters[w].life.Idle?
    && (if outcome.Some? then n.waiters[w].seen == outcome && n.waiters[w].waiting.None?
        else n.waiters[w].waiting == Some(k) && n.waiters[w].seen == sys.waiters[w].seen)
  }

  lemma PollFrameAnswers(sys: Sys, here: Place, f: Frame, pick: Choice)
    requires Defined(sys, here, f) && InPoll(f) && Next(sys, here, f, pick).Back?
    requires sys.waiters[f.waiter].waiting.None?
    ensures Answered(sys, Effect(sys, here, f, pick), f.waiter, f.waker)
  {
  }

  /** A waiter in the middle of a call has not been told anything by that call. */
  lemma BusyIsNotWaiting(sys: Sys, w: nat)
    requires Waits(sys) && w < |sys.waiters| && !sys.waiters[w].life.Idle?
    ensures sys.waiters[w].waiting.None?
  {
    assert WaiterOk(sys, w);
  }

  /**
   A poll returns the outcome if its cell has one and Pending if not, and if Pending its last
   waker is the one that will be called.
   */
  lemma PollAnswers(run: seq<Sys>, events: seq<Event>, k: nat)
    requires IsRun(run, events) && k < |events| && events[k].Go?
    requires var t := events[k].thread;
      Running(run[k], t) && InPoll(Top(run[k], t)) && |Stack(run[k + 1], t)| < |Stack(run[k], t)|
    ensures var sys, f := run[k], Top(run[k], events[k].thread);
      f.waiter < |sys.waiters| && sys.waiters[f.waiter].cell == f.cell < |sys.cells|
      && Answered(sys, run[k + 1], f.waiter, f.waker)
  {
    RunKeepsInv(run, events, k);
    assert StepAt(run, events, k);
    var sys, t, pick := run[k], events[k].thread, events[k].pick;
    var here, f := TopPlace(sys, t), Top(sys, t);
    EffectKeepsThreads(sys, here, f, pick);
    BusyIsNotWaiting(sys, f.waiter);
    ReturnsBack(sys, t, pick);
    PollFrameAnswers(sys, here, f, pick);
    ApplyKeepsData(Effect(sys, here, f, pick), t, Back);
  }

  lemma ReturnsBack(sys: Sys, t: nat, pick: Choice)
    requires Placed(sys, t) && |Stack(Advance(sys, t, pick), t)| < |Stack(sys, t)|
    ensures Next(sys, TopPlace(sys, t), Top(sys, t), pick).Back?
  {
    EffectKeepsThreads(sys, TopPlace(sys, t), Top(sys, t), pick);
  }

  /** A poll with a waker equivalent to the one in the slot clones none, any other clones its own. */
  lemma OnlyNewWakersAreCloned(sys: Sys, here: Place, f: Frame, pick: Choice)
    requires f.MatchRead? && Defined(sys, here, f)
    ensures Next(sys, here, f, pick).On?
    ensures Next(sys, here, f, pick).frame.CloneWaker? <==> sys.waiters[f.waiter].slot != Some(f.waker)
  {
  }

  // ---- locks

  lemma TopAfterGoto(sys: Sys, t: nat, f: Frame)
    requires Running(sys, t)
    ensures Running(Goto(sys, t, f), t) && Top(Goto(sys, t, f), t) == f
  {
  }

  /** A step of an operation that waited for a lock takes it and keeps it for the section that needs it. */
  lemma WantedIsTaken(sys: Sys, t: nat, pick: Choice, l: Lock)
    requires Placed(sys, t) && Wants(Top(sys, t)) == Some(l)
    ensures var n := Advance(sys, t, pick);
      l in n.locks && n.locks[l] == t && Running(n, t) && l in Holds(Top(n, t)) && Wants(Top(n, t)) != Some(l)
  {
    var here, f := TopPlace(sys, t), Top(sys, t);
    WantedIsNext(sys, here, f, pick, l);
    TopAfterGoto(sys, t, Next(sys, here, f, pick).frame);
  }

  ghost predicate TakesNext(sys: Sys, here: Place, f: Frame, pick: Choice, l: Lock)
    requires Defined(sys, here, f)
  {
    var move := Next(sys, here, f, pick);
    Effect(sys, here, f, pick) == sys && move.On? && l in Holds(move.frame) && Wants(move.frame) != Some(l)
  }

  lemma PollWantedIsNext(sys: Sys, here: Place, f: Frame, pick: Choice, l: Lock)
    requires Defined(sys, here, f) && Wants(f) == Some(l) && InPoll(f)
    ensures TakesNext(sys, here, f, pick, l)
  {
  }

  lemma WantedIsNext(sys: Sys, here: Place, f: Frame, pick: Choice, l: Lock)
    requires Defined(sys, here, f) && Wants(f) == Some(l)
    ensures TakesNext(sys, here, f, pick, l)
  {
    if InPoll(f) { PollWantedIsNext(sys, here, f, pick, l); }
  }

  // ---- waiters

  /** A new waiter is idle, knows nothing yet, and is registered with its cell. */
  ghost predicate Joined(sys: Sys, n: Sys, c: nat) {
    && |n.waiters| == |sys.waiters| + 1 && n.waiters[..|sys.waiters|] == sys.waiters
    && (var waiter := n.waiters[|sys.waiters|];
        && waiter.cell == c && waiter.life.Idle? && waiter.woken == []
        && waiter.slot.None? && waiter.waiting.None? && waiter.seen.None?)
    && c < |n.cells| && |sys.waiters| in n.cells[c].registered
  }

  lemma InsertJoins(sys: Sys, t: nat, pick: Choice)
    requires Placed(sys, t) && (Top(sys, t).CloneInsert? || Top(sys, t).JoinInsert?)
    ensures Joined(sys, Advance(sys, t, pick), Top(sys, t).cell)
  {
  }

  /** The operation is about to register a waiter with cell `c`, and still holds the store lock. */
  predicate WillJoin(f: Frame, s: nat, c: nat) {
    || (f.DropLocked? && f.store == s && f.joins == Some(c))
    || (f.JoinLock? && f.store == s && f.cell == c)
    || (f.JoinInsert? && f.store == s && f.cell == c)
  }

  lemma JoinerGoesOn(sys: Sys, t: nat, pick: Choice, s: nat, c: nat)
    requires Placed(sys, t) && WillJoin(Top(sys, t), s, c) && !Top(sys, t).JoinInsert?
    ensures var n := Advance(sys, t, pick); Running(n, t) && WillJoin(Top(n, t), s, c)
  {
    var f := Top(sys, t);
    FramesPass(sys, TopPlace(sys, t), f, pick);
    TopAfterGoto(sys, t, if f.DropLocked? then JoinLock(s, c) else JoinInsert(s, c));
  }

  /** It registers the waiter before it unlocks the store. */
  lemma JoinerJoins(sys: Sys, t: nat, pick: Choice, s: nat, c: nat)
    requires Placed(sys, t) && WillJoin(Top(sys, t), s, c)
    ensures var n := Advance(sys, t, pick);
      && Running(n, t) && StoreLock(s) in Holds(Top(n, t))
      && (if Top(sys, t).JoinInsert? then Joined(sys, n, c) else WillJoin(Top(n, t), s, c))
  {
    if Top(sys, t).JoinInsert? {
      InsertJoins(sys, t, pick);
      InsertGoesOn(sys, t, pick);
    } else {
      JoinerGoesOn(sys, t, pick, s, c);
      WillJoinHolds(Top(Advance(sys, t, pick), t), s, c);
    }
  }

  lemma WillJoinHolds(f: Frame, s: nat, c: nat)
    requires WillJoin(f, s, c)
    ensures StoreLock(s) in Holds(f)
  {
  }

  lemma InsertGoesOn(sys: Sys, t: nat, pick: Choice)
    requires Placed(sys, t) && Top(sys, t).JoinInsert?
    ensures var n := Advance(sys, t, pick); Running(n, t) && Top(n, t) == StoreLeave(Top(sys, t).store)
  {
    TopAfterGoto(Register(sys, Top(sys, t).cell), t, StoreLeave(Top(sys, t).store));
  }

  /** A store joins a caller to an attempt exactly when it answers with a waiter for it. */
  lemma WaiterMeansJoin(s: State, op: Op, c: nat)
    requires Valid(s)
    ensures ExitOf(s, op).joins == Some(c) <==>
      && op.OpHandle?
      && var reply := HandleOut(op.op, s, op.handle).reply;
         reply.Ok? && reply.value.AcquiredWaiter? && reply.value.waiter.cell == c
  {
    if !op.OpHandle? { OthersDoNotJoin(s, op); }
  }

  lemma JoinedCellIsNamed(sys: Sys, s: nat, op: Op, c: nat)
    requires s in sys.stores && StoreOk(sys, s) && op.OpHandle? && ExitOf(sys.stores[s], op).joins == Some(c)
    ensures (s, c) in sys.names
    ensures WillJoin(DropsOf(sys, s, op, ExitOf(sys.stores[s], op)), s, sys.names[(s, c)])
  {
    ExitIsClean(sys.stores[s], op);
    assert IsActive(sys.stores[s], c);
  }

  /** Whoever is answered with a waiter is registered with the cell of that running attempt. */
  lemma AnsweredWaiterJoins(sys: Sys, t: nat, pick: Choice, waiter: Permit)
    requires Inv(sys) && Running(sys, t) && Top(sys, t).StoreBody? && Top(sys, t).op.OpHandle? && Legal(sys, t, pick)
    requires var f := Top(sys, t);
      HandleOut(f.op.op, sys.stores[f.store], f.op.handle).reply == Ok(AcquiredWaiter(waiter))
    ensures Placed(sys, t)
    ensures var s, n := Top(sys, t).store, Advance(sys, t, pick);
      && (s, waiter.cell) in sys.names && Running(n, t) && WillJoin(Top(n, t), s, sys.names[(s, waiter.cell)])
  {
    var s, op := Top(sys, t).store, Top(sys, t).op;
    InvIsPlaced(sys, t);
    WaiterMeansJoin(sys.stores[s], op, waiter.cell);
    JoinedCellIsNamed(sys, s, op, waiter.cell);
    BodyAdvanceIs(sys, t, pick);
    TopAfterGoto(AfterBody(sys, s, op, pick.exit), t, DropsOf(sys, s, op, pick.exit));
  }

  // ---- drops

  /** References to `x` that the operation at frame `f` has yet to drop, `f` included. */
  function ToDrop(f: Frame, x: Held): nat {
    match f
    case DropLocked(_, held, _, _, work) => held[x] + work.retired[x] + work.late[x]
    case DropValues(work) => work.retired[x] + work.late[x]
    case CompleteAll(_, late) => late[x]
    case _ => 0
  }

  /** References to `x` that a step at frame `f` drops. */
  function DropsAt(f: Frame, x: Held): nat {
    match f
    case DropLocked(_, held, _, _, _) => held[x]
    case DropValues(work) => work.retired[x]
    case _ => 0
  }

  function ToDropNext(move: Move, x: Held): nat
    requires !move.Stay?
  {
    match move
    case On(f) => ToDrop(f, x)
    case Into(f, _) => ToDrop(f, x)
    case Back => 0
  }

  /** Once an operation has left the slots, each reference it took out is dropped by one of its steps, and one only. */
  lemma DropsAreConserved(sys: Sys, here: Place, f: Frame, pick: Choice, x: Held)
    requires Defined(sys, here, f) && !f.StoreBody? && !Next(sys, here, f, pick).Stay?
    ensures ToDrop(f, x) == DropsAt(f, x) + ToDropNext(Next(sys, here, f, pick), x)
  {
    if f.DropLocked? { LockedDrops(sys, here, f, pick, x); }
    else if f.DropValues? { ValueDrops(sys, here, f, pick, x); }
    else if f.CompleteAll? { LateDrops(sys, here, f, pick, x); }
    else { NoDrops(sys, here, f, pick, x); }
  }

  lemma LockedDrops(sys: Sys, here: Place, f: Frame, pick: Choice, x: Held)
    requires Defined(sys, here, f) && f.DropLocked?
    ensures !Next(sys, here, f, pick).Stay?
    ensures ToDrop(f, x) == DropsAt(f, x) + ToDropNext(Next(sys, here, f, pick), x)
  {
  }

  lemma ValueDrops(sys: Sys, here: Place, f: Frame, pick: Choice, x: Held)
    requires Defined(sys, here, f) && f.DropValues?
    ensures !Next(sys, here, f, pick).Stay?
    ensures ToDrop(f, x) == DropsAt(f, x) + ToDropNext(Next(sys, here, f, pick), x)
  {
  }

  lemma LateDrops(sys: Sys, here: Place, f: Frame, pick: Choice, x: Held)
    requires Defined(sys, here, f) && f.CompleteAll?
    ensures !Next(sys, here, f, pick).Stay?
    ensures ToDrop(f, x) == DropsAt(f, x) + ToDropNext(Next(sys, here, f, pick), x)
  {
  }

  lemma NoDrops(sys: Sys, here: Place, f: Frame, pick: Choice, x: Held)
    requires Defined(sys, here, f) && !f.StoreBody? && !f.DropLocked? && !f.DropValues? && !f.CompleteAll?
    requires !Next(sys, here, f, pick).Stay?
    ensures ToDropNext(Next(sys, here, f, pick), x) == 0
  {
  }

  lemma BodyPassesOn(sys: Sys, s: nat, op: Op, exit: Exit, x: Held)
    ensures ToDrop(DropsOf(sys, s, op, exit), x) == exit.underLock[x] + exit.retired[x] + exit.late[x]
  {
  }

  /** And what it takes on to drop after the store's part is what left the slots or was handed in and refused. */
  lemma BodyTakesOn(sys: Sys, s: nat, op: Op, exit: Exit, x: Held)
    requires s in sys.stores && Valid(sys.stores[s]) && exit == ExitOf(sys.stores[s], op)
    ensures Owns(sys.stores[s].slots, x) + Argument(op)[x]
         == Owns(exit.state.slots, x) + ToDrop(DropsOf(sys, s, op, exit), x)
  {
    ExitConserves(sys.stores[s], op);
    BodyPassesOn(sys, s, op, exit, x);
  }

  /** Displaced wakers, refused outcomes and slots of dropped waiters go in a step of their own, with no lock held. */
  lemma RestIsDroppedUnlocked(sys: Sys, here: Place, f: Frame, pick: Choice)
    requires Defined(sys, here, f)
    requires f.Install? || f.DropRemove? || (f.Publish? && sys.cells[f.cell].outcome.Some?)
    ensures var move := Next(sys, here, f, pick);
      && move.On? && Holds(move.frame) == {} && Foreign(move.frame)
      && (f.Install? ==> move.frame.DropWaker?)
      && (f.DropRemove? ==> move.frame.DropSlot?)
      && (f.Publish? ==> move.frame.DropOutcome?)
  {
  }

  /** Wherever executor or user code is called, a caller may come back in, and no lock is held. */
  lemma CallbacksAreForeign(sys: Sys, t: nat)
    requires Running(sys, t)
    requires var f := Top(sys, t);
      || f.CloneWaker? || f.DropWaker? || f.DropOutcome? || f.Wake? || f.DropSlot? || f.DropValues?
      || (f.DropLocked? && (f.orphan || exists x :: f.held[x] > 0))
    ensures Foreign(Top(sys, t)) && MayCall(sys, t)
    ensures !Top(sys, t).DropLocked? ==> Holds(Top(sys, t)) == {} && CanGo(sys, t)
  {
  }
}
