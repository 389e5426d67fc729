/** Runs of the attempt protocol, and what holds in every reachable state. */
module AttemptRuns {
  import opened Prelude
  import opened StoreState
  import opened StoreInvariant
  import opened Retirement
  import opened CleanExits
  import opened AttemptProtocol
  import opened AttemptLocks
  import opened AttemptWakeups
  import opened AttemptSteps

  // ---- runs

  datatype Event = Go(thread: nat, pick: Choice) | Start(thread: nat, call: Call)

  ghost predicate Can(sys: Sys, e: Event) {
    match e
    case Go(t, _) => CanGo(sys, t)
    case Start(t, call) => MayCall(sys, t) && CallOk(sys, call)
  }

  /** `Defined` only makes `Advance` total; no run is cut short by it, as AdvanceKeepsInv shows. */
  ghost predicate Does(sys: Sys, e: Event, n: Sys) {
    && Can(sys, e)
    && match e
       case Go(t, pick) => Legal(sys, t, pick) && Placed(sys, t) && n == Advance(sys, t, pick)
       case Start(t, call) => n == Started(sys, t, call)
  }

  ghost predicate StepAt(run: seq<Sys>, events: seq<Event>, k: nat)
    requires k < |events| && k + 1 < |run|
  {
    Does(run[k], events[k], run[k + 1])
  }

  /** Any interleaving of any number of threads. */
  ghost predicate IsRun(run: seq<Sys>, events: seq<Event>) {
    |run| == |events| + 1 && run[0] == Initial && forall k: nat | k < |events| :: StepAt(run, events, k)
  }

  lemma StepKeepsInv(sys: Sys, e: Event, n: Sys)
    requires Inv(sys) && Does(sys, e, n)
    ensures Inv(n)
  {
    match e
    case Go(t, pick) => AdvanceKeepsInv(sys, t, pick);
    case Start(t, call) => StartedKeepsInv(sys, t, call);
  }

  lemma InitialInv()
    ensures Inv(Initial)
  {
  }

  lemma RunStepKeepsInv(run: seq<Sys>, events: seq<Event>, k: nat)
    requires IsRun(run, events) && 0 < k < |run| && Inv(run[k - 1])
    ensures Inv(run[k])
  {
    assert StepAt(run, events, k - 1);
    StepKeepsInv(run[k - 1], events[k - 1], run[k]);
  }

  lemma {:induction false} RunKeepsInv(run: seq<Sys>, events: seq<Event>, k: nat)
    requires IsRun(run, events) && k < |run|
    ensures Inv(run[k])
  {
    if k == 0 {
      InitialInv();
    } else {
      RunKeepsInv(run, events, k - 1);
      RunStepKeepsInv(run, events, k);
    }
  }

  // ---- in every reachable state

  /** Some operation is past publishing the outcome of `c` and has not returned. */
  ghost predicate BeingCompleted(sys: Sys, c: nat) {
    exists p :: At(sys, p) && Works(FrameAt(sys, p), c)
  }

  /**
   No wakeup is lost: once the call that completed the cell has returned, the last waker of
   every waiter whose last poll returned Pending was called, and called once.
   */
  lemma NoLostWakeup(run: seq<Sys>, events: seq<Event>, k: nat, w: nat)
    requires IsRun(run, events) && k < |run| && w < |run[k].waiters| && run[k].waiters[w].waiting.Some?
    ensures var sys := run[k];
      var c := sys.waiters[w].cell;
      && c < |sys.cells|
      && (sys.cells[c].outcome.Some? && !BeingCompleted(sys, c) ==>
            sys.waiters[w].woken == [sys.waiters[w].waiting.value])
  {
    var sys := run[k];
    RunKeepsInv(run, events, k);
    assert WaiterOk(sys, w);
    var c := sys.waiters[w].cell;
    assert StageOk(sys, c);
    if sys.cells[c].outcome.Some? && !sys.cells[c].stage.Done? {
      assert At(sys, sys.cells[c].stage.at) && Works(FrameAt(sys, sys.cells[c].stage.at), c);
    }
  }

  /** While the cell is open, the wakeup of a pending poll is in the slot that completion will drain. */
  lemma PendingIsRegistered(run: seq<Sys>, events: seq<Event>, k: nat, w: nat)
    requires IsRun(run, events) && k < |run| && w < |run[k].waiters| && run[k].waiters[w].waiting.Some?
    ensures var sys, waiter := run[k], run[k].waiters[w];
      && waiter.cell < |sys.cells|
      && (sys.cells[waiter.cell].outcome.None? ==>
            w in sys.cells[waiter.cell].registered && waiter.slot == waiter.waiting && waiter.woken == [])
  {
    RunKeepsInv(run, events, k);
    assert WaiterOk(run[k], w) && StageOk(run[k], run[k].waiters[w].cell);
  }

  /** Wakes are delivered once per waiter, and only for an attempt that has its outcome. */
  lemma WokenAtMostOnce(run: seq<Sys>, events: seq<Event>, k: nat, w: nat)
    requires IsRun(run, events) && k < |run| && w < |run[k].waiters|
    ensures var sys, waiter := run[k], run[k].waiters[w];
      && |waiter.woken| <= 1 && waiter.cell < |sys.cells|
      && (waiter.woken != [] ==> sys.cells[waiter.cell].outcome.Some?)
  {
    RunKeepsInv(run, events, k);
    assert WaiterOk(run[k], w) && StageOk(run[k], run[k].waiters[w].cell);
  }

  /** A poll that returned an outcome returned the one its cell still holds. */
  lemma SeenIsTheOutcome(run: seq<Sys>, events: seq<Event>, k: nat, w: nat)
    requires IsRun(run, events) && k < |run| && w < |run[k].waiters| && run[k].waiters[w].seen.Some?
    ensures run[k].waiters[w].cell < |run[k].cells|
    ensures run[k].cells[run[k].waiters[w].cell].outcome == run[k].waiters[w].seen
  {
    RunKeepsInv(run, events, k);
    assert WaiterOk(run[k], w);
  }

  /** Foreign code runs with no lock held by its thread, at any depth of re-entry. */
  lemma ForeignRunsUnlocked(run: seq<Sys>, events: seq<Event>, k: nat, t: nat)
    requires IsRun(run, events) && k < |run| && Running(run[k], t) && Foreign(Top(run[k], t))
    ensures forall l :: l in run[k].locks ==> run[k].locks[l] != t
    ensures forall i | 0 <= i < |Stack(run[k], t)| :: Holds(Stack(run[k], t)[i]) == {}
  {
    RunKeepsInv(run, events, k);
    ForeignHoldsNothing(run[k], t);
  }

  /**
   No interleaving deadlocks: every thread with an operation in progress can go on, or waits,
   at the end of a chain of lock holders, for one that can and is not in foreign code.
   */
  lemma NoDeadlock(run: seq<Sys>, events: seq<Event>, k: nat, t: nat)
    requires IsRun(run, events) && k < |run| && Running(run[k], t)
    ensures exists chain :: WaitChain(run[k], t, chain)
  {
    RunKeepsInv(run, events, k);
    var chain := ChainEnds(run[k], t);
  }

  /** Draining a slot under the registry lock never drops its last owner: the waiter still has it. */
  lemma DrainDropsNoSlot(run: seq<Sys>, events: seq<Event>, k: nat, t: nat)
    requires IsRun(run, events) && k < |run| && Running(run[k], t) && Top(run[k], t).Take?
    ensures Top(run[k], t).waiter < |run[k].waiters| && !run[k].waiters[Top(run[k], t).waiter].life.Released?
  {
    RunKeepsInv(run, events, k);
    InvIsPlaced(run[k], t);
    assert StageOk(run[k], Top(run[k], t).cell);
  }

  // ---- over runs

  /** Outcomes are written once, wakes never withdrawn, and a call that completed a cell stays done. */
  ghost predicate Grows(sys: Sys, n: Sys) {
    && |sys.cells| <= |n.cells| && |sys.waiters| <= |n.waiters|
    && (forall c | 0 <= c < |sys.cells| :: CellGrows(sys.cells[c], n.cells[c]))
    && (forall w | 0 <= w < |sys.waiters| :: WaiterGrows(sys.waiters[w], n.waiters[w]))
  }

  predicate CellGrows(cell: Cell, n: Cell) {
    (cell.outcome.Some? ==> n.outcome == cell.outcome) && (cell.stage.Done? ==> n.stage.Done?)
  }

  predicate WaiterGrows(waiter: Waiter, n: Waiter) {
    && n.cell == waiter.cell && waiter.woken <= n.woken
    && (waiter.seen.Some? ==> n.seen == waiter.seen) && (waiter.life.Released? ==> n.life.Released?)
  }

  /** Stacks and locks have nothing to do with it. */
  lemma ApplyKeepsData(sys: Sys, t: nat, move: Move)
    requires Running(sys, t)
    ensures var n := Apply(sys, t, move);
      n.cells == sys.cells && n.waiters == sys.waiters && SameStores(sys, n)
  {
  }

  lemma PollGrows(sys: Sys, here: Place, f: Frame, pick: Choice)
    requires Waits(sys) && Defined(sys, here, f) && InPoll(f)
    ensures Grows(sys, Effect(sys, here, f, pick))
  {
    if Passes(f) { FramesPass(sys, here, f, pick); } else { assert WaiterOk(sys, f.waiter); }
  }

  lemma PublishGrows(sys: Sys, here: Place, f: Frame, pick: Choice)
    requires Stages(sys) && Defined(sys, here, f) && InPublish(f)
    ensures Grows(sys, Effect(sys, here, f, pick))
  {
    if !f.DropOutcome? { assert StageOk(sys, f.cell); }
  }

  lemma PickGrows(sys: Sys, here: Place, f: Frame, pick: Choice)
    requires Stages(sys) && Defined(sys, here, f) && f.Pick?
    ensures Grows(sys, Effect(sys, here, f, pick))
  {
    assert StageOk(sys, f.cell);
  }

  lemma TakeGrows(sys: Sys, here: Place, f: Frame, pick: Choice)
    requires Stages(sys) && Defined(sys, here, f) && f.Take?
    ensures Grows(sys, Effect(sys, here, f, pick))
  {
    assert StageOk(sys, f.cell);
  }

  lemma WakeGrows(sys: Sys, here: Place, f: Frame, pick: Choice)
    requires Stages(sys) && Defined(sys, here, f) && (f.WakeNext? || f.Wake?)
    ensures Grows(sys, Effect(sys, here, f, pick))
  {
    assert StageOk(sys, f.cell);
  }

  lemma OtherGrows(sys: Sys, here: Place, f: Frame, pick: Choice)
    requires Defined(sys, here, f) && !InPoll(f) && !InPublish(f) && (InWake(f) ==> f.TakeLock?)
    ensures Grows(sys, Effect(sys, here, f, pick))
  {
  }

  lemma AdvanceGrows(sys: Sys, t: nat, pick: Choice)
    requires Inv(sys) && Placed(sys, t)
    ensures Grows(sys, Advance(sys, t, pick))
  {
    var here, f := TopPlace(sys, t), Top(sys, t);
    if InPoll(f) { PollGrows(sys, here, f, pick); }
    else if InPublish(f) { PublishGrows(sys, here, f, pick); }
    else if f.WakeNext? || f.Wake? { WakeGrows(sys, here, f, pick); }
    else if f.Pick? { PickGrows(sys, here, f, pick); }
    else if f.Take? { TakeGrows(sys, here, f, pick); }
    else { OtherGrows(sys, here, f, pick); }
    EffectKeepsThreads(sys, here, f, pick);
    ApplyKeepsData(Effect(sys, here, f, pick), t, Next(sys, here, f, pick));
  }

  lemma StartedGrows(sys: Sys, t: nat, call: Call)
    requires CallOk(sys, call)
    ensures Grows(sys, Started(sys, t, call))
  {
  }

  lemma StepGrows(sys: Sys, e: Event, n: Sys)
    requires Inv(sys) && Does(sys, e, n)
    ensures Grows(sys, n)
  {
    match e
    case Go(t, pick) => AdvanceGrows(sys, t, pick);
    case Start(t, call) => StartedGrows(sys, t, call);
  }

  lemma GrowsIsTransitive(a: Sys, b: Sys, c: Sys)
    requires Grows(a, b) && Grows(b, c)
    ensures Grows(a, c)
  {
    forall i | 0 <= i < |a.cells| ensures CellGrows(a.cells[i], c.cells[i]) {
      assert CellGrows(b.cells[i], c.cells[i]);
    }
    forall w | 0 <= w < |a.waiters| ensures WaiterGrows(a.waiters[w], c.waiters[w]) {
      assert WaiterGrows(b.waiters[w], c.waiters[w]);
    }
  }

  lemma RunStepGrows(run: seq<Sys>, events: seq<Event>, k: nat)
    requires IsRun(run, events) && k < |events|
    ensures Grows(run[k], run[k + 1])
  {
    RunKeepsInv(run, events, k);
    assert StepAt(run, events, k);
    StepGrows(run[k], events[k], run[k + 1]);
  }

  lemma {:induction false} RunGrows(run: seq<Sys>, events: seq<Event>, j: nat, k: nat)
    requires IsRun(run, events) && j <= k < |run|
    ensures Grows(run[j], run[k])
    decreases k - j
  {
    if j < k {
      RunGrows(run, events, j, k - 1);
      RunStepGrows(run, events, k - 1);
      GrowsIsTransitive(run[j], run[k - 1], run[k]);
    }
  }

  /** All polls of all waiters of one attempt, whenever they return an outcome, return the same one. */
  lemma OneOutcome(run: seq<Sys>, events: seq<Event>, j: nat, k: nat, v: nat, w: nat)
    requires IsRun(run, events) && j <= k < |run| && v < |run[j].waiters| && w < |run[k].waiters|
    requires run[j].waiters[v].cell == run[k].waiters[w].cell
    requires run[j].waiters[v].seen.Some? && run[k].waiters[w].seen.Some?
    ensures run[j].waiters[v].seen == run[k].waiters[w].seen
  {
    SeenIsTheOutcome(run, events, j, v);
    SeenIsTheOutcome(run, events, k, w);
    RunGrows(run, events, j, k);
    assert CellGrows(run[j].cells[run[j].waiters[v].cell], run[k].cells[run[j].waiters[v].cell]);
  }

  // ---- operations end

  /** How far an operation is from returning: stages left, rounds left of its loop, steps left of the round. */
  datatype Left = Left(stages: nat, rounds: nat, steps: nat)

  predicate Less(a: Left, b: Left) {
    || a.stages < b.stages
    || (a.stages == b.stages && (a.rounds < b.rounds || (a.rounds == b.rounds && a.steps < b.steps)))
  }

  function Straight(f: Frame): nat {
    match f
    case PollLock(_, _, _) => 10
    case PollRead(_, _, _) => 9
    case MatchLock(_, _, _) => 8
    case MatchRead(_, _, _) => 7
    case CloneWaker(_, _, _) => 6
    case InstallLock(_, _, _) => 5
    case Install(_, _, _) => 4
    case DropWaker(_, _, _) => 3
    case RecheckLock(_, _, _) => 2
    case StoreEnter(_, _) => 10
    case StoreBody(_, _) => 9
    case DropLocked(_, _, _, _, _) => 8
    case DropValues(work) => if work.completes == [] && work.late == multiset{} then 1 else 7
    case CompleteAll(_, _) => 6
    case PublishLock(_, _) => 7
    case Publish(_, _) => 6
    case DrainLock(_) => 5
    case Drain(_) => 4
    case Pick(_) => 3
    case TakeLock(_, _) => 3
    case Take(_, _) => 3
    case CloneLock(_) => 2
    case DropLock(_, _) => 3
    case DropRemove(_, _) => 2
    case JoinLock(_, _) => 3
    case JoinInsert(_, _) => 2
    case WakeNext(_) => 2
    case Wake(_) => 2
    case _ => 1
  }

  function LeftOf(sys: Sys, f: Frame): Left {
    match f
    case Pick(c) => Left(Straight(f), Rounds(sys, c), 2)
    case TakeLock(c, _) => Left(Straight(f), Rounds(sys, c), 1)
    case WakeNext(c) => Left(Straight(f), Rounds(sys, c), 0)
    case Wake(c) => Left(Straight(f), Rounds(sys, c), 1)
    case Take(c, _) => Left(Straight(f), Rounds(sys, c), 0)
    case CompleteAll(completes, _) => Left(Straight(f), |completes|, 0)
    case _ => Left(Straight(f), 0, 0)
  }

  function Rounds(sys: Sys, c: nat): nat {
    if c >= |sys.cells| then 0 else
    match sys.cells[c].stage
    case Draining(_, todo, _) => |todo|
    case Waking(_, rest) => |rest|
    case _ => 0
  }

  /** `pick` names a slot that is left to drain, if any is. */
  predicate Picks(sys: Sys, f: Frame, pick: Choice)
    requires f.Pick? ==> f.cell < |sys.cells| && sys.cells[f.cell].stage.Draining?
  {
    f.Pick? ==> var todo := sys.cells[f.cell].stage.todo; todo == {} || pick.slot in todo
  }

  /** The operation returns, or goes on with less left to do, perhaps below a completion it calls. */
  predicate Nears(d: Sys, move: Move, before: Left) {
    match move
    case On(f) => Less(LeftOf(d, f), before)
    case Into(f, _) => Less(LeftOf(d, f), before)
    case Back => true
    case Stay => false
  }

  lemma PollEnds(sys: Sys, here: Place, f: Frame, pick: Choice)
    requires Defined(sys, here, f) && InPoll(f)
    ensures Nears(Effect(sys, here, f, pick), Next(sys, here, f, pick), LeftOf(sys, f))
  {
  }

  lemma PublishEnds(sys: Sys, here: Place, f: Frame, pick: Choice)
    requires Defined(sys, here, f) && InPublish(f)
    ensures Nears(Effect(sys, here, f, pick), Next(sys, here, f, pick), LeftOf(sys, f))
  {
  }

  lemma DrainEnds(sys: Sys, here: Place, f: Frame, pick: Choice)
    requires Defined(sys, here, f) && InWake(f) && !f.WakeNext? && !f.Wake? && Picks(sys, f, pick)
    ensures Nears(Effect(sys, here, f, pick), Next(sys, here, f, pick), LeftOf(sys, f))
  {
    if f.Take? {
      assert Effect(sys, here, f, pick).cells[f.cell].stage.todo == sys.cells[f.cell].stage.todo - {f.waiter};
    }
  }

  lemma WakeEnds(sys: Sys, here: Place, f: Frame, pick: Choice)
    requires Defined(sys, here, f) && (f.WakeNext? || f.Wake?)
    ensures Nears(Effect(sys, here, f, pick), Next(sys, here, f, pick), LeftOf(sys, f))
  {
  }

  lemma OtherEnds(sys: Sys, here: Place, f: Frame, pick: Choice)
    requires Defined(sys, here, f) && !InPoll(f) && !InPublish(f) && !InWake(f)
    ensures Nears(Effect(sys, here, f, pick), Next(sys, here, f, pick), LeftOf(sys, f))
  {
  }

  /** Every step of an operation brings it nearer to its return. */
  lemma OwnStepsEnd(sys: Sys, t: nat, pick: Choice)
    requires Inv(sys) && Placed(sys, t) && Picks(sys, Top(sys, t), pick)
    ensures var height, n := |Stack(sys, t)|, Advance(sys, t, pick);
      || Stack(n, t) == Stack(sys, t)[..height - 1]
      || (|Stack(n, t)| >= height && Less(LeftOf(n, Stack(n, t)[height - 1]), LeftOf(sys, Top(sys, t))))
  {
    var here, f := TopPlace(sys, t), Top(sys, t);
    if InPoll(f) { PollEnds(sys, here, f, pick); }
    else if InPublish(f) { PublishEnds(sys, here, f, pick); }
    else if f.WakeNext? || f.Wake? { WakeEnds(sys, here, f, pick); }
    else if InWake(f) { DrainEnds(sys, here, f, pick); }
    else { OtherEnds(sys, here, f, pick); }
    EffectKeepsThreads(sys, here, f, pick);
    NearsApplied(sys, Effect(sys, here, f, pick), t, Next(sys, here, f, pick), LeftOf(sys, f));
  }

  lemma NearsApplied(sys: Sys, d: Sys, t: nat, move: Move, before: Left)
    requires Running(sys, t) && d.threads == sys.threads && Nears(d, move, before)
    ensures var height, n := |Stack(sys, t)|, Apply(d, t, move);
      || Stack(n, t) == Stack(sys, t)[..height - 1]
      || (|Stack(n, t)| >= height && Less(LeftOf(n, Stack(n, t)[height - 1]), before))
  {
  }

  /** No step of another thread takes it further away. */
  lemma OthersDoNotDelay(sys: Sys, e: Event, n: Sys, u: nat)
    requires Inv(sys) && Does(sys, e, n) && e.thread != u && Running(sys, u)
    ensures Stack(n, u) == Stack(sys, u) && LeftOf(n, Top(n, u)) == LeftOf(sys, Top(sys, u))
  {
    match e
    case Go(t, pick) => StepsDoNotDelay(sys, t, pick, u);
    case Start(t, call) => CallsDoNotDelay(sys, t, call, u);
  }

  lemma CallsDoNotDelay(sys: Sys, t: nat, call: Call, u: nat)
    requires CallOk(sys, call) && t != u && Running(sys, u)
    ensures var n := Started(sys, t, call);
      Stack(n, u) == Stack(sys, u) && LeftOf(n, Top(n, u)) == LeftOf(sys, Top(sys, u))
  {
    assert Started(sys, t, call).cells == sys.cells;
  }

  lemma StepsDoNotDelay(sys: Sys, t: nat, pick: Choice, u: nat)
    requires Frames(sys) && Stages(sys) && Placed(sys, t) && t != u && Running(sys, u)
    ensures var n := Advance(sys, t, pick);
      Stack(n, u) == Stack(sys, u) && LeftOf(n, Top(n, u)) == LeftOf(sys, Top(sys, u))
  {
    var f, p := Top(sys, u), TopPlace(sys, u);
    assert At(sys, p) && FrameAt(sys, p) == f && FrameOk(sys, p, f);
    StepAwayKeepsStack(sys, t, pick, u);
    if InWake(f) {
      assert StageOk(sys, f.cell);
      AdvanceKeepsStage(sys, t, pick, f.cell, p);
    }
  }

  lemma AdvanceKeepsStage(sys: Sys, t: nat, pick: Choice, c: nat, p: Place)
    requires Placed(sys, t) && c < |sys.cells| && p.thread != t && StageOk(sys, c)
    requires (sys.cells[c].stage.Draining? || sys.cells[c].stage.Waking?) && sys.cells[c].stage.at == p
    ensures var n := Advance(sys, t, pick); c < |n.cells| && n.cells[c].stage == sys.cells[c].stage
  {
    var here, f := TopPlace(sys, t), Top(sys, t);
    StepAwayKeepsStage(sys, here, f, pick, c, p);
    EffectKeepsThreads(sys, here, f, pick);
    ApplyKeepsData(Effect(sys, here, f, pick), t, Next(sys, here, f, pick));
  }

  lemma ApplyKeepsOthers(sys: Sys, t: nat, move: Move, u: nat)
    requires Running(sys, t) && t != u
    ensures Stack(Apply(sys, t, move), u) == Stack(sys, u)
  {
  }

  lemma StepAwayKeepsStack(sys: Sys, t: nat, pick: Choice, u: nat)
    requires Placed(sys, t) && t != u
    ensures Stack(Advance(sys, t, pick), u) == Stack(sys, u)
  {
    var here, f := TopPlace(sys, t), Top(sys, t);
    EffectKeepsThreads(sys, here, f, pick);
    ApplyKeepsOthers(Effect(sys, here, f, pick), t, Next(sys, here, f, pick), u);
  }

  lemma StepAwayKeepsStage(sys: Sys, here: Place, f: Frame, pick: Choice, c: nat, p: Place)
    requires Defined(sys, here, f) && c < |sys.cells| && p != here
    requires (sys.cells[c].stage.Draining? || sys.cells[c].stage.Waking?) && sys.cells[c].stage.at == p
    requires StageOk(sys, c)
    ensures var d := Effect(sys, here, f, pick); c < |d.cells| && d.cells[c].stage == sys.cells[c].stage
  {
    if Passes(f) { FramesPass(sys, here, f, pick); }
    else if f.Take? || f.WakeNext? { WakeElsewhere(sys, here, f, pick, c, p); }
    else { OtherElsewhere(sys, here, f, pick, c, p); }
  }

  lemma WakeElsewhere(sys: Sys, here: Place, f: Frame, pick: Choice, c: nat, p: Place)
    requires Defined(sys, here, f) && c < |sys.cells| && p != here && (f.Take? || f.WakeNext?)
    requires (sys.cells[c].stage.Draining? || sys.cells[c].stage.Waking?) && sys.cells[c].stage.at == p
    ensures var d := Effect(sys, here, f, pick); c < |d.cells| && d.cells[c].stage == sys.cells[c].stage
  {
  }

  lemma OtherElsewhere(sys: Sys, here: Place, f: Frame, pick: Choice, c: nat, p: Place)
    requires Defined(sys, here, f) && c < |sys.cells| && p != here && !Passes(f) && !f.Take? && !f.WakeNext?
    requires (sys.cells[c].stage.Draining? || sys.cells[c].stage.Waking?) && sys.cells[c].stage.at == p
    requires StageOk(sys, c)
    ensures var d := Effect(sys, here, f, pick); c < |d.cells| && d.cells[c].stage == sys.cells[c].stage
  {
  }
}
