/**
 The attempt-cell protocol, and the stores it serves, as a step system over any number of
 threads, stores, cells and waiters. A thread is a stack of operations in progress; each
 frame says what the operation does next and which locks it holds. At a foreign frame the
 thread runs executor or user code (waker clone, drop and wake, destructors of values and
 errors), which may call any operation again before it returns.

 A store operation does under its lock what StoreState says, with any arguments at all;
 what it then drops, and where, is what Retirement says. Wakers are identified up to
 `will_wake`.
 */
module AttemptProtocol {
  import opened Prelude
  import opened StoreState
  import opened StoreInvariant
  import opened Retirement

  datatype Lock = StoreLock(store: nat) | RegistryLock(cell: nat) | SlotLock(waiter: nat) | OutcomeLock(cell: nat)

  type Waker(==, !new)

  /** What a store operation leaves to do after its guard: drops, completions in order, late drops. */
  datatype Work = Work(retired: multiset<Held>, completes: seq<(nat, Outcome)>, late: multiset<Held>)

  const NoWork := Work(multiset{}, [], multiset{})

  datatype Frame =
    // ProductionWaiter::poll and WakerSlot::record
    | PollLock(cell: nat, waiter: nat, waker: Waker)
    | PollRead(cell: nat, waiter: nat, waker: Waker)
    | MatchLock(cell: nat, waiter: nat, waker: Waker)
    | MatchRead(cell: nat, waiter: nat, waker: Waker)
    | CloneWaker(cell: nat, waiter: nat, waker: Waker)
    | InstallLock(cell: nat, waiter: nat, waker: Waker)
    | Install(cell: nat, waiter: nat, waker: Waker)
    | DropWaker(cell: nat, waiter: nat, waker: Waker)
    | RecheckLock(cell: nat, waiter: nat, waker: Waker)
    | Recheck(cell: nat, waiter: nat, waker: Waker)
    // AttemptCell::complete and WaiterRegistry::take_wakers
    | PublishLock(cell: nat, outcome: Outcome)
    | Publish(cell: nat, outcome: Outcome)
    | DropOutcome
    | DrainLock(cell: nat)
    | Drain(cell: nat)
    | Pick(cell: nat)
    | TakeLock(cell: nat, waiter: nat)
    | Take(cell: nat, waiter: nat)
    | WakeNext(cell: nat)
    | Wake(cell: nat)
    // ProductionWaiter::clone and ::drop
    | CloneLock(cell: nat)
    | CloneInsert(cell: nat)
    | DropLock(cell: nat, waiter: nat)
    | DropRemove(cell: nat, waiter: nat)
    | DropSlot
    // a locked store operation
    | StoreEnter(store: nat, op: Op)
    | StoreBody(store: nat, op: Op)
    // what goes before the guard: references, and the last owner of an attempt cell
    | DropLocked(store: nat, held: multiset<Held>, orphan: bool, joins: Option<nat>, work: Work)
    | JoinLock(store: nat, cell: nat)
    | JoinInsert(store: nat, cell: nat)
    | StoreLeave(store: nat)
    | DropValues(work: Work)
    | CompleteAll(completes: seq<(nat, Outcome)>, late: multiset<Held>)

  /** Where an operation runs: a thread and a position on its stack. */
  datatype Place = Place(thread: nat, depth: nat)

  /** How far the completion of a cell has come; local data of `complete` is kept here. */
  datatype Stage =
    | Open
    | Claimed(at: Place)
    | Draining(at: Place, todo: set<nat>, taken: seq<(nat, Waker)>)
    | Waking(at: Place, rest: seq<(nat, Waker)>)
    | Done

  datatype Cell = Cell(outcome: Option<Outcome>, registered: set<nat>, stage: Stage)

  /** A waiter is polled and dropped by its one owner, and by nobody at the same time. */
  datatype Life = Idle | Polling(at: Place) | Dropping(at: Place) | Released

  /**
   `waiting`: the waker of a poll that returned Pending and was the waiter's last call.
   `woken`: the wakers called on its behalf. `seen`: the outcome its polls returned.
   */
  datatype Waiter = Waiter(
    cell: nat, slot: Option<Waker>, life: Life, waiting: Option<Waker>, woken: seq<Waker>, seen: Option<Outcome>)

  /** `names`: the cell of an attempt, by store and address. `closing`: who drops a store. */
  datatype Sys = Sys(
    cells: seq<Cell>, waiters: seq<Waiter>, locks: map<Lock, nat>, threads: map<nat, seq<Frame>>,
    stores: map<nat, State>, names: map<(nat, nat), nat>, closing: map<nat, Place>)

  const Initial := Sys([], [], map[], map[], map[], map[], map[])

  // ---- locks

  function Holds(f: Frame): set<Lock> {
    match f
    case PollRead(c, _, _) => {OutcomeLock(c)}
    case MatchRead(_, w, _) => {SlotLock(w)}
    case Install(_, w, _) => {SlotLock(w)}
    case Recheck(c, _, _) => {OutcomeLock(c)}
    case Publish(c, _) => {OutcomeLock(c)}
    case Drain(c) => {RegistryLock(c)}
    case Pick(c) => {RegistryLock(c)}
    case TakeLock(c, _) => {RegistryLock(c)}
    case Take(c, w) => {RegistryLock(c), SlotLock(w)}
    case CloneInsert(c) => {RegistryLock(c)}
    case DropRemove(c, _) => {RegistryLock(c)}
    case StoreBody(s, _) => {StoreLock(s)}
    case DropLocked(s, _, _, _, _) => {StoreLock(s)}
    case JoinLock(s, _) => {StoreLock(s)}
    case JoinInsert(s, c) => {StoreLock(s), RegistryLock(c)}
    case StoreLeave(s) => {StoreLock(s)}
    case _ => {}
  }

  /** The lock a frame has to acquire before it can go on. */
  function Wants(f: Frame): Option<Lock> {
    match f
    case PollLock(c, _, _) => Some(OutcomeLock(c))
    case MatchLock(_, w, _) => Some(SlotLock(w))
    case InstallLock(_, w, _) => Some(SlotLock(w))
    case RecheckLock(c, _, _) => Some(OutcomeLock(c))
    case PublishLock(c, _) => Some(OutcomeLock(c))
    case DrainLock(c) => Some(RegistryLock(c))
    case TakeLock(_, w) => Some(SlotLock(w))
    case CloneLock(c) => Some(RegistryLock(c))
    case DropLock(c, _) => Some(RegistryLock(c))
    case StoreEnter(s, _) => Some(StoreLock(s))
    case JoinLock(_, c) => Some(RegistryLock(c))
    case _ => None
  }

  /** Frames at which executor or user code runs; a drop under the guard is one if it drops anything. */
  predicate Foreign(f: Frame) {
    || f.CloneWaker? || f.DropWaker? || f.DropOutcome? || f.Wake? || f.DropSlot? || f.DropValues?
    || (f.DropLocked? && (f.held != multiset{} || f.orphan))
  }

  /** Frames that can have another one above them. */
  predicate Calls(f: Frame) {
    Foreign(f) || f.CompleteAll?
  }

  /** The lock order: store before registry before slot; an outcome lock is taken alone. */
  function Rank(l: Lock): nat {
    match l
    case StoreLock(_) => 0
    case RegistryLock(_) => 1
    case SlotLock(_) => 2
    case OutcomeLock(_) => 3
  }

  // ---- stacks

  function Stack(sys: Sys, t: nat): seq<Frame> {
    if t in sys.threads then sys.threads[t] else []
  }

  predicate Running(sys: Sys, t: nat) {
    Stack(sys, t) != []
  }

  function Top(sys: Sys, t: nat): Frame
    requires Running(sys, t)
  {
    Stack(sys, t)[|Stack(sys, t)| - 1]
  }

  function TopPlace(sys: Sys, t: nat): Place
    requires Running(sys, t)
  {
    Place(t, |Stack(sys, t)| - 1)
  }

  predicate At(sys: Sys, p: Place) {
    p.depth < |Stack(sys, p.thread)|
  }

  function FrameAt(sys: Sys, p: Place): Frame
    requires At(sys, p)
  {
    Stack(sys, p.thread)[p.depth]
  }

  /** Thread `t` gives up what its top frame held and holds `held` instead. */
  function Relock(sys: Sys, t: nat, held: set<Lock>): map<Lock, nat>
    requires Running(sys, t)
  {
    (sys.locks - Holds(Top(sys, t))) + map l | l in held :: t
  }

  /** The top operation of `t` goes on as `f`. */
  function Goto(sys: Sys, t: nat, f: Frame): Sys
    requires Running(sys, t)
  {
    var stack := Stack(sys, t);
    sys.(threads := sys.threads[t := stack[|stack| - 1 := f]], locks := Relock(sys, t, Holds(f)))
  }

  /** The top operation of `t` returns. */
  function Return(sys: Sys, t: nat): Sys
    requires Running(sys, t)
  {
    var stack := Stack(sys, t);
    sys.(threads := sys.threads[t := stack[..|stack| - 1]], locks := Relock(sys, t, {}))
  }

  function Push(sys: Sys, t: nat, f: Frame): Sys {
    sys.(threads := sys.threads[t := Stack(sys, t) + [f]])
  }

  function PutCell(sys: Sys, c: nat, cell: Cell): Sys
    requires c < |sys.cells|
  {
    sys.(cells := sys.cells[c := cell])
  }

  function PutWaiter(sys: Sys, w: nat, waiter: Waiter): Sys
    requires w < |sys.waiters|
  {
    sys.(waiters := sys.waiters[w := waiter])
  }

  /** `WaiterRegistry::register`: a fresh key with an empty slot. */
  function Register(sys: Sys, c: nat): Sys
    requires c < |sys.cells|
  {
    var w := |sys.waiters|;
    PutCell(sys, c, sys.cells[c].(registered := sys.cells[c].registered + {w})).(
      waiters := sys.waiters + [Waiter(c, None, Idle, None, [], None)])
  }

  // ---- what each frame relies on

  predicate CellsOk(sys: Sys, completes: seq<(nat, Outcome)>) {
    forall i | 0 <= i < |completes| :: completes[i].0 < |sys.cells|
  }

  /** A store is used by any thread until one drops its last owner. */
  predicate MayUse(sys: Sys, p: Place, s: nat, op: Op) {
    s in sys.stores && if s in sys.closing then op.OpClose? && sys.closing[s] == p else !op.OpClose?
  }

  predicate PolledBy(sys: Sys, p: Place, c: nat, w: nat) {
    w < |sys.waiters| && c < |sys.cells| && sys.waiters[w].cell == c && sys.waiters[w].life == Polling(p)
  }

  predicate DroppedBy(sys: Sys, p: Place, c: nat, w: nat) {
    w < |sys.waiters| && c < |sys.cells| && sys.waiters[w].cell == c && sys.waiters[w].life == Dropping(p)
  }

  /** Past `record`: as long as the cell is open, the slot holds this poll's waker. */
  predicate Recorded(sys: Sys, p: Place, c: nat, w: nat, k: Waker) {
    PolledBy(sys, p, c, w) && (sys.cells[c].stage.Open? ==> sys.waiters[w].slot == Some(k))
  }

  predicate FrameOk(sys: Sys, p: Place, f: Frame) {
    match f
    case PollLock(c, w, _) => PolledBy(sys, p, c, w)
    case PollRead(c, w, _) => PolledBy(sys, p, c, w)
    case MatchLock(c, w, _) => PolledBy(sys, p, c, w)
    case MatchRead(c, w, _) => PolledBy(sys, p, c, w)
    case CloneWaker(c, w, _) => PolledBy(sys, p, c, w)
    case InstallLock(c, w, _) => PolledBy(sys, p, c, w)
    case Install(c, w, _) => PolledBy(sys, p, c, w)
    case DropWaker(c, w, k) => Recorded(sys, p, c, w, k)
    case RecheckLock(c, w, k) => Recorded(sys, p, c, w, k)
    case Recheck(c, w, k) => Recorded(sys, p, c, w, k)
    case PublishLock(c, _) => c < |sys.cells|
    case Publish(c, _) => c < |sys.cells|
    case DrainLock(c) => c < |sys.cells| && sys.cells[c].stage == Claimed(p)
    case Drain(c) => c < |sys.cells| && sys.cells[c].stage == Claimed(p)
    case Pick(c) => c < |sys.cells| && sys.cells[c].stage.Draining? && sys.cells[c].stage.at == p
    case TakeLock(c, w) =>
      c < |sys.cells| && sys.cells[c].stage.Draining? && sys.cells[c].stage.at == p && w in sys.cells[c].stage.todo
    case Take(c, w) =>
      c < |sys.cells| && sys.cells[c].stage.Draining? && sys.cells[c].stage.at == p && w in sys.cells[c].stage.todo
    case WakeNext(c) => c < |sys.cells| && sys.cells[c].stage.Waking? && sys.cells[c].stage.at == p
    case Wake(c) => c < |sys.cells| && sys.cells[c].stage.Waking? && sys.cells[c].stage.at == p
    case CloneLock(c) => c < |sys.cells|
    case CloneInsert(c) => c < |sys.cells|
    case DropLock(c, w) => DroppedBy(sys, p, c, w)
    case DropRemove(c, w) => DroppedBy(sys, p, c, w)
    case StoreEnter(s, op) => MayUse(sys, p, s, op)
    case StoreBody(s, op) => MayUse(sys, p, s, op)
    case DropLocked(_, held, orphan, joins, work) =>
      && held == multiset{} && !orphan && CellsOk(sys, work.completes)
      && (joins.Some? ==> joins.value < |sys.cells| && work == NoWork)
    case JoinLock(_, c) => c < |sys.cells|
    case JoinInsert(_, c) => c < |sys.cells|
    case DropValues(work) => CellsOk(sys, work.completes)
    case CompleteAll(completes, _) => CellsOk(sys, completes)
    case _ => true
  }

  // ---- steps

  /** Whatever a frame refers to exists; the invariant below grants it. */
  predicate Defined(sys: Sys, p: Place, f: Frame) {
    && FrameOk(sys, p, f)
    && (f.Take? ==> f.waiter < |sys.waiters|)
    && (f.WakeNext? && sys.cells[f.cell].stage.rest != [] ==> sys.cells[f.cell].stage.rest[0].0 < |sys.waiters|)
  }

  function CellOf(sys: Sys, s: nat, address: nat): nat {
    if (s, address) in sys.names then sys.names[(s, address)] else |sys.cells|
  }

  /** An operation has done its part under the lock of store `s`; a new attempt has a new cell. */
  function AfterBody(sys: Sys, s: nat, op: Op, exit: Exit): Sys {
    var named :=
      if exit.starts.None? then sys else
      sys.(cells := sys.cells + [Cell(None, {}, Open)], names := sys.names[(s, exit.starts.value) := |sys.cells|]);
    named.(stores := if op.OpClose? then sys.stores - {s} else sys.stores[s := exit.state])
  }

  function WorkOf(sys: Sys, s: nat, exit: Exit): Work {
    Work(exit.retired,
         seq(|exit.completes|, i requires 0 <= i < |exit.completes| =>
           (CellOf(sys, s, exit.completes[i].0), exit.completes[i].1)),
         exit.late)
  }

  /** The store drops the last owner of an attempt cell unless the caller's permit is one. */
  predicate Orphans(op: Op, exit: Exit) {
    exit.loses.Some? && !(Borrowed(op).Some? && Borrowed(op).value.cell == exit.loses.value)
  }

  function DropsOf(sys: Sys, s: nat, op: Op, exit: Exit): Frame {
    DropLocked(s, exit.underLock, Orphans(op, exit),
               if exit.joins.Some? then Some(CellOf(sys, s, exit.joins.value)) else None, WorkOf(sys, s, exit))
  }

  /** The slot to drain next, and how the operation under the store lock comes out. */
  datatype Choice = Choice(slot: nat, exit: Exit)

  /** A store operation comes out as the store's state says. */
  ghost predicate Legal(sys: Sys, t: nat, pick: Choice)
    requires Running(sys, t)
  {
    var f := Top(sys, t);
    f.StoreBody? ==>
      f.store in sys.stores && Valid(sys.stores[f.store]) && pick.exit == ExitOf(sys.stores[f.store], f.op)
  }

  /** What an operation at frame `f` does to cells, waiters and stores. */
  function Effect(sys: Sys, here: Place, f: Frame, pick: Choice): Sys
    requires Defined(sys, here, f)
  {
    match f
    case PollRead(c, w, _) =>
      if sys.cells[c].outcome.Some?
      then PutWaiter(sys, w, sys.waiters[w].(life := Idle, seen := sys.cells[c].outcome)) else sys
    case Install(_, w, k) =>
      var waiter := sys.waiters[w];
      PutWaiter(sys, w, if waiter.slot == Some(k) then waiter else waiter.(slot := Some(k)))
    case Recheck(c, w, k) =>
      var waiter := sys.waiters[w].(life := Idle);
      var outcome := sys.cells[c].outcome;
      PutWaiter(sys, w, if outcome.Some? then waiter.(seen := outcome) else waiter.(waiting := Some(k)))
    case Publish(c, o) =>
      if sys.cells[c].outcome.Some? then sys
      else PutCell(sys, c, sys.cells[c].(outcome := Some(o), stage := Claimed(here)))
    case Drain(c) =>
      PutCell(sys, c, sys.cells[c].(registered := {}, stage := Draining(here, sys.cells[c].registered, [])))
    case Pick(c) =>
      var stage := sys.cells[c].stage;
      if stage.todo == {} then PutCell(sys, c, sys.cells[c].(stage := Waking(here, stage.taken))) else sys
    case Take(c, w) =>
      var stage := sys.cells[c].stage;
      var slot := sys.waiters[w].slot;
      var taken := if slot.Some? then stage.taken + [(w, slot.value)] else stage.taken;
      PutWaiter(PutCell(sys, c, sys.cells[c].(stage := stage.(todo := stage.todo - {w}, taken := taken))),
                w, sys.waiters[w].(slot := None))
    case WakeNext(c) =>
      var rest := sys.cells[c].stage.rest;
      if rest == [] then PutCell(sys, c, sys.cells[c].(stage := Done)) else
      var w := rest[0].0;
      PutWaiter(PutCell(sys, c, sys.cells[c].(stage := Waking(here, rest[1..]))),
                w, sys.waiters[w].(woken := sys.waiters[w].woken + [rest[0].1]))
    case CloneInsert(c) => Register(sys, c)
    case DropRemove(c, w) =>
      PutWaiter(PutCell(sys, c, sys.cells[c].(registered := sys.cells[c].registered - {w})),
                w, sys.waiters[w].(slot := None, life := Released))
    case StoreBody(s, op) => AfterBody(sys, s, op, pick.exit)
    case JoinInsert(_, c) => Register(sys, c)
    case _ => sys
  }

  /** How an operation goes on: as another frame, as one below a call, back to its caller, or not yet. */
  datatype Move = On(frame: Frame) | Into(frame: Frame, call: Frame) | Back | Stay

  function Next(sys: Sys, here: Place, f: Frame, pick: Choice): Move
    requires Defined(sys, here, f)
  {
    match f
    case PollLock(c, w, k) => On(PollRead(c, w, k))
    case PollRead(c, w, k) => if sys.cells[c].outcome.Some? then Back else On(MatchLock(c, w, k))
    case MatchLock(c, w, k) => On(MatchRead(c, w, k))
    case MatchRead(c, w, k) => On(if sys.waiters[w].slot == Some(k) then RecheckLock(c, w, k) else CloneWaker(c, w, k))
    case CloneWaker(c, w, k) => On(InstallLock(c, w, k))
    case InstallLock(c, w, k) => On(Install(c, w, k))
    case Install(c, w, k) => On(DropWaker(c, w, k))
    case DropWaker(c, w, k) => On(RecheckLock(c, w, k))
    case RecheckLock(c, w, k) => On(Recheck(c, w, k))
    case PublishLock(c, o) => On(Publish(c, o))
    case Publish(c, o) => On(if sys.cells[c].outcome.Some? then DropOutcome else DrainLock(c))
    case DrainLock(c) => On(Drain(c))
    case Drain(c) => On(Pick(c))
    case Pick(c) =>
      var todo := sys.cells[c].stage.todo;
      if todo == {} then On(WakeNext(c)) else if pick.slot in todo then On(TakeLock(c, pick.slot)) else Stay
    case TakeLock(c, w) => On(Take(c, w))
    case Take(c, _) => On(Pick(c))
    case WakeNext(c) => if sys.cells[c].stage.rest == [] then Back else On(Wake(c))
    case Wake(c) => On(WakeNext(c))
    case CloneLock(c) => On(CloneInsert(c))
    case DropLock(c, w) => On(DropRemove(c, w))
    case DropRemove(_, _) => On(DropSlot)
    case StoreEnter(s, op) => On(StoreBody(s, op))
    case StoreBody(s, op) => On(DropsOf(sys, s, op, pick.exit))
    case DropLocked(s, _, _, joins, work) => On(if joins.Some? then JoinLock(s, joins.value) else DropValues(work))
    case JoinLock(s, c) => On(JoinInsert(s, c))
    case JoinInsert(s, _) => On(StoreLeave(s))
    case DropValues(work) =>
      if work.completes == [] && work.late == multiset{} then Back else On(CompleteAll(work.completes, work.late))
    case CompleteAll(completes, late) =>
      if completes != [] then Into(CompleteAll(completes[1..], late), PublishLock(completes[0].0, completes[0].1))
      else if late != multiset{} then On(DropValues(Work(late, [], multiset{})))
      else Back
    case _ => Back
  }

  function Apply(sys: Sys, t: nat, move: Move): Sys
    requires Running(sys, t)
  {
    match move
    case On(f) => Goto(sys, t, f)
    case Into(f, call) => Push(Goto(sys, t, f), t, call)
    case Back => Return(sys, t)
    case Stay => sys
  }

  lemma EffectKeepsThreads(sys: Sys, here: Place, f: Frame, pick: Choice)
    requires Defined(sys, here, f)
    ensures Effect(sys, here, f, pick).threads == sys.threads && Effect(sys, here, f, pick).locks == sys.locks
  {
    if f.Publish? || f.Drain? || f.Pick? { DrainKeepsThreads(sys, here, f, pick); }
    else if f.Take? || f.WakeNext? { WakeKeepsThreads(sys, here, f, pick); }
    else { OtherKeepsThreads(sys, here, f, pick); }
  }

  lemma DrainKeepsThreads(sys: Sys, here: Place, f: Frame, pick: Choice)
    requires Defined(sys, here, f) && (f.Publish? || f.Drain? || f.Pick?)
    ensures Effect(sys, here, f, pick).threads == sys.threads && Effect(sys, here, f, pick).locks == sys.locks
  {
  }

  lemma WakeKeepsThreads(sys: Sys, here: Place, f: Frame, pick: Choice)
    requires Defined(sys, here, f) && (f.Take? || f.WakeNext?)
    ensures Effect(sys, here, f, pick).threads == sys.threads && Effect(sys, here, f, pick).locks == sys.locks
  {
  }

  lemma OtherKeepsThreads(sys: Sys, here: Place, f: Frame, pick: Choice)
    requires Defined(sys, here, f) && !(f.Publish? || f.Drain? || f.Pick? || f.Take? || f.WakeNext?)
    ensures Effect(sys, here, f, pick).threads == sys.threads && Effect(sys, here, f, pick).locks == sys.locks
  {
  }

  predicate Placed(sys: Sys, t: nat) {
    Running(sys, t) && Defined(sys, TopPlace(sys, t), Top(sys, t))
  }

  /** One step of the top operation of `t`. */
  function Advance(sys: Sys, t: nat, pick: Choice): Sys
    requires Placed(sys, t)
  {
    var here, f := TopPlace(sys, t), Top(sys, t);
    EffectKeepsThreads(sys, here, f, pick);
    Apply(Effect(sys, here, f, pick), t, Next(sys, here, f, pick))
  }

  /** The thread is not waiting for a lock that is taken. */
  predicate CanGo(sys: Sys, t: nat) {
    Running(sys, t) && (Wants(Top(sys, t)).Some? ==> Wants(Top(sys, t)).value !in sys.locks)
  }

  /** A thread that is between operations, or in foreign code, may start any operation. */
  predicate MayCall(sys: Sys, t: nat) {
    Running(sys, t) ==> Foreign(Top(sys, t))
  }

  datatype Call =
    | NewStore(store: nat)
    | CallPoll(waiter: nat, waker: Waker)
    | CallClone(cell: nat)
    | CallDrop(waiter: nat)
    | CallStore(store: nat, op: Op)
    | CallClose(store: nat)

  predicate Uses(f: Frame, s: nat) {
    (f.StoreEnter? || f.StoreBody?) && f.store == s
  }

  /** Every call on a store owns it, so its last owner is dropped only when no call is under way. */
  ghost predicate CallOk(sys: Sys, call: Call) {
    match call
    case NewStore(s) => s !in sys.stores && s !in sys.closing
    case CallPoll(w, _) => w < |sys.waiters| && sys.waiters[w].life.Idle?
    case CallClone(c) => c < |sys.cells|
    case CallDrop(w) => w < |sys.waiters| && sys.waiters[w].life.Idle?
    case CallStore(s, op) => s in sys.stores && s !in sys.closing && !op.OpClose?
    case CallClose(s) => s in sys.stores && s !in sys.closing && forall p | At(sys, p) :: !Uses(FrameAt(sys, p), s)
  }

  ghost function Started(sys: Sys, t: nat, call: Call): Sys
    requires CallOk(sys, call)
  {
    var here := Place(t, |Stack(sys, t)|);
    match call
    case NewStore(s) => sys.(stores := sys.stores[s := Empty(s)])
    case CallPoll(w, k) =>
      var waiter := sys.waiters[w];
      Push(PutWaiter(sys, w, waiter.(life := Polling(here), waiting := None)), t, PollLock(waiter.cell, w, k))
    case CallClone(c) => Push(sys, t, CloneLock(c))
    case CallDrop(w) =>
      var waiter := sys.waiters[w];
      Push(PutWaiter(sys, w, waiter.(life := Dropping(here), waiting := None)), t, DropLock(waiter.cell, w))
    case CallStore(s, op) => Push(sys, t, StoreEnter(s, op))
    case CallClose(s) => Push(sys.(closing := sys.closing[s := here]), t, StoreEnter(s, OpClose))
  }

  // ---- the invariant

  /** Every frame below the top of a stack is in foreign code or between two completions. */
  ghost predicate CallsBelow(sys: Sys) {
    forall p | At(sys, p) && p.depth + 1 < |Stack(sys, p.thread)| :: Calls(FrameAt(sys, p))
  }

  /** A thread holds exactly the locks of its top frame. */
  ghost predicate Locks(sys: Sys) {
    && CallsBelow(sys)
    && (forall l :: l in sys.locks ==> Running(sys, sys.locks[l]) && l in Holds(Top(sys, sys.locks[l])))
    && (forall t: nat, l :: Running(sys, t) && l in Holds(Top(sys, t)) ==> l in sys.locks && sys.locks[l] == t)
  }

  ghost predicate Frames(sys: Sys) {
    forall p | At(sys, p) :: FrameOk(sys, p, FrameAt(sys, p))
  }

  predicate Claims(f: Frame, c: nat) {
    (f.DrainLock? || f.Drain?) && f.cell == c
  }

  predicate Drains(f: Frame, c: nat) {
    (f.Pick? || f.TakeLock? || f.Take?) && f.cell == c
  }

  predicate Wakes(f: Frame, c: nat) {
    (f.WakeNext? || f.Wake?) && f.cell == c
  }

  /** No waiter is taken twice. */
  predicate Distinct(wakers: seq<(nat, Waker)>) {
    forall i, j | 0 <= i < j < |wakers| :: wakers[i].0 != wakers[j].0
  }

  /** A cell past publishing has exactly one operation working on it, until it is done. */
  ghost predicate StageOk(sys: Sys, c: nat)
    requires c < |sys.cells|
  {
    var cell := sys.cells[c];
    && (cell.outcome.None? <==> cell.stage.Open?)
    && (forall w :: w in cell.registered ==>
          w < |sys.waiters| && sys.waiters[w].cell == c && !sys.waiters[w].life.Released?)
    && match cell.stage
       case Claimed(p) => At(sys, p) && Claims(FrameAt(sys, p), c)
       case Draining(p, todo, taken) =>
         && At(sys, p) && Drains(FrameAt(sys, p), c)
         && (forall w :: w in todo ==> w < |sys.waiters| && sys.waiters[w].cell == c && !sys.waiters[w].life.Released?)
         && Distinct(taken)
         && (forall i | 0 <= i < |taken| ::
               taken[i].0 < |sys.waiters| && sys.waiters[taken[i].0].cell == c && taken[i].0 !in todo)
       case Waking(p, rest) =>
         && At(sys, p) && Wakes(FrameAt(sys, p), c)
         && Distinct(rest)
         && (forall i | 0 <= i < |rest| ::
               rest[i].0 < |sys.waiters| && sys.waiters[rest[i].0].cell == c && sys.waiters[rest[i].0].woken == [])
       case _ => true
  }

  ghost predicate Stages(sys: Sys) {
    forall c: nat | c < |sys.cells| :: StageOk(sys, c)
  }

  /** Where the wakeup of a waiter is: still in its slot, in the hands of `complete`, or delivered. */
  ghost predicate Covered(stage: Stage, w: nat, waiter: Waiter, k: Waker) {
    match stage
    case Open => waiter.slot == Some(k)
    case Claimed(_) => waiter.slot == Some(k)
    case Draining(_, todo, taken) => (w in todo && waiter.slot == Some(k)) || (w, k) in taken
    case Waking(_, rest) => (w, k) in rest || waiter.woken == [k]
    case Done => waiter.woken == [k]
  }

  ghost predicate WaiterOk(sys: Sys, w: nat)
    requires w < |sys.waiters|
  {
    var waiter := sys.waiters[w];
    && waiter.cell < |sys.cells|
    && (var cell := sys.cells[waiter.cell];
        && |waiter.woken| <= 1
        && (waiter.seen.Some? ==> waiter.seen == cell.outcome)
        && ((cell.stage.Open? || cell.stage.Claimed?) && !waiter.life.Released? ==> w in cell.registered)
        && (cell.stage.Open? || cell.stage.Claimed? || cell.stage.Draining? ==> waiter.woken == [])
        && (waiter.waiting.Some? ==> waiter.life.Idle? && Covered(cell.stage, w, waiter, waiter.waiting.value)))
  }

  ghost predicate Waits(sys: Sys) {
    forall w: nat | w < |sys.waiters| :: WaiterOk(sys, w)
  }

  /** Stores are valid, and each running attempt has its cell. */
  ghost predicate StoreOk(sys: Sys, s: nat)
    requires s in sys.stores
  {
    && Valid(sys.stores[s])
    && forall c: nat :: IsActive(sys.stores[s], c) ==> (s, c) in sys.names && sys.names[(s, c)] < |sys.cells|
  }

  ghost predicate Stores(sys: Sys) {
    forall s :: s in sys.stores ==> StoreOk(sys, s)
  }

  ghost predicate Inv(sys: Sys) {
    Locks(sys) && Frames(sys) && Stages(sys) && Waits(sys) && Stores(sys)
  }
}
