/**
 Which user values and errors leave the store, and when. Dropping the last owner of one
 runs user code, so it matters whether the store lock is still held. `Exit` says, for each
 way out of each operation, what is dropped before the guard and what after it.
 */
module Retirement {
  import opened Prelude
  import opened StoreState
  import opened StoreInvariant
  import opened Collection
  import opened CandidateOrder

  /** An owned reference to something with a user-defined destructor. */
  datatype Held = HeldValue(value: Value) | HeldFault(error: Fault)

  function ValueHeld(ready: Option<ReadyValue>): multiset<Held> {
    if ready.Some? then multiset{HeldValue(ready.value.value)} else multiset{}
  }

  function ErrorHeld(phase: Phase): multiset<Held> {
    if phase.Failed? then multiset{HeldFault(phase.error)} else multiset{}
  }

  function PhaseHeld(phase: Phase): multiset<Held> {
    ErrorHeld(phase) + ValueHeld(Retained(phase))
  }

  /** How many references to `x` a phase owns. */
  function Refs(phase: Phase, x: Held): nat {
    (if phase.Failed? && x == HeldFault(phase.error) then 1 else 0)
    + (if Retained(phase).Some? && x == HeldValue(Retained(phase).value.value) then 1 else 0)
  }

  lemma PhaseHeldRefs(phase: Phase, x: Held)
    ensures PhaseHeld(phase)[x] == Refs(phase, x)
  {
  }

  function SlotRefs(slot: Slot, x: Held): nat {
    if slot.entry.Some? then Refs(slot.entry.value.phase, x) else 0
  }

  /** How many references to `x` the slots own: a multiset of references, by its multiplicities. */
  function Owns(slots: seq<Slot>, x: Held): nat {
    if slots == [] then 0 else Owns(slots[..|slots| - 1], x) + SlotRefs(slots[|slots| - 1], x)
  }

  lemma {:induction false} OwnsUpdate(slots: seq<Slot>, i: nat, slot: Slot, x: Held)
    requires i < |slots|
    ensures Owns(slots[i := slot], x) == Owns(slots, x) - SlotRefs(slots[i], x) + SlotRefs(slot, x)
  {
    var last := |slots| - 1;
    if i == last {
      assert slots[i := slot][..last] == slots[..last];
    } else {
      OwnsUpdate(slots[..last], i, slot, x);
      assert slots[i := slot][..last] == slots[..last][i := slot];
    }
  }

  lemma OwnsAppend(slots: seq<Slot>, slot: Slot, x: Held)
    ensures Owns(slots + [slot], x) == Owns(slots, x) + SlotRefs(slot, x)
  {
    assert (slots + [slot])[..|slots|] == slots;
  }

  /** All references the slots own. */
  function Holdings(slots: seq<Slot>): multiset<Held> {
    if slots == [] then multiset{} else
    Holdings(slots[..|slots| - 1])
    + if slots[|slots| - 1].entry.Some? then PhaseHeld(slots[|slots| - 1].entry.value.phase) else multiset{}
  }

  lemma {:induction false} HoldingsAreOwned(slots: seq<Slot>, x: Held)
    ensures Holdings(slots)[x] == Owns(slots, x)
  {
    if slots != [] {
      HoldingsAreOwned(slots[..|slots| - 1], x);
      var last := slots[|slots| - 1];
      if last.entry.Some? { PhaseHeldRefs(last.entry.value.phase, x); }
    }
  }

  // ---- operations and the ways out of them

  datatype Op =
    | OpCreate
    | OpHandle(op: HandleOp, handle: Token)
    | OpObserve(handle: Token)
    | OpUpgrade(weak: Token, upgradable: bool)
    | OpCommit(permit: Permit, value: Value, bytes: U64)
    | OpFail(permit: Permit, error: Fault)
    | OpCancel(permit: Permit)
    | OpRemove(id: AssetId, strongUsers: nat)
    | OpCollect(idle: set<Token>, budget: nat)
    | OpStats
    | OpClose

  /**
   `underLock`, `retired`, `late`: references dropped while the store lock is held, after it
   is released, and after the completions. `loses`: the attempt cell to which the store's
   own reference is dropped under the lock. `starts` and `joins`: the cell of a new attempt,
   and the cell a waiter is registered with before unlocking.
   */
  datatype Exit = Exit(
    state: State, underLock: multiset<Held>, retired: multiset<Held>, late: multiset<Held>,
    starts: Option<nat>, joins: Option<nat>, loses: Option<nat>, completes: seq<(nat, Outcome)>)

  function Plain(s: State): Exit {
    Exit(s, multiset{}, multiset{}, multiset{}, None, None, None, [])
  }

  /** A reference moved into an operation. */
  function Argument(op: Op): multiset<Held> {
    match op
    case OpCommit(_, value, _) => multiset{HeldValue(value)}
    case OpFail(_, error) => multiset{HeldFault(error)}
    case _ => multiset{}
  }

  /** The permit, and with it a reference to its cell, that the caller owns throughout. */
  function Borrowed(op: Op): Option<Permit> {
    match op
    case OpCommit(permit, _, _) => Some(permit)
    case OpFail(permit, _) => Some(permit)
    case OpCancel(permit) => Some(permit)
    case _ => None
  }

  /** A retry or replacement of a failed entry retires its error; the previous value moves on. */
  function HandleExit(op: HandleOp, s: State, handle: Token): Exit {
    var out := HandleOut(op, s, handle);
    match out.reply
    case Ok(AcquiredProducer(permit)) =>
      var retired := if Live(s, handle.id.slot) then ErrorHeld(EntryAt(s, handle.id.slot).phase) else multiset{};
      Plain(out.state).(retired := retired, starts := Some(permit.cell))
    case Ok(AcquiredWaiter(waiter)) => Plain(out.state).(joins := Some(waiter.cell))
    case _ => Plain(out.state)
  }

  /** The pattern that takes an active phase apart drops the store's cell reference in place. */
  predicate TakesApart(s: State, permit: Permit) {
    s.touch != U64_MAX && Lookup(s, permit.id).Ok? && Active(EntryAt(s, permit.id.slot).phase, permit)
  }

  function CommitExit(s: State, permit: Permit, value: Value, bytes: U64): Exit {
    var out := Commit(s, permit, value, bytes);
    var lost := if TakesApart(s, permit) && EntryAt(s, permit.id.slot).contentGeneration < U64_MAX
                then Some(permit.cell) else None;
    match out.reply
    case Ok(snapshot) =>
      Plain(out.state).(retired := ValueHeld(Retained(EntryAt(s, permit.id.slot).phase)), loses := lost,
                        completes := [(permit.cell, Published(snapshot))])
    case Err(_) => Plain(out.state).(retired := multiset{HeldValue(value)}, loses := lost)
  }

  function FailExit(s: State, permit: Permit, error: Fault): Exit {
    var out := Fail(s, permit, error);
    var lost := if TakesApart(s, permit) then Some(permit.cell) else None;
    match out.reply
    case Ok(failure) => Plain(out.state).(loses := lost, completes := [(permit.cell, Faulted(failure))])
    case Err(_) => Plain(out.state).(retired := multiset{HeldFault(error)}, loses := lost)
  }

  function CancelExit(s: State, permit: Permit): Exit {
    var out := Cancel(s, permit);
    var lost := if TakesApart(s, permit) then Some(permit.cell) else None;
    match out.reply
    case Ok(outcome) => Plain(out.state).(loses := lost, completes := [(permit.cell, outcome)])
    case Err(_) => Plain(out.state).(loses := lost)
  }

  /** When the byte check fails the removed entry, a local declared after the guard, goes before it. */
  function RemoveExit(s: State, id: AssetId, strongUsers: nat): Exit {
    var out := Remove(s, id, strongUsers);
    match out.reply
    case Ok(_) => Plain(out.state).(retired := PhaseHeld(EntryAt(s, id.slot).phase))
    case Err(ResidentBytesOverflow) => Plain(out.state).(underLock := PhaseHeld(EntryAt(s, id.slot).phase))
    case Err(_) => Plain(out.state)
  }

  function CandidatesOf(slots: seq<Slot>, idle: set<Token>): seq<Candidate> {
    if slots == [] then [] else
    var last := slots[|slots| - 1];
    CandidatesOf(slots[..|slots| - 1], idle)
    + if Eligible(last, idle) then [Candidate(last.entry.value.lastTouch, last.entry.value.token.id)] else []
  }

  function PlaceIn(r: seq<Candidate>, x: Candidate): (at: nat)
    ensures at <= |r| && (at > 0 ==> !AtMost(x, r[at - 1])) && (at < |r| ==> AtMost(x, r[at]))
  {
    if r == [] || AtMost(x, r[0]) then 0 else 1 + PlaceIn(r[1..], x)
  }

  function Sorted(c: seq<Candidate>): seq<Candidate> {
    if c == [] then [] else
    var r := Sorted(c[..|c| - 1]);
    Inserted(r, PlaceIn(r, c[|c| - 1]), c[|c| - 1])
  }

  /** The value in slot `i` is evicted. */
  function Evicting(s: State, i: nat): State
    requires i < |s.slots| && SlotBytes(s.slots[i]) <= s.readyBytes
  {
    s.(slots := s.slots[i := EvictedSlot(s.slots[i])], readyBytes := s.readyBytes - SlotBytes(s.slots[i]))
  }

  /** The eviction loop; its two error exits drop what was retired so far before the guard. */
  function CollectFrom(s: State, sorted: seq<Candidate>, budget: nat, retired: multiset<Held>): Exit
    decreases |sorted|
  {
    if sorted == [] || s.readyBytes <= budget then Plain(s).(retired := retired) else
    match Lookup(s, sorted[0].id)
    case Err(_) => Plain(s).(underLock := retired)
    case Ok(entry) =>
      if entry.phase.Producing? || Retained(entry.phase).None? then CollectFrom(s, sorted[1..], budget, retired) else
      var i, ready := sorted[0].id.slot, Retained(entry.phase);
      if s.readyBytes < ready.value.bytes then
        Plain(s.(slots := s.slots[i := EvictedSlot(s.slots[i])])).(underLock := retired + ValueHeld(ready))
      else CollectFrom(Evicting(s, i), sorted[1..], budget, retired + ValueHeld(ready))
  }

  function CollectExit(s: State, idle: set<Token>, budget: nat): Exit {
    CollectFrom(s, Sorted(CandidatesOf(s.slots, idle)), budget, multiset{})
  }

  /** The cells of running attempts, in slot order. */
  function RunningCells(slots: seq<Slot>): seq<nat> {
    if slots == [] then [] else
    var last := slots[|slots| - 1];
    RunningCells(slots[..|slots| - 1])
    + if last.entry.Some? && last.entry.value.phase.Producing? then [last.entry.value.phase.cell] else []
  }

  /** The last owner of the store drops it: running attempts end, then the slots go. */
  function CloseExit(s: State): Exit {
    var cells := RunningCells(s.slots);
    Plain(Empty(s.storeId)).(
      late := Holdings(s.slots),
      completes := seq(|cells|, i requires 0 <= i < |cells| => (cells[i], Closed)))
  }

  ghost function ExitOf(s: State, op: Op): Exit
    requires forall i :: i in s.free ==> i < |s.slots|
  {
    match op
    case OpCreate => Plain(Create(s).state)
    case OpHandle(h, handle) => HandleExit(h, s, handle)
    case OpObserve(handle) => Plain(Observe(s, handle).state)
    case OpUpgrade(_, _) => Plain(s)
    case OpCommit(permit, value, bytes) => CommitExit(s, permit, value, bytes)
    case OpFail(permit, error) => FailExit(s, permit, error)
    case OpCancel(permit) => CancelExit(s, permit)
    case OpRemove(id, strongUsers) => RemoveExit(s, id, strongUsers)
    case OpCollect(idle, budget) => CollectExit(s, idle, budget)
    case OpStats => Plain(s)
    case OpClose => CloseExit(s)
  }

  // ---- nothing is lost on any way out

  /**
   What the slots owned and what was moved in is, reference by reference, what the slots
   own now and what is dropped.
   */
  ghost predicate Conserves(s: State, argument: multiset<Held>, exit: Exit) {
    forall x :: Owns(s.slots, x) + argument[x]
             == Owns(exit.state.slots, x) + exit.underLock[x] + exit.retired[x] + exit.late[x]
  }

  /** Only the entry of slot `i` was rewritten. */
  lemma PutConserves(s: State, n: State, i: nat, argument: multiset<Held>, gone: multiset<Held>)
    requires Live(s, i) && Live(n, i) && n.slots == s.slots[i := n.slots[i]]
    requires forall x :: Refs(EntryAt(s, i).phase, x) + argument[x] == Refs(EntryAt(n, i).phase, x) + gone[x]
    ensures forall x :: Owns(s.slots, x) + argument[x] == Owns(n.slots, x) + gone[x]
  {
    forall x ensures Owns(s.slots, x) + argument[x] == Owns(n.slots, x) + gone[x] {
      OwnsUpdate(s.slots, i, n.slots[i], x);
      assert Refs(EntryAt(s, i).phase, x) + argument[x] == Refs(EntryAt(n, i).phase, x) + gone[x];
    }
  }

  lemma CreateConserves(s: State)
    requires Valid(s)
    ensures Conserves(s, multiset{}, Plain(Create(s).state))
  {
    if Create(s).reply.Ok? {
      var n, i := Create(s).state, Create(s).reply.value.id.slot;
      if i < |s.slots| {
        assert SlotOk(s, i);
        forall x ensures Owns(n.slots, x) == Owns(s.slots, x) { OwnsUpdate(s.slots, i, n.slots[i], x); }
      } else {
        assert n.slots == s.slots + [n.slots[i]];
        forall x ensures Owns(n.slots, x) == Owns(s.slots, x) { OwnsAppend(s.slots, n.slots[i], x); }
      }
    }
  }

  lemma HandleConserves(op: HandleOp, s: State, handle: Token)
    ensures Conserves(s, multiset{}, HandleExit(op, s, handle))
  {
    match op
    case OpAcquire => AcquireConserves(s, handle);
    case OpRetry => RetryConserves(s, handle);
    case OpReplace => ReplacementConserves(s, handle);
  }

  lemma AcquireConserves(s: State, handle: Token)
    ensures Conserves(s, multiset{}, HandleExit(OpAcquire, s, handle))
  {
    if s.touch != U64_MAX && Validate(Touched(s), handle).Ok? {
      PutConserves(s, Acquire(s, handle).state, handle.id.slot, multiset{}, multiset{});
    }
  }

  lemma RetryConserves(s: State, handle: Token)
    ensures Conserves(s, multiset{}, HandleExit(OpRetry, s, handle))
  {
    if s.touch != U64_MAX && Validate(Touched(s), handle).Ok? {
      PutConserves(s, Retry(s, handle).state, handle.id.slot, multiset{}, HandleExit(OpRetry, s, handle).retired);
    }
  }

  lemma ReplacementConserves(s: State, handle: Token)
    ensures Conserves(s, multiset{}, HandleExit(OpReplace, s, handle))
  {
    if s.touch != U64_MAX && Validate(Touched(s), handle).Ok? {
      PutConserves(
        s, RequestReplacement(s, handle).state, handle.id.slot, multiset{}, HandleExit(OpReplace, s, handle).retired);
    }
  }

  lemma ObserveConserves(s: State, handle: Token)
    ensures Conserves(s, multiset{}, Plain(Observe(s, handle).state))
  {
    if s.touch != U64_MAX && Validate(Touched(s), handle).Ok? {
      PutConserves(s, Observe(s, handle).state, handle.id.slot, multiset{}, multiset{});
    }
  }

  lemma CommitConserves(s: State, permit: Permit, value: Value, bytes: U64)
    ensures Conserves(s, multiset{HeldValue(value)}, CommitExit(s, permit, value, bytes))
  {
    var exit := CommitExit(s, permit, value, bytes);
    if Commit(s, permit, value, bytes).reply.Ok? {
      PutConserves(s, exit.state, permit.id.slot, multiset{HeldValue(value)}, exit.retired);
    }
  }

  lemma FailConserves(s: State, permit: Permit, error: Fault)
    ensures Conserves(s, multiset{HeldFault(error)}, FailExit(s, permit, error))
  {
    if Fail(s, permit, error).reply.Ok? {
      PutConserves(s, Fail(s, permit, error).state, permit.id.slot, multiset{HeldFault(error)}, multiset{});
    }
  }

  lemma CancelConserves(s: State, permit: Permit)
    ensures Conserves(s, multiset{}, CancelExit(s, permit))
  {
    if Cancel(s, permit).reply.Ok? { PutConserves(s, Cancel(s, permit).state, permit.id.slot, multiset{}, multiset{}); }
  }

  lemma RemoveConserves(s: State, id: AssetId, strongUsers: nat)
    ensures Conserves(s, multiset{}, RemoveExit(s, id, strongUsers))
  {
    var exit := RemoveExit(s, id, strongUsers);
    if Lookup(s, id).Ok? && strongUsers == 0 && !EntryAt(s, id.slot).phase.Producing? {
      EmptiedConserves(s, exit.state, id.slot, exit.underLock, exit.retired);
    }
  }

  lemma EmptiedConserves(s: State, n: State, i: nat, early: multiset<Held>, gone: multiset<Held>)
    requires Live(s, i) && i < |n.slots| && n.slots == s.slots[i := n.slots[i]] && n.slots[i].entry.None?
    requires var held := PhaseHeld(EntryAt(s, i).phase);
      (early == held && gone == multiset{}) || (early == multiset{} && gone == held)
    ensures forall x :: Owns(s.slots, x) == Owns(n.slots, x) + early[x] + gone[x]
  {
    forall x ensures Owns(s.slots, x) == Owns(n.slots, x) + early[x] + gone[x] {
      OwnsUpdate(s.slots, i, n.slots[i], x);
      PhaseHeldRefs(EntryAt(s, i).phase, x);
    }
  }

  /** Evicting takes the value and leaves the rest. */
  lemma EvictedOwns(slots: seq<Slot>, i: nat)
    requires i < |slots| && slots[i].entry.Some? && !slots[i].entry.value.phase.Producing?
    ensures forall x :: Owns(slots[i := EvictedSlot(slots[i])], x)
                     == Owns(slots, x) - ValueHeld(Retained(slots[i].entry.value.phase))[x]
  {
    forall x ensures Owns(slots[i := EvictedSlot(slots[i])], x)
                  == Owns(slots, x) - ValueHeld(Retained(slots[i].entry.value.phase))[x]
    {
      OwnsUpdate(slots, i, EvictedSlot(slots[i]), x);
    }
  }

  lemma {:induction false} CollectConserves(s: State, sorted: seq<Candidate>, budget: nat, retired: multiset<Held>)
    ensures Conserves(s, retired, CollectFrom(s, sorted, budget, retired))
    decreases |sorted|
  {
    if sorted != [] && s.readyBytes > budget && Lookup(s, sorted[0].id).Ok? {
      var i, entry := sorted[0].id.slot, Lookup(s, sorted[0].id).value;
      if entry.phase.Producing? || Retained(entry.phase).None? {
        CollectConserves(s, sorted[1..], budget, retired);
      } else {
        EvictedOwns(s.slots, i);
        if s.readyBytes >= Retained(entry.phase).value.bytes {
          CollectConserves(Evicting(s, i), sorted[1..], budget, retired + ValueHeld(Retained(entry.phase)));
        }
      }
    }
  }

  lemma CloseConserves(s: State)
    ensures Conserves(s, multiset{}, CloseExit(s))
  {
    forall x ensures Holdings(s.slots)[x] == Owns(s.slots, x) { HoldingsAreOwned(s.slots, x); }
  }

  /** On every way out of every operation, the unreachable ones included. */
  lemma ExitConserves(s: State, op: Op)
    requires Valid(s)
    ensures Conserves(s, Argument(op), ExitOf(s, op))
  {
    match op
    case OpCreate => CreateConserves(s);
    case OpHandle(h, handle) => HandleConserves(h, s, handle);
    case OpObserve(handle) => ObserveConserves(s, handle);
    case OpCommit(permit, value, bytes) => CommitConserves(s, permit, value, bytes);
    case OpFail(permit, error) => FailConserves(s, permit, error);
    case OpCancel(permit) => CancelConserves(s, permit);
    case OpRemove(id, strongUsers) => RemoveConserves(s, id, strongUsers);
    case OpCollect(idle, budget) => CollectConserves(s, Sorted(CandidatesOf(s.slots, idle)), budget, multiset{});
    case OpClose => CloseConserves(s);
    case OpUpgrade(_, _) =>
    case OpStats =>
  }
}
