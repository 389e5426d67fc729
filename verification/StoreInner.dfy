/**
 The synchronized store as the object it is: one method per locked operation, in the
 steps of the source, each proved against its function in StoreState. What a method hands
 to `AttemptCell::complete` after unlocking is the `publish` out-parameter. Strong counts
 are read under the lock and come in as arguments.

 References to user values and errors are resources here: overwriting a phase drops what it
 holds, a local is dropped where the source drops it, and `Drop` demands that no lock is
 held. `retired` records what was dropped.
 */
module StoreInner {
  import opened Prelude
  import opened StoreState
  import opened StoreInvariant
  import opened Collection
  import opened CandidateOrder
  import opened Retirement
  import opened CleanExits

  /** Starting an attempt overwrites the entry, whatever phase was left in it meanwhile. */
  lemma StartOverwrites(s: State, i: nat, left: Entry, entry: Entry, previous: Option<ReadyValue>)
    requires i < |s.slots| && left.(phase := entry.phase) == entry
    requires left == entry || entry.attemptGeneration < U64_MAX
    ensures StartAttempt(Put(s, i, left), i, left, previous) == StartAttempt(s, i, entry, previous)
  {
    var attempt := entry.attemptGeneration + 1;
    PutTwice(s, i, left, entry);
    PutTwice(s, i, left, entry.(attemptGeneration := attempt, phase := Producing(attempt, previous, s.arcs)));
  }

  /** Writing an entry back after taking its phase restores the state. */
  lemma PutBack(s: State, i: nat, taken: Entry)
    requires Live(s, i)
    ensures Put(Put(s, i, taken), i, EntryAt(s, i)) == s
  {
    assert Put(Put(s, i, taken), i, EntryAt(s, i)).slots == s.slots;
  }

  function Producer(started: Result<Permit, AssetError>): Result<Acquired, AssetError> {
    match started
    case Ok(permit) => Ok(AcquiredProducer(permit))
    case Err(error) => Err(error)
  }

  function CheckedSub(a: nat, b: nat): Option<nat> {
    if a < b then None else Some(a - b)
  }

  class StoreInner {
    const id: nat
    var slots: seq<Slot>
    var free: set<nat>
    var readyBytes: nat
    var touch: nat
    var arcs: nat
    ghost var issued: set<AssetId>
    /** Whether this thread holds the guard. */
    ghost var locked: bool
    ghost var retired: multiset<Held>

    ghost function View(): State
      reads this
    {
      State(id, slots, free, readyBytes, touch, arcs, issued)
    }

    constructor (storeId: nat)
      ensures View() == Empty(storeId) && Valid(View()) && !locked && retired == multiset{}
    {
      id := storeId;
      slots, free, readyBytes, touch, arcs, issued := [], {}, 0, 0, 0, {};
      locked, retired := false, multiset{};
      new;
      EmptyIsValid(storeId);
    }

    // ---- the guard, and what may be dropped under it

    method Lock()
      requires !locked
      modifies this`locked
      ensures locked
    {
      locked := true;
    }

    method Unlock()
      requires locked
      modifies this`locked
      ensures !locked
    {
      locked := false;
    }

    /** Drops these references. Their destructors are user code, so the lock must be free. */
    method Drop(ghost held: multiset<Held>)
      requires !locked
      modifies this`retired
      ensures retired == old(retired) + held
    {
      retired := retired + held;
    }

    /** Where the source drops something before the guard, there must be nothing to drop. */
    method DropUnderLock(ghost held: multiset<Held>)
      requires locked && held == multiset{}
    {
    }

    /** Drops a reference to an attempt cell under the lock: the caller's own keeps the cell alive. */
    method DropCell(ghost cell: nat, ghost owned: nat)
      requires locked && owned == cell
    {
    }

    // ---- steps under the guard

    method NextTouch() returns (r: Result<nat, AssetError>)
      requires locked
      modifies this`touch
      ensures if old(touch) == U64_MAX then r == Err(GenerationExhausted) && View() == old(View())
              else r == Ok(touch) && View() == Touched(old(View()))
    {
      if touch == U64_MAX { return Err(GenerationExhausted); }
      touch := touch + 1;
      return Ok(touch);
    }

    method EntryMut(target: AssetId) returns (r: Result<Entry, AssetError>)
      requires locked
      ensures r == Lookup(View(), target)
    {
      if target.store != id { return Err(ForeignIdentity); }
      if target.slot >= |slots| { return Err(Stale(target)); }
      var slot := slots[target.slot];
      if slot.generation != target.generation { return Err(Stale(target)); }
      match slot.entry
      case None => return Err(Stale(target));
      case Some(entry) => return Ok(entry);
    }

    method ValidateHandle(handle: Token) returns (r: Result<Entry, AssetError>)
      requires locked
      ensures r == Validate(View(), handle)
    {
      r := EntryMut(handle.id);
      if r.Ok? && r.value.token.addr != handle.addr { return Err(ForeignIdentity); }
    }

    /** Updates counters of an entry in place. */
    method Mark(i: nat, entry: Entry)
      requires locked && Live(View(), i) && entry.phase == EntryAt(View(), i).phase
      modifies this`slots
      ensures View() == Put(old(View()), i, entry)
    {
      slots := slots[i := slots[i].(entry := Some(entry))];
    }

    /** Fills an empty slot. */
    method Occupy(i: nat, entry: Entry)
      requires locked && i < |slots| && slots[i].entry.None?
      modifies this`slots
      ensures View() == Put(old(View()), i, entry)
    {
      slots := slots[i := slots[i].(entry := Some(entry))];
    }

    /** Empties a slot: the entry moves out, and the slot goes on to its next generation if it has one. */
    method TakeEntry(i: nat) returns (entry: Entry, reusable: bool)
      requires locked && Live(View(), i)
      modifies this`slots
      ensures entry == EntryAt(old(View()), i) && (reusable <==> old(slots)[i].generation < U32_MAX)
      ensures slots == old(slots)[i := Slot(old(slots)[i].generation + if reusable then 1 else 0, None)]
    {
      var slot := slots[i];
      entry, reusable := slot.entry.value, slot.generation < U32_MAX;
      slots := slots[i := Slot(if reusable then slot.generation + 1 else slot.generation, None)];
    }

    /** Assigns the phase of an entry, which drops the phase that was there. */
    method SetPhase(i: nat, entry: Entry)
      requires locked && Live(View(), i) && PhaseHeld(EntryAt(View(), i).phase) == multiset{}
      modifies this`slots
      ensures View() == Put(old(View()), i, entry)
    {
      DropUnderLock(PhaseHeld(slots[i].entry.value.phase));
      slots := slots[i := slots[i].(entry := Some(entry))];
    }

    /** `mem::replace(&mut entry.phase, Phase::Missing)`: the phase moves out. */
    method TakePhase(i: nat) returns (phase: Phase)
      requires locked && Live(View(), i)
      modifies this`slots
      ensures phase == EntryAt(old(View()), i).phase
      ensures View() == Put(old(View()), i, EntryAt(old(View()), i).(phase := Missing))
    {
      var entry := slots[i].entry.value;
      slots := slots[i := slots[i].(entry := Some(entry.(phase := Missing)))];
      return entry.phase;
    }

    /** Its error exit drops `previous`, and the caller's guard is still there. */
    method MakeAttempt(i: nat, entry: Entry, previous: Option<ReadyValue>) returns (r: Result<Permit, AssetError>)
      requires locked && i < |slots| && slots[i].entry == Some(entry) && entry.phase == Missing
      requires entry.attemptGeneration == U64_MAX ==> previous.None?
      modifies this`slots, this`arcs
      ensures Out(View(), r) == StartAttempt(old(View()), i, entry, previous)
    {
      if entry.attemptGeneration == U64_MAX {
        DropUnderLock(ValueHeld(previous));
        assert slots[i := slots[i].(entry := Some(entry))] == slots;
        return Err(GenerationExhausted);
      }
      var next := entry.(attemptGeneration := entry.attemptGeneration + 1);
      var cell := arcs;
      arcs := arcs + 1;
      SetPhase(i, next.(phase := Producing(next.attemptGeneration, previous, cell)));
      return Ok(Permit(entry.token.id, next.attemptGeneration, cell));
    }

    // ---- operations

    method Create() returns (r: Result<Token, AssetError>)
      requires !locked && Valid(View())
      modifies this
      ensures !locked && Valid(View())
      ensures Out(View(), r) == StoreState.Create(old(View())) && retired == old(retired)
    {
      Lock();
      r := CreateGuarded();
      Unlock();
    }

    method CreateGuarded() returns (r: Result<Token, AssetError>)
      requires locked && Valid(View())
      modifies this`slots, this`free, this`touch, this`arcs, this`issued
      ensures Valid(View()) && Out(View(), r) == StoreState.Create(old(View()))
    {
      CreateKeepsValid(View());
      var touched := NextTouch();
      if touched.Err? { return Err(touched.error); }
      var i: nat;
      if free != {} {
        i := PopFirst();
        assert SlotOk(old(View()), i);
      } else {
        if |slots| > U32_MAX { return Err(GenerationExhausted); }
        i := |slots|;
      }
      if i == |slots| { slots := slots + [Slot(1, None)]; }
      var token := Token(arcs, AssetId(id, i, slots[i].generation));
      arcs := arcs + 1;
      issued := issued + {token.id};
      Occupy(i, Entry(token, Missing, 0, 0, touch));
      r := Ok(token);
      assert Out(View(), r) == StoreState.Create(old(View()));
    }

    method PopFirst() returns (i: nat)
      requires locked && free != {}
      modifies this`free
      ensures i == Lowest(old(free)) && free == old(free) - {i}
    {
      LowestExists(free);
      i :| i in free && forall j :: j in free ==> i <= j;
      assert IsLowest(free, i);
      free := free - {i};
    }

    method Acquire(handle: Token) returns (r: Result<Acquired, AssetError>)
      requires !locked && Valid(View())
      modifies this
      ensures !locked && Valid(View())
      ensures Out(View(), r) == StoreState.Acquire(old(View()), handle) && retired == old(retired)
    {
      AcquireKeepsValid(View(), handle);
      Lock();
      var touched := NextTouch();
      if touched.Err? { Unlock(); return Err(touched.error); }
      var found := ValidateHandle(handle);
      if found.Err? { Unlock(); return Err(found.error); }
      var entry := found.value.(lastTouch := touch);
      Mark(handle.id.slot, entry);
      match entry.phase {
        case Ready(ready) => r := Ok(AcquiredReady(SnapshotOf(entry, ready)));
        case Failed(attempt, error, previous) => r := Ok(AcquiredFailed(FailureOf(entry, attempt, error, previous)));
        case Producing(attempt, _, cell) => r := Ok(AcquiredWaiter(Permit(entry.token.id, attempt, cell)));
        case Missing =>
          StartOverwrites(Touched(old(View())), handle.id.slot, entry, entry, None);
          var started := MakeAttempt(handle.id.slot, entry, None);
          r := Producer(started);
      }
      Unlock();
    }

    method Retry(handle: Token) returns (r: Result<Acquired, AssetError>)
      requires !locked && Valid(View())
      modifies this
      ensures !locked && Valid(View())
      ensures Out(View(), r) == StoreState.Retry(old(View()), handle)
      ensures retired == old(retired) + HandleExit(OpRetry, old(View()), handle).retired
    {
      Lock();
      ghost var gone;
      r, gone := RetryGuarded(handle);
      Unlock();
      Drop(gone);
    }

    /** `gone`: locals that outlive the guard. */
    method RetryGuarded(handle: Token) returns (r: Result<Acquired, AssetError>, ghost gone: multiset<Held>)
      requires locked && Valid(View())
      modifies this`slots, this`touch, this`arcs
      ensures Valid(View()) && Out(View(), r) == StoreState.Retry(old(View()), handle)
      ensures gone == HandleExit(OpRetry, old(View()), handle).retired
    {
      gone := multiset{};
      RetryKeepsValid(View(), handle);
      var touched := NextTouch();
      if touched.Err? { return Err(touched.error), gone; }
      var found := ValidateHandle(handle);
      if found.Err? { return Err(found.error), gone; }
      var i, entry := handle.id.slot, found.value.(lastTouch := touch);
      Mark(i, entry);
      match entry.phase
      case Ready(ready) => return Ok(AcquiredReady(SnapshotOf(entry, ready))), gone;
      case Producing(attempt, _, cell) => return Ok(AcquiredWaiter(Permit(entry.token.id, attempt, cell))), gone;
      case Missing =>
        StartOverwrites(Touched(old(View())), i, entry, entry, None);
        var started := MakeAttempt(i, entry, None);
        return Producer(started), gone;
      case Failed(_, error, previous) =>
        if entry.attemptGeneration == U64_MAX { return Err(GenerationExhausted), gone; }
        AttemptsLeft(old(View()), i);
        ghost var marked := entry;
        var taken := TakePhase(i);
        entry := entry.(phase := Missing);
        PutTwice(Touched(old(View())), i, marked, entry);
        StartOverwrites(Touched(old(View())), i, entry, marked, previous);
        var started := MakeAttempt(i, entry, previous);
        return Producer(started), multiset{HeldFault(error)};
    }

    method RequestReplacement(handle: Token) returns (r: Result<Acquired, AssetError>)
      requires !locked && Valid(View())
      modifies this
      ensures !locked && Valid(View())
      ensures Out(View(), r) == StoreState.RequestReplacement(old(View()), handle)
      ensures retired == old(retired) + HandleExit(OpReplace, old(View()), handle).retired
    {
      Lock();
      ghost var gone;
      r, gone := ReplaceGuarded(handle);
      Unlock();
      Drop(gone);
    }

    method ReplaceGuarded(handle: Token) returns (r: Result<Acquired, AssetError>, ghost gone: multiset<Held>)
      requires locked && Valid(View())
      modifies this`slots, this`touch, this`arcs
      ensures Valid(View()) && Out(View(), r) == StoreState.RequestReplacement(old(View()), handle)
      ensures gone == HandleExit(OpReplace, old(View()), handle).retired
    {
      gone := multiset{};
      ReplacementKeepsValid(View(), handle);
      var touched := NextTouch();
      if touched.Err? { return Err(touched.error), gone; }
      var found := ValidateHandle(handle);
      if found.Err? { return Err(found.error), gone; }
      var i, entry := handle.id.slot, found.value.(lastTouch := touch);
      Mark(i, entry);
      if entry.phase.Producing? {
        return Ok(AcquiredWaiter(Permit(entry.token.id, entry.phase.attempt, entry.phase.cell))), gone;
      }
      if entry.attemptGeneration == U64_MAX { return Err(GenerationExhausted), gone; }
      AttemptsLeft(old(View()), i);
      ghost var marked := entry;
      var taken := TakePhase(i);
      var previous: Option<ReadyValue>;
      match taken {
        case Ready(ready) => previous := Some(ready);
        case Failed(_, error, kept) => previous, gone := kept, multiset{HeldFault(error)};
        case Missing => previous := None;
      }
      entry := entry.(phase := Missing);
      PutTwice(Touched(old(View())), i, marked, entry);
      StartOverwrites(Touched(old(View())), i, entry, marked, previous);
      var started := MakeAttempt(i, entry, previous);
      return Producer(started), gone;
    }

    method Observe(handle: Token) returns (r: Result<Observation, AssetError>)
      requires !locked && Valid(View())
      modifies this
      ensures !locked && Valid(View())
      ensures Out(View(), r) == StoreState.Observe(old(View()), handle) && retired == old(retired)
    {
      ObserveKeepsValid(View(), handle);
      Lock();
      var touched := NextTouch();
      if touched.Err? { Unlock(); return Err(touched.error); }
      var found := ValidateHandle(handle);
      if found.Err? { Unlock(); return Err(found.error); }
      var entry := found.value.(lastTouch := touch);
      Mark(handle.id.slot, entry);
      var target := entry.token.id;
      match entry.phase {
        case Missing => r := Ok(ObservedMissing(target));
        case Ready(ready) => r := Ok(ObservedReady(SnapshotOf(entry, ready)));
        case Failed(attempt, error, previous) => r := Ok(ObservedFailed(FailureOf(entry, attempt, error, previous)));
        case Producing(attempt, previous, _) =>
          r := Ok(ObservedProducing(target, attempt, SnapshotOption(entry, previous)));
      }
      Unlock();
    }

    method Upgrade(weak: Token, upgradable: bool) returns (r: Result<Option<Token>, AssetError>)
      requires !locked
      modifies this`locked
      ensures !locked && r == StoreState.Upgrade(View(), weak, upgradable)
    {
      if weak.id.store != id { return Err(ForeignIdentity); }
      Lock();
      var found := EntryMut(weak.id);
      Unlock();
      if found.Err? { return Ok(None); }
      if !upgradable || found.value.token.addr != weak.addr { return Ok(None); }
      return Ok(Some(weak));
    }

    method Commit(permit: Permit, value: Value, bytes: U64)
      returns (r: Result<Snapshot, AssetError>, publish: Option<Outcome>)
      requires !locked && Valid(View())
      modifies this
      ensures !locked && Valid(View())
      ensures Out(View(), r) == StoreState.Commit(old(View()), permit, value, bytes)
      ensures publish == if r.Ok? then Some(Published(r.value)) else None
      ensures retired == old(retired) + CommitExit(old(View()), permit, value, bytes).retired
    {
      Lock();
      ghost var gone;
      r, gone := CommitGuarded(permit, value, bytes);
      Unlock();
      Drop(gone);
      publish := if r.Ok? then Some(Published(r.value)) else None;
    }

    /** Every refusal hands the value back out; a success hands out the replaced one. */
    method CommitGuarded(permit: Permit, value: Value, bytes: U64)
      returns (r: Result<Snapshot, AssetError>, ghost gone: multiset<Held>)
      requires locked && Valid(View())
      modifies this`slots, this`touch, this`readyBytes
      ensures Valid(View()) && Out(View(), r) == StoreState.Commit(old(View()), permit, value, bytes)
      ensures gone == CommitExit(old(View()), permit, value, bytes).retired
    {
      ghost var s := Touched(View());
      gone := multiset{HeldValue(value)};
      CommitKeepsValid(View(), permit, value, bytes);
      var touched := NextTouch();
      if touched.Err? { return Err(touched.error), gone; }
      var total := readyBytes;
      var found := EntryMut(permit.id);
      if found.Err? { return Err(found.error), gone; }
      var i, entry := permit.id.slot, found.value;
      if entry.contentGeneration == U64_MAX { return Err(GenerationExhausted), gone; }
      var generation := entry.contentGeneration + 1;
      var phase := TakePhase(i);
      ghost var taken := entry.(phase := Missing);
      if !Active(phase, permit) {
        SetPhase(i, entry.(phase := phase));
        PutBack(s, i, taken);
        return Err(Expired(phase, permit)), gone;
      }
      DropCell(phase.cell, permit.cell);
      var previous := phase.previous;
      if total < BytesOf(previous) || total - BytesOf(previous) + bytes > U64_MAX {
        SetPhase(i, entry.(phase := Producing(permit.attempt, previous, permit.cell)));
        PutBack(s, i, taken);
        return Err(ResidentBytesOverflow), gone;
      }
      var ready := ReadyValue(generation, value, bytes);
      entry := entry.(contentGeneration := generation, lastTouch := touch);
      var snapshot := SnapshotOf(entry, ready);
      PutTwice(s, i, taken, entry.(phase := Ready(ready)));
      SetPhase(i, entry.(phase := Ready(ready)));
      readyBytes := total - BytesOf(previous) + bytes;
      return Ok(snapshot), ValueHeld(previous);
    }

    method Fail(permit: Permit, error: Fault) returns (r: Result<Failure, AssetError>, publish: Option<Outcome>)
      requires !locked && Valid(View())
      modifies this
      ensures !locked && Valid(View())
      ensures Out(View(), r) == StoreState.Fail(old(View()), permit, error)
      ensures publish == if r.Ok? then Some(Faulted(r.value)) else None
      ensures retired == old(retired) + FailExit(old(View()), permit, error).retired
    {
      Lock();
      ghost var gone;
      r, gone := FailGuarded(permit, error);
      Unlock();
      Drop(gone);
      publish := if r.Ok? then Some(Faulted(r.value)) else None;
    }

    method FailGuarded(permit: Permit, error: Fault)
      returns (r: Result<Failure, AssetError>, ghost gone: multiset<Held>)
      requires locked && Valid(View())
      modifies this`slots, this`touch
      ensures Valid(View()) && Out(View(), r) == StoreState.Fail(old(View()), permit, error)
      ensures gone == FailExit(old(View()), permit, error).retired
    {
      ghost var s := Touched(View());
      gone := multiset{HeldFault(error)};
      FailKeepsValid(View(), permit, error);
      var touched := NextTouch();
      if touched.Err? { return Err(touched.error), gone; }
      var found := EntryMut(permit.id);
      if found.Err? { return Err(found.error), gone; }
      var i, entry := permit.id.slot, found.value;
      var phase := TakePhase(i);
      ghost var taken := entry.(phase := Missing);
      if !Active(phase, permit) {
        SetPhase(i, entry.(phase := phase));
        PutBack(s, i, taken);
        return Err(Expired(phase, permit)), gone;
      }
      DropCell(phase.cell, permit.cell);
      var previous := phase.previous;
      entry := entry.(lastTouch := touch);
      var failure := Failure(permit.id, permit.attempt, error, SnapshotOption(entry, previous));
      PutTwice(s, i, taken, entry.(phase := Failed(permit.attempt, error, previous)));
      SetPhase(i, entry.(phase := Failed(permit.attempt, error, previous)));
      return Ok(failure), multiset{};
    }

    /** On success the reply is the outcome handed to the attempt cell. */
    method Cancel(permit: Permit) returns (r: Result<Outcome, AssetError>)
      requires !locked && Valid(View())
      modifies this
      ensures !locked && Valid(View())
      ensures Out(View(), r) == StoreState.Cancel(old(View()), permit) && retired == old(retired)
    {
      ghost var s := Touched(View());
      CancelKeepsValid(View(), permit);
      Lock();
      var touched := NextTouch();
      if touched.Err? { Unlock(); return Err(touched.error); }
      var found := EntryMut(permit.id);
      if found.Err? { Unlock(); return Err(found.error); }
      var i, entry := permit.id.slot, found.value;
      var phase := TakePhase(i);
      ghost var taken := entry.(phase := Missing);
      if !Active(phase, permit) {
        SetPhase(i, entry.(phase := phase));
        PutBack(s, i, taken);
        Unlock();
        return Err(Expired(phase, permit));
      }
      DropCell(phase.cell, permit.cell);
      var previous := phase.previous;
      entry := entry.(lastTouch := touch, phase := if previous.Some? then Ready(previous.value) else Missing);
      PutTwice(s, i, taken, entry);
      SetPhase(i, entry);
      Unlock();
      return Ok(Cancelled(permit.id, permit.attempt, SnapshotOption(entry, previous)));
    }

    method Remove(target: AssetId, strongUsers: nat) returns (r: Result<RemoveReport, AssetError>)
      requires !locked && Valid(View())
      modifies this
      ensures !locked && Valid(View())
      ensures Out(View(), r) == StoreState.Remove(old(View()), target, strongUsers)
      ensures retired == old(retired) + RemoveExit(old(View()), target, strongUsers).retired
    {
      if target.store != id {
        assert old(retired) + multiset{} == old(retired);
        return Err(ForeignIdentity);
      }
      Lock();
      ghost var gone;
      r, gone := RemoveGuarded(target, strongUsers);
      Unlock();
      Drop(gone);
    }

    /** The error exit of the byte check drops the removed entry before the guard; it is never taken. */
    method RemoveGuarded(target: AssetId, strongUsers: nat)
      returns (r: Result<RemoveReport, AssetError>, ghost gone: multiset<Held>)
      requires locked && Valid(View()) && target.store == id
      modifies this`slots, this`readyBytes, this`free
      ensures Valid(View()) && Out(View(), r) == StoreState.Remove(old(View()), target, strongUsers)
      ensures gone == RemoveExit(old(View()), target, strongUsers).retired
    {
      gone := multiset{};
      RemoveKeepsValid(View(), target, strongUsers);
      if target.slot >= |slots| { return Err(Stale(target)), gone; }
      var slot := slots[target.slot];
      if slot.generation != target.generation || slot.entry.None? { return Err(Stale(target)), gone; }
      if strongUsers != 0 { return Err(LiveUsers(strongUsers)), gone; }
      if slot.entry.value.phase.Producing? { return Err(ProductionInProgress(slot.entry.value.phase.attempt)), gone; }
      TotalBytesUpdate(slots, target.slot, slot);
      var entry, reusable := TakeEntry(target.slot);
      var ready := Retained(entry.phase);
      var left := CheckedSub(readyBytes, BytesOf(ready));
      DropUnderLock(if left.None? then PhaseHeld(entry.phase) else multiset{});
      if left.None? { assert false; }
      readyBytes := left.value;
      if reusable { free := free + {target.slot}; }
      var generation := if ready.Some? then Some(ready.value.generation) else None;
      r, gone := Ok(RemoveReport(target, generation, BytesOf(ready))), PhaseHeld(entry.phase);
      assert Out(View(), r) == StoreState.Remove(old(View()), target, strongUsers);
    }

    /** `idle`: the tokens whose strong count the scan found to be one. */
    method Candidates(idle: set<Token>) returns (candidates: seq<Candidate>)
      requires locked && Valid(View())
      ensures forall c :: c in candidates <==> IsCandidate(View(), idle, c)
      ensures forall j, k | 0 <= j < k < |candidates| :: candidates[j] != candidates[k]
    {
      candidates := [];
      for i := 0 to |slots|
        invariant forall c :: c in candidates <==> IsCandidate(View(), idle, c) && c.id.slot < i
        invariant forall j, k | 0 <= j < k < |candidates| :: candidates[j] != candidates[k]
      {
        assert SlotOk(View(), i);
        if Eligible(slots[i], idle) {
          var entry := slots[i].entry.value;
          var candidate := Candidate(entry.lastTouch, entry.token.id);
          assert candidate !in candidates;
          candidates := candidates + [candidate];
        }
      }
    }

    /**
     Takes the retained value out of one eligible entry. Its error exits drop what `collect`
     retired so far, and the value just taken, before the guard; neither is ever taken.
     */
    method EvictEntry(target: AssetId, soFar: seq<Held>) returns (evicted: Evicted, more: seq<Held>)
      requires locked && Lookup(View(), target).Ok?
      requires var phase := EntryAt(View(), target.slot).phase; !phase.Producing? && Retained(phase).Some?
      requires SlotBytes(slots[target.slot]) <= readyBytes
      modifies this`slots, this`readyBytes
      ensures View() == Evicting(old(View()), target.slot)
      ensures evicted == EvictionOf(EntryAt(old(View()), target.slot)).(id := target)
      ensures more == soFar + [HeldValue(Retained(EntryAt(old(View()), target.slot).phase).value.value)]
    {
      var found := EntryMut(target);
      DropUnderLock(if found.Err? then multiset(soFar) else multiset{});
      if found.Err? { assert false; }
      var entry := found.value;
      var taken := TakePhase(target.slot);
      var ready := Retained(taken).value;
      var replacement := if taken.Failed? then Failed(taken.attempt, taken.error, None) else Missing;
      SetPhase(target.slot, entry.(phase := replacement));
      var left := CheckedSub(readyBytes, ready.bytes);
      DropUnderLock(if left.None? then multiset(soFar + [HeldValue(ready.value)]) else multiset{});
      if left.None? { assert false; }
      readyBytes := left.value;
      return Evicted(target, ready.generation, ready.bytes), soFar + [HeldValue(ready.value)];
    }

    /** One turn of the eviction loop. */
    method EvictCandidate(
      ghost s: State, ghost idle: set<Token>, ghost budget: nat, sorted: seq<Candidate>, k: nat,
      evicted: seq<Evicted>, gone: seq<Held>)
      returns (more: seq<Evicted>, moreGone: seq<Held>)
      requires locked && Valid(s) && Progress(s, idle, budget, sorted, k, View(), evicted)
      requires k < |sorted| && readyBytes > budget
      modifies this`slots, this`readyBytes
      ensures Progress(s, idle, budget, sorted, k + 1, View(), more)
      ensures forall x :: Owns(slots, x) + multiset(moreGone)[x] == Owns(old(slots), x) + multiset(gone)[x]
    {
      ghost var now := View();
      EvictNext(s, idle, sorted, k, slots);
      EvictedOwns(slots, sorted[k].id.slot);
      var one;
      one, moreGone := EvictEntry(sorted[k].id, gone);
      more := evicted + [one];
      ProgressStep(s, idle, budget, sorted, k, now, evicted, View(), more);
    }

    method Collect(idle: set<Token>, budget: nat) returns (report: CollectReport)
      requires !locked && Valid(View())
      modifies this
      ensures !locked && Valid(View())
      ensures View() == Collected(old(View()), idle, budget)
      ensures report.before == old(readyBytes) && report.after == readyBytes
      ensures Reports(old(View()), idle, budget, report.evicted)
      ensures retired == old(retired) + CollectExit(old(View()), idle, budget).retired
    {
      Lock();
      var gone;
      report, gone := CollectGuarded(idle, budget);
      Unlock();
      Drop(multiset(gone));
    }

    method CollectGuarded(idle: set<Token>, budget: nat) returns (report: CollectReport, gone: seq<Held>)
      requires locked && Valid(View())
      modifies this`slots, this`readyBytes
      ensures Valid(View()) && View() == Collected(old(View()), idle, budget)
      ensures report.before == old(readyBytes) && report.after == readyBytes
      ensures Reports(old(View()), idle, budget, report.evicted)
      ensures multiset(gone) == CollectExit(old(View()), idle, budget).retired
    {
      ghost var s := View();
      var before := readyBytes;
      var candidates := Candidates(idle);
      var sorted := SortUnstable(candidates);
      SortedIsStrict(s, idle, candidates, sorted);
      var evicted: seq<Evicted> := [];
      gone := [];
      var k := 0;
      NothingBeforeFirst(s, idle, sorted);
      while k < |sorted| && readyBytes > budget
        invariant Progress(s, idle, budget, sorted, k, View(), evicted)
        invariant forall x :: Owns(slots, x) + multiset(gone)[x] == Owns(s.slots, x)
      {
        evicted, gone := EvictCandidate(s, idle, budget, sorted, k, evicted, gone);
        k := k + 1;
      }
      ProgressEnds(s, idle, budget, sorted, k, View(), evicted);
      CollectKeepsValid(s, idle, budget);
      RetiredByCollect(s, idle, budget, multiset(gone));
      return CollectReport(before, readyBytes, evicted), gone;
    }

    method CacheStats() returns (stats: CacheStats)
      requires !locked && Valid(View())
      modifies this`locked
      ensures !locked && stats == StoreState.CacheStats(|Retaining(slots, |slots|)|, TotalBytes(slots))
    {
      Lock();
      var count := 0;
      for i := 0 to |slots|
        invariant count == |Retaining(slots, i)|
      {
        assert Retaining(slots, i + 1) == Retaining(slots, i) + (if Retains(slots[i]) then {i} else {});
        if Retains(slots[i]) {
          count := count + 1;
        }
      }
      Unlock();
      return StoreState.CacheStats(count, readyBytes);
    }

    /** `Drop`, up to the guard: the cells that are then completed with `StoreClosed`, each listed once. */
    method Close() returns (cells: seq<nat>)
      requires !locked && Valid(View())
      modifies this`locked
      ensures !locked
      ensures forall c :: c in cells <==> IsActive(View(), c)
      ensures forall j, k | 0 <= j < k < |cells| :: cells[j] != cells[k]
    {
      ghost var s := View();
      Lock();
      cells := [];
      for i := 0 to |slots|
        invariant locked && ListsCells(s, i, cells)
      {
        if slots[i].entry.Some? && slots[i].entry.value.phase.Producing? {
          OneMoreCell(s, i, cells, slots[i].entry.value.phase.cell);
          cells := cells + [slots[i].entry.value.phase.cell];
        }
      }
      AllListed(s, cells);
      Unlock();
    }

    /** After those completions the fields go, and every value and error with them. */
    method DropFields()
      requires !locked
      modifies this
      ensures slots == [] && retired == old(retired) + CloseExit(old(View())).late
    {
      Drop(Holdings(slots));
      slots, free, readyBytes := [], {}, 0;
    }
  }
}
