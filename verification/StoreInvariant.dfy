/**
 The invariant of the store state and its preservation by every operation but
 `collect` (see Collection). The error branches it makes unreachable are stated
 as lemmas of their own.
 */
module StoreInvariant {
  import opened Prelude
  import opened StoreState

  function SlotBytes(slot: Slot): nat {
    if slot.entry.Some? then BytesOf(Retained(slot.entry.value.phase)) else 0
  }

  /** Bytes of every value some entry retains. */
  function TotalBytes(slots: seq<Slot>): nat {
    if slots == [] then 0 else TotalBytes(slots[..|slots| - 1]) + SlotBytes(slots[|slots| - 1])
  }

  lemma {:induction false} TotalBytesUpdate(slots: seq<Slot>, i: nat, slot: Slot)
    requires i < |slots|
    ensures TotalBytes(slots[i := slot]) == TotalBytes(slots) - SlotBytes(slots[i]) + SlotBytes(slot)
    ensures SlotBytes(slots[i]) <= TotalBytes(slots)
  {
    var last := |slots| - 1;
    if i == last {
      assert slots[i := slot][..last] == slots[..last];
    } else {
      TotalBytesUpdate(slots[..last], i, slot);
      assert slots[i := slot][..last] == slots[..last][i := slot];
    }
  }

  predicate Retains(slot: Slot) {
    slot.entry.Some? && Retained(slot.entry.value.phase).Some?
  }

  /** The slots among the first `n` whose entry retains a value, in whatever phase. */
  function Retaining(slots: seq<Slot>, n: nat): set<nat>
    requires n <= |slots|
  {
    set i | 0 <= i < n && Retains(slots[i])
  }

  /** Generations, counters and retained value of one entry. */
  predicate EntryOk(s: State, i: nat, generation: nat, entry: Entry) {
    && entry.token.id == AssetId(s.storeId, i, generation)
    && entry.token.addr < s.arcs
    && entry.contentGeneration <= entry.attemptGeneration < entry.lastTouch <= s.touch
    && (var retained := Retained(entry.phase);
        retained.Some? ==> retained.value.generation == entry.contentGeneration >= 1)
    && (entry.phase.Producing? ==>
          && entry.phase.attempt == entry.attemptGeneration
          && entry.contentGeneration < entry.attemptGeneration
          && entry.phase.cell < s.arcs)
    && (entry.phase.Failed? ==> entry.phase.attempt == entry.attemptGeneration)
  }

  predicate SlotOk(s: State, i: nat)
    requires i < |s.slots|
  {
    && 1 <= s.slots[i].generation <= U32_MAX
    && (match s.slots[i].entry
        case None => i !in s.free ==> s.slots[i].generation == U32_MAX
        case Some(entry) => i !in s.free && EntryOk(s, i, s.slots[i].generation, entry))
  }

  /** Two entries never share a last touch, a token allocation or an attempt cell. */
  predicate Apart(a: Entry, b: Entry) {
    && a.lastTouch != b.lastTouch
    && a.token.addr != b.token.addr
    && (a.phase.Producing? && b.phase.Producing? ==> a.phase.cell != b.phase.cell)
  }

  /** The identities issued so far: all earlier generations, and the current one unless it is free. */
  predicate WasIssued(s: State, id: AssetId) {
    && id.store == s.storeId
    && id.slot < |s.slots|
    && 1 <= id.generation <= s.slots[id.slot].generation
    && (id.generation == s.slots[id.slot].generation ==> id.slot !in s.free)
  }

  ghost predicate Valid(s: State) {
    && s.touch <= U64_MAX
    && |s.slots| <= U32_MAX + 1
    && (forall i :: i in s.free ==> i < |s.slots|)
    && (forall i | 0 <= i < |s.slots| :: SlotOk(s, i))
    && (forall i, j | Live(s, i) && Live(s, j) && i != j :: Apart(EntryAt(s, i), EntryAt(s, j)))
    && s.readyBytes == TotalBytes(s.slots) <= U64_MAX
    && (forall id :: id in s.issued <==> WasIssued(s, id))
  }

  lemma EmptyIsValid(storeId: nat)
    ensures Valid(Empty(storeId))
  {
  }

  /**
   Replacing the entry of a live slot by one that carries the new touch keeps the
   invariant; `arcs` may grow.
   */
  lemma PutKeepsValid(s: State, i: nat, entry: Entry, bytes: nat, arcs: nat)
    requires Valid(s) && s.touch < U64_MAX && Live(s, i)
    requires arcs >= s.arcs && entry.token == EntryAt(s, i).token && entry.lastTouch == s.touch + 1
    requires EntryOk(Touched(s).(arcs := arcs), i, s.slots[i].generation, entry)
    requires var before := EntryAt(s, i);
             entry.phase.Producing? ==>
               entry.phase.cell >= s.arcs || (before.phase.Producing? && entry.phase.cell == before.phase.cell)
    requires bytes == s.readyBytes - SlotBytes(s.slots[i]) + BytesOf(Retained(entry.phase)) <= U64_MAX
    ensures Valid(Put(Touched(s), i, entry).(readyBytes := bytes, arcs := arcs))
  {
    var n := Put(Touched(s), i, entry).(readyBytes := bytes, arcs := arcs);
    TotalBytesUpdate(s.slots, i, n.slots[i]);
    assert forall j | Live(n, j) && j != i :: EntryAt(n, j) == EntryAt(s, j) && SlotOk(s, j);
    assert SlotOk(s, i) && SlotOk(n, i);
    forall j | 0 <= j < |n.slots| ensures SlotOk(n, j) { assert SlotOk(s, j); }
    forall j, k | Live(n, j) && Live(n, k) && j != k ensures Apart(EntryAt(n, j), EntryAt(n, k)) {
      assert Apart(EntryAt(s, j), EntryAt(s, k));
    }
    forall id ensures id in n.issued <==> WasIssued(n, id) { assert WasIssued(n, id) <==> WasIssued(s, id); }
  }

  lemma TouchKeepsValid(s: State)
    requires Valid(s) && s.touch < U64_MAX
    ensures Valid(Touched(s))
  {
    var n := Touched(s);
    forall j | 0 <= j < |n.slots| ensures SlotOk(n, j) { assert SlotOk(s, j); }
    forall j, k | Live(n, j) && Live(n, k) && j != k ensures Apart(EntryAt(n, j), EntryAt(n, k)) {
      assert Apart(EntryAt(s, j), EntryAt(s, k));
    }
    forall id ensures id in n.issued <==> WasIssued(n, id) { assert WasIssued(n, id) <==> WasIssued(s, id); }
  }

  /** Slot `i` runs the attempt of `cell`. */
  predicate RunsCell(s: State, i: nat, cell: nat) {
    Live(s, i) && EntryAt(s, i).phase.Producing? && EntryAt(s, i).phase.cell == cell
  }

  /** Some entry runs the attempt of `cell`. */
  ghost predicate IsActive(s: State, cell: nat) {
    exists i: nat :: RunsCell(s, i, cell)
  }

  /** An attempt cell belongs to one entry at most. */
  lemma OneRunner(s: State, i: nat, j: nat, cell: nat)
    requires Valid(s)
    ensures RunsCell(s, i, cell) && RunsCell(s, j, cell) ==> i == j
  {
    if i != j && Live(s, i) && Live(s, j) { assert Apart(EntryAt(s, i), EntryAt(s, j)); }
  }

  /** Nothing but recency, phase and attempt numbers differs: `n` retains what `s` retained. */
  ghost predicate Steady(s: State, n: State) {
    && n.storeId == s.storeId && n.free == s.free && n.issued == s.issued
    && n.readyBytes == s.readyBytes && |n.slots| == |s.slots|
    && forall i | 0 <= i < |s.slots| ::
         && n.slots[i].generation == s.slots[i].generation
         && (Live(n, i) <==> Live(s, i))
         && (Live(s, i) ==>
               && EntryAt(n, i).token == EntryAt(s, i).token
               && EntryAt(n, i).contentGeneration == EntryAt(s, i).contentGeneration
               && Retained(EntryAt(n, i).phase) == Retained(EntryAt(s, i).phase))
  }

  /** The entry in slot `i` after an operation marked it as most recently used. */
  function Recent(s: State, i: nat): Entry
    requires Live(s, i)
  {
    EntryAt(s, i).(lastTouch := s.touch + 1)
  }

  /** Marking an entry as used and, when it is not producing, starting an attempt on it. */
  lemma HandleEffect(s: State, i: nat, previous: Option<ReadyValue>)
    requires Valid(s) && s.touch < U64_MAX && Live(s, i)
    ensures Valid(Put(Touched(s), i, Recent(s, i))) && Steady(s, Put(Touched(s), i, Recent(s, i)))
    ensures !EntryAt(s, i).phase.Producing? && previous == Retained(EntryAt(s, i).phase) ==>
              var out := StartAttempt(Touched(s), i, Recent(s, i), previous);
              out.reply.Ok? && Valid(out.state) && Steady(s, out.state)
  {
    var entry := Recent(s, i);
    assert SlotOk(s, i);
    assert SlotBytes(s.slots[i]) == BytesOf(Retained(entry.phase));
    PutKeepsValid(s, i, entry, s.readyBytes, s.arcs);
    assert Put(Touched(s), i, entry) == Put(Touched(s), i, entry).(readyBytes := s.readyBytes, arcs := s.arcs);
    if !entry.phase.Producing? && previous == Retained(entry.phase) {
      var attempt := entry.attemptGeneration + 1;
      var started := entry.(attemptGeneration := attempt, phase := Producing(attempt, previous, s.arcs));
      PutKeepsValid(s, i, started, s.readyBytes, s.arcs + 1);
      assert StartAttempt(Touched(s), i, entry, previous).state
          == Put(Touched(s), i, started).(readyBytes := s.readyBytes, arcs := s.arcs + 1);
    }
  }

  /** While a touch is left, so is an attempt and so is a content generation. */
  lemma AttemptsLeft(s: State, i: nat)
    requires Valid(s) && s.touch < U64_MAX && Live(s, i)
    ensures EntryAt(s, i).contentGeneration <= EntryAt(s, i).attemptGeneration < U64_MAX
  {
    assert SlotOk(s, i);
  }

  /** When an operation through a handle is rejected, and with which error. */
  ghost predicate HandleReply<T>(s: State, handle: Token, reply: Result<T, AssetError>) {
    if s.touch == U64_MAX then reply == Err(GenerationExhausted)
    else match Validate(s, handle)
         case Err(error) => reply == Err(error)
         case Ok(_) => reply.Ok?
  }

  lemma AcquireKeepsValid(s: State, handle: Token)
    requires Valid(s)
    ensures var out := Acquire(s, handle);
            Valid(out.state) && Steady(s, out.state) && HandleReply(s, handle, out.reply)
  {
    if s.touch < U64_MAX {
      TouchKeepsValid(s);
      if Validate(s, handle).Ok? { HandleEffect(s, handle.id.slot, None); }
    }
  }

  lemma RetryKeepsValid(s: State, handle: Token)
    requires Valid(s)
    ensures var out := Retry(s, handle);
            Valid(out.state) && Steady(s, out.state) && HandleReply(s, handle, out.reply)
  {
    if s.touch < U64_MAX {
      TouchKeepsValid(s);
      if Validate(s, handle).Ok? {
        HandleEffect(s, handle.id.slot, Retained(EntryAt(s, handle.id.slot).phase));
      }
    }
  }

  lemma ReplacementKeepsValid(s: State, handle: Token)
    requires Valid(s)
    ensures var out := RequestReplacement(s, handle);
            Valid(out.state) && Steady(s, out.state) && HandleReply(s, handle, out.reply)
  {
    if s.touch < U64_MAX {
      TouchKeepsValid(s);
      if Validate(s, handle).Ok? {
        HandleEffect(s, handle.id.slot, Retained(EntryAt(s, handle.id.slot).phase));
      }
    }
  }

  lemma ObserveKeepsValid(s: State, handle: Token)
    requires Valid(s)
    ensures var out := Observe(s, handle);
            Valid(out.state) && Steady(s, out.state) && HandleReply(s, handle, out.reply)
  {
    if s.touch < U64_MAX {
      TouchKeepsValid(s);
      if Validate(s, handle).Ok? { HandleEffect(s, handle.id.slot, None); }
    }
  }

  /** The slot of `permit.id` is live and runs exactly the attempt `permit` guards. */
  predicate Guards(s: State, permit: Permit) {
    && Lookup(s, permit.id).Ok?
    && Active(EntryAt(s, permit.id.slot).phase, permit)
  }

  /** Resident bytes after replacing what the attempt of `permit` retains by `bytes`. */
  function BytesAfter(s: State, permit: Permit, bytes: U64): int
    requires Guards(s, permit)
  {
    s.readyBytes - BytesOf(EntryAt(s, permit.id.slot).phase.previous) + bytes
  }

  /** A permit that guards no active attempt is refused, and nothing but the touch moves. */
  predicate Refused<T>(s: State, permit: Permit, out: Out<T>) {
    && out.state == (if s.touch == U64_MAX then s else Touched(s))
    && out.reply == Err(if s.touch == U64_MAX then GenerationExhausted
                        else if Lookup(s, permit.id).Err? then Lookup(s, permit.id).error
                        else Expired(EntryAt(s, permit.id.slot).phase, permit))
  }

  /**
   A commit through the permit of an active attempt fails for two reasons only, both
   visible before the call: no touch is left, or the byte total would leave u64.
   */
  lemma CommitKeepsValid(s: State, permit: Permit, value: Value, bytes: U64)
    requires Valid(s)
    ensures var out := Commit(s, permit, value, bytes);
      && Valid(out.state)
      && (!Guards(s, permit) ==> Refused(s, permit, out))
      && (out.reply.Err? ==> Steady(s, out.state))
      && (Guards(s, permit) ==>
            && (out.reply == Err(GenerationExhausted) <==> s.touch == U64_MAX)
            && (out.reply == Err(ResidentBytesOverflow) <==>
                  s.touch < U64_MAX && BytesAfter(s, permit, bytes) > U64_MAX)
            && (out.reply.Err? ==> out.reply.error in {GenerationExhausted, ResidentBytesOverflow}))
      && (Guards(s, permit) && out.reply.Ok? ==>
            var i := permit.id.slot;
            && out.state.readyBytes == BytesAfter(s, permit, bytes)
            && out.reply.value == Snapshot(EntryAt(s, i).token, EntryAt(s, i).contentGeneration + 1, value, bytes))
  {
    var i := permit.id.slot;
    if s.touch < U64_MAX {
      TouchKeepsValid(s);
      if Lookup(s, permit.id).Ok? { assert SlotOk(s, i); }
      if Guards(s, permit) {
        TotalBytesUpdate(s.slots, i, s.slots[i]);
        if BytesAfter(s, permit, bytes) <= U64_MAX {
          var entry := EntryAt(s, i);
          var next := entry.(contentGeneration := entry.contentGeneration + 1, lastTouch := s.touch + 1,
            phase := Ready(ReadyValue(entry.contentGeneration + 1, value, bytes)));
          PutKeepsValid(s, i, next, BytesAfter(s, permit, bytes), s.arcs);
          assert Commit(s, permit, value, bytes).state
              == Put(Touched(s), i, next).(readyBytes := BytesAfter(s, permit, bytes), arcs := s.arcs);
        }
      }
    }
  }

  lemma FailKeepsValid(s: State, permit: Permit, error: Fault)
    requires Valid(s)
    ensures var out := Fail(s, permit, error);
      && Valid(out.state) && Steady(s, out.state)
      && (!Guards(s, permit) ==> Refused(s, permit, out))
      && (Guards(s, permit) ==> (out.reply.Err? <==> s.touch == U64_MAX))
      && (Guards(s, permit) && out.reply.Err? ==> out.reply.error == GenerationExhausted)
  {
    var i := permit.id.slot;
    if s.touch < U64_MAX {
      TouchKeepsValid(s);
      if Guards(s, permit) {
        assert SlotOk(s, i);
        var entry := EntryAt(s, i);
        var next := entry.(lastTouch := s.touch + 1, phase := Failed(permit.attempt, error, entry.phase.previous));
        PutKeepsValid(s, i, next, s.readyBytes, s.arcs);
        assert Fail(s, permit, error).state == Put(Touched(s), i, next).(readyBytes := s.readyBytes, arcs := s.arcs);
      }
    }
  }

  lemma CancelKeepsValid(s: State, permit: Permit)
    requires Valid(s)
    ensures var out := Cancel(s, permit);
      && Valid(out.state) && Steady(s, out.state)
      && (!Guards(s, permit) ==> Refused(s, permit, out))
      && (Guards(s, permit) ==> (out.reply.Err? <==> s.touch == U64_MAX))
      && (Guards(s, permit) && out.reply.Err? ==> out.reply.error == GenerationExhausted)
  {
    var i := permit.id.slot;
    if s.touch < U64_MAX {
      TouchKeepsValid(s);
      if Guards(s, permit) {
        assert SlotOk(s, i);
        var entry := EntryAt(s, i);
        var previous := entry.phase.previous;
        var next := entry.(lastTouch := s.touch + 1,
                           phase := if previous.Some? then Ready(previous.value) else Missing);
        PutKeepsValid(s, i, next, s.readyBytes, s.arcs);
        assert Cancel(s, permit).state == Put(Touched(s), i, next).(readyBytes := s.readyBytes, arcs := s.arcs);
      }
    }
  }

  lemma TotalBytesAppend(slots: seq<Slot>, slot: Slot)
    ensures TotalBytes(slots + [slot]) == TotalBytes(slots) + SlotBytes(slot)
  {
    assert (slots + [slot])[..|slots|] == slots;
  }

  /** Occupying slot `i`, free or new, with a fresh identity keeps the invariant. */
  lemma OccupyKeepsValid(s: State, i: nat, generation: nat, n: State)
    requires Valid(s) && s.touch < U64_MAX
    requires if i in s.free then generation == s.slots[i].generation && |n.slots| == |s.slots|
             else i == |s.slots| <= U32_MAX && generation == 1 && |n.slots| == |s.slots| + 1
    requires forall j | 0 <= j < |s.slots| && j != i :: n.slots[j] == s.slots[j]
    requires var id := AssetId(s.storeId, i, generation);
      && n.slots[i] == Slot(generation, Some(Entry(Token(s.arcs, id), Missing, 0, 0, s.touch + 1)))
      && n == State(s.storeId, n.slots, s.free - {i}, s.readyBytes, s.touch + 1, s.arcs + 1, s.issued + {id})
    requires TotalBytes(n.slots) == TotalBytes(s.slots)
    ensures Valid(n) && AssetId(s.storeId, i, generation) !in s.issued
  {
    var id := AssetId(s.storeId, i, generation);
    if i in s.free { assert SlotOk(s, i); }
    assert !WasIssued(s, id);
    assert SlotOk(n, i);
    forall j | 0 <= j < |n.slots| && j != i ensures SlotOk(n, j) { assert SlotOk(s, j); }
    OccupyKeepsApart(s, i, n);
    forall other ensures other in n.issued <==> WasIssued(n, other) {
      assert other in s.issued <==> WasIssued(s, other);
    }
  }

  lemma OccupyKeepsApart(s: State, i: nat, n: State)
    requires Valid(s) && i < |n.slots| && |s.slots| <= |n.slots| <= |s.slots| + 1
    requires i == |s.slots| || |n.slots| == |s.slots|
    requires forall j | 0 <= j < |s.slots| && j != i :: n.slots[j] == s.slots[j]
    requires Live(n, i) && var e := EntryAt(n, i); e.phase.Missing? && e.token.addr == s.arcs && e.lastTouch > s.touch
    ensures forall j, k | Live(n, j) && Live(n, k) && j != k :: Apart(EntryAt(n, j), EntryAt(n, k))
  {
    forall j, k | Live(n, j) && Live(n, k) && j != k ensures Apart(EntryAt(n, j), EntryAt(n, k)) {
      if j != i { assert SlotOk(s, j); }
      if k != i { assert SlotOk(s, k); }
      if j != i && k != i { assert Apart(EntryAt(s, j), EntryAt(s, k)); }
    }
  }

  /**
   `create` takes the lowest free slot or else appends, never returns an identity
   it has returned before, and fails only when touches or slots have run out.
   */
  lemma CreateKeepsValid(s: State)
    requires Valid(s)
    ensures var out := Create(s);
      && Valid(out.state)
      && (out.reply.Err? <==> s.touch == U64_MAX || (s.free == {} && |s.slots| == U32_MAX + 1))
      && (out.reply.Err? ==> out.reply.error == GenerationExhausted && Steady(s, out.state))
      && (out.reply.Ok? ==>
            var id := out.reply.value.id;
            && id !in s.issued
            && out.state.issued == s.issued + {id}
            && (s.free == {} ==> id == AssetId(s.storeId, |s.slots|, 1))
            && (s.free != {} ==> id.slot in s.free && forall i :: i in s.free ==> id.slot <= i))
  {
    if s.touch < U64_MAX {
      TouchKeepsValid(s);
      if s.free != {} || |s.slots| <= U32_MAX {
        var n, id := Create(s).state, Create(s).reply.value.id;
        if s.free == {} {
          assert n.slots == s.slots + [n.slots[id.slot]];
          TotalBytesAppend(s.slots, n.slots[id.slot]);
        } else {
          assert SlotOk(s, id.slot);
          TotalBytesUpdate(s.slots, id.slot, n.slots[id.slot]);
        }
        OccupyKeepsValid(s, id.slot, id.generation, n);
      }
    }
  }

  /**
   `remove` accepts exactly the live, unused, idle identities; the byte check behind
   it cannot fail, and a slot at the last generation is never handed out again.
   */
  lemma RemoveKeepsValid(s: State, id: AssetId, strongUsers: nat)
    requires Valid(s)
    ensures var out := Remove(s, id, strongUsers);
      && Valid(out.state)
      && out.state.issued == s.issued
      && (out.reply.Ok? <==>
            Lookup(s, id).Ok? && strongUsers == 0 && !EntryAt(s, id.slot).phase.Producing?)
      && (out.reply.Err? ==> out.state == s && out.reply.error != ResidentBytesOverflow)
      && (out.reply.Ok? ==>
            && Lookup(out.state, id).Err?
            && out.state.readyBytes == s.readyBytes - BytesOf(Retained(EntryAt(s, id.slot).phase))
            && (id.slot in out.state.free <==> id.generation < U32_MAX))
  {
    if Remove(s, id, strongUsers).reply.Ok? || Remove(s, id, strongUsers).state != s {
      var n := Remove(s, id, strongUsers).state;
      var i := id.slot;
      assert SlotOk(s, i);
      TotalBytesUpdate(s.slots, i, n.slots[i]);
      assert SlotOk(n, i);
      forall j | 0 <= j < |n.slots| ensures SlotOk(n, j) { if j != i { assert SlotOk(s, j); } }
      forall j, k | Live(n, j) && Live(n, k) && j != k ensures Apart(EntryAt(n, j), EntryAt(n, k)) {
        assert Apart(EntryAt(s, j), EntryAt(s, k));
      }
      forall other ensures other in n.issued <==> WasIssued(n, other) {
        assert other in s.issued <==> WasIssued(s, other);
      }
    }
  }
}
