/**
 Data of the synchronized asset store and, for every operation that runs under
 the store lock, the function from the state before to the state after.

 `Arc` identity (`Arc::ptr_eq`) is modelled by an address: each identity token
 and each attempt cell gets the next value of `arcs` when it is allocated.
 `issued` is a history variable: the identities `create` has returned so far.
 */
module StoreState {
  import opened Prelude

  /** The allocation behind a committed `Arc<V>`. */
  type Value(==, !new)

  /** The allocation behind a committed `Arc<E>`. */
  type Fault(==, !new)

  datatype AssetId = AssetId(store: nat, slot: nat, generation: nat)

  datatype AssetError =
    | ForeignIdentity
    | StaleIdentity(slot: nat, slotGeneration: nat)
    | LiveUsers(strongUsers: nat)
    | ProductionInProgress(attempt: nat)
    | ExpiredProducer(actualAttempt: nat, expectedAttempt: Option<nat>)
    | ResidentBytesOverflow
    | GenerationExhausted
    | StoreClosed

  /** A shared identity token; every strong handle of an identity owns it. */
  datatype Token = Token(addr: nat, id: AssetId)

  datatype ReadyValue = ReadyValue(generation: nat, value: Value, bytes: U64)

  datatype Phase =
    | Missing
    | Producing(attempt: nat, previous: Option<ReadyValue>, cell: nat)
    | Ready(ready: ReadyValue)
    | Failed(attempt: nat, error: Fault, previous: Option<ReadyValue>)

  datatype Entry = Entry(
    token: Token, phase: Phase, contentGeneration: nat, attemptGeneration: nat, lastTouch: nat)

  datatype Slot = Slot(generation: nat, entry: Option<Entry>)

  datatype State = State(
    storeId: nat, slots: seq<Slot>, free: set<nat>, readyBytes: nat, touch: nat,
    arcs: nat, issued: set<AssetId>)

  /** An observed value; it owns a strong handle (`token`). */
  datatype Snapshot = Snapshot(token: Token, generation: nat, value: Value, bytes: U64)

  datatype Failure = Failure(id: AssetId, attempt: nat, error: Fault, previous: Option<Snapshot>)

  /** The data of a producer permit; its linear use is modelled where it is consumed. */
  datatype Permit = Permit(id: AssetId, attempt: nat, cell: nat)

  /** What a waiter refers to: the same identity, attempt and cell, without the right to end it. */
  type AttemptRef = Permit

  /** What `acquire`, `retry` and `request_replacement` hand out. */
  datatype Acquired =
    | AcquiredReady(snapshot: Snapshot)
    | AcquiredProducer(permit: Permit)
    | AcquiredWaiter(waiter: AttemptRef)
    | AcquiredFailed(failure: Failure)

  datatype Observation =
    | ObservedMissing(id: AssetId)
    | ObservedProducing(id: AssetId, attempt: nat, current: Option<Snapshot>)
    | ObservedReady(snapshot: Snapshot)
    | ObservedFailed(failure: Failure)

  /** The terminal result stored in an attempt cell. */
  datatype Outcome =
    | Published(snapshot: Snapshot)
    | Faulted(failure: Failure)
    | Cancelled(id: AssetId, attempt: nat, previous: Option<Snapshot>)
    | Closed

  datatype RemoveReport = RemoveReport(id: AssetId, generation: Option<nat>, bytes: nat)

  datatype Evicted = Evicted(id: AssetId, generation: nat, bytes: nat)

  datatype CollectReport = CollectReport(before: nat, after: nat, evicted: seq<Evicted>)

  datatype CacheStats = CacheStats(readyEntries: nat, residentBytes: nat)

  /** New state and reply of an operation. */
  datatype Out<+T> = Out(state: State, reply: Result<T, AssetError>)

  function Empty(storeId: nat): State {
    State(storeId, [], {}, 0, 0, 0, {})
  }

  /** The committed value an entry retains, whatever its phase. */
  function Retained(phase: Phase): Option<ReadyValue> {
    match phase
    case Missing => None
    case Producing(_, previous, _) => previous
    case Ready(ready) => Some(ready)
    case Failed(_, _, previous) => previous
  }

  function SnapshotOf(entry: Entry, ready: ReadyValue): Snapshot {
    Snapshot(entry.token, ready.generation, ready.value, ready.bytes)
  }

  function SnapshotOption(entry: Entry, previous: Option<ReadyValue>): Option<Snapshot> {
    if previous.Some? then Some(SnapshotOf(entry, previous.value)) else None
  }

  function FailureOf(entry: Entry, attempt: nat, error: Fault, previous: Option<ReadyValue>): Failure {
    Failure(entry.token.id, attempt, error, SnapshotOption(entry, previous))
  }

  function Stale(id: AssetId): AssetError {
    StaleIdentity(id.slot, id.generation)
  }

  predicate Live(s: State, i: nat) {
    i < |s.slots| && s.slots[i].entry.Some?
  }

  function EntryAt(s: State, i: nat): Entry
    requires Live(s, i)
  {
    s.slots[i].entry.value
  }

  function Lookup(s: State, id: AssetId): (r: Result<Entry, AssetError>)
    ensures r.Ok? <==> id.store == s.storeId && Live(s, id.slot) && s.slots[id.slot].generation == id.generation
    ensures r.Ok? ==> EntryAt(s, id.slot) == r.value
    ensures r.Err? ==> r.error == if id.store != s.storeId then ForeignIdentity else Stale(id)
  {
    if id.store != s.storeId then Err(ForeignIdentity)
    else if id.slot >= |s.slots| then Err(Stale(id))
    else if s.slots[id.slot].generation != id.generation then Err(Stale(id))
    else match s.slots[id.slot].entry
         case None => Err(Stale(id))
         case Some(entry) => Ok(entry)
  }

  function Validate(s: State, handle: Token): (r: Result<Entry, AssetError>)
    ensures r.Ok? <==> Lookup(s, handle.id).Ok? && Lookup(s, handle.id).value.token.addr == handle.addr
    ensures r.Ok? ==> Live(s, handle.id.slot) && EntryAt(s, handle.id.slot) == r.value
    ensures r.Err? ==>
      r.error == if handle.id.store == s.storeId && Lookup(s, handle.id).Err? then Stale(handle.id) else ForeignIdentity
  {
    match Lookup(s, handle.id)
    case Err(error) => Err(error)
    case Ok(entry) => if entry.token.addr != handle.addr then Err(ForeignIdentity) else Ok(entry)
  }

  function Touched(s: State): State {
    s.(touch := s.touch + 1)
  }

  function Put(s: State, i: nat, entry: Entry): State
    requires i < |s.slots|
  {
    s.(slots := s.slots[i := s.slots[i].(entry := Some(entry))])
  }

  /** Of two writes to one slot the later stays. */
  lemma PutTwice(s: State, i: nat, first: Entry, last: Entry)
    requires i < |s.slots|
    ensures Put(Put(s, i, first), i, last) == Put(s, i, last)
  {
    assert Put(Put(s, i, first), i, last).slots == Put(s, i, last).slots;
  }

  /** Starts an attempt on the entry of slot `i`, already marked as touched. */
  function StartAttempt(s: State, i: nat, entry: Entry, previous: Option<ReadyValue>): Out<Permit>
    requires i < |s.slots|
  {
    if entry.attemptGeneration == U64_MAX then Out(Put(s, i, entry), Err(GenerationExhausted)) else
    var attempt := entry.attemptGeneration + 1;
    var started := entry.(attemptGeneration := attempt, phase := Producing(attempt, previous, s.arcs));
    Out(Put(s, i, started).(arcs := s.arcs + 1), Ok(Permit(entry.token.id, attempt, s.arcs)))
  }

  function AsProducer(out: Out<Permit>): Out<Acquired> {
    match out.reply
    case Ok(permit) => Out(out.state, Ok(AcquiredProducer(permit)))
    case Err(error) => Out(out.state, Err(error))
  }

  ghost predicate IsLowest(free: set<nat>, m: nat) {
    m in free && forall i :: i in free ==> m <= i
  }

  lemma {:induction false} LowestExists(free: set<nat>)
    requires free != {}
    ensures exists m: nat :: IsLowest(free, m)
    decreases |free|
  {
    var x :| x in free;
    if free == {x} {
      assert IsLowest(free, x);
    } else {
      LowestExists(free - {x});
      var m :| IsLowest(free - {x}, m);
      var least := if m <= x then m else x;
      forall i | i in free ensures least <= i { assert i == x || i in free - {x}; }
      assert IsLowest(free, least);
    }
  }

  /** The slot `BTreeSet::pop_first` takes out of the free set. */
  ghost function Lowest(free: set<nat>): (m: nat)
    requires free != {}
    ensures IsLowest(free, m)
  {
    LowestExists(free);
    var m: nat :| IsLowest(free, m);
    m
  }

  ghost function Create(s: State): Out<Token>
    requires forall i :: i in s.free ==> i < |s.slots|
  {
    if s.touch == U64_MAX then Out(s, Err(GenerationExhausted)) else
    var t := Touched(s);
    if t.free == {} && |t.slots| > U32_MAX then Out(t, Err(GenerationExhausted)) else
    var i := if t.free != {} then Lowest(t.free) else |t.slots|;
    var slots := if i == |t.slots| then t.slots + [Slot(1, None)] else t.slots;
    var id := AssetId(t.storeId, i, slots[i].generation);
    var token := Token(t.arcs, id);
    var entry := Entry(token, Missing, 0, 0, t.touch);
    Out(Put(t.(slots := slots, free := t.free - {i}, arcs := t.arcs + 1, issued := t.issued + {id}), i, entry),
        Ok(token))
  }

  function Acquire(s: State, handle: Token): Out<Acquired> {
    if s.touch == U64_MAX then Out(s, Err(GenerationExhausted)) else
    var t := Touched(s);
    match Validate(t, handle)
    case Err(error) => Out(t, Err(error))
    case Ok(found) =>
      var entry := found.(lastTouch := t.touch);
      var i := handle.id.slot;
      match entry.phase
      case Ready(ready) => Out(Put(t, i, entry), Ok(AcquiredReady(SnapshotOf(entry, ready))))
      case Failed(attempt, error, previous) =>
        Out(Put(t, i, entry), Ok(AcquiredFailed(FailureOf(entry, attempt, error, previous))))
      case Producing(attempt, _, cell) =>
        Out(Put(t, i, entry), Ok(AcquiredWaiter(Permit(entry.token.id, attempt, cell))))
      case Missing => AsProducer(StartAttempt(t, i, entry, None))
  }

  function Retry(s: State, handle: Token): Out<Acquired> {
    if s.touch == U64_MAX then Out(s, Err(GenerationExhausted)) else
    var t := Touched(s);
    match Validate(t, handle)
    case Err(error) => Out(t, Err(error))
    case Ok(found) =>
      var entry := found.(lastTouch := t.touch);
      var i := handle.id.slot;
      match entry.phase
      case Ready(ready) => Out(Put(t, i, entry), Ok(AcquiredReady(SnapshotOf(entry, ready))))
      case Producing(attempt, _, cell) =>
        Out(Put(t, i, entry), Ok(AcquiredWaiter(Permit(entry.token.id, attempt, cell))))
      case Missing => AsProducer(StartAttempt(t, i, entry, None))
      case Failed(_, _, previous) => AsProducer(StartAttempt(t, i, entry, previous))
  }

  function RequestReplacement(s: State, handle: Token): Out<Acquired> {
    if s.touch == U64_MAX then Out(s, Err(GenerationExhausted)) else
    var t := Touched(s);
    match Validate(t, handle)
    case Err(error) => Out(t, Err(error))
    case Ok(found) =>
      var entry := found.(lastTouch := t.touch);
      var i := handle.id.slot;
      match entry.phase
      case Producing(attempt, _, cell) =>
        Out(Put(t, i, entry), Ok(AcquiredWaiter(Permit(entry.token.id, attempt, cell))))
      case _ => AsProducer(StartAttempt(t, i, entry, Retained(entry.phase)))
  }

  /** The three operations that may start an attempt. */
  datatype HandleOp = OpAcquire | OpRetry | OpReplace

  function HandleOut(op: HandleOp, s: State, handle: Token): Out<Acquired> {
    match op
    case OpAcquire => Acquire(s, handle)
    case OpRetry => Retry(s, handle)
    case OpReplace => RequestReplacement(s, handle)
  }

  function Observe(s: State, handle: Token): Out<Observation> {
    if s.touch == U64_MAX then Out(s, Err(GenerationExhausted)) else
    var t := Touched(s);
    match Validate(t, handle)
    case Err(error) => Out(t, Err(error))
    case Ok(found) =>
      var entry := found.(lastTouch := t.touch);
      var id := entry.token.id;
      Out(Put(t, handle.id.slot, entry),
          Ok(match entry.phase
             case Missing => ObservedMissing(id)
             case Ready(ready) => ObservedReady(SnapshotOf(entry, ready))
             case Failed(attempt, error, previous) => ObservedFailed(FailureOf(entry, attempt, error, previous))
             case Producing(attempt, previous, _) =>
               ObservedProducing(id, attempt, SnapshotOption(entry, previous))))
  }

  /** `upgradable`: whether some strong owner of the weak handle's token is left. */
  function Upgrade(s: State, weak: Token, upgradable: bool): Result<Option<Token>, AssetError> {
    if weak.id.store != s.storeId then Err(ForeignIdentity) else
    match Lookup(s, weak.id)
    case Err(StaleIdentity(_, _)) => Ok(None)
    case Err(error) => Err(error)
    case Ok(entry) =>
      if !upgradable then Ok(None)
      else if entry.token.addr != weak.addr then Ok(None)
      else Ok(Some(weak))
  }

  /** Whether `phase` is the attempt that `permit` guards. */
  predicate Active(phase: Phase, permit: Permit) {
    phase.Producing? && phase.attempt == permit.attempt && phase.cell == permit.cell
  }

  function Expired(phase: Phase, permit: Permit): AssetError {
    ExpiredProducer(permit.attempt, if phase.Producing? then Some(phase.attempt) else None)
  }

  function BytesOf(previous: Option<ReadyValue>): nat {
    if previous.Some? then previous.value.bytes else 0
  }

  function Commit(s: State, permit: Permit, value: Value, bytes: U64): Out<Snapshot> {
    if s.touch == U64_MAX then Out(s, Err(GenerationExhausted)) else
    var t := Touched(s);
    match Lookup(t, permit.id)
    case Err(error) => Out(t, Err(error))
    case Ok(entry) =>
      if entry.contentGeneration == U64_MAX then Out(t, Err(GenerationExhausted)) else
      if !Active(entry.phase, permit) then Out(t, Err(Expired(entry.phase, permit))) else
      var retained := BytesOf(entry.phase.previous);
      if t.readyBytes < retained || t.readyBytes - retained + bytes > U64_MAX
      then Out(t, Err(ResidentBytesOverflow)) else
      var generation := entry.contentGeneration + 1;
      var ready := ReadyValue(generation, value, bytes);
      var next := entry.(contentGeneration := generation, lastTouch := t.touch, phase := Ready(ready));
      Out(Put(t, permit.id.slot, next).(readyBytes := t.readyBytes - retained + bytes),
          Ok(SnapshotOf(next, ready)))
  }

  function Fail(s: State, permit: Permit, error: Fault): Out<Failure> {
    if s.touch == U64_MAX then Out(s, Err(GenerationExhausted)) else
    var t := Touched(s);
    match Lookup(t, permit.id)
    case Err(rejected) => Out(t, Err(rejected))
    case Ok(entry) =>
      if !Active(entry.phase, permit) then Out(t, Err(Expired(entry.phase, permit))) else
      var previous := entry.phase.previous;
      var next := entry.(lastTouch := t.touch, phase := Failed(permit.attempt, error, previous));
      Out(Put(t, permit.id.slot, next),
          Ok(Failure(permit.id, permit.attempt, error, SnapshotOption(next, previous))))
  }

  /** The reply carries the outcome that is then published in the attempt cell. */
  function Cancel(s: State, permit: Permit): Out<Outcome> {
    if s.touch == U64_MAX then Out(s, Err(GenerationExhausted)) else
    var t := Touched(s);
    match Lookup(t, permit.id)
    case Err(error) => Out(t, Err(error))
    case Ok(entry) =>
      if !Active(entry.phase, permit) then Out(t, Err(Expired(entry.phase, permit))) else
      var previous := entry.phase.previous;
      var phase := if previous.Some? then Ready(previous.value) else Missing;
      var next := entry.(lastTouch := t.touch, phase := phase);
      Out(Put(t, permit.id.slot, next),
          Ok(Cancelled(permit.id, permit.attempt, SnapshotOption(next, previous))))
  }

  /** `strongUsers`: strong owners of the identity's token other than the store. */
  function Remove(s: State, id: AssetId, strongUsers: nat): Out<RemoveReport> {
    match Lookup(s, id)
    case Err(error) => Out(s, Err(error))
    case Ok(entry) =>
      if strongUsers != 0 then Out(s, Err(LiveUsers(strongUsers))) else
      if entry.phase.Producing? then Out(s, Err(ProductionInProgress(entry.phase.attempt))) else
      var generation := s.slots[id.slot].generation;
      var reusable := generation < U32_MAX;
      var emptied := s.(slots := s.slots[id.slot := Slot(if reusable then generation + 1 else generation, None)]);
      var retained := Retained(entry.phase);
      if s.readyBytes < BytesOf(retained) then Out(emptied, Err(ResidentBytesOverflow)) else
      Out(emptied.(readyBytes := s.readyBytes - BytesOf(retained),
                   free := if reusable then s.free + {id.slot} else s.free),
          Ok(RemoveReport(id, if retained.Some? then Some(retained.value.generation) else None, BytesOf(retained))))
  }
}
