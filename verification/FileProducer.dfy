/**
 One file production: the permit it owns, the counters it settles and the lease it holds.
 The file system is a parameter: what opening and sizing the source came to, and a source.
 */
module FileProducer {
  import opened Prelude
  import opened StoreState
  import opened StoreInvariant
  import opened StoreInner
  import opened ProducerPermit
  import opened InFlightBudget
  import opened ReadExact
  import opened FileKey
  import opened ProducerLife

  class Metrics {
    var stats: Stats

    constructor ()
      ensures stats == Zero
    {
      stats := Zero;
    }
  }

  /** The counters after a producer ended: one less in flight, one ending more. */
  function SettledAs(stats: Stats, ending: Ending): Stats {
    EndedAs(stats.(inFlight := Down(stats.inFlight)), ending)
  }

  /** What a budget has left when a production starts. */
  datatype Room = Room(slot: bool, bytes: nat)

  function RoomIn(budget: Option<InFlightBudget>, slot: bool): Option<Room>
    requires budget.Some? ==> budget.value.reservedBytes <= budget.value.maximumBytes
    reads if budget.Some? then {budget.value} else {}
  {
    if budget.Some? then Some(Room(slot, budget.value.maximumBytes - budget.value.reservedBytes)) else None
  }

  /** Before the slot is taken. */
  function RoomBefore(budget: Option<InFlightBudget>): Option<Room>
    requires budget.Some? ==> budget.value.reservedBytes <= budget.value.maximumBytes
    reads if budget.Some? then {budget.value} else {}
  {
    RoomIn(budget, budget.Some? && budget.value.tasks < budget.value.maximumTasks)
  }

  /** A source of this length is read: slot and bytes are to be had, and a vector can hold it. */
  predicate Admits(room: Option<Room>, length: U64, usizeMax: nat) {
    && (room.Some? ==> room.value.slot && length <= room.value.bytes)
    && length <= usizeMax
  }

  /** What was read, or the first obstacle on the way, in the order of the source. */
  function Attempt(
    room: Option<Room>, file: Result<Source, IoError>, length: Result<U64, IoError>, usizeMax: nat,
    read: Result<Content, LoadError>): Result<Content, LoadError>
  {
    if room.Some? && !room.value.slot then Err(BudgetRejected(0))
    else if file.Err? then Err(SourceIo(file.error))
    else if length.Err? then Err(SourceIo(length.error))
    else if room.Some? && length.value > room.value.bytes then Err(BudgetRejected(length.value))
    else if length.value > usizeMax then Err(SourceTooLarge)
    else read
  }

  /** The obstacle reported is the first one met: the task slot before opening, the bytes before reading. */
  lemma ObstaclesInOrder(
    room: Option<Room>, file: Result<Source, IoError>, length: Result<U64, IoError>, usizeMax: nat,
    read: Result<Content, LoadError>)
    ensures var r := Attempt(room, file, length, usizeMax, read);
      var slot := room.Some? ==> room.value.slot;
      var sized := slot && file.Ok? && length.Ok?;
      && (!slot ==> r == Err(BudgetRejected(0)))
      && (slot && file.Err? ==> r == Err(SourceIo(file.error)))
      && (slot && file.Ok? && length.Err? ==> r == Err(SourceIo(length.error)))
      && (sized && room.Some? && length.value > room.value.bytes ==> r == Err(BudgetRejected(length.value)))
      && (sized && (room.Some? ==> length.value <= room.value.bytes) && length.value > usizeMax ==>
            r == Err(SourceTooLarge))
      && (sized && Admits(room, length.value, usizeMax) ==> r == read)
  {
  }

  /** What reading an opened source of known length came to. */
  function ReadFrom(file: Result<Source, IoError>, length: Result<U64, IoError>, before: (seq<Byte>, nat))
    : Result<Content, LoadError>
    reads if file.Ok? then {file.value} else {}
  {
    if file.Err? || length.Err? then Ok([])
    else ReadOutcome(before.0, file.value.answers, before.1, file.value.calls, length.value, length.value)
  }

  /** What an opened source holds, and how often it has been read. */
  function ContentOf(file: Result<Source, IoError>): (seq<Byte>, nat)
    reads if file.Ok? then {file.value} else {}
  {
    if file.Ok? then (file.value.rest, file.value.calls) else ([], 0)
  }

  /** A source of this content, opened and sized, was admitted, read without error and is as long as announced. */
  predicate Loadable(
    room: Option<Room>, file: Result<Source, IoError>, length: Result<U64, IoError>, usizeMax: nat,
    before: (seq<Byte>, nat))
    reads if file.Ok? then {file.value} else {}
  {
    && file.Ok? && length.Ok? && Admits(room, length.value, usizeMax)
    && Clean(file.value.answers, before.1, file.value.calls) && |before.0| == length.value
  }

  /** A source that is not admitted is not read. */
  predicate Spares(
    room: Option<Room>, file: Result<Source, IoError>, length: Result<U64, IoError>, usizeMax: nat,
    before: (seq<Byte>, nat))
    reads if file.Ok? then {file.value} else {}
  {
    (length.Ok? && Admits(room, length.value, usizeMax)) || ContentOf(file) == before
  }

  function Rejecting(stats: Stats, attempt: Result<Content, LoadError>): Stats {
    if attempt.Err? && attempt.error.BudgetRejected?
    then stats.(budgetRejections := Up(stats.budgetRejections)) else stats
  }

  function Prepared(key: Key, read: Result<Content, LoadError>): Result<Content, LoadError> {
    if read.Ok? then Ok(Transformed(key, read.value)) else read
  }

  /** The lease of a production in progress is the latest of its budget. */
  ghost predicate Leased(budget: Option<InFlightBudget>, lease: Option<Reservation>)
    reads if budget.Some? then {budget.value} else {}, if lease.Some? then {lease.value} else {}
    reads if lease.Some? then {lease.value.budget} else {}
  {
    && (budget.Some? <==> lease.Some?)
    && (budget.Some? ==>
          && lease.value.budget == budget.value && |budget.value.ledger| > 0
          && lease.value.LiveAt(|budget.value.ledger| - 1))
  }

  /** The latest lease is gone, the others stand. */
  ghost predicate Released(budget: Option<InFlightBudget>, before: seq<Lease>)
    reads if budget.Some? then {budget.value} else {}
  {
    budget.Some? ==> budget.value.Valid() && |before| > 0 && budget.value.ledger == before[..|before| - 1]
  }

  /** `Arc::new`, for the bytes of a content and for an error. */
  datatype Shared = Shared(value: Content -> Value, fault: LoadError -> Fault)

  /** What ending a production does: to the store, to its caller, to its waiters, to the counters. */
  datatype Conclusion = Conclusion(
    state: State, reply: Result<Snapshot, LoadError>, publish: Option<Outcome>, ending: Ending)

  function Conclude(
    s: State, permit: Permit, attempt: Result<Content, LoadError>, shared: Shared, open: bool): Conclusion
  {
    match attempt
    case Ok(bytes) =>
      var done :=
        if open then ConsumeCommit(s, permit, shared.value(bytes), |bytes|)
        else Consumed(s, Err(StoreClosed), None);
      if done.reply.Ok? then Conclusion(done.state, Ok(done.reply.value), done.publish, Success)
      else Conclusion(done.state, Err(Core(done.reply.error)), done.publish, Cancellation)
    case Err(error) =>
      var done := if open then ConsumeFail(s, permit, shared.fault(error)) else Consumed(s, Err(StoreClosed), None);
      if done.reply.Ok? then Conclusion(done.state, Err(error), done.publish, Ending.Failure)
      else Conclusion(done.state, Err(Core(done.reply.error)), done.publish, Cancellation)
  }

  ghost predicate Usable(store: StoreInner)
    reads store
  {
    !store.locked && Valid(store.View())
  }

  /** Store, reply, waiters and counters end up as `Conclude` says. */
  predicate Ends(
    s: State, permit: Permit, attempt: Result<Content, LoadError>, shared: Shared, open: bool,
    stats: Stats, n: State, r: Result<Snapshot, LoadError>, publish: Option<Outcome>, after: Stats)
  {
    var end := Conclude(s, permit, attempt, shared, open);
    end.state == n && end.reply == r && end.publish == publish && after == SettledAs(stats, end.ending)
  }

  /** And a refused budget has been counted. */
  predicate Concludes(
    s: State, permit: Permit, attempt: Result<Content, LoadError>, shared: Shared, open: bool,
    stats: Stats, n: State, r: Result<Snapshot, LoadError>, publish: Option<Outcome>, after: Stats)
  {
    Ends(s, permit, attempt, shared, open, Rejecting(stats, attempt), n, r, publish, after)
  }

  class FileProducer {
    const key: Key
    const metrics: Metrics
    const shared: Shared
    var permit: Option<ProducerPermit>
    var terminal: bool

    constructor (key: Key, permit: ProducerPermit, metrics: Metrics, shared: Shared)
      ensures this.key == key && this.permit == Some(permit) && this.metrics == metrics && this.shared == shared
      ensures !terminal
    {
      this.key, this.permit, this.metrics, this.shared := key, Some(permit), metrics, shared;
      terminal := false;
    }

    /** In flight, with its permit unused. */
    predicate Live()
      reads this, if permit.Some? then {permit.value} else {}
    {
      !terminal && permit.Some? && !permit.value.completed
    }

    method Settle()
      modifies this`terminal, metrics
      ensures terminal
      ensures metrics.stats == if old(terminal) then old(metrics.stats)
                               else old(metrics.stats).(inFlight := Down(old(metrics.stats.inFlight)))
    {
      if !terminal {
        terminal := true;
        metrics.stats := metrics.stats.(inFlight := Down(metrics.stats.inFlight));
      }
    }

    /** A failure the store refuses counts as a cancellation. */
    method Fail(error: LoadError, open: bool)
      returns (r: Result<Snapshot, LoadError>, publish: Option<Outcome>)
      requires Live() && Usable(permit.value.store)
      modifies this, permit.value, permit.value.store, metrics
      ensures Usable(old(permit.value).store)
      ensures Ends(old(permit.value.store.View()), old(permit.value.permit), Err(error), shared, open,
                   old(metrics.stats), old(permit.value).store.View(), r, publish, metrics.stats)
      ensures terminal && permit.None?
    {
      var used := permit.value;
      permit := None;
      var published;
      published, publish := used.Fail(shared.fault(error), open);
      Settle();
      if published.Ok? {
        metrics.stats := EndedAs(metrics.stats, Ending.Failure);
        r := Err(error);
      } else {
        metrics.stats := EndedAs(metrics.stats, Cancellation);
        r := Err(Core(published.error));
      }
    }

    /** The end of a production whose bytes were read; the lease goes once the permit is consumed. */
    method Commit(
      bytes: Content, budget: Option<InFlightBudget>, lease: Option<Reservation>, open: bool)
      returns (r: Result<Snapshot, LoadError>, publish: Option<Outcome>)
      requires Live() && Usable(permit.value.store)
      requires Leased(budget, lease)
      modifies this, permit.value, permit.value.store, metrics
      modifies if budget.Some? then {budget.value} else {}
      ensures Usable(old(permit.value).store)
      ensures Ends(old(permit.value.store.View()), old(permit.value.permit), Ok(bytes), shared, open,
                   old(metrics.stats), old(permit.value).store.View(), r, publish, metrics.stats)
      ensures terminal && permit.None?
      ensures Released(budget, if budget.Some? then old(budget.value.ledger) else [])
    {
      var used := permit.value;
      permit := None;
      var committed;
      committed, publish := used.Commit(shared.value(bytes), |bytes|, open);
      Release(budget, lease);
      Settle();
      if committed.Ok? {
        metrics.stats := EndedAs(metrics.stats, Success);
        r := Ok(committed.value);
      } else {
        metrics.stats := EndedAs(metrics.stats, Cancellation);
        r := Err(Core(committed.error));
      }
    }

    method Release(budget: Option<InFlightBudget>, lease: Option<Reservation>)
      requires Leased(budget, lease)
      modifies if budget.Some? then {budget.value} else {}
      ensures Released(budget, if budget.Some? then old(budget.value.ledger) else [])
    {
      if lease.Some? { lease.value.Drop(|budget.value.ledger| - 1); }
    }

    /** Opens, sizes and reads the source, with the lease grown to its size. */
    method Load(
      budget: Option<InFlightBudget>, lease: Option<Reservation>,
      file: Result<Source, IoError>, length: Result<U64, IoError>, usizeMax: nat)
      returns (r: Result<Content, LoadError>)
      requires Leased(budget, lease)
      modifies metrics
      modifies if budget.Some? then {budget.value, lease.value} else {}
      modifies if file.Ok? then {file.value} else {}
      ensures r == Attempt(old(RoomIn(budget, true)), file, length, usizeMax,
                           ReadFrom(file, length, old(ContentOf(file))))
      ensures r.Ok? <==> Loadable(old(RoomIn(budget, true)), file, length, usizeMax, old(ContentOf(file)))
      ensures r.Ok? ==> r.value == old(ContentOf(file)).0
      ensures Spares(old(RoomIn(budget, true)), file, length, usizeMax, old(ContentOf(file)))
      ensures metrics.stats == Rejecting(old(metrics.stats), r)
      ensures Leased(budget, lease)
      ensures budget.Some? ==>
        && |budget.value.ledger| == |old(budget.value.ledger)|
        && budget.value.ledger[..|budget.value.ledger| - 1] == old(budget.value.ledger[..|budget.value.ledger| - 1])
    {
      if file.Err? { return Err(SourceIo(file.error)); }
      if length.Err? { return Err(SourceIo(length.error)); }
      if lease.Some? {
        var granted := lease.value.Increase(length.value, |budget.value.ledger| - 1);
        if !granted {
          metrics.stats := metrics.stats.(budgetRejections := Up(metrics.stats.budgetRejections));
          return Err(BudgetRejected(length.value));
        }
      }
      if length.value > usizeMax { return Err(SourceTooLarge); }
      r := ReadExactBounded(file.value, length.value, length.value);
    }

    /** The production once its slot is taken. */
    method ProduceLeased(
      budget: Option<InFlightBudget>, lease: Option<Reservation>,
      file: Result<Source, IoError>, length: Result<U64, IoError>, usizeMax: nat, open: bool)
      returns (r: Result<Snapshot, LoadError>, publish: Option<Outcome>, ghost attempt: Result<Content, LoadError>)
      requires Live() && Usable(permit.value.store) && Leased(budget, lease)
      modifies this, permit.value, permit.value.store, metrics
      modifies if budget.Some? then {budget.value, lease.value} else {}
      modifies if file.Ok? then {file.value} else {}
      ensures attempt == Prepared(key, Attempt(old(RoomIn(budget, true)), file, length, usizeMax,
                                               ReadFrom(file, length, old(ContentOf(file)))))
      ensures attempt.Ok? <==> Loadable(old(RoomIn(budget, true)), file, length, usizeMax, old(ContentOf(file)))
      ensures attempt.Ok? ==> Renders(key, old(ContentOf(file)).0, attempt.value)
      ensures Spares(old(RoomIn(budget, true)), file, length, usizeMax, old(ContentOf(file)))
      ensures Usable(old(permit.value).store)
      ensures Concludes(old(permit.value.store.View()), old(permit.value.permit), attempt, shared, open,
                        old(metrics.stats), old(permit.value).store.View(), r, publish, metrics.stats)
      ensures terminal && permit.None?
      ensures Released(budget, if budget.Some? then old(budget.value.ledger) else [])
    {
      var loaded := Load(budget, lease, file, length, usizeMax);
      attempt := Prepared(key, loaded);
      if loaded.Err? {
        r, publish := Fail(loaded.error, open);
        Release(budget, lease);
      } else {
        r, publish := Commit(Transformed(key, loaded.value), budget, lease, open);
      }
    }

    /**
     Whatever becomes of the production, its permit is consumed with the committed bytes or
     with the obstacle met, it is counted once, and the budget is as before.
     */
    method ProduceWith(
      budget: Option<InFlightBudget>, file: Result<Source, IoError>, length: Result<U64, IoError>,
      usizeMax: nat, open: bool)
      returns (r: Result<Snapshot, LoadError>, publish: Option<Outcome>, ghost attempt: Result<Content, LoadError>)
      requires Live() && Usable(permit.value.store)
      requires budget.Some? ==> budget.value.Valid()
      modifies this, permit.value, permit.value.store, metrics
      modifies if budget.Some? then {budget.value} else {}
      modifies if file.Ok? then {file.value} else {}
      ensures attempt == Prepared(key, Attempt(old(RoomBefore(budget)), file, length, usizeMax,
                                               ReadFrom(file, length, old(ContentOf(file)))))
      ensures attempt.Ok? <==> Loadable(old(RoomBefore(budget)), file, length, usizeMax, old(ContentOf(file)))
      ensures attempt.Ok? ==> Renders(key, old(ContentOf(file)).0, attempt.value)
      ensures Spares(old(RoomBefore(budget)), file, length, usizeMax, old(ContentOf(file)))
      ensures budget.Some? && old(budget.value.tasks == budget.value.maximumTasks) ==> attempt == Err(BudgetRejected(0))
      ensures Usable(old(permit.value).store)
      ensures Concludes(old(permit.value.store.View()), old(permit.value.permit), attempt, shared, open,
                        old(metrics.stats), old(permit.value).store.View(), r, publish, metrics.stats)
      ensures r.Ok? ==> attempt.Ok? && r.value.value == shared.value(attempt.value) && r.value.bytes == |attempt.value|
      ensures terminal && permit.None?
      ensures budget.Some? ==> budget.value.Valid() && budget.value.ledger == old(budget.value.ledger)
    {
      var lease: Option<Reservation> := None;
      if budget.Some? {
        lease := budget.value.ReserveSlot();
        if lease.None? {
          attempt := Err(BudgetRejected(0));
          metrics.stats := metrics.stats.(budgetRejections := Up(metrics.stats.budgetRejections));
          r, publish := Fail(BudgetRejected(0), open);
          return;
        }
      }
      r, publish, attempt := ProduceLeased(budget, lease, file, length, usizeMax, open);
    }

    /** Drop: an unfinished producer counts as cancelled, and its permit cancels the attempt. */
    method Drop(open: bool) returns (publish: Option<Outcome>)
      requires !terminal ==> Live()
      requires permit.Some? ==> Usable(permit.value.store)
      modifies this, metrics, if permit.Some? then {permit.value.store} else {}
      ensures metrics.stats == if old(terminal) then old(metrics.stats) else SettledAs(old(metrics.stats), Cancellation)
      ensures !old(terminal) && open ==>
        (old(permit.value).store.View(), publish)
          == ConsumeDrop(old(permit.value.store.View()), old(permit.value).permit)
      ensures !open ==> publish == None
      ensures !open && old(permit.Some?) ==> old(permit.value).store.View() == old(permit.value.store.View())
    {
      publish := None;
      if !terminal {
        Settle();
        metrics.stats := EndedAs(metrics.stats, Cancellation);
      }
      if permit.Some? { publish := permit.value.Drop(open); }
    }
  }

  // ---- counters, outcomes and results agree

  /**
   The ending a producer is counted under is the outcome its waiters get, and the bytes read
   become the content of exactly this attempt. When the touches its end needs are missing, no
   outcome is published and the producer is counted as a cancellation.
   */
  lemma EndingIsTheOutcome(s: State, permit: Permit, attempt: Result<Content, LoadError>, shared: Shared)
    requires Valid(s) && Guards(s, permit)
    ensures var end := Conclude(s, permit, attempt, shared, true);
      var needed := if attempt.Ok? then TouchesNeeded(s, permit, |attempt.value|) else 1;
      && (end.publish.Some? <==> s.touch + needed <= U64_MAX)
      && (end.publish.None? ==> end.ending.Cancellation?)
      && (end.publish.Some? ==>
            && (end.ending.Success? <==> end.publish.value.Published?)
            && (end.ending.Failure? <==> end.publish.value.Faulted?)
            && (end.ending.Cancellation? <==> end.publish.value.Cancelled?)
            && (end.ending.Success? <==> attempt.Ok? && BytesAfter(s, permit, |attempt.value|) <= U64_MAX)
            && (end.ending.Failure? <==> attempt.Err?)
            && (end.ending.Failure? ==>
                  end.publish.value.failure.error == shared.fault(attempt.error) && end.reply == Err(attempt.error)))
      && (end.ending.Cancellation? ==>
            end.reply == Err(Core(if s.touch == U64_MAX then GenerationExhausted else ResidentBytesOverflow)))
      && (end.ending.Success? <==> end.reply.Ok?)
      && (end.reply.Ok? ==>
            && end.publish == Some(Published(end.reply.value))
            && end.reply.value.value == shared.value(attempt.value) && end.reply.value.bytes == |attempt.value|
            && end.reply.value.token.id == permit.id)
  {
    match attempt
    case Ok(bytes) =>
      CommitSettles(s, permit, shared.value(bytes), |bytes|);
      CommitKeepsValid(s, permit, shared.value(bytes), |bytes|);
      assert SlotOk(s, permit.id.slot);
    case Err(error) =>
      FailSettles(s, permit, shared.fault(error));
      FailKeepsValid(s, permit, shared.fault(error));
  }

  /** A production moves three counters at most: refusals by the budget, producers in flight, and its ending. */
  lemma CountersOfAProduction(stats: Stats, attempt: Result<Content, LoadError>, ending: Ending)
    ensures var n := SettledAs(Rejecting(stats, attempt), ending);
      && n.budgetRejections == (if attempt.Err? && attempt.error.BudgetRejected? then Up(stats.budgetRejections)
                                else stats.budgetRejections)
      && n.inFlight == Down(stats.inFlight)
      && n.successes == (if ending.Success? then Up(stats.successes) else stats.successes)
      && n.failures == (if ending.Failure? then Up(stats.failures) else stats.failures)
      && n.cancellations == (if ending.Cancellation? then Up(stats.cancellations) else stats.cancellations)
      && n == stats.(budgetRejections := n.budgetRejections, inFlight := n.inFlight, successes := n.successes,
                     failures := n.failures, cancellations := n.cancellations)
  {
  }

  /** On a closed store nothing is published, and the producer is counted as a cancellation. */
  lemma ClosedStoreEndsNothing(s: State, permit: Permit, attempt: Result<Content, LoadError>, shared: Shared)
    ensures Conclude(s, permit, attempt, shared, false) == Conclusion(s, Err(Core(StoreClosed)), None, Cancellation)
  {
  }

  /** The two counter updates of an ending, taken apart, are the last two steps of a producer's life. */
  lemma SettlingIsTwoSteps(l: Loaders, producer: nat, ending: Ending)
    requires Is(l, producer, InFlight)
    ensures Can(l, Settle(producer, ending)) && Can(Do(l, Settle(producer, ending)), End(producer))
    ensures Do(Do(l, Settle(producer, ending)), End(producer))
         == Loaders(SettledAs(l.stats, ending), l.lives[producer := Ended(ending)])
  {
    var settled := Do(l, Settle(producer, ending));
    assert settled.lives[producer := Ended(ending)] == l.lives[producer := Ended(ending)];
  }
}
