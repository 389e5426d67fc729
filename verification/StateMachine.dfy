/** The public state machine of an identity: what one operation leaves for the next to find. */
module StateMachine {
  import opened Prelude
  import opened StoreState
  import opened StoreInvariant
  import opened StoreWorld
  import opened WorldInvariant

  function PhaseOf(s: State, handle: Token): Phase
    requires Owned(s, handle)
  {
    EntryAt(s, handle.id.slot).phase
  }

  /** An owned handle of a valid store with a touch left. */
  ghost predicate Usable(s: State, handle: Token) {
    Valid(s) && Owned(s, handle) && s.touch < U64_MAX
  }

  /**
   Work starts only where it was asked for: `acquire` starts it on missing content alone,
   `retry` on failed content too, a replacement on anything not in production already.
   */
  lemma WhoStarts(op: HandleOp, s: State, handle: Token)
    requires Usable(s, handle)
    ensures var reply, phase := HandleOut(op, s, handle).reply, PhaseOf(s, handle);
      && reply.Ok?
      && (reply.value.AcquiredWaiter? <==> phase.Producing?)
      && (reply.value.AcquiredProducer? <==>
            phase.Missing? || (phase.Failed? && !op.OpAcquire?) || (phase.Ready? && op.OpReplace?))
      && (reply.value.AcquiredReady? <==> phase.Ready? && !op.OpReplace?)
      && (reply.value.AcquiredFailed? <==> phase.Failed? && op.OpAcquire?)
  {
    HandleCases(op, s, handle);
    OwnedIsValid(s, handle);
    AttemptsLeft(s, handle.id.slot);
  }

  /** Observing starts nothing and changes no state but recency. */
  lemma ObserveOnlyLooks(s: State, handle: Token)
    requires Usable(s, handle)
    ensures var n := Observe(s, handle).state;
      && Steady(s, n) && (forall p :: Guards(n, p) <==> Guards(s, p))
      && forall j: nat :: Live(s, j) ==> Live(n, j) && EntryAt(n, j).phase == EntryAt(s, j).phase
  {
    ObserveEffect(s, handle);
    ObserveKeepsValid(s, handle);
  }

  /** Once an attempt has started, everyone else joins that attempt and still sees the previous value. */
  lemma JoinAfterStart(first: HandleOp, next: HandleOp, s: State, handle: Token)
    requires Usable(s, handle) && s.touch + 2 <= U64_MAX
    requires HandleOut(first, s, handle).reply.Ok? && HandleOut(first, s, handle).reply.value.AcquiredProducer?
    ensures var n, permit := HandleOut(first, s, handle).state, HandleOut(first, s, handle).reply.value.permit;
      && permit.attempt == EntryAt(s, handle.id.slot).attemptGeneration + 1
      && Guards(n, permit)
      && HandleOut(next, n, handle).reply == Ok(AcquiredWaiter(permit))
      && Observe(n, handle).reply
           == Ok(ObservedProducing(handle.id, permit.attempt,
                   SnapshotOption(EntryAt(s, handle.id.slot), Retained(PhaseOf(s, handle)))))
  {
    HandleCases(first, s, handle);
    var n := HandleOut(first, s, handle).state;
    StillUsable(s, n, handle);
    WhoStarts(next, n, handle);
    HandleCases(next, n, handle);
    OwnedIsValid(n, handle);
  }

  lemma StillUsable(s: State, n: State, handle: Token)
    requires Usable(s, handle) && Valid(n) && Rewrites(s, n, handle.id.slot) && n.touch < U64_MAX
    ensures Usable(n, handle)
  {
  }

  /** The snapshot a commit returned is what everyone then reads. */
  lemma ReadAfterCommit(s: State, permit: Permit, value: Value, bytes: U64)
    requires Valid(s) && Guards(s, permit) && Commit(s, permit, value, bytes).reply.Ok? && s.touch + 2 <= U64_MAX
    ensures var out, handle := Commit(s, permit, value, bytes), EntryAt(s, permit.id.slot).token;
      && Acquire(out.state, handle).reply == Ok(AcquiredReady(out.reply.value))
      && Retry(out.state, handle).reply == Ok(AcquiredReady(out.reply.value))
      && Observe(out.state, handle).reply == Ok(ObservedReady(out.reply.value))
  {
    CommitEffect(s, permit, value, bytes);
    GuardedIsOwned(s, permit);
    var n, handle := Commit(s, permit, value, bytes).state, EntryAt(s, permit.id.slot).token;
    OwnedIsValid(n, handle);
  }

  /** The failure is what everyone then reads, until a retry starts the next attempt beside the previous value. */
  lemma ReadAfterFail(s: State, permit: Permit, error: Fault)
    requires Valid(s) && Guards(s, permit) && s.touch + 3 <= U64_MAX
    ensures var out, handle := Fail(s, permit, error), EntryAt(s, permit.id.slot).token;
      && out.reply.Ok? && out.reply.value.error == error
      && Acquire(out.state, handle).reply == Ok(AcquiredFailed(out.reply.value))
      && Observe(out.state, handle).reply == Ok(ObservedFailed(out.reply.value))
      && (var retried := Retry(out.state, handle);
          && retried.reply == Ok(AcquiredProducer(Permit(permit.id, permit.attempt + 1, out.state.arcs)))
          && Observe(retried.state, handle).reply
               == Ok(ObservedProducing(permit.id, permit.attempt + 1, out.reply.value.previous)))
  {
    FailEffect(s, permit, error);
    GuardedIsOwned(s, permit);
    var out, handle := Fail(s, permit, error), EntryAt(s, permit.id.slot).token;
    assert SlotOk(s, permit.id.slot);
    OwnedIsValid(out.state, handle);
    WhoStarts(OpRetry, out.state, handle);
    HandleCases(OpRetry, out.state, handle);
    JoinAfterStart(OpRetry, OpRetry, out.state, handle);
  }

  /** After a cancel the previous value is back, or the identity is missing and can be acquired anew. */
  lemma ReadAfterCancel(s: State, permit: Permit)
    requires Valid(s) && Guards(s, permit) && s.touch + 2 <= U64_MAX
    ensures var n, handle := Cancel(s, permit).state, EntryAt(s, permit.id.slot).token;
      var previous := SnapshotOption(EntryAt(s, permit.id.slot), EntryAt(s, permit.id.slot).phase.previous);
      && Cancel(s, permit).reply == Ok(Cancelled(permit.id, permit.attempt, previous))
      && Observe(n, handle).reply
           == Ok(if previous.Some? then ObservedReady(previous.value) else ObservedMissing(permit.id))
      && Acquire(n, handle).reply
           == Ok(if previous.Some? then AcquiredReady(previous.value)
                 else AcquiredProducer(Permit(permit.id, permit.attempt + 1, n.arcs)))
  {
    CancelEffect(s, permit);
    GuardedIsOwned(s, permit);
    var n, handle := Cancel(s, permit).state, EntryAt(s, permit.id.slot).token;
    assert SlotOk(s, permit.id.slot);
    OwnedIsValid(n, handle);
    AttemptsLeft(n, permit.id.slot);
  }

  /** A consumed permit is refused from then on, whatever attempt came after it. */
  lemma LatePermitIsRefused(s: State, permit: Permit, value: Value, bytes: U64, error: Fault)
    requires Valid(s) && s.touch < U64_MAX && Lookup(s, permit.id).Ok? && !Guards(s, permit)
    ensures var phase := EntryAt(s, permit.id.slot).phase;
      var refusal := ExpiredProducer(permit.attempt, if phase.Producing? then Some(phase.attempt) else None);
      && Commit(s, permit, value, bytes) == Out(Touched(s), Err(refusal))
      && Fail(s, permit, error) == Out(Touched(s), Err(refusal))
      && Cancel(s, permit) == Out(Touched(s), Err(refusal))
  {
    CommitKeepsValid(s, permit, value, bytes);
    AttemptsLeft(s, permit.id.slot);
  }

  /** A removed identity is stale for good, also when its slot has a new occupant. */
  lemma StaleAfterRemove(s: State, id: AssetId, strongUsers: nat, upgradable: bool)
    requires Valid(s) && Remove(s, id, strongUsers).reply.Ok?
    ensures var n, weak := Remove(s, id, strongUsers).state, EntryAt(s, id.slot).token;
      && Valid(n)
      && Lookup(n, id) == Err(Stale(id)) && Upgrade(n, weak, upgradable) == Ok(None)
      && Lookup(Create(n).state, id) == Err(Stale(id)) && Upgrade(Create(n).state, weak, upgradable) == Ok(None)
  {
    RemoveKeepsValid(s, id, strongUsers);
    assert SlotOk(s, id.slot);
    var n := Remove(s, id, strongUsers).state;
    CreateKeepsValid(n);
    if Create(n).reply.Ok? {
      CreateEffect(n);
      assert SlotOk(n, id.slot);
    }
  }

  /** Handles, weak handles, identities and permits of another store are foreign to every operation. */
  lemma ForeignIsRejected(
    s: State, op: HandleOp, foreign: Token, permit: Permit, value: Value, bytes: U64, error: Fault,
    strongUsers: nat, upgradable: bool)
    requires Valid(s) && s.touch < U64_MAX && foreign.id.store != s.storeId && permit.id.store != s.storeId
    ensures HandleOut(op, s, foreign) == Out(Touched(s), Err(ForeignIdentity))
    ensures Observe(s, foreign) == Out(Touched(s), Err(ForeignIdentity))
    ensures Upgrade(s, foreign, upgradable) == Err(ForeignIdentity)
    ensures Remove(s, foreign.id, strongUsers) == Out(s, Err(ForeignIdentity))
    ensures Commit(s, permit, value, bytes) == Out(Touched(s), Err(ForeignIdentity))
    ensures Fail(s, permit, error) == Out(Touched(s), Err(ForeignIdentity))
    ensures Cancel(s, permit) == Out(Touched(s), Err(ForeignIdentity))
  {
  }

  /** A removal that is refused says why: no such identity, users, or else the attempt that runs. */
  lemma RemoveSaysWhy(s: State, id: AssetId, strongUsers: nat)
    requires Valid(s) && Remove(s, id, strongUsers).reply.Err?
    ensures Remove(s, id, strongUsers).reply.error ==
      if Lookup(s, id).Err? then Lookup(s, id).error
      else if strongUsers > 0 then LiveUsers(strongUsers)
      else ProductionInProgress(EntryAt(s, id.slot).attemptGeneration)
  {
    RemoveKeepsValid(s, id, strongUsers);
    if Lookup(s, id).Ok? { assert SlotOk(s, id.slot); }
  }

  /** A weak handle upgrades to itself exactly while its token has an owner and is that of the live entry. */
  lemma UpgradeAnswers(s: State, weak: Token, upgradable: bool)
    ensures Upgrade(s, weak, upgradable) ==
      if weak.id.store != s.storeId then Err(ForeignIdentity)
      else Ok(if upgradable && Validate(s, weak).Ok? then Some(weak) else None)
  {
  }
}
