/**
 The producer capability: its methods consume it, and dropping it unfinished cancels.
 `Consume*` is a whole consuming call, the drop at its end included.
 */
module ProducerPermit {
  import opened Prelude
  import opened StoreState
  import opened StoreInvariant
  import opened StoreInner

  /** State, reply and the outcome published in the attempt cell, if any. */
  datatype Consumed<+T> = Consumed(state: State, reply: Result<T, AssetError>, publish: Option<Outcome>)

  function ConsumeDrop(s: State, permit: Permit): (State, Option<Outcome>) {
    var out := Cancel(s, permit);
    (out.state, if out.reply.Ok? then Some(out.reply.value) else None)
  }

  function ConsumeCommit(s: State, permit: Permit, value: Value, bytes: U64): Consumed<Snapshot> {
    var out := Commit(s, permit, value, bytes);
    if out.reply.Ok? then Consumed(out.state, out.reply, Some(Published(out.reply.value))) else
    var dropped := ConsumeDrop(out.state, permit);
    Consumed(dropped.0, out.reply, dropped.1)
  }

  function ConsumeFail(s: State, permit: Permit, error: Fault): Consumed<Failure> {
    var out := Fail(s, permit, error);
    if out.reply.Ok? then Consumed(out.state, out.reply, Some(Faulted(out.reply.value))) else
    var dropped := ConsumeDrop(out.state, permit);
    Consumed(dropped.0, out.reply, dropped.1)
  }

  function ConsumeCancel(s: State, permit: Permit): Consumed<()> {
    var out := Cancel(s, permit);
    if out.reply.Ok? then Consumed(out.state, Ok(()), Some(out.reply.value)) else
    var dropped := ConsumeDrop(out.state, permit);
    Consumed(dropped.0, Err(out.reply.error), dropped.1)
  }

  class ProducerPermit {
    const store: StoreInner
    const permit: Permit
    var completed: bool

    constructor (store: StoreInner, permit: Permit)
      ensures this.store == store && this.permit == permit && !completed
    {
      this.store, this.permit, completed := store, permit, false;
    }

    /** `open`: the weak reference to the store still upgrades. */
    method Drop(open: bool) returns (publish: Option<Outcome>)
      requires !store.locked && Valid(store.View())
      modifies store
      ensures !store.locked && Valid(store.View())
      ensures if completed || !open then publish == None && store.View() == old(store.View())
              else (store.View(), publish) == ConsumeDrop(old(store.View()), permit)
    {
      publish := None;
      if !completed {
        if open {
          var result := store.Cancel(permit);
          if result.Ok? { publish := Some(result.value); }
        }
      }
    }

    method Commit(value: Value, bytes: U64, open: bool)
      returns (r: Result<Snapshot, AssetError>, publish: Option<Outcome>)
      requires !completed && !store.locked && Valid(store.View())
      modifies this, store
      ensures !store.locked && Valid(store.View())
      ensures if open then Consumed(store.View(), r, publish) == ConsumeCommit(old(store.View()), permit, value, bytes)
              else r == Err(StoreClosed) && publish == None && store.View() == old(store.View())
    {
      if open {
        r, publish := store.Commit(permit, value, bytes);
        completed := r.Ok?;
      } else {
        r, publish := Err(StoreClosed), None;
      }
      var dropped := Drop(open);
      if publish.None? { publish := dropped; }
    }

    method Fail(error: Fault, open: bool) returns (r: Result<Failure, AssetError>, publish: Option<Outcome>)
      requires !completed && !store.locked && Valid(store.View())
      modifies this, store
      ensures !store.locked && Valid(store.View())
      ensures if open then Consumed(store.View(), r, publish) == ConsumeFail(old(store.View()), permit, error)
              else r == Err(StoreClosed) && publish == None && store.View() == old(store.View())
    {
      if open {
        r, publish := store.Fail(permit, error);
        completed := r.Ok?;
      } else {
        r, publish := Err(StoreClosed), None;
      }
      var dropped := Drop(open);
      if publish.None? { publish := dropped; }
    }

    method Cancel(open: bool) returns (r: Result<(), AssetError>, publish: Option<Outcome>)
      requires !completed && !store.locked && Valid(store.View())
      modifies this, store
      ensures !store.locked && Valid(store.View())
      ensures if open then Consumed(store.View(), r, publish) == ConsumeCancel(old(store.View()), permit)
              else r == Err(StoreClosed) && publish == None && store.View() == old(store.View())
    {
      publish := None;
      if open {
        var result := store.Cancel(permit);
        completed := result.Ok?;
        if result.Ok? { r, publish := Ok(()), Some(result.value); } else { r := Err(result.error); }
      } else {
        r := Err(StoreClosed);
      }
      var dropped := Drop(open);
      if publish.None? { publish := dropped; }
    }
  }

  /** Equal but for the recency of slot `i` and the touch counter. */
  ghost predicate AlikeButRecency(a: State, b: State, i: nat) {
    && Live(a, i) && Live(b, i)
    && a == b.(touch := a.touch, slots := a.slots)
    && |a.slots| == |b.slots|
    && a.slots == b.slots[i := b.slots[i].(entry := Some(EntryAt(b, i).(lastTouch := EntryAt(a, i).lastTouch)))]
  }

  /** Touches a consuming call needs to end its attempt. */
  function TouchesNeeded(s: State, permit: Permit, bytes: U64): nat
    requires Guards(s, permit)
  {
    if BytesAfter(s, permit, bytes) > U64_MAX then 2 else 1
  }

  /**
   A consuming commit ends its attempt, with the committed value or else as cancelled,
   if and only if the touches it needs are left; otherwise the attempt keeps running
   although its only permit is gone.
   */
  lemma CommitSettles(s: State, permit: Permit, value: Value, bytes: U64)
    requires Valid(s) && Guards(s, permit)
    ensures var done := ConsumeCommit(s, permit, value, bytes);
      && Valid(done.state)
      && (done.publish.Some? <==> s.touch + TouchesNeeded(s, permit, bytes) <= U64_MAX)
      && (done.publish.Some? <==> !Guards(done.state, permit))
      && (done.reply.Ok? ==> done.publish == Some(Published(done.reply.value)))
      && (done.reply.Err? && done.publish.Some? ==>
            && done.reply == Err(ResidentBytesOverflow)
            && done.publish == Some(Cancelled(permit.id, permit.attempt,
                 SnapshotOption(EntryAt(s, permit.id.slot), EntryAt(s, permit.id.slot).phase.previous))))
  {
    CommitKeepsValid(s, permit, value, bytes);
    var out := Commit(s, permit, value, bytes);
    if out.reply.Err? { CancelKeepsValid(out.state, permit); }
  }

  lemma FailSettles(s: State, permit: Permit, error: Fault)
    requires Valid(s) && Guards(s, permit)
    ensures var done := ConsumeFail(s, permit, error);
      && Valid(done.state)
      && (done.publish.Some? <==> s.touch < U64_MAX)
      && (done.publish.Some? <==> !Guards(done.state, permit))
      && (done.publish.Some? <==> done.reply.Ok? && done.publish == Some(Faulted(done.reply.value)))
  {
    FailKeepsValid(s, permit, error);
    CancelKeepsValid(s, permit);
  }

  /**
   A consuming cancel ends its attempt as cancelled, with the value retained before, if and
   only if a touch is left, and then says so; a drop does the same and says nothing.
   */
  lemma CancelSettles(s: State, permit: Permit)
    requires Valid(s) && Guards(s, permit)
    ensures var done := ConsumeCancel(s, permit);
      && Valid(done.state)
      && (done.publish.Some? <==> s.touch < U64_MAX)
      && (done.publish.Some? <==> !Guards(done.state, permit))
      && done.reply == (if done.publish.Some? then Ok(()) else Err(GenerationExhausted))
      && (done.publish.Some? ==>
            done.publish == Some(Cancelled(permit.id, permit.attempt,
              SnapshotOption(EntryAt(s, permit.id.slot), EntryAt(s, permit.id.slot).phase.previous))))
      && ConsumeDrop(s, permit) == (done.state, done.publish)
  {
    CancelKeepsValid(s, permit);
  }

  /** A permit whose attempt is over publishes nothing, whatever its owner calls, and moves the touch only. */
  lemma LatePublishesNothing(s: State, permit: Permit, value: Value, bytes: U64, error: Fault)
    requires Valid(s) && !Guards(s, permit)
    ensures var commit, fail, cancel :=
        ConsumeCommit(s, permit, value, bytes), ConsumeFail(s, permit, error), ConsumeCancel(s, permit);
      && commit.publish == fail.publish == cancel.publish == None
      && commit.reply.Err? && fail.reply == Err(commit.reply.error) && cancel.reply == Err(commit.reply.error)
      && commit.state == fail.state == cancel.state == s.(touch := commit.state.touch)
      && s.touch <= commit.state.touch <= s.touch + 2
  {
    CommitKeepsValid(s, permit, value, bytes);
    FailKeepsValid(s, permit, error);
    CancelKeepsValid(s, permit);
    if s.touch < U64_MAX { CancelKeepsValid(Touched(s), permit); }
  }

  /**
   Overflow recovery: a commit rejected for byte overflow leaves the store, recency
   apart, as a cancel would have; the identity then holds its previous value or is
   missing, and a new attempt can be started on it.
   */
  lemma OverflowRecovers(s: State, permit: Permit, value: Value, bytes: U64)
    requires Valid(s) && Guards(s, permit) && BytesAfter(s, permit, bytes) > U64_MAX && s.touch + 2 <= U64_MAX
    ensures var done := ConsumeCommit(s, permit, value, bytes);
      && done.reply == Err(ResidentBytesOverflow)
      && AlikeButRecency(done.state, Cancel(s, permit).state, permit.id.slot)
      && done.state.touch == s.touch + 2
  {
    CommitKeepsValid(s, permit, value, bytes);
    var t := Touched(s);
    assert Commit(s, permit, value, bytes).state == t;
    var a, b := Cancel(t, permit).state, Cancel(s, permit).state;
    assert a.slots == b.slots[permit.id.slot := a.slots[permit.id.slot]];
  }

  lemma CancelledIsRetryable(s: State, permit: Permit, value: Value, bytes: U64)
    requires Valid(s) && Guards(s, permit) && BytesAfter(s, permit, bytes) > U64_MAX && s.touch + 3 <= U64_MAX
    ensures var n := ConsumeCommit(s, permit, value, bytes).state;
      var handle := EntryAt(s, permit.id.slot).token;
      && RequestReplacement(n, handle).reply == Ok(AcquiredProducer(Permit(permit.id, permit.attempt + 1, n.arcs)))
      && (EntryAt(s, permit.id.slot).phase.previous.None? ==>
            Retry(n, handle).reply == Ok(AcquiredProducer(Permit(permit.id, permit.attempt + 1, n.arcs))))
  {
    CommitKeepsValid(s, permit, value, bytes);
    assert SlotOk(s, permit.id.slot);
    assert Commit(s, permit, value, bytes).state == Touched(s);
  }
}
