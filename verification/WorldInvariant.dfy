/** Every step of StoreWorld keeps its invariant. */
module WorldInvariant {
  import opened Prelude
  import opened StoreState
  import opened StoreInvariant
  import opened Collection
  import opened StoreWorld

  // ---- what a store operation may have done to the slots

  /** At most the touch moved. */
  predicate Same(s: State, n: State) {
    n == s.(touch := n.touch) && s.touch <= n.touch
  }

  /** The entry of slot `i` was rewritten under the same token; nothing else changed but counters. */
  ghost predicate Rewrites(s: State, n: State, i: nat) {
    && Live(s, i) && Live(n, i)
    && |n.slots| == |s.slots|
    && (forall j | 0 <= j < |s.slots| && j != i :: n.slots[j] == s.slots[j])
    && n.slots[i].generation == s.slots[i].generation
    && EntryAt(n, i).token == EntryAt(s, i).token
    && n.storeId == s.storeId && n.free == s.free && n.issued == s.issued
    && s.arcs <= n.arcs && s.touch <= n.touch
  }

  /** Slot `i` rewritten, or nothing: in both cases the same tokens stay in the same slots. */
  ghost predicate KeepsTokens(s: State, n: State) {
    Same(s, n) || exists i: nat :: Rewrites(s, n, i)
  }

  lemma TokensStay(s: State, n: State)
    requires Valid(s) && KeepsTokens(s, n)
    ensures forall t :: Owned(n, t) <==> Owned(s, t)
    ensures forall j: nat :: Live(n, j) <==> Live(s, j)
    ensures forall j: nat :: Live(s, j) ==> EntryAt(n, j).token == EntryAt(s, j).token
  {
  }

  lemma OwnedIsValid(s: State, t: Token)
    requires Valid(s) && Owned(s, t)
    ensures Validate(s, t) == Ok(EntryAt(s, t.id.slot))
  {
    assert SlotOk(s, t.id.slot);
  }

  lemma KeepsTokensFacet(w: World, n: World)
    requires Valid(w.store) && Tokens(w) && KeepsTokens(w.store, n.store) && n.tokens == w.tokens
    ensures Tokens(n)
  {
    TokensStay(w.store, n.store);
  }

  /** Whoever is pinned after the step was pinned before, or owns a live slot's token. */
  lemma KeepsPins(w: World, n: World)
    requires Valid(w.store) && Pins(w) && KeepsTokens(w.store, n.store) && n.open == w.open
    requires w.scan.None? && n.scan.None?
    requires forall t :: Pinned(n, t) ==> Pinned(w, t) || (w.open ==> Owned(w.store, t))
    ensures Pins(n)
  {
    TokensStay(w.store, n.store);
  }

  // ---- the cases of an operation through an owned handle

  ghost predicate SamePhase(s: State, n: State, i: nat)
    requires Live(s, i) && Live(n, i)
  {
    && EntryAt(n, i).phase == EntryAt(s, i).phase
    && EntryAt(n, i).contentGeneration == EntryAt(s, i).contentGeneration
    && n.arcs == s.arcs
  }

  /** Slot `i` was idle and now runs the attempt of `permit` in a new cell. */
  ghost predicate Starts(s: State, n: State, i: nat, permit: Permit)
    requires Live(s, i) && Live(n, i)
  {
    var before, after := EntryAt(s, i), EntryAt(n, i);
    && !before.phase.Producing?
    && permit == Permit(before.token.id, before.attemptGeneration + 1, s.arcs)
    && after.phase == Producing(permit.attempt, Retained(before.phase), permit.cell)
    && after.contentGeneration == before.contentGeneration
    && n.arcs == s.arcs + 1
  }

  ghost predicate HandleCase(s: State, out: Out<Acquired>, handle: Token) {
    var i := handle.id.slot;
    var n := out.state;
    && Live(s, i)
    && match out.reply
       case Err(error) => n == s && s.touch == U64_MAX && error == GenerationExhausted
       case Ok(acquired) =>
         && Rewrites(s, n, i)
         && var entry := EntryAt(s, i);
            match acquired
            case AcquiredReady(snapshot) =>
              && SamePhase(s, n, i) && Retained(entry.phase).Some?
              && snapshot == SnapshotOf(entry, Retained(entry.phase).value)
            case AcquiredFailed(failure) =>
              && SamePhase(s, n, i) && failure.previous == SnapshotOption(entry, Retained(entry.phase))
            case AcquiredWaiter(waiter) =>
              && SamePhase(s, n, i) && Guards(s, waiter) && waiter.id == handle.id
            case AcquiredProducer(permit) => Starts(s, n, i, permit)
  }

  lemma HandleCases(op: HandleOp, s: State, handle: Token)
    requires Valid(s) && Owned(s, handle)
    ensures Valid(HandleOut(op, s, handle).state) && HandleCase(s, HandleOut(op, s, handle), handle)
  {
    OwnedIsValid(s, handle);
    AcquireKeepsValid(s, handle);
    RetryKeepsValid(s, handle);
    ReplacementKeepsValid(s, handle);
    var out := HandleOut(op, s, handle);
    var i := handle.id.slot;
    assert SlotOk(s, i);
  }

  // ---- which permits guard a running attempt afterwards

  lemma GuardsStay(s: State, n: State, i: nat)
    requires Same(s, n) || (Rewrites(s, n, i) && SamePhase(s, n, i))
    ensures forall p :: Guards(n, p) <==> Guards(s, p)
  {
  }

  lemma GuardsStart(s: State, n: State, i: nat, permit: Permit)
    requires Valid(s) && Rewrites(s, n, i) && Starts(s, n, i, permit)
    ensures forall p :: Guards(n, p) <==> Guards(s, p) || p == permit
  {
    assert SlotOk(s, i);
  }

  /** The attempt `permit` guards is over. */
  ghost predicate Settles(s: State, n: State, permit: Permit) {
    && Guards(s, permit)
    && Rewrites(s, n, permit.id.slot)
    && !EntryAt(n, permit.id.slot).phase.Producing?
    && n.arcs == s.arcs
  }

  lemma GuardsSettle(s: State, n: State, permit: Permit)
    requires Settles(s, n, permit)
    ensures forall p :: Guards(n, p) <==> Guards(s, p) && p != permit
  {
  }

  /** No attempt started or ended. */
  lemma AttemptsStay(w: World, n: World)
    requires Attempts(w) && Permits(w)
    requires n.attempts == w.attempts && n.pending == w.pending && n.outcomes == w.outcomes && n.permits == w.permits
    requires n.open == w.open && n.freed == w.freed
    requires w.store.arcs <= n.store.arcs && w.store.touch <= n.store.touch
    requires w.open ==> forall p :: Guards(n.store, p) <==> Guards(w.store, p)
    requires forall c :: c in n.waiters && c !in w.waiters ==> c in w.attempts && c !in w.freed
    ensures Attempts(n) && Permits(n)
  {
  }

  lemma AttemptsStart(w: World, n: World, permit: Permit)
    requires Attempts(w) && Permits(w) && w.open
    requires permit.cell == w.store.arcs && n.store.arcs == w.store.arcs + 1 && w.store.touch <= n.store.touch
    requires forall p :: Guards(n.store, p) <==> Guards(w.store, p) || p == permit
    requires n == w.(store := n.store, permits := w.permits + {permit}, attempts := w.attempts[permit.cell := permit])
    ensures Attempts(n) && Permits(n)
  {
    assert permit.cell !in w.attempts;
    PermitsStart(w, n, permit);
  }

  lemma PermitsStart(w: World, n: World, permit: Permit)
    requires Permits(w) && w.open && permit.cell !in w.attempts && w.store.touch <= n.store.touch
    requires forall p :: Guards(n.store, p) <==> Guards(w.store, p) || p == permit
    requires n == w.(store := n.store, permits := w.permits + {permit}, attempts := w.attempts[permit.cell := permit])
    ensures Permits(n)
  {
  }

  lemma AttemptsSettle(w: World, n: World, permit: Permit, outcome: Outcome)
    requires Attempts(w) && Permits(w) && w.open && permit in w.permits
    requires Settles(w.store, n.store, permit) && Describes(outcome, permit)
    requires n == Settle(w.(store := n.store), permit, outcome).(users := n.users, snapshots := n.snapshots)
    ensures Attempts(n) && Permits(n)
  {
    GuardsSettle(w.store, n.store, permit);
  }

  // ---- which values are held afterwards

  /** The same values are retained, under the same generations. */
  lemma SnapshotsStay(w: World, n: World)
    requires Valid(w.store) && Snapshots(w) && n.tokens == w.tokens && n.snapshots == w.snapshots
    requires n.outcomes == w.outcomes
    requires forall c :: c in n.pending ==>
      || (c in w.pending && n.pending[c] == w.pending[c])
      || SnapshotIn(n.pending[c]).None? || SnapshotIn(n.pending[c]).value in w.snapshots
    requires forall i: nat :: Live(n.store, i) ==>
      && Live(w.store, i)
      && EntryAt(n.store, i).token == EntryAt(w.store, i).token
      && EntryAt(n.store, i).contentGeneration == EntryAt(w.store, i).contentGeneration
      && (Retained(EntryAt(n.store, i).phase) == Retained(EntryAt(w.store, i).phase)
          || Retained(EntryAt(n.store, i).phase).None?)
    ensures Snapshots(n)
  {
  }

  lemma SteadySnapshots(w: World, n: World)
    requires Valid(w.store) && Snapshots(w) && n.tokens == w.tokens && n.snapshots == w.snapshots
    requires n.outcomes == w.outcomes && n.pending == w.pending && Steady(w.store, n.store)
    ensures Snapshots(n)
  {
    SnapshotsStay(w, n);
  }

  // ---- the steps

  /** A step that moved no more than the touch. */
  lemma TouchStep(w: World, n: World)
    requires Inv(w) && Valid(n.store) && Same(w.store, n.store) && n == w.(store := n.store) && w.scan.None?
    ensures Inv(n)
  {
    GuardsStay(w.store, n.store, 0);
    KeepsTokensFacet(w, n);
    KeepsPins(w, n);
    AttemptsStay(w, n);
    SteadySnapshots(w, n);
  }

  lemma CreateStep(w: World)
    requires Inv(w) && w.open && w.scan.None?
    ensures Inv(AfterCreate(w))
  {
    var out := Create(w.store);
    CreateKeepsValid(w.store);
    if out.reply.Err? {
      TouchStep(w, AfterCreate(w));
    } else {
      CreateEffect(w.store);
      CreatedStep(w, AfterCreate(w), out.reply.value);
    }
  }

  lemma CreatedStep(w: World, n: World, token: Token)
    requires Inv(w) && w.open && w.scan.None? && Valid(n.store) && Creates(w.store, n.store, token)
    requires n == w.(store := n.store, users := w.users + multiset{token}, tokens := w.tokens + {token})
    ensures Inv(n)
  {
    CreatedTokens(w, n, token);
    CreatedGuards(w.store, n.store, token);
    AttemptsStay(w, n);
    CreatedSnapshots(w, n, token);
  }

  /** `create` occupies one empty slot with a missing entry and leaves the others alone. */
  ghost predicate Creates(s: State, n: State, token: Token) {
    var i := token.id.slot;
    && !Live(s, i) && Live(n, i)
    && EntryAt(n, i).token == token && EntryAt(n, i).phase.Missing?
    && token.id !in s.issued && token.addr == s.arcs
    && |s.slots| <= |n.slots|
    && (forall j: nat :: j != i ==> (j < |n.slots| <==> j < |s.slots|) && (j < |s.slots| ==> n.slots[j] == s.slots[j]))
    && n.storeId == s.storeId && n.issued == s.issued + {token.id} && n.arcs == s.arcs + 1 && n.touch == s.touch + 1
  }

  lemma CreateEffect(s: State)
    requires Valid(s) && Create(s).reply.Ok?
    ensures Creates(s, Create(s).state, Create(s).reply.value)
  {
    CreateKeepsValid(s);
    var i := Create(s).reply.value.id.slot;
    if i < |s.slots| { assert SlotOk(s, i); }
  }

  lemma CreatedTokens(w: World, n: World, token: Token)
    requires Valid(w.store) && Valid(n.store) && Tokens(w) && Pins(w) && w.scan.None?
    requires Creates(w.store, n.store, token)
    requires n == w.(store := n.store, users := w.users + multiset{token}, tokens := w.tokens + {token})
    ensures Tokens(n) && Pins(n)
  {
    forall t | Pinned(n, t) ensures n.open ==> Owned(n.store, t) {
      assert Pinned(w, t) || t == token;
    }
    forall i: nat | Live(n.store, i) ensures EntryAt(n.store, i).token in n.tokens {
      assert i != token.id.slot ==> Live(w.store, i);
    }
  }

  lemma CreatedGuards(s: State, n: State, token: Token)
    requires Valid(s) && Valid(n) && Creates(s, n, token)
    ensures forall p :: Guards(n, p) <==> Guards(s, p)
  {
  }

  lemma CreatedSnapshots(w: World, n: World, token: Token)
    requires Valid(w.store) && Tokens(w) && Snapshots(w) && Creates(w.store, n.store, token)
    requires n == w.(store := n.store, users := n.users, tokens := w.tokens + {token})
    ensures Snapshots(n)
  {
    forall x, i: nat | x in n.snapshots && Live(n.store, i) && EntryAt(n.store, i).token.id == x.token.id
      ensures x.generation <= EntryAt(n.store, i).contentGeneration
    {
      assert x.token in w.tokens;
    }
  }

  lemma HandleStep(w: World, op: HandleOp, handle: Token)
    requires Inv(w) && w.open && w.scan.None? && handle in w.users
    ensures Inv(AfterHandle(w, op, handle))
  {
    assert Pinned(w, handle);
    HandleCases(op, w.store, handle);
    HandledStep(w, HandleOut(op, w.store, handle), handle);
  }

  lemma HandledStep(w: World, out: Out<Acquired>, handle: Token)
    requires Inv(w) && w.open && w.scan.None? && Owned(w.store, handle)
    requires Valid(out.state) && HandleCase(w.store, out, handle)
    ensures out.reply.Err? ==> out.state == w.store
    ensures out.reply.Ok? ==> Inv(Gain(w.(store := out.state), out.reply.value))
  {
    if out.reply.Ok? {
      var n := Gain(w.(store := out.state), out.reply.value);
      HandleOwners(w, n, out, handle);
      HandleAttempts(w, n, out, handle);
      HandleValues(w, n, out, handle);
    }
  }

  lemma HandleOwners(w: World, n: World, out: Out<Acquired>, handle: Token)
    requires Valid(w.store) && Tokens(w) && Pins(w) && w.scan.None? && Owned(w.store, handle)
    requires HandleCase(w.store, out, handle) && out.reply.Ok? && n == Gain(w.(store := out.state), out.reply.value)
    ensures Tokens(n) && Pins(n)
  {
    assert n == w.(
      store := n.store, users := n.users, waiters := n.waiters, permits := n.permits, attempts := n.attempts);
    assert forall t :: t in n.users ==> t in w.users || t == handle;
    OwnersStay(w, n, handle);
  }

  lemma HandleValues(w: World, n: World, out: Out<Acquired>, handle: Token)
    requires Valid(w.store) && Snapshots(w)
    requires HandleCase(w.store, out, handle) && out.reply.Ok? && n == Gain(w.(store := out.state), out.reply.value)
    ensures Snapshots(n)
  {
    HandleSnapshots(w, n, handle.id.slot);
  }

  /** A step that gives callers nothing but the token of the entry it rewrote. */
  lemma OwnersStay(w: World, n: World, handle: Token)
    requires Valid(w.store) && Tokens(w) && Pins(w) && w.scan.None? && Owned(w.store, handle)
    requires Rewrites(w.store, n.store, handle.id.slot) && n.tokens == w.tokens && n.open == w.open && n.scan.None?
    requires n.outcomes == w.outcomes && n.freed == w.freed
    requires forall t :: t in n.users ==> t in w.users || t == handle
    requires forall c :: c in n.pending ==>
      (c in w.pending && n.pending[c] == w.pending[c]) || SnapshotIn(n.pending[c]).None? || Holds(n.pending[c], handle)
    ensures Tokens(n) && Pins(n)
  {
    KeepsTokensFacet(w, n);
    forall t | Pinned(n, t) ensures Pinned(w, t) || Owned(w.store, t) {
      if t !in n.users && exists c :: c in n.pending && Holds(n.pending[c], t) {
        var c :| c in n.pending && Holds(n.pending[c], t);
      }
    }
    KeepsPins(w, n);
  }

  lemma HandleAttempts(w: World, n: World, out: Out<Acquired>, handle: Token)
    requires Valid(w.store) && Attempts(w) && Permits(w) && w.open
    requires HandleCase(w.store, out, handle) && out.reply.Ok? && n == Gain(w.(store := out.state), out.reply.value)
    ensures Attempts(n) && Permits(n)
  {
    var i := handle.id.slot;
    match out.reply.value
    case AcquiredProducer(permit) =>
      GuardsStart(w.store, n.store, i, permit);
      AttemptsStart(w, n, permit);
    case AcquiredWaiter(waiter) =>
      GuardsStay(w.store, n.store, i);
      assert w.attempts[waiter.cell] == waiter;
      AttemptsStay(w, n);
    case _ =>
      GuardsStay(w.store, n.store, i);
      AttemptsStay(w, n);
  }

  lemma HandleSnapshots(w: World, n: World, i: nat)
    requires Valid(w.store) && Snapshots(w) && Rewrites(w.store, n.store, i)
    requires Retained(EntryAt(n.store, i).phase) == Retained(EntryAt(w.store, i).phase)
    requires EntryAt(n.store, i).contentGeneration == EntryAt(w.store, i).contentGeneration
    requires n.tokens == w.tokens && n.snapshots == w.snapshots && n.outcomes == w.outcomes && n.pending == w.pending
    ensures Snapshots(n)
  {
    SnapshotsStay(w, n);
  }

  /** The snapshot an observer of slot `i` gets. */
  function RetainedSnapshot(s: State, i: nat): Option<Snapshot>
    requires Live(s, i)
  {
    SnapshotOption(EntryAt(s, i), Retained(EntryAt(s, i).phase))
  }

  lemma ObserveEffect(s: State, handle: Token)
    requires Valid(s) && Owned(s, handle)
    ensures var out := Observe(s, handle);
      && Valid(out.state)
      && (out.reply.Err? ==> out.state == s)
      && (out.reply.Ok? ==>
            && Rewrites(s, out.state, handle.id.slot) && SamePhase(s, out.state, handle.id.slot)
            && Seen(out.reply.value) == RetainedSnapshot(s, handle.id.slot))
  {
    OwnedIsValid(s, handle);
    ObserveKeepsValid(s, handle);
  }

  lemma ObserveStep(w: World, handle: Token)
    requires Inv(w) && w.open && w.scan.None? && handle in w.users
    ensures Inv(AfterObserve(w, handle))
  {
    assert Pinned(w, handle);
    ObserveEffect(w.store, handle);
    var out := Observe(w.store, handle);
    if out.reply.Ok? {
      var n := w.(store := out.state, users := w.users + Owner(Seen(out.reply.value)));
      OwnersStay(w, n, handle);
      HandleSnapshots(w, n, handle.id.slot);
      GuardsStay(w.store, n.store, handle.id.slot);
      AttemptsStay(w, n);
    }
  }

  /** What upgrades is the weak handle's own token, in its live slot. */
  lemma UpgradeEffect(s: State, weak: Token, upgradable: bool)
    requires Valid(s)
    ensures var reply := Upgrade(s, weak, upgradable);
      reply.Ok? && reply.value.Some? ==> reply.value.value == weak && Owned(s, weak)
  {
    if Lookup(s, weak.id).Ok? { assert SlotOk(s, weak.id.slot); }
  }

  lemma UpgradeStep(w: World, weak: Token)
    requires Inv(w) && w.open && w.scan.None? && weak in w.tokens
    ensures Inv(AfterUpgrade(w, weak))
  {
    var reply := Upgrade(w.store, weak, Upgradable(w, weak));
    UpgradeEffect(w.store, weak, Upgradable(w, weak));
    if reply.Ok? && reply.value.Some? { CountsStep(w, w.(users := w.users + multiset{weak})); }
  }

  // ---- permits

  /** What a permit method that succeeded did to the store and gave its cell. */
  ghost predicate Settled(s: State, n: State, permit: Permit, outcome: Outcome) {
    && Valid(n)
    && Settles(s, n, permit)
    && Describes(outcome, permit)
    && (SnapshotIn(outcome).Some? ==> SnapshotIn(outcome).value.token == EntryAt(s, permit.id.slot).token)
  }

  lemma FailEffect(s: State, permit: Permit, error: Fault)
    requires Valid(s) && Guards(s, permit)
    ensures var out := Fail(s, permit, error);
      if s.touch == U64_MAX then out == Out(s, Err(GenerationExhausted)) else
      && out.reply.Ok? && Steady(s, out.state)
      && Settled(s, out.state, permit, Faulted(out.reply.value))
      && out.reply.value.previous == RetainedSnapshot(s, permit.id.slot)
  {
    FailKeepsValid(s, permit, error);
  }

  lemma CancelEffect(s: State, permit: Permit)
    requires Valid(s) && Guards(s, permit)
    ensures var out := Cancel(s, permit);
      if s.touch == U64_MAX then out == Out(s, Err(GenerationExhausted)) else
      && out.reply.Ok? && Steady(s, out.state)
      && Settled(s, out.state, permit, out.reply.value)
      && SnapshotIn(out.reply.value) == RetainedSnapshot(s, permit.id.slot)
  {
    CancelKeepsValid(s, permit);
  }

  lemma CommitEffect(s: State, permit: Permit, value: Value, bytes: U64)
    requires Valid(s) && Guards(s, permit)
    ensures var out := Commit(s, permit, value, bytes);
      && Valid(out.state)
      && (out.reply.Err? ==> Same(s, out.state))
      && (out.reply.Ok? ==>
            var i, snapshot := permit.id.slot, out.reply.value;
            && Settled(s, out.state, permit, Published(snapshot))
            && snapshot.generation == EntryAt(s, i).contentGeneration + 1
            && EntryAt(out.state, i).contentGeneration == snapshot.generation
            && Retained(EntryAt(out.state, i).phase) == Some(ReadyValue(snapshot.generation, value, bytes))
            && snapshot == SnapshotOf(EntryAt(out.state, i), Retained(EntryAt(out.state, i).phase).value))
  {
    CommitKeepsValid(s, permit, value, bytes);
    assert SlotOk(s, permit.id.slot);
  }

  /** A guarded slot is owned through the permit's identity. */
  lemma GuardedIsOwned(s: State, permit: Permit)
    requires Valid(s) && Guards(s, permit)
    ensures Owned(s, EntryAt(s, permit.id.slot).token)
  {
    assert SlotOk(s, permit.id.slot);
  }

  /** A fail or a cancel went through: the retained value stays, the attempt is decided. */
  lemma SettledStep(w: World, n: World, permit: Permit, outcome: Outcome)
    requires Inv(w) && w.open && w.scan.None? && permit in w.permits
    requires Steady(w.store, n.store) && Settled(w.store, n.store, permit, outcome)
    requires SnapshotIn(outcome) == RetainedSnapshot(w.store, permit.id.slot)
    requires n == Settle(w.(store := n.store), permit, outcome).(users := n.users)
    requires forall t :: t in n.users ==> t in w.users || t == EntryAt(w.store, permit.id.slot).token
    ensures Inv(n)
  {
    GuardedIsOwned(w.store, permit);
    OwnersStay(w, n, EntryAt(w.store, permit.id.slot).token);
    AttemptsSettle(w, n, permit, outcome);
    SnapshotsStay(w, n);
  }

  lemma FailStep(w: World, permit: Permit, error: Fault)
    requires Inv(w) && w.scan.None? && permit in w.permits
    ensures Inv(AfterFail(w, permit, error))
  {
    if w.open {
      FailEffect(w.store, permit, error);
      var out := Fail(w.store, permit, error);
      if out.reply.Ok? { SettledStep(w, AfterFail(w, permit, error), permit, Faulted(out.reply.value)); }
    }
  }

  lemma CancelStep(w: World, permit: Permit)
    requires Inv(w) && w.scan.None? && permit in w.permits
    ensures Inv(AfterCancel(w, permit))
  {
    if w.open {
      CancelEffect(w.store, permit);
      var out := Cancel(w.store, permit);
      if out.reply.Ok? { SettledStep(w, AfterCancel(w, permit), permit, out.reply.value); }
    }
  }

  /** Only when touches have run out does a dropped permit leave its attempt running. */
  lemma DropStep(w: World, permit: Permit)
    requires Inv(w) && w.scan.None? && permit in w.permits
    ensures Inv(AfterDrop(w, permit))
  {
    if w.open && w.store.touch < U64_MAX {
      CancelEffect(w.store, permit);
      CancelStep(w, permit);
      assert AfterDrop(w, permit) == AfterCancel(w, permit);
    } else {
      if w.open { CancelEffect(w.store, permit); }
      LosePermit(w, AfterDrop(w, permit), permit);
    }
  }

  lemma LosePermit(w: World, n: World, permit: Permit)
    requires Inv(w) && n == w.(permits := w.permits - {permit})
    requires !w.open || w.store.touch == U64_MAX
    ensures Inv(n)
  {
    assert forall t :: Pinned(n, t) <==> Pinned(w, t);
  }

  lemma CommitStep(w: World, permit: Permit, value: Value, bytes: U64)
    requires Inv(w) && w.scan.None? && permit in w.permits
    ensures Inv(AfterCommit(w, permit, value, bytes))
  {
    if w.open {
      CommitEffect(w.store, permit, value, bytes);
      var out := Commit(w.store, permit, value, bytes);
      var n := AfterCommit(w, permit, value, bytes);
      if out.reply.Err? {
        TouchStep(w, n);
      } else {
        CommittedStep(w, n, permit, out.reply.value);
      }
    }
  }

  lemma CommittedStep(w: World, n: World, permit: Permit, snapshot: Snapshot)
    requires Inv(w) && w.open && w.scan.None? && permit in w.permits
    requires Settled(w.store, n.store, permit, Published(snapshot))
    requires n == Settle(w.(store := n.store), permit, Published(snapshot)).(
                    users := w.users + multiset{snapshot.token}, snapshots := w.snapshots + {snapshot})
    requires var i := permit.id.slot;
      && snapshot.generation == EntryAt(w.store, i).contentGeneration + 1 == EntryAt(n.store, i).contentGeneration
      && Retained(EntryAt(n.store, i).phase).Some?
      && snapshot == SnapshotOf(EntryAt(n.store, i), Retained(EntryAt(n.store, i).phase).value)
    ensures Inv(n)
  {
    GuardedIsOwned(w.store, permit);
    OwnersStay(w, n, snapshot.token);
    AttemptsSettle(w, n, permit, Published(snapshot));
    CommittedSnapshots(w, n, permit.id.slot, snapshot);
  }

  /** The new generation is above every published one, so the key of the new value is new. */
  lemma CommittedSnapshots(w: World, n: World, i: nat, snapshot: Snapshot)
    requires Valid(w.store) && Tokens(w) && Snapshots(w) && Rewrites(w.store, n.store, i)
    requires n.tokens == w.tokens && n.outcomes == w.outcomes && n.snapshots == w.snapshots + {snapshot}
    requires forall c :: c in n.pending ==>
      (c in w.pending && n.pending[c] == w.pending[c]) || SnapshotIn(n.pending[c]) == Some(snapshot)
    requires snapshot.generation == EntryAt(w.store, i).contentGeneration + 1 == EntryAt(n.store, i).contentGeneration
    requires Retained(EntryAt(n.store, i).phase).Some?
    requires snapshot == SnapshotOf(EntryAt(n.store, i), Retained(EntryAt(n.store, i).phase).value)
    ensures Snapshots(n)
  {
    forall x | x in w.snapshots && x.token.id == snapshot.token.id ensures x.generation < snapshot.generation {
      assert EntryAt(w.store, i).token.id == x.token.id;
    }
    GenerationsGrow(w, n, i, snapshot);
  }

  lemma GenerationsGrow(w: World, n: World, i: nat, snapshot: Snapshot)
    requires Valid(w.store) && Snapshots(w) && Rewrites(w.store, n.store, i) && n.snapshots == w.snapshots + {snapshot}
    requires snapshot.generation == EntryAt(w.store, i).contentGeneration + 1 == EntryAt(n.store, i).contentGeneration
    requires snapshot.token == EntryAt(n.store, i).token
    ensures forall x, j: nat :: x in n.snapshots && Live(n.store, j) && EntryAt(n.store, j).token.id == x.token.id
              ==> x.generation <= EntryAt(n.store, j).contentGeneration
  {
    forall x, j: nat | x in n.snapshots && Live(n.store, j) && EntryAt(n.store, j).token.id == x.token.id
      ensures x.generation <= EntryAt(n.store, j).contentGeneration
    {
      assert SlotOk(w.store, i) && (Live(w.store, j) ==> SlotOk(w.store, j));
    }
  }

  // ---- cells and reference counts

  lemma CompleteStep(w: World, cell: nat)
    requires Inv(w) && cell in w.pending
    ensures Inv(AfterComplete(w, cell))
  {
    var n := AfterComplete(w, cell);
    forall t | Pinned(n, t) ensures Pinned(w, t) {
      if t !in n.users && !exists c :: c in n.pending && Holds(n.pending[c], t) {
        var c :| c in n.outcomes && c !in n.freed && Holds(n.outcomes[c], t);
        assert c == cell || (c in w.outcomes && c !in w.freed);
      }
    }
  }

  /** Gaining a strong owner, losing one, or freeing a cell. */
  lemma CountsStep(w: World, n: World)
    requires Inv(w) && n == w.(users := n.users, waiters := n.waiters, freed := n.freed)
    requires forall t :: t in n.users ==> Pinned(w, t) || (w.scan.None? && Owned(w.store, t))
    requires forall c :: c in n.waiters ==> c in w.waiters && c !in n.freed
    requires w.freed <= n.freed && forall c :: c in n.freed ==> c in w.outcomes
    ensures Inv(n)
  {
    forall t | Pinned(n, t) ensures Pinned(w, t) || (w.scan.None? && Owned(w.store, t)) {
      if t !in n.users && !exists c :: c in n.pending && Holds(n.pending[c], t) {
        var c :| c in n.outcomes && c !in n.freed && Holds(n.outcomes[c], t);
      }
    }
  }

  lemma PollStep(w: World, cell: nat)
    requires Inv(w) && cell in w.waiters && cell in w.outcomes
    ensures Inv(w.(users := w.users + Owner(SnapshotIn(w.outcomes[cell]))))
  {
    var n := w.(users := w.users + Owner(SnapshotIn(w.outcomes[cell])));
    forall t | t in n.users ensures Pinned(w, t) {
      if t !in w.users { assert Holds(w.outcomes[cell], t); }
    }
    CountsStep(w, n);
  }

  // ---- removal, collection, closing

  lemma UsersArePins(w: World, t: Token)
    ensures StrongUsers(w, t) == 0 <==> !Pinned(w, t)
  {
    var pending := set c | c in w.pending && Holds(w.pending[c], t);
    var stored := set c | c in w.outcomes && c !in w.freed && Holds(w.outcomes[c], t);
    assert pending != {} <==> exists c :: c in w.pending && Holds(w.pending[c], t) by {
      if exists c :: c in w.pending && Holds(w.pending[c], t) {
        var c :| c in w.pending && Holds(w.pending[c], t);
        assert c in pending;
      }
    }
    assert stored != {} <==> exists c :: c in w.outcomes && c !in w.freed && Holds(w.outcomes[c], t) by {
      if exists c :: c in w.outcomes && c !in w.freed && Holds(w.outcomes[c], t) {
        var c :| c in w.outcomes && c !in w.freed && Holds(w.outcomes[c], t);
        assert c in stored;
      }
    }
  }

  /** Slot `i` was emptied; everything else stands. */
  ghost predicate Empties(s: State, n: State, i: nat) {
    && Live(s, i) && !EntryAt(s, i).phase.Producing?
    && |n.slots| == |s.slots| && n.slots[i].entry.None?
    && (forall j | 0 <= j < |s.slots| && j != i :: n.slots[j] == s.slots[j])
    && n.storeId == s.storeId && n.issued == s.issued && n.arcs == s.arcs && n.touch == s.touch
  }

  lemma RemoveStep(w: World, id: AssetId)
    requires Inv(w) && w.open && w.scan.None?
    ensures Inv(AfterRemove(w, id))
  {
    var out := Remove(w.store, id, UsersOf(w, id));
    RemoveKeepsValid(w.store, id, UsersOf(w, id));
    if out.reply.Ok? {
      UsersArePins(w, EntryAt(w.store, id.slot).token);
      assert Empties(w.store, out.state, id.slot);
      RemovedStep(w, w.(store := out.state), id.slot);
    } else {
      assert AfterRemove(w, id) == w;
    }
  }

  lemma RemovedStep(w: World, n: World, i: nat)
    requires Inv(w) && w.scan.None? && Empties(w.store, n.store, i) && Valid(n.store)
    requires n == w.(store := n.store) && !Pinned(w, EntryAt(w.store, i).token)
    ensures Inv(n)
  {
    assert forall t :: Pinned(n, t) <==> Pinned(w, t);
    assert Pins(n);
    RemovedGuards(w.store, n.store, i);
    AttemptsStay(w, n);
    SnapshotsStay(w, n);
  }

  lemma RemovedGuards(s: State, n: State, i: nat)
    requires Empties(s, n, i)
    ensures forall p :: Guards(n, p) <==> Guards(s, p)
  {
  }

  /** Taking or holding the store lock changes nothing but what has been scanned. */
  lemma LockStep(w: World, n: World)
    requires Inv(w) && w.open && n == w.(scan := n.scan)
    requires n.scan.Some? ==>
      n.scan.value.next <= |w.store.slots| && forall t :: t in n.scan.value.idle ==> !Pinned(w, t)
    ensures Inv(n)
  {
    assert forall t :: Pinned(n, t) <==> Pinned(w, t);
  }

  lemma ScanStep(w: World)
    requires Inv(w) && Can(w, CollectScan)
    ensures Inv(AfterScan(w))
  {
    var slot := w.store.slots[w.scan.value.next];
    if slot.entry.Some? { UsersArePins(w, slot.entry.value.token); }
    LockStep(w, AfterScan(w));
  }

  /** Some retained values are gone; tokens, attempts and generations stand. */
  ghost predicate Evicted(s: State, n: State) {
    && n == s.(slots := n.slots, readyBytes := n.readyBytes) && |n.slots| == |s.slots|
    && (forall i | 0 <= i < |s.slots| :: n.slots[i].generation == s.slots[i].generation && (Live(n, i) <==> Live(s, i)))
    && (forall i: nat | Live(s, i) ::
          && EntryAt(n, i).token == EntryAt(s, i).token
          && EntryAt(n, i).contentGeneration == EntryAt(s, i).contentGeneration
          && (EntryAt(s, i).phase.Producing? || EntryAt(n, i).phase.Producing? ==> n.slots[i] == s.slots[i])
          && (Retained(EntryAt(n, i).phase) == Retained(EntryAt(s, i).phase) || Retained(EntryAt(n, i).phase).None?))
  }

  lemma CollectStep(w: World)
    requires Inv(w) && w.scan.Some?
    ensures Inv(AfterCollect(w))
  {
    CollectEffect(w.store, w.scan.value.idle, w.scan.value.budget);
    EvictedStep(w, AfterCollect(w));
  }

  lemma CollectEffect(s: State, idle: set<Token>, budget: nat)
    requires Valid(s)
    ensures Valid(Collected(s, idle, budget)) && Evicted(s, Collected(s, idle, budget))
  {
    CollectKeepsValid(s, idle, budget);
  }

  lemma EvictedStep(w: World, n: World)
    requires Inv(w) && Evicted(w.store, n.store) && Valid(n.store) && n == w.(store := n.store, scan := None)
    ensures Inv(n)
  {
    EvictedOwners(w, n);
    EvictedGuards(w.store, n.store);
    AttemptsStay(w, n);
    SnapshotsStay(w, n);
  }

  lemma EvictedOwners(w: World, n: World)
    requires Tokens(w) && Pins(w) && Evicted(w.store, n.store) && n == w.(store := n.store, scan := None)
    ensures Tokens(n) && Pins(n)
  {
    assert forall t :: Pinned(n, t) <==> Pinned(w, t);
  }

  lemma EvictedGuards(s: State, n: State)
    requires Evicted(s, n)
    ensures forall p :: Guards(n, p) <==> Guards(s, p)
  {
  }

  /** In an open store an attempt is active exactly while it is neither decided nor completed. */
  lemma ActiveAttempts(w: World, c: nat)
    requires Valid(w.store) && Attempts(w) && w.open
    ensures c in w.attempts && c !in w.pending && c !in w.outcomes <==> IsActive(w.store, c)
  {
    if IsActive(w.store, c) {
      var i: nat :| RunsCell(w.store, i, c);
      assert SlotOk(w.store, i);
      assert Guards(w.store, Permit(EntryAt(w.store, i).token.id, EntryAt(w.store, i).phase.attempt, c));
    }
    if c in w.attempts && c !in w.pending && c !in w.outcomes {
      assert Guards(w.store, w.attempts[c]);
      assert RunsCell(w.store, w.attempts[c].id.slot, c);
    }
  }

  lemma CloseStep(w: World)
    requires Inv(w) && w.open && w.scan.None?
    ensures Inv(AfterClose(w))
  {
    var n := AfterClose(w);
    forall c ensures c in n.pending <==> c in w.pending || (c in w.attempts && c !in w.outcomes) {
      ActiveAttempts(w, c);
    }
    ClosedAttempts(w, n);
    ClosedSnapshots(w, n);
  }

  lemma ClosedSnapshots(w: World, n: World)
    requires Valid(w.store) && Snapshots(w) && n == w.(open := false, pending := n.pending)
    requires forall c :: c in n.pending ==> n.pending[c] == if c in w.pending then w.pending[c] else Closed
    ensures Snapshots(n)
  {
    SnapshotsStay(w, n);
  }

  lemma ClosedAttempts(w: World, n: World)
    requires Attempts(w) && Permits(w) && Pins(w) && w.scan.None? && n == w.(open := false, pending := n.pending)
    requires forall c :: c in n.pending <==> c in w.pending || (c in w.attempts && c !in w.outcomes)
    requires forall c :: c in n.pending ==> n.pending[c] == if c in w.pending then w.pending[c] else Closed
    ensures Attempts(n) && Permits(n) && Pins(n)
  {
  }
}
