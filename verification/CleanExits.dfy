/**
 In a valid store no way out of an operation drops a user value or error under the lock,
 the cell reference dropped there is not the last, and attempts start and end one by one.
 */
module CleanExits {
  import opened Prelude
  import opened StoreState
  import opened StoreInvariant
  import opened Collection
  import opened CandidateOrder
  import opened Retirement
  import opened StoreWorld
  import opened WorldInvariant

  // ---- the eviction loop

  /** The candidates among the first `n` slots, in slot order. */
  ghost predicate Lists(s: State, idle: set<Token>, n: nat, c: seq<Candidate>) {
    && (forall x :: x in c <==> IsCandidate(s, idle, x) && x.id.slot < n)
    && forall j, k | 0 <= j < k < |c| :: c[j].id.slot < c[k].id.slot
  }

  lemma OneMoreListed(s: State, idle: set<Token>, n: nat, c: seq<Candidate>, x: Candidate)
    requires Valid(s) && n < |s.slots| && Lists(s, idle, n, c) && IsCandidate(s, idle, x) && x.id.slot == n
    ensures Lists(s, idle, n + 1, c + [x])
  {
    forall j | 0 <= j < |c| ensures c[j].id.slot < n { assert c[j] in c; }
  }

  lemma {:induction false} CandidatesUpTo(s: State, idle: set<Token>, n: nat)
    requires Valid(s) && n <= |s.slots|
    ensures Lists(s, idle, n, CandidatesOf(s.slots[..n], idle))
  {
    if n > 0 {
      CandidatesUpTo(s, idle, n - 1);
      assert s.slots[..n][..n - 1] == s.slots[..n - 1];
      assert SlotOk(s, n - 1);
      if Eligible(s.slots[n - 1], idle) {
        var entry := EntryAt(s, n - 1);
        OneMoreListed(s, idle, n - 1, CandidatesOf(s.slots[..n - 1], idle), Candidate(entry.lastTouch, entry.token.id));
      }
    }
  }

  lemma InsertedSorts(r: seq<Candidate>, x: Candidate)
    requires IsSorted(r)
    ensures IsSorted(Inserted(r, PlaceIn(r, x), x))
  {
    InsertKeepsSorted(r, PlaceIn(r, x), x);
  }

  lemma {:induction false} SortedSorts(c: seq<Candidate>)
    ensures IsSorted(Sorted(c))
  {
    if c != [] {
      SortedSorts(c[..|c| - 1]);
      InsertedSorts(Sorted(c[..|c| - 1]), c[|c| - 1]);
    }
  }

  lemma InsertedPermutes(c: seq<Candidate>, r: seq<Candidate>, at: nat)
    requires c != [] && at <= |r| && multiset(r) == multiset(c[..|c| - 1])
    ensures multiset(Inserted(r, at, c[|c| - 1])) == multiset(c)
  {
    assert c == c[..|c| - 1] + [c[|c| - 1]];
  }

  lemma {:induction false} SortedPermutes(c: seq<Candidate>)
    ensures multiset(Sorted(c)) == multiset(c)
  {
    if c != [] {
      var r := Sorted(c[..|c| - 1]);
      SortedPermutes(c[..|c| - 1]);
      InsertedPermutes(c, r, PlaceIn(r, c[|c| - 1]));
    }
  }

  lemma SortedAscends(s: State, idle: set<Token>)
    requires Valid(s)
    ensures Ascends(s, idle, Sorted(CandidatesOf(s.slots, idle)))
  {
    var c := CandidatesOf(s.slots, idle);
    assert s.slots[..|s.slots|] == s.slots;
    CandidatesUpTo(s, idle, |s.slots|);
    SortedSorts(c);
    SortedPermutes(c);
    ListedAscends(s, idle, c, Sorted(c));
  }

  lemma ListedAscends(s: State, idle: set<Token>, c: seq<Candidate>, sorted: seq<Candidate>)
    requires Valid(s) && Lists(s, idle, |s.slots|, c) && IsSorted(sorted) && multiset(sorted) == multiset(c)
    ensures Ascends(s, idle, sorted)
  {
    SortedIsStrict(s, idle, c, sorted);
  }

  /** From any point of the loop on, both error exits are missed and the closed form is reached. */
  lemma {:induction false} LoopIsClean(
    s: State, idle: set<Token>, budget: nat, sorted: seq<Candidate>, k: nat,
    now: State, evicted: seq<Evicted>, retired: multiset<Held>)
    requires Valid(s) && Progress(s, idle, budget, sorted, k, now, evicted)
    ensures var exit := CollectFrom(now, sorted[k..], budget, retired);
      && exit.underLock == exit.late == multiset{} && exit.state == Collected(s, idle, budget) && exit.completes == []
      && exit.starts.None? && exit.joins.None? && exit.loses.None?
    decreases |sorted| - k
  {
    if k == |sorted| || now.readyBytes <= budget {
      ProgressEnds(s, idle, budget, sorted, k, now, evicted);
    } else {
      EvictNext(s, idle, sorted, k, now.slots);
      assert IsCandidate(s, idle, sorted[k]);
      var i := sorted[k].id.slot;
      var entry := EntryAt(s, i);
      var more := evicted + [EvictionOf(entry)];
      assert Lookup(now, sorted[k].id) == Ok(entry);
      ProgressStep(s, idle, budget, sorted, k, now, evicted, Evicting(now, i), more);
      LoopIsClean(s, idle, budget, sorted, k + 1, Evicting(now, i), more, retired + ValueHeld(Retained(entry.phase)));
      assert sorted[k..][1..] == sorted[k + 1..];
    }
  }

  lemma CollectIsClean(s: State, idle: set<Token>, budget: nat)
    requires Valid(s)
    ensures var exit := CollectExit(s, idle, budget);
      && exit.underLock == exit.late == multiset{} && exit.state == Collected(s, idle, budget) && exit.completes == []
      && exit.starts.None? && exit.joins.None? && exit.loses.None?
  {
    var sorted := Sorted(CandidatesOf(s.slots, idle));
    SortedAscends(s, idle);
    NothingBeforeFirst(s, idle, sorted);
    assert sorted[0..] == sorted;
    LoopIsClean(s, idle, budget, sorted, 0, s, [], multiset{});
  }

  lemma {:induction false} LoopReports(
    s: State, idle: set<Token>, budget: nat, sorted: seq<Candidate>, k: nat, now: State, evicted: seq<Evicted>)
    returns (report: seq<Evicted>)
    requires Valid(s) && Progress(s, idle, budget, sorted, k, now, evicted)
    ensures Reports(s, idle, budget, report)
    decreases |sorted| - k
  {
    if k == |sorted| || now.readyBytes <= budget {
      ProgressEnds(s, idle, budget, sorted, k, now, evicted);
      report := evicted;
    } else {
      EvictNext(s, idle, sorted, k, now.slots);
      assert IsCandidate(s, idle, sorted[k]);
      var i := sorted[k].id.slot;
      var more := evicted + [EvictionOf(EntryAt(s, i))];
      ProgressStep(s, idle, budget, sorted, k, now, evicted, Evicting(now, i), more);
      report := LoopReports(s, idle, budget, sorted, k + 1, Evicting(now, i), more);
    }
  }

  /** Every collection of a valid store has its report; ReportIsUnique says there is no other. */
  lemma ReportExists(s: State, idle: set<Token>, budget: nat) returns (report: seq<Evicted>)
    requires Valid(s)
    ensures Reports(s, idle, budget, report)
  {
    var sorted := Sorted(CandidatesOf(s.slots, idle));
    SortedAscends(s, idle);
    NothingBeforeFirst(s, idle, sorted);
    report := LoopReports(s, idle, budget, sorted, 0, s, []);
  }

  /** What is missing from the slots after a collection is what the loop retired. */
  lemma RetiredByCollect(s: State, idle: set<Token>, budget: nat, gone: multiset<Held>)
    requires Valid(s)
    requires forall x :: Owns(Collected(s, idle, budget).slots, x) + gone[x] == Owns(s.slots, x)
    ensures gone == CollectExit(s, idle, budget).retired
  {
    CollectIsClean(s, idle, budget);
    CollectConserves(s, Sorted(CandidatesOf(s.slots, idle)), budget, multiset{});
    var exit := CollectExit(s, idle, budget);
    assert exit.late == multiset{};
    forall x ensures gone[x] == exit.retired[x] {}
  }

  // ---- which attempts run afterwards

  predicate Ends(exit: Exit, cell: nat) {
    exists i | 0 <= i < |exit.completes| :: exit.completes[i].0 == cell
  }

  /** An attempt runs after the operation if it ran before and was not ended, or was just started. */
  ghost predicate Bookkeeping(s: State, exit: Exit) {
    && (forall c: nat :: IsActive(exit.state, c) <==> (IsActive(s, c) && !Ends(exit, c)) || exit.starts == Some(c))
    && (forall c: nat :: Ends(exit, c) ==> IsActive(s, c))
    && (forall i, j | 0 <= i < j < |exit.completes| :: exit.completes[i].0 != exit.completes[j].0)
    && (exit.joins.Some? ==> IsActive(s, exit.joins.value))
    && (exit.starts.Some? ==> s.arcs <= exit.starts.value < exit.state.arcs)
    && s.arcs <= exit.state.arcs
  }

  /** Nothing is dropped under the lock but a cell reference the caller has another of. */
  ghost predicate Clean(s: State, op: Op, exit: Exit) {
    && Valid(exit.state)
    && exit.underLock == multiset{}
    && (exit.loses.Some? ==> Borrowed(op).Some? && Borrowed(op).value.cell == exit.loses.value)
    && (!op.OpClose? ==> Bookkeeping(s, exit))
  }

  lemma SameRuns(s: State, n: State)
    requires forall i: nat, c :: RunsCell(n, i, c) <==> RunsCell(s, i, c)
    ensures forall c :: IsActive(n, c) <==> IsActive(s, c)
  {
  }

  lemma StartRuns(s: State, n: State, i: nat, permit: Permit)
    requires Valid(s) && Rewrites(s, n, i) && Starts(s, n, i, permit)
    ensures forall c :: IsActive(n, c) <==> IsActive(s, c) || c == permit.cell
  {
    assert RunsCell(n, i, permit.cell);
    forall c ensures IsActive(n, c) <==> IsActive(s, c) || c == permit.cell {
      if IsActive(s, c) {
        var j: nat :| RunsCell(s, j, c);
        assert RunsCell(n, j, c);
      }
      if IsActive(n, c) {
        var j: nat :| RunsCell(n, j, c);
        assert j == i || RunsCell(s, j, c);
      }
    }
  }

  lemma SettleRuns(s: State, n: State, permit: Permit)
    requires Valid(s) && Settles(s, n, permit)
    ensures IsActive(s, permit.cell)
    ensures forall c :: IsActive(n, c) <==> IsActive(s, c) && c != permit.cell
  {
    var i := permit.id.slot;
    assert RunsCell(s, i, permit.cell);
    forall c ensures IsActive(n, c) <==> IsActive(s, c) && c != permit.cell {
      if IsActive(n, c) {
        var j: nat :| RunsCell(n, j, c);
        assert j != i && RunsCell(s, j, c);
        OneRunner(s, i, j, permit.cell);
      }
      if IsActive(s, c) && c != permit.cell {
        var j: nat :| RunsCell(s, j, c);
        assert RunsCell(n, j, c);
      }
    }
  }

  lemma CreateIsClean(s: State)
    requires Valid(s)
    ensures Clean(s, OpCreate, Plain(StoreState.Create(s).state))
  {
    CreateKeepsValid(s);
    var out := StoreState.Create(s);
    if out.reply.Ok? { CreateEffect(s); }
    SameRuns(s, out.state);
  }

  lemma HandleIsClean(h: HandleOp, s: State, handle: Token)
    requires Valid(s)
    ensures Clean(s, OpHandle(h, handle), HandleExit(h, s, handle))
  {
    if Validate(s, handle).Ok? {
      assert SlotOk(s, handle.id.slot);
      HandledIsClean(h, s, handle);
    } else {
      AcquireKeepsValid(s, handle);
      RetryKeepsValid(s, handle);
      ReplacementKeepsValid(s, handle);
      SameRuns(s, HandleOut(h, s, handle).state);
    }
  }

  lemma HandledIsClean(h: HandleOp, s: State, handle: Token)
    requires Valid(s) && StoreWorld.Owned(s, handle)
    ensures Clean(s, OpHandle(h, handle), HandleExit(h, s, handle))
  {
    HandleCases(h, s, handle);
    var out, i := HandleOut(h, s, handle), handle.id.slot;
    if out.reply.Ok? && out.reply.value.AcquiredProducer? {
      StartRuns(s, out.state, i, out.reply.value.permit);
    } else {
      SameRuns(s, out.state);
      if out.reply.Ok? && out.reply.value.AcquiredWaiter? {
        assert RunsCell(s, out.reply.value.waiter.id.slot, out.reply.value.waiter.cell);
      }
    }
  }

  lemma ObserveIsClean(s: State, handle: Token)
    requires Valid(s)
    ensures Clean(s, OpObserve(handle), Plain(Observe(s, handle).state))
  {
    ObserveKeepsValid(s, handle);
    SameRuns(s, Observe(s, handle).state);
  }

  lemma CommitIsClean(s: State, permit: Permit, value: Value, bytes: U64)
    requires Valid(s)
    ensures Clean(s, OpCommit(permit, value, bytes), CommitExit(s, permit, value, bytes))
  {
    CommitKeepsValid(s, permit, value, bytes);
    var out := Commit(s, permit, value, bytes);
    if out.reply.Ok? {
      CommitEffect(s, permit, value, bytes);
      SettleRuns(s, out.state, permit);
      assert CommitExit(s, permit, value, bytes).completes[0].0 == permit.cell;
    } else {
      SameRuns(s, out.state);
    }
  }

  lemma FailIsClean(s: State, permit: Permit, error: Fault)
    requires Valid(s)
    ensures Clean(s, OpFail(permit, error), FailExit(s, permit, error))
  {
    FailKeepsValid(s, permit, error);
    var out := Fail(s, permit, error);
    if out.reply.Ok? {
      FailEffect(s, permit, error);
      SettleRuns(s, out.state, permit);
      assert FailExit(s, permit, error).completes[0].0 == permit.cell;
    } else {
      SameRuns(s, out.state);
    }
  }

  lemma CancelIsClean(s: State, permit: Permit)
    requires Valid(s)
    ensures Clean(s, OpCancel(permit), CancelExit(s, permit))
  {
    CancelKeepsValid(s, permit);
    var out := Cancel(s, permit);
    if out.reply.Ok? {
      CancelEffect(s, permit);
      SettleRuns(s, out.state, permit);
      assert CancelExit(s, permit).completes[0].0 == permit.cell;
    } else {
      SameRuns(s, out.state);
    }
  }

  /** The byte check behind `take` never fails, so the entry outlives the guard. */
  lemma RemoveIsClean(s: State, id: AssetId, strongUsers: nat)
    requires Valid(s)
    ensures Clean(s, OpRemove(id, strongUsers), RemoveExit(s, id, strongUsers))
  {
    RemoveKeepsValid(s, id, strongUsers);
    SameRuns(s, Remove(s, id, strongUsers).state);
  }

  lemma EvictionIsClean(s: State, idle: set<Token>, budget: nat)
    requires Valid(s)
    ensures Clean(s, OpCollect(idle, budget), CollectExit(s, idle, budget))
  {
    CollectIsClean(s, idle, budget);
    CollectEffect(s, idle, budget);
    EvictedRuns(s, Collected(s, idle, budget));
  }

  lemma EvictedRuns(s: State, n: State)
    requires WorldInvariant.Evicted(s, n)
    ensures forall c :: IsActive(n, c) <==> IsActive(s, c)
  {
    SameRuns(s, n);
  }

  /** The retirement discipline: with the lock held, no way out of any operation runs user code. */
  lemma ExitIsClean(s: State, op: Op)
    requires Valid(s)
    ensures Clean(s, op, ExitOf(s, op))
  {
    match op
    case OpCreate => CreateIsClean(s);
    case OpHandle(h, handle) => HandleIsClean(h, s, handle);
    case OpObserve(handle) => ObserveIsClean(s, handle);
    case OpUpgrade(_, _) => SameRuns(s, s);
    case OpCommit(permit, value, bytes) => CommitIsClean(s, permit, value, bytes);
    case OpFail(permit, error) => FailIsClean(s, permit, error);
    case OpCancel(permit) => CancelIsClean(s, permit);
    case OpRemove(id, strongUsers) => RemoveIsClean(s, id, strongUsers);
    case OpCollect(idle, budget) => EvictionIsClean(s, idle, budget);
    case OpStats => SameRuns(s, s);
    case OpClose => EmptyIsValid(s.storeId);
  }

  /**
   What an operation leaves to publish is what it answers its caller, for the attempt of the
   caller's permit: the committed snapshot, the failure, or the cancellation with the value
   retained before; a refused call leaves nothing, and closing leaves `Closed`.
   */
  lemma PublishesItsAnswer(s: State, op: Op)
    requires Valid(s)
    ensures var completes := ExitOf(s, op).completes;
      match op
      case OpCommit(permit, value, bytes) =>
        var reply := Commit(s, permit, value, bytes).reply;
        completes == if reply.Ok? then [(permit.cell, Published(reply.value))] else []
      case OpFail(permit, error) =>
        var reply := Fail(s, permit, error).reply;
        completes == if reply.Ok? then [(permit.cell, Faulted(reply.value))] else []
      case OpCancel(permit) =>
        completes == (if Guards(s, permit) && s.touch < U64_MAX
                      then [(permit.cell, Cancelled(permit.id, permit.attempt, RetainedSnapshot(s, permit.id.slot)))]
                      else [])
      case OpClose => forall i | 0 <= i < |completes| :: completes[i].1 == Closed
      case _ => completes == []
  {
    match op
    case OpCancel(permit) => CancelKeepsValid(s, permit);
    case OpCollect(idle, budget) => CollectIsClean(s, idle, budget);
    case OpClose => CloseEndsAll(s);
    case _ =>
  }

  /** Whatever is dropped and published on the way out, the store is left as the operation says. */
  lemma ExitIsTheOperation(s: State, op: Op)
    requires Valid(s)
    ensures ExitOf(s, op).state ==
      match op
      case OpCreate => StoreState.Create(s).state
      case OpHandle(h, handle) => HandleOut(h, s, handle).state
      case OpObserve(handle) => Observe(s, handle).state
      case OpCommit(permit, value, bytes) => Commit(s, permit, value, bytes).state
      case OpFail(permit, error) => Fail(s, permit, error).state
      case OpCancel(permit) => Cancel(s, permit).state
      case OpRemove(id, strongUsers) => Remove(s, id, strongUsers).state
      case OpCollect(idle, budget) => Collected(s, idle, budget)
      case OpClose => Empty(s.storeId)
      case _ => s
  {
    if op.OpCollect? { CollectIsClean(s, op.idle, op.budget); }
  }

  // ---- closing

  /** The cells run by the first `n` slots, each once. */
  ghost predicate ListsCells(s: State, n: nat, r: seq<nat>) {
    && (forall c :: c in r <==> exists j: nat | j < n :: RunsCell(s, j, c))
    && forall i, j | 0 <= i < j < |r| :: r[i] != r[j]
  }

  lemma OneMoreCell(s: State, n: nat, r: seq<nat>, c: nat)
    requires Valid(s) && ListsCells(s, n, r) && RunsCell(s, n, c)
    ensures ListsCells(s, n + 1, r + [c])
  {
    forall j: nat | j < n ensures !RunsCell(s, j, c) { OneRunner(s, j, n, c); }
    assert c !in r;
    forall d ensures d in r + [c] <==> exists j: nat | j < n + 1 :: RunsCell(s, j, d) {
      if d in r { assert exists j: nat | j < n :: RunsCell(s, j, d); }
    }
  }

  lemma AllListed(s: State, r: seq<nat>)
    requires ListsCells(s, |s.slots|, r)
    ensures forall c :: c in r <==> IsActive(s, c)
  {
    forall c ensures c in r <==> IsActive(s, c) {
      if IsActive(s, c) { assert exists j: nat | j < |s.slots| :: RunsCell(s, j, c); }
    }
  }

  lemma {:induction false} RunningUpTo(s: State, n: nat)
    requires Valid(s) && n <= |s.slots|
    ensures ListsCells(s, n, RunningCells(s.slots[..n]))
  {
    if n > 0 {
      RunningUpTo(s, n - 1);
      assert s.slots[..n][..n - 1] == s.slots[..n - 1];
      var front := RunningCells(s.slots[..n - 1]);
      if Live(s, n - 1) && EntryAt(s, n - 1).phase.Producing? {
        OneMoreCell(s, n - 1, front, EntryAt(s, n - 1).phase.cell);
      } else {
        forall c ensures c in front <==> exists j: nat | j < n :: RunsCell(s, j, c) {}
      }
    }
  }

  /** Closing ends exactly the attempts that run, each once, as closed. */
  lemma CloseEndsAll(s: State)
    requires Valid(s)
    ensures var exit := CloseExit(s);
      && (forall c :: Ends(exit, c) <==> IsActive(s, c))
      && (forall i, j | 0 <= i < j < |exit.completes| :: exit.completes[i].0 != exit.completes[j].0)
      && (forall i | 0 <= i < |exit.completes| :: exit.completes[i].1 == Closed)
  {
    var cells, exit := RunningCells(s.slots), CloseExit(s);
    assert s.slots[..|s.slots|] == s.slots;
    RunningUpTo(s, |s.slots|);
    AllListed(s, cells);
    assert forall i | 0 <= i < |cells| :: exit.completes[i] == (cells[i], Closed);
    forall c ensures Ends(exit, c) <==> IsActive(s, c) {
      if c in cells {
        var i :| 0 <= i < |cells| && cells[i] == c;
        assert exit.completes[i].0 == c;
      }
    }
  }
}
