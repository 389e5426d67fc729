/**
 The store as its users see it: a map from live identities to the committed value they
 retain, if any. Only `create`, `commit`, `collect` and `remove` change this map.
 */
module CacheMap {
  import opened Prelude
  import opened StoreState
  import opened StoreInvariant
  import opened Collection

  ghost function Content(s: State): map<AssetId, Option<ReadyValue>> {
    map id | id in s.issued && Lookup(s, id).Ok? :: Retained(EntryAt(s, id.slot).phase)
  }

  /** The live identities are exactly the keys. */
  lemma ContentKeys(s: State, id: AssetId)
    requires Valid(s)
    ensures id in Content(s) <==> Lookup(s, id).Ok?
    ensures id in Content(s) ==> Content(s)[id] == Retained(EntryAt(s, id.slot).phase)
  {
    if Lookup(s, id).Ok? {
      assert SlotOk(s, id.slot);
      assert WasIssued(s, id);
    }
  }

  lemma SteadyKeepsContent(s: State, n: State)
    requires Valid(s) && Valid(n) && Steady(s, n)
    ensures Content(n) == Content(s)
  {
    forall id ensures Lookup(n, id).Ok? <==> Lookup(s, id).Ok? {}
    assert Content(n).Keys == Content(s).Keys;
  }

  /** An operation that touches the value of one identity only changes the map there. */
  lemma ContentAt(s: State, n: State, id: AssetId)
    requires Valid(s) && Valid(n)
    requires forall other :: other != id ==> (Lookup(n, other).Ok? <==> Lookup(s, other).Ok?)
    requires forall other :: other != id && Lookup(s, other).Ok? && Lookup(n, other).Ok? ==>
               Retained(EntryAt(n, other.slot).phase) == Retained(EntryAt(s, other.slot).phase)
    ensures Lookup(n, id).Ok? ==> Content(n) == Content(s)[id := Retained(EntryAt(n, id.slot).phase)]
    ensures Lookup(n, id).Err? ==> Content(n) == Content(s) - {id}
  {
    forall other ensures other in Content(n) <==> if other == id then Lookup(n, id).Ok? else other in Content(s) {
      ContentKeys(s, other);
      ContentKeys(n, other);
    }
  }

  lemma CreateContent(s: State)
    requires Valid(s)
    ensures var out := Create(s);
      match out.reply
      case Ok(token) => token.id !in Content(s) && Content(out.state) == Content(s)[token.id := None]
      case Err(_) => Content(out.state) == Content(s)
  {
    CreateKeepsValid(s);
    var out := Create(s);
    match out.reply
    case Err(_) => SteadyKeepsContent(s, out.state);
    case Ok(token) =>
      if token.id.slot < |s.slots| { assert SlotOk(s, token.id.slot); }
      ContentAt(s, out.state, token.id);
  }

  /** A commit publishes under a generation newer than anything the identity retained. */
  lemma CommitContent(s: State, permit: Permit, value: Value, bytes: U64)
    requires Valid(s)
    ensures var out := Commit(s, permit, value, bytes);
      match out.reply
      case Err(_) => Content(out.state) == Content(s)
      case Ok(snapshot) =>
        && permit.id in Content(s)
        && Content(out.state) == Content(s)[permit.id := Some(ReadyValue(snapshot.generation, value, bytes))]
        && (Content(s)[permit.id].Some? ==> Content(s)[permit.id].value.generation < snapshot.generation)
  {
    CommitKeepsValid(s, permit, value, bytes);
    var out := Commit(s, permit, value, bytes);
    match out.reply
    case Err(_) => SteadyKeepsContent(s, out.state);
    case Ok(snapshot) =>
      ContentKeys(s, permit.id);
      assert SlotOk(s, permit.id.slot);
      ContentAt(s, out.state, permit.id);
  }

  lemma CollectContent(s: State, idle: set<Token>, budget: nat)
    requires Valid(s)
    ensures forall id :: id in Content(s) ==> id.slot < |s.slots|
    ensures Content(Collected(s, idle, budget))
         == map id | id in Content(s) :: if Evicts(s, idle, budget, id.slot) then None else Content(s)[id]
  {
    CollectKeepsValid(s, idle, budget);
    var n := Collected(s, idle, budget);
    forall id ensures Lookup(n, id).Ok? <==> Lookup(s, id).Ok? { SlotCollected(s, idle, budget, id); }
    assert Content(n).Keys == Content(s).Keys;
    forall id | id in Content(s)
      ensures Content(n)[id] == if Evicts(s, idle, budget, id.slot) then None else Content(s)[id]
    {
      SlotCollected(s, idle, budget, id);
    }
  }

  lemma SlotCollected(s: State, idle: set<Token>, budget: nat, id: AssetId)
    ensures var n := Collected(s, idle, budget);
      && (Lookup(n, id).Ok? <==> Lookup(s, id).Ok?)
      && (Lookup(s, id).Ok? ==>
            Retained(EntryAt(n, id.slot).phase)
              == if Evicts(s, idle, budget, id.slot) then None else Retained(EntryAt(s, id.slot).phase))
  {
  }

  lemma RemoveContent(s: State, id: AssetId, strongUsers: nat)
    requires Valid(s)
    ensures var out := Remove(s, id, strongUsers);
      match out.reply
      case Err(_) => Content(out.state) == Content(s)
      case Ok(report) =>
        && id in Content(s)
        && Content(out.state) == Content(s) - {id}
        && report == RemoveReport(id, if Content(s)[id].Some? then Some(Content(s)[id].value.generation) else None,
                                  BytesOf(Content(s)[id]))
  {
    RemoveKeepsValid(s, id, strongUsers);
    var out := Remove(s, id, strongUsers);
    if out.reply.Ok? {
      ContentKeys(s, id);
      ContentAt(s, out.state, id);
    }
  }

  /** After a cancel the entry is Ready with exactly the value the map holds, or else Missing. */
  lemma CancelRestores(s: State, permit: Permit)
    requires Valid(s) && Guards(s, permit) && s.touch < U64_MAX
    ensures var n := Cancel(s, permit).state;
      && permit.id in Content(s) && Content(n) == Content(s)
      && EntryAt(n, permit.id.slot).phase
           == (if Content(s)[permit.id].Some? then Ready(Content(s)[permit.id].value) else Missing)
  {
    ContentKeys(s, permit.id);
    CancelKeepsValid(s, permit);
    SteadyKeepsContent(s, Cancel(s, permit).state);
  }

  /** The operations that leave the map alone; a commit counts when it is rejected. */
  datatype Quiet =
    | DoAcquire(handle: Token)
    | DoRetry(handle: Token)
    | DoReplace(handle: Token)
    | DoObserve(handle: Token)
    | DoFail(permit: Permit, error: Fault)
    | DoCancel(permit: Permit)
    | DoCommit(permit: Permit, value: Value, bytes: U64)
    | DoCreate
    | DoRemove(id: AssetId, strongUsers: nat)

  ghost function Run(s: State, op: Quiet): State
    requires Valid(s)
  {
    match op
    case DoAcquire(handle) => Acquire(s, handle).state
    case DoRetry(handle) => Retry(s, handle).state
    case DoReplace(handle) => RequestReplacement(s, handle).state
    case DoObserve(handle) => Observe(s, handle).state
    case DoFail(permit, error) => Fail(s, permit, error).state
    case DoCancel(permit) => Cancel(s, permit).state
    case DoCommit(permit, value, bytes) => Commit(s, permit, value, bytes).state
    case DoCreate => Create(s).state
    case DoRemove(id, strongUsers) => Remove(s, id, strongUsers).state
  }

  ghost predicate IsQuiet(s: State, op: Quiet)
    requires Valid(s)
  {
    match op
    case DoCommit(permit, value, bytes) => Commit(s, permit, value, bytes).reply.Err?
    case DoCreate => Create(s).reply.Err?
    case DoRemove(id, strongUsers) => Remove(s, id, strongUsers).reply.Err?
    case _ => true
  }

  lemma QuietStep(s: State, op: Quiet)
    requires Valid(s) && IsQuiet(s, op)
    ensures Valid(Run(s, op)) && Content(Run(s, op)) == Content(s)
  {
    match op
    case DoAcquire(handle) => AcquireKeepsValid(s, handle); SteadyKeepsContent(s, Run(s, op));
    case DoRetry(handle) => RetryKeepsValid(s, handle); SteadyKeepsContent(s, Run(s, op));
    case DoReplace(handle) => ReplacementKeepsValid(s, handle); SteadyKeepsContent(s, Run(s, op));
    case DoObserve(handle) => ObserveKeepsValid(s, handle); SteadyKeepsContent(s, Run(s, op));
    case DoFail(permit, error) => FailKeepsValid(s, permit, error); SteadyKeepsContent(s, Run(s, op));
    case DoCancel(permit) => CancelKeepsValid(s, permit); SteadyKeepsContent(s, Run(s, op));
    case DoCommit(permit, value, bytes) => CommitKeepsValid(s, permit, value, bytes); SteadyKeepsContent(s, Run(s, op));
    case DoCreate => CreateKeepsValid(s); SteadyKeepsContent(s, Run(s, op));
    case DoRemove(id, strongUsers) => RemoveKeepsValid(s, id, strongUsers);
  }

  ghost predicate AllQuiet(s: State, ops: seq<Quiet>)
    requires Valid(s)
    decreases |ops|
  {
    ops == [] || (IsQuiet(s, ops[0]) && (QuietStep(s, ops[0]); AllQuiet(Run(s, ops[0]), ops[1..])))
  }

  ghost function RunAll(s: State, ops: seq<Quiet>): State
    requires Valid(s) && AllQuiet(s, ops)
    decreases |ops|
  {
    if ops == [] then s else (QuietStep(s, ops[0]); RunAll(Run(s, ops[0]), ops[1..]))
  }

  /** Any mix of quiet operations, of any length, leaves every retained value in place. */
  lemma {:induction false} QuietRunKeepsContent(s: State, ops: seq<Quiet>)
    requires Valid(s) && AllQuiet(s, ops)
    ensures Valid(RunAll(s, ops)) && Content(RunAll(s, ops)) == Content(s)
    decreases |ops|
  {
    if ops != [] {
      QuietStep(s, ops[0]);
      QuietRunKeepsContent(Run(s, ops[0]), ops[1..]);
    }
  }
}
