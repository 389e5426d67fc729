/**
 What `collect` promises, in closed form: an eligible entry is evicted exactly when
 the bytes left after evicting every less recently used eligible entry still exceed
 the budget. No sort and no loop appear here; StoreInner's loop is proved to match.
 */
module Collection {
  import opened Prelude
  import opened StoreState
  import opened StoreInvariant

  /** `idle`: the tokens found to have no strong owner but the store. */
  predicate Eligible(slot: Slot, idle: set<Token>) {
    && slot.entry.Some?
    && slot.entry.value.token in idle
    && !slot.entry.value.phase.Producing?
    && Retained(slot.entry.value.phase).Some?
  }

  function EvictedSlot(slot: Slot): Slot {
    match slot.entry
    case None => slot
    case Some(entry) =>
      var phase := match entry.phase
        case Ready(_) => Missing
        case Failed(attempt, error, _) => Failed(attempt, error, None)
        case other => other;
      slot.(entry := Some(entry.(phase := phase)))
  }

  predicate Older(slot: Slot, idle: set<Token>, touch: nat) {
    Eligible(slot, idle) && slot.entry.value.lastTouch < touch
  }

  /** Bytes of the eligible entries last touched before `touch`. */
  function BytesBefore(slots: seq<Slot>, idle: set<Token>, touch: nat): nat {
    if slots == [] then 0 else
    var last := slots[|slots| - 1];
    BytesBefore(slots[..|slots| - 1], idle, touch) + (if Older(last, idle, touch) then SlotBytes(last) else 0)
  }

  /** The slots after evicting every eligible entry last touched before `touch`. */
  function EvictBefore(slots: seq<Slot>, idle: set<Token>, touch: nat): (r: seq<Slot>) {
    seq(|slots|, i requires 0 <= i < |slots| =>
      if Older(slots[i], idle, touch) then EvictedSlot(slots[i]) else slots[i])
  }

  predicate Evicts(s: State, idle: set<Token>, budget: nat, i: nat)
    requires i < |s.slots|
  {
    && Eligible(s.slots[i], idle)
    && s.readyBytes - BytesBefore(s.slots, idle, s.slots[i].entry.value.lastTouch) > budget
  }

  /** The state `collect` leaves behind. */
  function Collected(s: State, idle: set<Token>, budget: nat): State {
    var slots := seq(|s.slots|, i requires 0 <= i < |s.slots| =>
      if Evicts(s, idle, budget, i) then EvictedSlot(s.slots[i]) else s.slots[i]);
    s.(slots := slots, readyBytes := TotalBytes(slots))
  }

  function EvictionOf(entry: Entry): Evicted
    requires Retained(entry.phase).Some?
  {
    var ready := Retained(entry.phase).value;
    Evicted(entry.token.id, ready.generation, ready.bytes)
  }

  function EvictedTouch(s: State, e: Evicted): nat
    requires Live(s, e.id.slot)
  {
    EntryAt(s, e.id.slot).lastTouch
  }

  /** `evicted` lists exactly the evicted entries, least recently used first. */
  ghost predicate Reports(s: State, idle: set<Token>, budget: nat, evicted: seq<Evicted>) {
    && (forall k | 0 <= k < |evicted| ::
          && Live(s, evicted[k].id.slot)
          && Evicts(s, idle, budget, evicted[k].id.slot)
          && evicted[k] == EvictionOf(EntryAt(s, evicted[k].id.slot)))
    && (forall j, k | 0 <= j < k < |evicted| :: EvictedTouch(s, evicted[j]) < EvictedTouch(s, evicted[k]))
    && (forall i | 0 <= i < |s.slots| && Evicts(s, idle, budget, i) ::
          exists k | 0 <= k < |evicted| :: evicted[k].id.slot == i)
  }

  function SumEvicted(evicted: seq<Evicted>): nat {
    if evicted == [] then 0 else SumEvicted(evicted[..|evicted| - 1]) + evicted[|evicted| - 1].bytes
  }

  lemma {:induction false} EvictBeforeBytes(slots: seq<Slot>, idle: set<Token>, touch: nat)
    ensures TotalBytes(EvictBefore(slots, idle, touch)) + BytesBefore(slots, idle, touch) == TotalBytes(slots)
  {
    if slots != [] {
      var last := |slots| - 1;
      EvictBeforeBytes(slots[..last], idle, touch);
      assert EvictBefore(slots, idle, touch)[..last] == EvictBefore(slots[..last], idle, touch);
    }
  }

  lemma {:induction false} BytesBeforeMonotone(slots: seq<Slot>, idle: set<Token>, t: nat, u: nat)
    requires t <= u
    ensures BytesBefore(slots, idle, t) <= BytesBefore(slots, idle, u) <= TotalBytes(slots)
  {
    if slots != [] { BytesBeforeMonotone(slots[..|slots| - 1], idle, t, u); }
  }

  /** When slot `i` holds the only eligible entry touched in [t, u), it makes the difference. */
  lemma {:induction false} BytesBeforeStep(slots: seq<Slot>, idle: set<Token>, i: nat, u: nat)
    requires i < |slots| && Eligible(slots[i], idle) && slots[i].entry.value.lastTouch < u
    requires forall j | 0 <= j < |slots| && j != i && Older(slots[j], idle, u) ::
               slots[j].entry.value.lastTouch < slots[i].entry.value.lastTouch
    ensures BytesBefore(slots, idle, u)
         == BytesBefore(slots, idle, slots[i].entry.value.lastTouch) + SlotBytes(slots[i])
  {
    var last := |slots| - 1;
    if i == last {
      BytesBeforeSame(slots[..last], idle, slots[i].entry.value.lastTouch, u);
    } else {
      BytesBeforeStep(slots[..last], idle, i, u);
    }
  }

  lemma {:induction false} BytesBeforeSame(slots: seq<Slot>, idle: set<Token>, t: nat, u: nat)
    requires forall j | 0 <= j < |slots| :: Older(slots[j], idle, t) <==> Older(slots[j], idle, u)
    ensures BytesBefore(slots, idle, t) == BytesBefore(slots, idle, u)
  {
    if slots != [] { BytesBeforeSame(slots[..|slots| - 1], idle, t, u); }
  }

  lemma {:induction false} TotalBytesMonotone(small: seq<Slot>, large: seq<Slot>)
    requires |small| == |large|
    requires forall i | 0 <= i < |small| :: SlotBytes(small[i]) <= SlotBytes(large[i])
    ensures TotalBytes(small) <= TotalBytes(large)
  {
    if small != [] { TotalBytesMonotone(small[..|small| - 1], large[..|large| - 1]); }
  }

  lemma CollectKeepsValid(s: State, idle: set<Token>, budget: nat)
    requires Valid(s)
    ensures var n := Collected(s, idle, budget);
      && Valid(n)
      && (forall i | 0 <= i < |s.slots| && !Eligible(s.slots[i], idle) :: n.slots[i] == s.slots[i])
  {
    var n := Collected(s, idle, budget);
    TotalBytesMonotone(n.slots, s.slots);
    forall j | 0 <= j < |n.slots| ensures SlotOk(n, j) { assert SlotOk(s, j); }
    forall j, k | Live(n, j) && Live(n, k) && j != k ensures Apart(EntryAt(n, j), EntryAt(n, k)) {
      assert Apart(EntryAt(s, j), EntryAt(s, k));
    }
    forall id ensures id in n.issued <==> WasIssued(n, id) { assert WasIssued(n, id) <==> WasIssued(s, id); }
  }

  /** Eviction is closed downwards in recency. */
  lemma EvictsDownwards(s: State, idle: set<Token>, budget: nat, i: nat, j: nat)
    requires i < |s.slots| && j < |s.slots| && Evicts(s, idle, budget, i) && Eligible(s.slots[j], idle)
    requires s.slots[j].entry.value.lastTouch <= s.slots[i].entry.value.lastTouch
    ensures Evicts(s, idle, budget, j)
  {
    BytesBeforeMonotone(s.slots, idle, s.slots[j].entry.value.lastTouch, s.slots[i].entry.value.lastTouch);
  }

  /** An eligible entry older than the k-th eviction is itself one of the first k. */
  lemma OlderIsListed(s: State, idle: set<Token>, budget: nat, evicted: seq<Evicted>, k: nat, j: nat) returns (m: nat)
    requires Valid(s) && Reports(s, idle, budget, evicted) && k < |evicted|
    requires j < |s.slots| && Older(s.slots[j], idle, EvictedTouch(s, evicted[k]))
    ensures m < k && evicted[m].id.slot == j
  {
    EvictsDownwards(s, idle, budget, evicted[k].id.slot, j);
    m :| 0 <= m < |evicted| && evicted[m].id.slot == j;
  }

  /** The first `k` evictions free exactly the bytes of the eligible entries older than the next one. */
  lemma {:induction false} SumOfPrefix(s: State, idle: set<Token>, budget: nat, evicted: seq<Evicted>, k: nat)
    requires Valid(s) && Reports(s, idle, budget, evicted) && k < |evicted|
    ensures SumEvicted(evicted[..k]) == BytesBefore(s.slots, idle, EvictedTouch(s, evicted[k]))
  {
    var touch := EvictedTouch(s, evicted[k]);
    if k == 0 {
      forall j | 0 <= j < |s.slots| ensures !Older(s.slots[j], idle, touch) {
        if Older(s.slots[j], idle, touch) { var m := OlderIsListed(s, idle, budget, evicted, k, j); }
      }
      BytesBeforeSame(s.slots, idle, 0, touch);
      NothingBeforeZero(s.slots, idle);
    } else {
      SumOfPrefix(s, idle, budget, evicted, k - 1);
      assert evicted[..k][..k - 1] == evicted[..k - 1];
      var i := evicted[k - 1].id.slot;
      forall j | 0 <= j < |s.slots| && j != i && Older(s.slots[j], idle, touch)
        ensures s.slots[j].entry.value.lastTouch < s.slots[i].entry.value.lastTouch
      {
        var m := OlderIsListed(s, idle, budget, evicted, k, j);
        assert m < k - 1;
      }
      BytesBeforeStep(s.slots, idle, i, touch);
    }
  }

  lemma {:induction false} NothingBeforeZero(slots: seq<Slot>, idle: set<Token>)
    ensures BytesBefore(slots, idle, 0) == 0
  {
    if slots != [] { NothingBeforeZero(slots[..|slots| - 1], idle); }
  }

  /** The bytes `collect` can never free: those of pinned and of producing identities. */
  function KeptBytes(slots: seq<Slot>, idle: set<Token>): nat {
    if slots == [] then 0 else
    var last := slots[|slots| - 1];
    KeptBytes(slots[..|slots| - 1], idle) + (if Unfreeable(last, idle) then SlotBytes(last) else 0)
  }

  predicate Unfreeable(slot: Slot, idle: set<Token>) {
    slot.entry.Some? && (slot.entry.value.token !in idle || slot.entry.value.phase.Producing?)
  }

  lemma {:induction false} KeptIsTheRest(slots: seq<Slot>, idle: set<Token>, touch: nat)
    requires forall i | 0 <= i < |slots| && Eligible(slots[i], idle) :: slots[i].entry.value.lastTouch < touch
    ensures TotalBytes(EvictBefore(slots, idle, touch)) == KeptBytes(slots, idle)
  {
    if slots != [] {
      var last := |slots| - 1;
      KeptIsTheRest(slots[..last], idle, touch);
      assert EvictBefore(slots, idle, touch)[..last] == EvictBefore(slots[..last], idle, touch);
    }
  }

  lemma EvictsUpToLast(s: State, idle: set<Token>, budget: nat, evicted: seq<Evicted>, j: nat)
    requires Valid(s) && Reports(s, idle, budget, evicted) && evicted != []
    requires j < |s.slots| && Eligible(s.slots[j], idle)
    ensures Evicts(s, idle, budget, j)
       <==> s.slots[j].entry.value.lastTouch <= EvictedTouch(s, evicted[|evicted| - 1])
  {
    var last := |evicted| - 1;
    if s.slots[j].entry.value.lastTouch <= EvictedTouch(s, evicted[last]) {
      EvictsDownwards(s, idle, budget, evicted[last].id.slot, j);
    }
    if Evicts(s, idle, budget, j) {
      var k :| 0 <= k < |evicted| && evicted[k].id.slot == j;
      assert k <= last;
    }
  }

  /** Evicting what `Evicts` says is evicting everything older than some touch. */
  lemma CollectedIsPrefix(s: State, idle: set<Token>, budget: nat, evicted: seq<Evicted>) returns (touch: nat)
    requires Valid(s) && Reports(s, idle, budget, evicted)
    ensures Collected(s, idle, budget).slots == EvictBefore(s.slots, idle, touch)
    ensures SumEvicted(evicted) == BytesBefore(s.slots, idle, touch)
    ensures forall i | 0 <= i < |s.slots| && Eligible(s.slots[i], idle) ::
              Evicts(s, idle, budget, i) <==> s.slots[i].entry.value.lastTouch < touch
  {
    if evicted == [] {
      touch := 0;
      NothingBeforeZero(s.slots, idle);
    } else {
      var last := |evicted| - 1;
      var i := evicted[last].id.slot;
      touch := EvictedTouch(s, evicted[last]) + 1;
      forall j | 0 <= j < |s.slots| && Eligible(s.slots[j], idle)
        ensures Evicts(s, idle, budget, j) <==> s.slots[j].entry.value.lastTouch < touch
      {
        EvictsUpToLast(s, idle, budget, evicted, j);
      }
      SumOfPrefix(s, idle, budget, evicted, last);
      forall j | 0 <= j < |s.slots| && j != i && Older(s.slots[j], idle, touch)
        ensures s.slots[j].entry.value.lastTouch < s.slots[i].entry.value.lastTouch
      {
        assert Live(s, j) && Live(s, i) && Apart(EntryAt(s, j), EntryAt(s, i));
      }
      BytesBeforeStep(s.slots, idle, i, touch);
    }
    assert Collected(s, idle, budget).slots == EvictBefore(s.slots, idle, touch);
  }

  /**
   The promise of `collect`: accounting drops by exactly the evicted bytes; the last eviction
   was still needed to meet the budget; and if the budget is exceeded afterwards, every
   value left belongs to a pinned or producing identity.
   */
  lemma CollectMeetsBudget(s: State, idle: set<Token>, budget: nat, evicted: seq<Evicted>)
    requires Valid(s) && Reports(s, idle, budget, evicted)
    ensures var n := Collected(s, idle, budget);
      && s.readyBytes - n.readyBytes == SumEvicted(evicted)
      && (evicted != [] ==> s.readyBytes - SumEvicted(evicted[..|evicted| - 1]) > budget)
      && (n.readyBytes > budget ==>
            && n.readyBytes == KeptBytes(s.slots, idle)
            && forall i | Live(n, i) && EntryAt(n, i).token in idle && !EntryAt(n, i).phase.Producing? ::
                 Retained(EntryAt(n, i).phase).None?)
  {
    var n := Collected(s, idle, budget);
    var touch := CollectedIsPrefix(s, idle, budget, evicted);
    EvictBeforeBytes(s.slots, idle, touch);
    if evicted != [] { SumOfPrefix(s, idle, budget, evicted, |evicted| - 1); }
    if n.readyBytes > budget {
      forall i | 0 <= i < |s.slots| && Eligible(s.slots[i], idle) ensures Evicts(s, idle, budget, i) {
        OldestSurvivor(s, idle, budget, touch, i);
      }
      KeptIsTheRest(s.slots, idle, touch);
    }
  }

  /** An entry without the value it held; a failure keeps its error. */
  predicate Emptied(entry: Entry, left: Entry) {
    && left == entry.(phase := left.phase)
    && match entry.phase
       case Ready(_) => left.phase == Missing
       case Failed(attempt, error, Some(_)) => left.phase == Failed(attempt, error, None)
       case _ => false
  }

  /**
   What a collection changes, and what its report says: the report lists each identity that
   lost its value and no other, with what it lost, and an identity lost it only if it had no
   user, was not producing and stood in the way of the budget.
   */
  lemma ReportIsExact(s: State, idle: set<Token>, budget: nat, evicted: seq<Evicted>)
    requires Valid(s) && Reports(s, idle, budget, evicted)
    ensures var n := Collected(s, idle, budget);
      && n == s.(slots := n.slots, readyBytes := n.readyBytes) && |n.slots| == |s.slots|
      && (forall i | 0 <= i < |s.slots| :: n.slots[i] != s.slots[i] <==>
            exists k | 0 <= k < |evicted| :: evicted[k].id.slot == i)
      && (forall i | 0 <= i < |s.slots| && n.slots[i] != s.slots[i] ::
            && Live(s, i) && Live(n, i) && n.slots[i].generation == s.slots[i].generation
            && EntryAt(s, i).token in idle && Emptied(EntryAt(s, i), EntryAt(n, i)) && s.readyBytes > budget)
      && (forall k | 0 <= k < |evicted| ::
            && Live(s, evicted[k].id.slot)
            && var entry := EntryAt(s, evicted[k].id.slot);
               && entry.token.id == evicted[k].id && Retained(entry.phase).Some?
               && evicted[k].generation == Retained(entry.phase).value.generation
               && evicted[k].bytes == Retained(entry.phase).value.bytes)
  {
    var n := Collected(s, idle, budget);
    forall i | 0 <= i < |s.slots|
      ensures n.slots[i] != s.slots[i] <==> exists k | 0 <= k < |evicted| :: evicted[k].id.slot == i
    {
      if n.slots[i] != s.slots[i] { assert Evicts(s, idle, budget, i); }
    }
  }

  /** Least recently used first: whoever loses its value, all older values that could go have gone. */
  lemma OldestGoFirst(s: State, idle: set<Token>, budget: nat, older: nat, i: nat)
    requires Valid(s) && Live(s, older) && Live(s, i) && Collected(s, idle, budget).slots[i] != s.slots[i]
    requires EntryAt(s, older).lastTouch <= EntryAt(s, i).lastTouch
    requires EntryAt(s, older).token in idle && !EntryAt(s, older).phase.Producing?
    ensures var n := Collected(s, idle, budget); Live(n, older) && Retained(EntryAt(n, older).phase).None?
  {
    if Retained(EntryAt(s, older).phase).Some? { EvictsDownwards(s, idle, budget, i, older); }
  }

  /** While more than the budget is left, no eligible entry survives. */
  lemma {:induction false} OldestSurvivor(s: State, idle: set<Token>, budget: nat, touch: nat, i: nat)
    requires Valid(s) && i < |s.slots| && Eligible(s.slots[i], idle)
    requires forall j | 0 <= j < |s.slots| && Eligible(s.slots[j], idle) ::
               Evicts(s, idle, budget, j) <==> s.slots[j].entry.value.lastTouch < touch
    requires s.readyBytes - BytesBefore(s.slots, idle, touch) > budget
    ensures Evicts(s, idle, budget, i)
    decreases s.slots[i].entry.value.lastTouch
  {
    var at := s.slots[i].entry.value.lastTouch;
    if at >= touch {
      if j: nat :| j < |s.slots| && Older(s.slots[j], idle, at) && s.slots[j].entry.value.lastTouch >= touch {
        OldestSurvivor(s, idle, budget, touch, j);
      } else {
        BytesBeforeSame(s.slots, idle, touch, at);
      }
    }
  }

  /** Touches are distinct, so every correct sort leads to the same report. */
  lemma {:induction false} ReportIsUnique(s: State, idle: set<Token>, budget: nat, a: seq<Evicted>, b: seq<Evicted>)
    requires Valid(s) && Reports(s, idle, budget, a) && Reports(s, idle, budget, b)
    ensures a == b
  {
    SamePrefix(s, idle, budget, a, b, |a|);
    SamePrefix(s, idle, budget, b, a, |b|);
    assert a[..|a|] == a && b[..|b|] == b;
  }

  lemma {:induction false} SamePrefix(
    s: State, idle: set<Token>, budget: nat, a: seq<Evicted>, b: seq<Evicted>, k: nat)
    requires Valid(s) && Reports(s, idle, budget, a) && Reports(s, idle, budget, b) && k <= |a|
    ensures k <= |b| && a[..k] == b[..k]
  {
    if k > 0 {
      SamePrefix(s, idle, budget, a, b, k - 1);
      var j := FoundLater(s, idle, budget, a, b, k - 1);
      var m := FoundLater(s, idle, budget, b, a, k - 1);
      assert EvictedTouch(s, b[k - 1]) == EvictedTouch(s, b[j]);
      SameLonger(a, b, k);
    }
  }

  lemma SameLonger(a: seq<Evicted>, b: seq<Evicted>, k: nat)
    requires 0 < k <= |a| && k <= |b| && a[..k - 1] == b[..k - 1] && a[k - 1] == b[k - 1]
    ensures a[..k] == b[..k]
  {
    assert a[..k] == a[..k - 1] + [a[k - 1]];
    assert b[..k] == b[..k - 1] + [b[k - 1]];
  }

  /** Where two reports agree on the first `k` evictions, the next of one occurs in the other, not before. */
  lemma FoundLater(s: State, idle: set<Token>, budget: nat, a: seq<Evicted>, b: seq<Evicted>, k: nat) returns (j: nat)
    requires Valid(s) && Reports(s, idle, budget, a) && Reports(s, idle, budget, b)
    requires k < |a| && k <= |b| && a[..k] == b[..k]
    ensures k <= j < |b| && b[j] == a[k] && EvictedTouch(s, b[k]) <= EvictedTouch(s, a[k])
  {
    j :| 0 <= j < |b| && b[j].id.slot == a[k].id.slot;
    assert forall m | 0 <= m < k :: a[m] == b[m] by {
      forall m | 0 <= m < k ensures a[m] == b[m] { assert a[m] == a[..k][m]; }
    }
  }
}
