/**
 The order `collect` sorts its candidates by, a sort for it, and the facts about
 sorted candidates that the eviction loop rests on.
 */
module CandidateOrder {
  import opened Prelude
  import opened StoreState
  import opened StoreInvariant
  import opened Collection

  datatype Candidate = Candidate(touch: nat, id: AssetId)

  /** The derived order of (last_touch, AssetId) pairs. */
  predicate AtMost(a: Candidate, b: Candidate) {
    || a.touch < b.touch
    || (a.touch == b.touch && IdAtMost(a.id, b.id))
  }

  /** Lexicographic by store, slot and slot generation. */
  predicate IdAtMost(a: AssetId, b: AssetId) {
    || a.store < b.store
    || (a.store == b.store && (a.slot < b.slot || (a.slot == b.slot && a.generation <= b.generation)))
  }

  predicate IsSorted(c: seq<Candidate>) {
    forall j, k | 0 <= j < k < |c| :: AtMost(c[j], c[k])
  }

  lemma AtMostTransitive(a: Candidate, b: Candidate, c: Candidate)
    requires AtMost(a, b) && AtMost(b, c)
    ensures AtMost(a, c)
  {
  }

  function Inserted(r: seq<Candidate>, at: nat, x: Candidate): (n: seq<Candidate>)
    requires at <= |r|
    ensures multiset(n) == multiset(r) + multiset{x}
    ensures |n| == |r| + 1
    ensures forall j | 0 <= j < |n| :: n[j] == if j < at then r[j] else if j == at then x else r[j - 1]
  {
    assert r == r[..at] + r[at..];
    r[..at] + [x] + r[at..]
  }

  lemma InsertKeepsSorted(r: seq<Candidate>, at: nat, x: Candidate)
    requires IsSorted(r) && at <= |r|
    requires at > 0 ==> AtMost(r[at - 1], x)
    requires at < |r| ==> AtMost(x, r[at])
    ensures IsSorted(Inserted(r, at, x))
  {
    var n := Inserted(r, at, x);
    forall j, k | 0 <= j < k < |n| ensures AtMost(n[j], n[k]) {
      if k == at {
        if j < at - 1 { AtMostTransitive(r[j], r[at - 1], x); }
      } else if j == at {
        if at < k - 1 { AtMostTransitive(x, r[at], r[k - 1]); }
      }
    }
  }

  lemma InsertPermutes(c: seq<Candidate>, i: nat, r: seq<Candidate>, at: nat)
    requires i < |c| && at <= |r| && multiset(r) == multiset(c[..i])
    ensures multiset(Inserted(r, at, c[i])) == multiset(c[..i + 1])
  {
    assert c[..i + 1] == c[..i] + [c[i]];
  }

  method SortUnstable(c: seq<Candidate>) returns (r: seq<Candidate>)
    ensures IsSorted(r) && multiset(r) == multiset(c)
  {
    r := [];
    for i := 0 to |c|
      invariant IsSorted(r) && multiset(r) == multiset(c[..i])
    {
      var at := |r|;
      while at > 0 && !AtMost(r[at - 1], c[i])
        invariant 0 <= at <= |r|
        invariant at < |r| ==> AtMost(c[i], r[at])
      {
        at := at - 1;
      }
      InsertKeepsSorted(r, at, c[i]);
      InsertPermutes(c, i, r, at);
      r := Inserted(r, at, c[i]);
    }
    assert c == c[..|c|];
  }

  ghost predicate IsCandidate(s: State, idle: set<Token>, c: Candidate) {
    && Live(s, c.id.slot)
    && Eligible(s.slots[c.id.slot], idle)
    && c == Candidate(EntryAt(s, c.id.slot).lastTouch, EntryAt(s, c.id.slot).token.id)
  }

  /** Last touches are distinct, so sorting makes them strictly ascend: ties never happen. */
  ghost predicate Ascends(s: State, idle: set<Token>, sorted: seq<Candidate>) {
    && (forall j | 0 <= j < |sorted| :: IsCandidate(s, idle, sorted[j]))
    && (forall c :: IsCandidate(s, idle, c) ==> c in sorted)
    && forall j, k | 0 <= j < k < |sorted| :: sorted[j].touch < sorted[k].touch
  }

  lemma {:induction false} NoRepeats(c: seq<Candidate>, x: Candidate)
    requires forall j, k | 0 <= j < k < |c| :: c[j] != c[k]
    ensures multiset(c)[x] <= 1
  {
    if c != [] {
      var last := |c| - 1;
      NoRepeats(c[..last], x);
      assert c == c[..last] + [c[last]];
    }
  }

  lemma Repeats(c: seq<Candidate>, j: nat, k: nat)
    requires j < k < |c| && c[j] == c[k]
    ensures multiset(c)[c[j]] >= 2
  {
    assert c == c[..k] + [c[k]] + c[k + 1..];
    assert c[j] == c[..k][j] && c[j] in multiset(c[..k]);
  }

  lemma SortedIsStrict(s: State, idle: set<Token>, c: seq<Candidate>, sorted: seq<Candidate>)
    requires Valid(s) && IsSorted(sorted) && multiset(sorted) == multiset(c)
    requires forall x :: x in c <==> IsCandidate(s, idle, x)
    requires forall j, k | 0 <= j < k < |c| :: c[j] != c[k]
    ensures Ascends(s, idle, sorted)
  {
    forall x ensures x in sorted <==> IsCandidate(s, idle, x) {
      assert x in sorted <==> x in multiset(sorted);
      assert x in c <==> x in multiset(c);
    }
    forall j | 0 <= j < |sorted| ensures IsCandidate(s, idle, sorted[j]) { assert sorted[j] in sorted; }
    forall j, k | 0 <= j < k < |sorted| ensures sorted[j].touch < sorted[k].touch {
      if sorted[j] == sorted[k] {
        Repeats(sorted, j, k);
        NoRepeats(c, sorted[j]);
        assert false;
      }
      CandidatesApart(s, idle, sorted[j], sorted[k]);
      assert AtMost(sorted[j], sorted[k]);
    }
  }

  lemma CandidatesApart(s: State, idle: set<Token>, a: Candidate, b: Candidate)
    requires Valid(s) && IsCandidate(s, idle, a) && IsCandidate(s, idle, b) && a != b
    ensures a.touch != b.touch
  {
    assert a.id.slot != b.id.slot ==> Apart(EntryAt(s, a.id.slot), EntryAt(s, b.id.slot));
  }

  /** Everything eligible and older than this is evicted once `k` candidates are processed. */
  function Horizon(s: State, sorted: seq<Candidate>, k: nat): nat
    requires k <= |sorted|
  {
    if k < |sorted| then sorted[k].touch else s.touch + 1
  }

  /** Every eligible slot has its place among the candidates, and the horizon passes it there. */
  lemma PlaceOf(s: State, idle: set<Token>, sorted: seq<Candidate>, i: nat) returns (j: nat)
    requires Valid(s) && Ascends(s, idle, sorted)
    requires i < |s.slots| && Eligible(s.slots[i], idle)
    ensures j < |sorted| && sorted[j] == Candidate(EntryAt(s, i).lastTouch, EntryAt(s, i).token.id)
    ensures forall k: nat :: k <= |sorted| ==> (Older(s.slots[i], idle, Horizon(s, sorted, k)) <==> j < k)
    ensures sorted[j].id.slot == i
  {
    assert SlotOk(s, i);
    var c := Candidate(EntryAt(s, i).lastTouch, EntryAt(s, i).token.id);
    assert IsCandidate(s, idle, c);
    j :| 0 <= j < |sorted| && sorted[j] == c;
  }

  lemma NothingBeforeFirst(s: State, idle: set<Token>, sorted: seq<Candidate>)
    requires Valid(s) && Ascends(s, idle, sorted)
    ensures EvictBefore(s.slots, idle, Horizon(s, sorted, 0)) == s.slots
  {
    forall i | 0 <= i < |s.slots| && Eligible(s.slots[i], idle)
      ensures !Older(s.slots[i], idle, Horizon(s, sorted, 0))
    {
      var j := PlaceOf(s, idle, sorted, i);
    }
  }

  /** Evicting the next candidate moves the horizon past it and changes nothing else. */
  lemma EvictNext(s: State, idle: set<Token>, sorted: seq<Candidate>, k: nat, slots: seq<Slot>)
    requires Valid(s) && Ascends(s, idle, sorted) && k < |sorted|
    requires slots == EvictBefore(s.slots, idle, Horizon(s, sorted, k))
    ensures var i := sorted[k].id.slot;
      && i < |slots| && slots[i] == s.slots[i] && Lookup(s.(slots := slots), sorted[k].id) == Ok(EntryAt(s, i))
      && EvictBefore(s.slots, idle, Horizon(s, sorted, k + 1)) == slots[i := EvictedSlot(s.slots[i])]
      && SlotBytes(s.slots[i]) <= TotalBytes(slots)
      && TotalBytes(slots[i := EvictedSlot(s.slots[i])]) == TotalBytes(slots) - SlotBytes(s.slots[i])
  {
    var i := sorted[k].id.slot;
    assert IsCandidate(s, idle, sorted[k]);
    assert SlotOk(s, i);
    var next := EvictBefore(s.slots, idle, Horizon(s, sorted, k + 1));
    forall j | 0 <= j < |s.slots| ensures next[j] == slots[i := EvictedSlot(s.slots[i])][j] {
      if Eligible(s.slots[j], idle) {
        var m := PlaceOf(s, idle, sorted, j);
      }
    }
    assert next == slots[i := EvictedSlot(s.slots[i])];
    TotalBytesUpdate(slots, i, EvictedSlot(s.slots[i]));
  }

  /** Stopping at the budget, or at the end, leaves exactly what the closed form says. */
  lemma StopsRight(s: State, idle: set<Token>, budget: nat, sorted: seq<Candidate>, k: nat)
    requires Valid(s) && Ascends(s, idle, sorted) && k <= |sorted|
    requires forall j | 0 <= j < k :: Evicts(s, idle, budget, sorted[j].id.slot)
    requires k < |sorted| ==> s.readyBytes - BytesBefore(s.slots, idle, sorted[k].touch) <= budget
    ensures EvictBefore(s.slots, idle, Horizon(s, sorted, k)) == Collected(s, idle, budget).slots
    ensures forall i | 0 <= i < |s.slots| && Evicts(s, idle, budget, i) ::
              exists j | 0 <= j < k :: sorted[j].id.slot == i
  {
    forall i | 0 <= i < |s.slots| && Eligible(s.slots[i], idle)
      ensures Evicts(s, idle, budget, i) <==> Older(s.slots[i], idle, Horizon(s, sorted, k))
      ensures Evicts(s, idle, budget, i) ==> exists j | 0 <= j < k :: sorted[j].id.slot == i
    {
      var j := PlaceOf(s, idle, sorted, i);
      if j >= k && k < |sorted| {
        assert IsCandidate(s, idle, sorted[k]);
        BytesBeforeMonotone(s.slots, idle, sorted[k].touch, s.slots[i].entry.value.lastTouch);
      }
    }
  }

  /** State of the eviction loop after `k` candidates. */
  ghost predicate Progress(
    s: State, idle: set<Token>, budget: nat, sorted: seq<Candidate>, k: nat, now: State, evicted: seq<Evicted>)
  {
    && Ascends(s, idle, sorted)
    && k == |evicted| <= |sorted|
    && now.slots == EvictBefore(s.slots, idle, Horizon(s, sorted, k))
    && now == s.(slots := now.slots, readyBytes := TotalBytes(now.slots))
    && forall j | 0 <= j < k ::
         && Evicts(s, idle, budget, sorted[j].id.slot)
         && evicted[j] == EvictionOf(EntryAt(s, sorted[j].id.slot))
  }

  lemma ProgressStep(
    s: State, idle: set<Token>, budget: nat, sorted: seq<Candidate>, k: nat,
    now: State, evicted: seq<Evicted>, next: State, more: seq<Evicted>)
    requires Valid(s) && Progress(s, idle, budget, sorted, k, now, evicted)
    requires k < |sorted| && now.readyBytes > budget
    requires var i := sorted[k].id.slot;
      && i < |now.slots| && SlotBytes(s.slots[i]) <= now.readyBytes
      && next == now.(slots := now.slots[i := EvictedSlot(s.slots[i])],
                      readyBytes := now.readyBytes - SlotBytes(s.slots[i]))
      && more == evicted + [EvictionOf(EntryAt(s, i))]
    ensures Progress(s, idle, budget, sorted, k + 1, next, more)
  {
    EvictNext(s, idle, sorted, k, now.slots);
    EvictBeforeBytes(s.slots, idle, Horizon(s, sorted, k));
    assert IsCandidate(s, idle, sorted[k]);
  }

  lemma ProgressEnds(
    s: State, idle: set<Token>, budget: nat, sorted: seq<Candidate>, k: nat, now: State, evicted: seq<Evicted>)
    requires Valid(s) && Progress(s, idle, budget, sorted, k, now, evicted)
    requires k == |sorted| || now.readyBytes <= budget
    ensures now == Collected(s, idle, budget) && Reports(s, idle, budget, evicted)
  {
    EvictBeforeBytes(s.slots, idle, Horizon(s, sorted, k));
    StopsRight(s, idle, budget, sorted, k);
    assert forall j | 0 <= j < k :: evicted[j].id == sorted[j].id && EvictedTouch(s, evicted[j]) == sorted[j].touch;
    forall i | 0 <= i < |s.slots| && Evicts(s, idle, budget, i)
      ensures exists j | 0 <= j < |evicted| :: evicted[j].id.slot == i
    {
      var j :| 0 <= j < k && sorted[j].id.slot == i;
      assert evicted[j].id.slot == i;
    }
  }
}
