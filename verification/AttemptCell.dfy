/**
 The attempt cell as the objects it is made of. Each method up to `Poll` is one critical
 section; `Complete`, `Record` and `Poll` chain them as the source does, run alone.
 AttemptProtocol has the same sections as steps of any interleaving.
 */
module AttemptCell {
  import opened Prelude
  import opened StoreState
  import opened AttemptProtocol

  class WakerSlot {
    var waker: Option<Waker>

    constructor ()
      ensures waker == None
    {
      waker := None;
    }

    method Matches(k: Waker) returns (same: bool)
      ensures same <==> waker == Some(k)
    {
      return waker == Some(k);
    }

    /** The displaced waker is handed out, to be dropped outside the lock. */
    method Install(k: Waker) returns (displaced: Option<Waker>)
      modifies this
      ensures waker == Some(k) && displaced == if old(waker) == Some(k) then None else old(waker)
    {
      if waker == Some(k) { return None; }
      displaced := waker;
      waker := Some(k);
    }

    method Take() returns (taken: Option<Waker>)
      modifies this
      ensures taken == old(waker) && waker == None
    {
      taken := waker;
      waker := None;
    }

    method Record(k: Waker)
      modifies this
      ensures waker == Some(k)
    {
      var same := Matches(k);
      if same { return; }
      var displaced := Install(k);
    }
  }

  /** The wakers found when slots with these contents are visited in this order. */
  function Found(contents: map<nat, Option<Waker>>, order: seq<nat>): seq<Waker>
    requires forall i | 0 <= i < |order| :: order[i] in contents
  {
    if order == [] then [] else
    var last := contents[order[|order| - 1]];
    Found(contents, order[..|order| - 1]) + if last.Some? then [last.value] else []
  }

  /** Every waker of a visited slot is found, whatever the order. */
  lemma {:induction false} FoundAll(contents: map<nat, Option<Waker>>, order: seq<nat>, i: nat)
    requires forall j | 0 <= j < |order| :: order[j] in contents
    requires i < |order| && contents[order[i]].Some?
    ensures contents[order[i]].value in Found(contents, order)
  {
    if i < |order| - 1 { FoundAll(contents, order[..|order| - 1], i); }
  }

  /** `order` visits these keys, each once. */
  ghost predicate Visits(keys: set<nat>, order: seq<nat>) {
    && (forall key :: key in order <==> key in keys)
    && forall i, j | 0 <= i < j < |order| :: order[i] != order[j]
  }

  /** The order in which a hash map yields its keys is anyone's. */
  method SomeOrder(keys: set<nat>) returns (order: seq<nat>)
    ensures Visits(keys, order)
  {
    var left := keys;
    order := [];
    while left != {}
      invariant left <= keys && Visits(keys - left, order)
    {
      var key :| key in left;
      left := left - {key};
      order := order + [key];
    }
    assert keys - left == keys;
  }

  /** And nothing else is found. */
  lemma {:induction false} FoundOnly(contents: map<nat, Option<Waker>>, order: seq<nat>, k: Waker)
    requires forall j | 0 <= j < |order| :: order[j] in contents
    requires k in Found(contents, order)
    ensures exists i :: 0 <= i < |order| && contents[order[i]] == Some(k)
  {
    var front := order[..|order| - 1];
    if k in Found(contents, front) {
      FoundOnly(contents, front, k);
      var i :| 0 <= i < |front| && contents[front[i]] == Some(k);
      assert contents[order[i]] == Some(k);
    }
  }

  /** And each visited slot yields its waker once. */
  lemma {:induction false} FoundOnce(contents: map<nat, Option<Waker>>, order: seq<nat>)
    requires forall j | 0 <= j < |order| :: order[j] in contents
    ensures |Found(contents, order)| == |set i | 0 <= i < |order| && contents[order[i]].Some?|
  {
    if order != [] {
      var last := |order| - 1;
      FoundOnce(contents, order[..last]);
      var front := set i | 0 <= i < last && contents[order[..last][i]].Some?;
      assert (set i | 0 <= i < |order| && contents[order[i]].Some?)
          == front + if contents[order[last]].Some? then {last} else {};
      assert front == set i | 0 <= i < |order[..last]| && contents[order[..last][i]].Some?;
    }
  }

  ghost predicate Unshared(slots: map<nat, WakerSlot>) {
    forall i, j :: i in slots && j in slots && i != j ==> slots[i] != slots[j]
  }

  /** Takes one slot's waker and leaves the other slots alone. */
  method TakeFrom(slots: map<nat, WakerSlot>, key: nat) returns (taken: Option<Waker>)
    requires Unshared(slots) && key in slots
    modifies slots[key]
    ensures taken == old(slots[key].waker) && slots[key].waker == None
    ensures forall j :: j in slots && j != key ==> slots[j].waker == old(slots[j].waker)
  {
    taken := slots[key].Take();
  }

  class WaiterRegistry {
    var nextKey: nat
    var slots: map<nat, WakerSlot>

    /** Keys are never reused and slots never shared. */
    ghost predicate Valid()
      reads this
    {
      && nextKey <= U64_MAX
      && (forall key :: key in slots ==> 1 <= key <= nextKey)
      && Unshared(slots)
    }

    ghost function Contents(): map<nat, Option<Waker>>
      reads this, slots.Values
    {
      map key | key in slots :: slots[key].waker
    }

    constructor ()
      ensures Valid() && slots == map[] && nextKey == 0
    {
      nextKey, slots := 0, map[];
    }

    /** None stands for the panic on exhausted keys. */
    method Register() returns (r: Option<(nat, WakerSlot)>)
      requires Valid()
      modifies this
      ensures Valid()
      ensures r.None? <==> old(nextKey) == U64_MAX
      ensures r.None? ==> slots == old(slots)
      ensures r.Some? ==>
        && r.value.0 !in old(slots) && r.value.0 > old(nextKey) && fresh(r.value.1) && r.value.1.waker == None
        && slots == old(slots)[r.value.0 := r.value.1]
    {
      if nextKey == U64_MAX { return None; }
      nextKey := nextKey + 1;
      var slot := new WakerSlot();
      slots := slots[nextKey := slot];
      return Some((nextKey, slot));
    }

    method Deregister(key: nat)
      requires Valid()
      modifies this`slots
      ensures Valid() && slots == old(slots) - {key}
    {
      slots := slots - {key};
    }

    /** Drains the whole registry: every waker of every registered slot is taken, once. */
    method TakeWakers() returns (wakers: seq<Waker>, order: seq<nat>)
      requires Valid()
      modifies this`slots, slots.Values
      ensures Valid() && slots == map[]
      ensures Visits(old(slots).Keys, order) && wakers == Found(old(Contents()), order)
      ensures forall key :: key in old(slots) ==> old(slots)[key].waker == None
    {
      ghost var contents := Contents();
      var taken := slots;
      slots := map[];
      order := SomeOrder(taken.Keys);
      wakers := [];
      for i := 0 to |order|
        modifies taken.Values
        invariant wakers == Found(contents, order[..i])
        invariant forall j | 0 <= j < |order| :: taken[order[j]].waker == if j < i then None else contents[order[j]]
      {
        var waker := TakeFrom(taken, order[i]);
        assert order[..i + 1][..i] == order[..i];
        if waker.Some? { wakers := wakers + [waker.value]; }
      }
      assert order[..|order|] == order;
    }
  }

  class AttemptCell {
    var outcome: Option<Outcome>
    const registry: WaiterRegistry

    constructor ()
      ensures outcome == None && fresh(registry) && registry.Valid() && registry.slots == map[]
    {
      outcome := None;
      registry := new WaiterRegistry();
    }

    /** Written once: a later outcome is refused. */
    method Publish(decided: Outcome) returns (won: bool)
      modifies this
      ensures won <==> old(outcome) == None
      ensures outcome == if won then Some(decided) else old(outcome)
    {
      if outcome.Some? { return false; }
      outcome := Some(decided);
      return true;
    }

    /** `woken`: the wakers called, in order, after the registry was unlocked. */
    method Complete(decided: Outcome) returns (woken: seq<Waker>, order: seq<nat>)
      requires registry.Valid()
      modifies this, registry`slots, registry.slots.Values
      ensures registry.Valid()
      ensures outcome == if old(outcome).None? then Some(decided) else old(outcome)
      ensures old(outcome).Some? ==> woken == [] && registry.slots == old(registry.slots)
      ensures old(outcome).None? ==>
        && registry.slots == map[]
        && Visits(old(registry.slots).Keys, order)
        && woken == Found(old(registry.Contents()), order)
    {
      woken, order := [], [];
      var won := Publish(decided);
      if !won { return; }
      var wakers;
      wakers, order := registry.TakeWakers();
      for i := 0 to |wakers|
        invariant woken == wakers[..i]
      {
        woken := woken + [wakers[i]];
      }
    }

    /** None is Pending, and then the slot holds this poll's waker. */
    method Poll(slot: WakerSlot, k: Waker) returns (r: Option<Outcome>)
      modifies slot
      ensures r == outcome && (r.None? ==> slot.waker == Some(k))
    {
      if outcome.Some? { return outcome; }
      slot.Record(k);
      return outcome;
    }
  }
}
