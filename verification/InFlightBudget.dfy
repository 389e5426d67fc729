/**
 The loader's cap on temporary bytes and tasks. A reservation is released by its drop,
 exactly once; the ghost ledger lists the reservations not yet dropped.
 */
module InFlightBudget {
  import opened Prelude

  datatype Lease = Lease(reservation: Reservation, bytes: nat)

  /** Bytes of the first `n` leases. */
  function Sum(ledger: seq<Lease>, n: nat): nat
    requires n <= |ledger|
  {
    if n == 0 then 0 else Sum(ledger, n - 1) + ledger[n - 1].bytes
  }

  function Total(ledger: seq<Lease>): nat {
    Sum(ledger, |ledger|)
  }

  lemma {:induction false} SumOfPrefix(a: seq<Lease>, b: seq<Lease>, n: nat)
    requires n <= |a| && n <= |b| && forall k | 0 <= k < n :: a[k] == b[k]
    ensures Sum(a, n) == Sum(b, n)
  {
    if n > 0 { SumOfPrefix(a, b, n - 1); }
  }

  function Without(ledger: seq<Lease>, i: nat): seq<Lease>
    requires i < |ledger|
  {
    ledger[..i] + ledger[i + 1..]
  }

  lemma {:induction false} SumWithout(ledger: seq<Lease>, i: nat, n: nat)
    requires i < n <= |ledger|
    ensures Sum(ledger, n) == Sum(Without(ledger, i), n - 1) + ledger[i].bytes
  {
    if n == i + 1 {
      SumOfPrefix(ledger, Without(ledger, i), i);
    } else {
      SumWithout(ledger, i, n - 1);
      assert Without(ledger, i)[n - 2] == ledger[n - 1];
    }
  }

  /** Every lease is part of the total, and leaves with exactly its own bytes. */
  lemma TotalWithout(ledger: seq<Lease>, i: nat)
    requires i < |ledger|
    ensures Total(ledger) == Total(Without(ledger, i)) + ledger[i].bytes
  {
    SumWithout(ledger, i, |ledger|);
  }

  lemma TotalChanged(ledger: seq<Lease>, i: nat, lease: Lease)
    requires i < |ledger|
    ensures Total(ledger[i := lease]) == Total(ledger) - ledger[i].bytes + lease.bytes
  {
    TotalWithout(ledger, i);
    TotalWithout(ledger[i := lease], i);
    assert Without(ledger[i := lease], i) == Without(ledger, i);
  }

  lemma TotalPushed(ledger: seq<Lease>, lease: Lease)
    ensures Total(ledger + [lease]) == Total(ledger) + lease.bytes
  {
    SumOfPrefix(ledger + [lease], ledger, |ledger|);
  }

  predicate Distinct(ledger: seq<Lease>) {
    forall i, j | 0 <= i < j < |ledger| :: ledger[i].reservation != ledger[j].reservation
  }

  class InFlightBudget {
    const maximumBytes: nat
    const maximumTasks: nat
    /** The machine's `usize::MAX`. */
    const usizeMax: nat
    var reservedBytes: nat
    var tasks: nat
    ghost var ledger: seq<Lease>

    /** Reserved bytes and tasks are those of the live reservations, and within the limits. */
    ghost predicate Valid()
      reads this
    {
      && maximumBytes <= U64_MAX && maximumTasks <= usizeMax
      && reservedBytes == Total(ledger) <= maximumBytes
      && tasks == |ledger| <= maximumTasks
      && Distinct(ledger)
    }

    constructor (maximumBytes: nat, maximumTasks: nat, usizeMax: nat)
      requires maximumBytes <= U64_MAX && maximumTasks <= usizeMax
      ensures Valid() && ledger == [] && reservedBytes == tasks == 0
      ensures this.maximumBytes == maximumBytes && this.maximumTasks == maximumTasks
    {
      this.maximumBytes, this.maximumTasks, this.usizeMax := maximumBytes, maximumTasks, usizeMax;
      reservedBytes, tasks, ledger := 0, 0, [];
    }

    method ReserveSlot() returns (r: Option<Reservation>)
      requires Valid()
      modifies this
      ensures Valid() && reservedBytes == old(reservedBytes)
      ensures r.Some? <==> old(tasks) < maximumTasks
      ensures r.Some? ==> fresh(r.value) && r.value.budget == this && ledger == old(ledger) + [Lease(r.value, 0)]
      ensures r.Some? ==> r.value.LiveAt(|ledger| - 1)
      ensures r.None? ==> ledger == old(ledger)
    {
      if tasks == usizeMax { return None; }
      if tasks + 1 > maximumTasks { return None; }
      tasks := tasks + 1;
      var reservation := new Reservation(this);
      TotalPushed(ledger, Lease(reservation, 0));
      ledger := ledger + [Lease(reservation, 0)];
      return Some(reservation);
    }

    /** All or nothing: a refused reservation gives its task slot back. */
    method Reserve(bytes: nat) returns (r: Option<Reservation>)
      requires Valid() && bytes <= U64_MAX
      modifies this
      ensures Valid()
      ensures r.Some? <==> old(tasks) < maximumTasks && old(reservedBytes) + bytes <= maximumBytes
      ensures r.Some? ==> fresh(r.value) && r.value.budget == this && ledger == old(ledger) + [Lease(r.value, bytes)]
      ensures r.Some? ==> r.value.LiveAt(|ledger| - 1)
      ensures r.None? ==> ledger == old(ledger)
    {
      r := ReserveSlot();
      if r.Some? {
        var increased := r.value.Increase(bytes, |ledger| - 1);
        if !increased {
          assert Without(ledger, |ledger| - 1) == old(ledger);
          r.value.Drop(|ledger| - 1);
          r := None;
        }
      }
    }
  }

  class Reservation {
    const budget: InFlightBudget
    var bytes: nat

    constructor (budget: InFlightBudget)
      ensures this.budget == budget && bytes == 0
    {
      this.budget, bytes := budget, 0;
    }

    /** This reservation is the live one at `at` in the ledger. */
    ghost predicate LiveAt(at: nat)
      reads this, budget
    {
      budget.Valid() && at < |budget.ledger| && budget.ledger[at] == Lease(this, bytes)
    }

    /** Granted exactly when the limit allows; a refusal changes nothing. */
    method Increase(more: nat, ghost at: nat) returns (granted: bool)
      requires LiveAt(at) && more <= U64_MAX
      modifies this`bytes, budget`reservedBytes, budget`ledger
      ensures LiveAt(at)
      ensures granted <==> old(budget.reservedBytes) + more <= budget.maximumBytes
      ensures granted ==> budget.ledger == old(budget.ledger)[at := Lease(this, old(bytes) + more)]
      ensures !granted ==> budget.ledger == old(budget.ledger) && bytes == old(bytes)
    {
      var next := budget.reservedBytes + more;
      if next > U64_MAX { return false; }
      if next > budget.maximumBytes { return false; }
      TotalWithout(budget.ledger, at);
      assert bytes + more <= U64_MAX;
      TotalChanged(budget.ledger, at, Lease(this, bytes + more));
      budget.reservedBytes := next;
      bytes := bytes + more;
      budget.ledger := budget.ledger[at := Lease(this, bytes)];
      return true;
    }

    /** Releases exactly what was reserved; both subtractions always succeed. */
    method Drop(ghost at: nat)
      requires LiveAt(at)
      modifies budget
      ensures budget.Valid() && budget.ledger == Without(old(budget.ledger), at)
      ensures budget.reservedBytes == old(budget.reservedBytes) - bytes && budget.tasks == old(budget.tasks) - 1
    {
      TotalWithout(budget.ledger, at);
      assert bytes <= budget.reservedBytes && 1 <= budget.tasks;
      budget.reservedBytes := budget.reservedBytes - bytes;
      budget.tasks := budget.tasks - 1;
      budget.ledger := Without(budget.ledger, at);
    }
  }
}
