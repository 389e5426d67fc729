/** The lock-free allocator of store identities: any number of threads, one atomic, spurious failures. */
module StoreIds {
  import opened Prelude

  /** A caller is idle, about to compare-and-exchange what it last read, or found the ids exhausted. */
  datatype Caller = Idle | Read(id: nat) | Panicked

  /** `next` is the atomic; `returned` the ids handed out so far, oldest first. */
  datatype Allocator = Allocator(next: nat, callers: map<nat, Caller>, returned: seq<nat>)

  const Initial := Allocator(1, map[], [])

  datatype Step = Load(caller: nat) | Exchange(caller: nat, spurious: bool)

  function CallerOf(a: Allocator, t: nat): Caller {
    if t in a.callers then a.callers[t] else Idle
  }

  predicate Can(a: Allocator, s: Step) {
    match s
    case Load(t) => !CallerOf(a, t).Read?
    case Exchange(t, _) => CallerOf(a, t).Read?
  }

  /** A failed exchange reports the current value, which is tried next. */
  function Do(a: Allocator, s: Step): Allocator
    requires Can(a, s)
  {
    match s
    case Load(t) => a.(callers := a.callers[t := Read(a.next)])
    case Exchange(t, spurious) =>
      var id := CallerOf(a, t).id;
      if id == U64_MAX then a.(callers := a.callers[t := Panicked])
      else if a.next == id && !spurious then Allocator(id + 1, a.callers[t := Idle], a.returned + [id])
      else a.(callers := a.callers[t := Read(a.next)])
  }

  /** Nobody has read past `next`, and only an exhausted id space makes a caller panic. */
  predicate CallerOk(a: Allocator, c: Caller) {
    match c
    case Idle => true
    case Read(id) => 1 <= id <= a.next
    case Panicked => a.next == U64_MAX
  }

  /** What was handed out are the ids below `next`, in order. */
  ghost predicate Valid(a: Allocator) {
    && 1 <= a.next <= U64_MAX
    && (forall t: nat :: CallerOk(a, CallerOf(a, t)))
    && |a.returned| == a.next - 1
    && forall i | 0 <= i < |a.returned| :: a.returned[i] == i + 1
  }

  lemma StepKeepsValid(a: Allocator, s: Step)
    requires Valid(a) && Can(a, s)
    ensures Valid(Do(a, s))
  {
    var n := Do(a, s);
    assert CallerOk(a, CallerOf(a, s.caller));
    forall t: nat ensures CallerOk(n, CallerOf(n, t)) {
      if t != s.caller { assert CallerOf(n, t) == CallerOf(a, t) && CallerOk(a, CallerOf(a, t)); }
    }
  }

  predicate StepAt(run: seq<Allocator>, steps: seq<Step>, k: nat)
    requires k < |steps| && k + 1 < |run|
  {
    Can(run[k], steps[k]) && run[k + 1] == Do(run[k], steps[k])
  }

  ghost predicate IsRun(run: seq<Allocator>, steps: seq<Step>) {
    |run| == |steps| + 1 && run[0] == Initial && forall k: nat | k < |steps| :: StepAt(run, steps, k)
  }

  lemma {:induction false} RunKeepsValid(run: seq<Allocator>, steps: seq<Step>, k: nat)
    requires IsRun(run, steps) && k < |run|
    ensures Valid(run[k])
  {
    if k > 0 {
      RunKeepsValid(run, steps, k - 1);
      assert StepAt(run, steps, k - 1);
      StepKeepsValid(run[k - 1], steps[k - 1]);
    }
  }

  /** In every run all ids ever returned are distinct, nonzero and fit the machine word. */
  lemma IdsAreUnique(run: seq<Allocator>, steps: seq<Step>, k: nat)
    requires IsRun(run, steps) && k < |run|
    ensures forall i, j | 0 <= i < j < |run[k].returned| :: run[k].returned[i] != run[k].returned[j]
    ensures forall id :: id in run[k].returned <==> 1 <= id < run[k].next
  {
    RunKeepsValid(run, steps, k);
    var a := run[k];
    forall id | 1 <= id < a.next ensures id in a.returned { assert a.returned[id - 1] == id; }
  }

  /** A caller panics exactly when it finds the space exhausted, and then no id is left for anyone. */
  lemma PanicsWhenExhausted(run: seq<Allocator>, steps: seq<Step>, k: nat, t: nat, spurious: bool)
    requires IsRun(run, steps) && k < |run| && CallerOf(run[k], t).Read?
    ensures var n := Do(run[k], Exchange(t, spurious));
      && (CallerOf(n, t).Panicked? <==> CallerOf(run[k], t).id == U64_MAX)
      && (CallerOf(n, t).Panicked? ==> run[k].next == U64_MAX && |run[k].returned| == U64_MAX - 1)
  {
    RunKeepsValid(run, steps, k);
    assert CallerOk(run[k], CallerOf(run[k], t));
  }

  /** Once exhausted the allocator hands out nothing more: no id is ever repeated. */
  lemma ExhaustedStaysExhausted(run: seq<Allocator>, steps: seq<Step>, k: nat, s: Step)
    requires IsRun(run, steps) && k < |run| && run[k].next == U64_MAX && Can(run[k], s)
    ensures Do(run[k], s).next == U64_MAX && Do(run[k], s).returned == run[k].returned
  {
    RunKeepsValid(run, steps, k);
    assert CallerOk(run[k], CallerOf(run[k], s.caller));
  }

  /** An exchange that does not succeed, fail spuriously or panic lost to an allocation made since its read. */
  lemma OnlyProgressDefeats(run: seq<Allocator>, steps: seq<Step>, k: nat, t: nat)
    requires IsRun(run, steps) && k < |run| && CallerOf(run[k], t).Read?
    ensures var a, n := run[k], Do(run[k], Exchange(t, false));
      CallerOf(n, t).Read? <==> (exists id :: id in a.returned && id >= CallerOf(a, t).id)
  {
    RunKeepsValid(run, steps, k);
    IdsAreUnique(run, steps, k);
    assert CallerOk(run[k], CallerOf(run[k], t));
    if CallerOf(run[k], t).id < run[k].next { assert CallerOf(run[k], t).id in run[k].returned; }
  }
}
