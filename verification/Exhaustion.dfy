/**
 A run in which dropping a permit does not end its attempt: create, acquire, and then
 observe until no touch is left.
 */
module Exhaustion {
  import opened Prelude
  import opened StoreState
  import opened StoreInvariant
  import opened StoreWorld
  import opened WorldRuns

  const Id := AssetId(1, 0, 1)
  const Handle := Token(0, Id)
  const TheOne := Permit(Id, 1, 1)

  /** The store after `k` steps. */
  function StoreAt(k: nat): State {
    if k == 0 then Empty(1)
    else if k == 1 then State(1, [Slot(1, Some(Entry(Handle, Missing, 0, 0, 1)))], {}, 0, 1, 1, {Id})
    else State(1, [Slot(1, Some(Entry(Handle, Producing(1, None, 1), 0, 1, k)))], {}, 0, k, 2, {Id})
  }

  function WorldAt(k: nat): World {
    if k == 0 then Start(1) else
    var created := Start(1).(store := StoreAt(k), users := multiset{Handle}, tokens := {Handle});
    if k == 1 then created else created.(permits := {TheOne}, attempts := map[1 := TheOne])
  }

  function ActionAt(k: nat): Action {
    if k == 0 then DoCreate else if k == 1 then DoHandle(OpAcquire, Handle) else DoObserve(Handle)
  }

  lemma StoreAtIsValid(k: nat)
    requires k <= U64_MAX
    ensures Valid(StoreAt(k))
  {
    var s := StoreAt(k);
    if k > 0 {
      assert s.slots[..0] == [];
      assert SlotOk(s, 0);
      forall id ensures id in s.issued <==> WasIssued(s, id) {}
    }
  }

  lemma NextWorld(k: nat)
    requires k < U64_MAX
    ensures Valid(WorldAt(k).store) && Can(WorldAt(k), ActionAt(k))
    ensures Do(WorldAt(k), ActionAt(k)) == WorldAt(k + 1)
  {
    StoreAtIsValid(k);
    if k == 0 { FirstStep(); } else if k == 1 { SecondStep(); } else { ObserveAgain(k); }
  }

  lemma FirstStep()
    ensures Valid(WorldAt(0).store) && AfterCreate(WorldAt(0)) == WorldAt(1)
  {
    StoreAtIsValid(0);
    assert Create(StoreAt(0)).state.slots == StoreAt(1).slots;
    assert multiset{} + multiset{Handle} == multiset{Handle};
  }

  lemma SecondStep()
    ensures AfterHandle(WorldAt(1), OpAcquire, Handle) == WorldAt(2)
  {
    assert Acquire(StoreAt(1), Handle).state.slots == StoreAt(2).slots;
  }

  lemma ObserveAgain(k: nat)
    requires 2 <= k < U64_MAX
    ensures AfterObserve(WorldAt(k), Handle) == WorldAt(k + 1)
  {
    assert Observe(StoreAt(k), Handle).state.slots == StoreAt(k + 1).slots;
  }

  lemma LastStep()
    ensures var w, n := WorldAt(U64_MAX), AfterDrop(WorldAt(U64_MAX), TheOne);
      && Valid(w.store) && Can(w, DropPermit(TheOne)) && Do(w, DropPermit(TheOne)) == n
      && n == w.(permits := {}) && Guards(n.store, TheOne)
  {
    StoreAtIsValid(U64_MAX);
  }

  /** The whole run: observe until no touch is left, then drop. */
  function Now(k: nat): World {
    if k <= U64_MAX then WorldAt(k) else WorldAt(U64_MAX).(permits := {})
  }

  function Then(k: nat): Action {
    if k < U64_MAX then ActionAt(k) else DropPermit(TheOne)
  }

  lemma EachStep(k: nat)
    requires k <= U64_MAX
    ensures Valid(Now(k).store) && Can(Now(k), Then(k)) && Do(Now(k), Then(k)) == Now(k + 1)
  {
    if k < U64_MAX { NextWorld(k); } else { LastStep(); }
  }

  lemma EachStepAt(run: seq<World>, actions: seq<Action>, k: nat)
    requires k <= U64_MAX && k < |actions| && k + 1 < |run|
    requires run[k] == Now(k) && run[k + 1] == Now(k + 1) && actions[k] == Then(k)
    ensures StepAt(run, actions, k)
  {
    EachStep(k);
  }

  lemma TheRun() returns (run: seq<World>, actions: seq<Action>)
    ensures IsRun(run, actions) && |actions| == U64_MAX + 1
    ensures run[|actions|] == Now(|actions|) && actions[U64_MAX] == DropPermit(TheOne)
  {
    actions := seq(U64_MAX + 1, k requires 0 <= k <= U64_MAX => Then(k));
    run := seq(U64_MAX + 2, k requires 0 <= k < U64_MAX + 2 => Now(k));
    forall k: nat | k < |actions| ensures StepAt(run, actions, k) { EachStepAt(run, actions, k); }
  }

  /** Dropping the only permit of an open store can leave its attempt running with nothing decided. */
  lemma DropCanStrand() returns (run: seq<World>, actions: seq<Action>)
    ensures IsRun(run, actions) && |actions| > 0 && actions[|actions| - 1] == DropPermit(TheOne)
    ensures var last := run[|run| - 1];
      && last.open && last.permits == {} && Guards(last.store, TheOne)
      && TheOne.cell !in last.pending && TheOne.cell !in last.outcomes
  {
    LastStep();
    run, actions := TheRun();
  }
}
