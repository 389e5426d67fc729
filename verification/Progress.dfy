/** Nothing gets stuck: from every reachable state the callers can bring every attempt to its outcome. */
module Progress {
  import opened Prelude
  import opened StoreState
  import opened StoreInvariant
  import opened StoreWorld
  import opened WorldInvariant
  import opened WorldRuns

  function Last(run: seq<World>): World
    requires run != []
  {
    run[|run| - 1]
  }

  /** `more` is `run` continued: every step the callers of `run` took, and then some. */
  ghost predicate Continues(run: seq<World>, actions: seq<Action>, more: seq<World>, further: seq<Action>) {
    IsRun(run, actions) && IsRun(more, further) && run <= more && actions <= further
  }

  lemma ContinuesTo(run: seq<World>, actions: seq<Action>, a: Action, n: World)
    requires IsRun(run, actions) && Valid(Last(run).store) && Can(Last(run), a) && n == Do(Last(run), a)
    ensures Continues(run, actions, run + [n], actions + [a])
  {
    forall k: nat | k < |actions| + 1 ensures StepAt(run + [n], actions + [a], k) {
      if k < |actions| { assert StepAt(run, actions, k); }
    }
  }

  lemma ContinuesOn(
    run: seq<World>, actions: seq<Action>, more: seq<World>, further: seq<Action>, most: seq<World>, all: seq<Action>)
    requires Continues(run, actions, more, further) && Continues(more, further, most, all)
    ensures Continues(run, actions, most, all)
  {
  }

  /** No attempt was started, and the store was not closed. */
  predicate Kept(w: World, n: World) {
    n.attempts == w.attempts && n.open == w.open
  }

  function ToScan(w: World): int {
    if w.scan.Some? then 1 + |w.store.slots| - w.scan.value.next else 0
  }

  lemma CollectMoves(w: World, a: Action)
    requires Inv(w) && Can(w, a) && (a.CollectScan? || a.CollectEnd?)
    ensures var n := Do(w, a);
      && 0 <= ToScan(n) < ToScan(w) && Kept(w, n) && n.permits == w.permits && n.store.touch == w.store.touch
  {
    if a.CollectScan? { assert Do(w, a) == AfterScan(w); } else { assert Do(w, a) == AfterCollect(w); }
  }

  lemma CollectOnce(run: seq<World>, actions: seq<Action>) returns (a: Action, n: World)
    requires IsRun(run, actions) && Last(run).scan.Some?
    ensures Continues(run, actions, run + [n], actions + [a])
    ensures var w := Last(run);
      && 0 <= ToScan(n) < ToScan(w) && Kept(w, n) && n.permits == w.permits && n.store.touch == w.store.touch
  {
    RunKeepsInv(run, actions, |actions|);
    var w := Last(run);
    a := if w.scan.value.next < |w.store.slots| then CollectScan else CollectEnd;
    n := Do(w, a);
    CollectMoves(w, a);
    ContinuesTo(run, actions, a, n);
  }

  /** A collection under way can be finished. */
  lemma {:induction false} CollectionEnds(run: seq<World>, actions: seq<Action>)
    returns (more: seq<World>, further: seq<Action>)
    requires IsRun(run, actions)
    ensures Continues(run, actions, more, further) && Last(more).scan.None? && Kept(Last(run), Last(more))
    ensures Last(more).permits == Last(run).permits && Last(more).store.touch == Last(run).store.touch
    decreases ToScan(Last(run))
  {
    if Last(run).scan.None? {
      more, further := run, actions;
    } else {
      var a, n := CollectOnce(run, actions);
      more, further := CollectionEnds(run + [n], actions + [a]);
      ContinuesOn(run, actions, run + [n], actions + [a], more, further);
    }
  }

  /** Permits can be dropped, one touch each. */
  lemma {:induction false} PermitsGo(run: seq<World>, actions: seq<Action>)
    returns (more: seq<World>, further: seq<Action>)
    requires IsRun(run, actions) && Last(run).scan.None?
    ensures Continues(run, actions, more, further)
    ensures Last(more).permits == {} && Kept(Last(run), Last(more))
    ensures Last(more).store.touch <= Last(run).store.touch + |Last(run).permits|
    decreases |Last(run).permits|
  {
    RunKeepsInv(run, actions, |actions|);
    var w := Last(run);
    if w.permits == {} {
      more, further := run, actions;
    } else {
      var p :| p in w.permits;
      var n := AfterDrop(w, p);
      DropMoves(w, p);
      ContinuesTo(run, actions, DropPermit(p), n);
      more, further := PermitsGo(run + [n], actions + [DropPermit(p)]);
      ContinuesOn(run, actions, run + [n], actions + [DropPermit(p)], more, further);
    }
  }

  lemma DropMoves(w: World, p: Permit)
    requires p in w.permits
    ensures var n := AfterDrop(w, p);
      && n.permits == w.permits - {p} && n.scan == w.scan && Kept(w, n)
      && n.store.touch <= w.store.touch + 1
  {
  }

  /** Decided outcomes can be published, the store lock held or not. */
  lemma {:induction false} CompletionsRun(run: seq<World>, actions: seq<Action>)
    returns (more: seq<World>, further: seq<Action>)
    requires IsRun(run, actions)
    ensures Continues(run, actions, more, further)
    ensures Last(more).pending == map[] && Last(more).permits == Last(run).permits && Kept(Last(run), Last(more))
    ensures Last(more).store == Last(run).store
    decreases |Last(run).pending|
  {
    if Last(run).pending == map[] {
      more, further := run, actions;
    } else {
      var a, n := CompleteOnce(run, actions);
      more, further := CompletionsRun(run + [n], actions + [a]);
      ContinuesOn(run, actions, run + [n], actions + [a], more, further);
    }
  }

  lemma CompleteOnce(run: seq<World>, actions: seq<Action>) returns (a: Action, n: World)
    requires IsRun(run, actions) && Last(run).pending != map[]
    ensures Continues(run, actions, run + [n], actions + [a])
    ensures var w := Last(run);
      |n.pending| < |w.pending| && n.permits == w.permits && n.store == w.store && Kept(w, n)
  {
    RunKeepsInv(run, actions, |actions|);
    var w := Last(run);
    var c :| c in w.pending;
    a, n := Complete(c), AfterComplete(w, c);
    CompleteMoves(w, c);
    ContinuesTo(run, actions, a, n);
  }

  lemma CompleteMoves(w: World, c: nat)
    requires c in w.pending
    ensures var n := AfterComplete(w, c);
      |n.pending| < |w.pending| && n.permits == w.permits && n.store == w.store && Kept(w, n)
  {
    assert (w.pending - {c}).Keys == w.pending.Keys - {c};
  }

  /**
   Every run can be continued, by finishing the collection, dropping permits and completing
   cells, until every attempt ever started has its outcome, as long as a touch is left for
   each permit or the store is closed: nothing the callers did before can prevent it.
   */
  lemma EveryAttemptCanEnd(run: seq<World>, actions: seq<Action>)
    returns (more: seq<World>, further: seq<Action>)
    requires IsRun(run, actions)
    requires Last(run).store.touch + |Last(run).permits| < U64_MAX || !Last(run).open
    ensures Continues(run, actions, more, further)
    ensures Last(more).permits == {} && Last(more).pending == map[]
    ensures Last(more).attempts == Last(run).attempts && Last(more).outcomes.Keys == Last(run).attempts.Keys
  {
    var collected, collect := CollectionEnds(run, actions);
    var dropped, drop := PermitsGo(collected, collect);
    var done, complete := CompletionsRun(dropped, drop);
    ContinuesOn(run, actions, collected, collect, dropped, drop);
    ContinuesOn(run, actions, dropped, drop, done, complete);
    QuiescentIsComplete(done, complete, |complete|);
    more, further := done, complete;
  }

  /** Owning something is all it takes to use it, and only the store lock makes its owner wait. */
  lemma HandlesAreUsable(w: World, t: Token, op: HandleOp)
    ensures t in w.users ==> Can(w, CloneHandle(t)) && Can(w, DropHandle(t))
    ensures t in w.users && w.open && w.scan.None? ==> Can(w, DoHandle(op, t)) && Can(w, DoObserve(t))
    ensures t in w.tokens && w.open && w.scan.None? ==> Can(w, DoUpgrade(t))
  {
  }

  lemma PermitsAreUsable(w: World, p: Permit, value: Value, bytes: U64, error: Fault)
    requires p in w.permits && w.scan.None?
    ensures Can(w, DoCommit(p, value, bytes)) && Can(w, DoFail(p, error))
    ensures Can(w, DoCancel(p)) && Can(w, DropPermit(p))
  {
  }

  lemma StoresAreUsable(w: World, id: AssetId, budget: nat)
    requires w.open && w.scan.None?
    ensures Can(w, DoCreate) && Can(w, DoRemove(id)) && Can(w, CollectBegin(budget)) && Can(w, CloseStore)
  {
  }
}
