/** When identities live: only `create` brings one to life, only `remove` ends one, and never twice. */
module TokenLife {
  import opened Prelude
  import opened StoreState
  import opened StoreInvariant
  import opened StoreWorld
  import opened WorldInvariant
  import opened WorldRuns

  /** Live identities stay live. */
  ghost predicate OwnedStay(s: State, n: State) {
    forall t :: Owned(s, t) ==> Owned(n, t)
  }

  /** And no others come to life. */
  ghost predicate OwnedSame(s: State, n: State) {
    OwnedStay(s, n) && OwnedStay(n, s)
  }

  lemma KeepsTokensKeepsOwned(s: State, n: State)
    requires Valid(s) && KeepsTokens(s, n)
    ensures OwnedSame(s, n)
  {
    TokensStay(s, n);
  }

  lemma PermitKeepsOwned(w: World, a: Action)
    requires Inv(w) && Can(w, a) && (a.DoCommit? || a.DoFail? || a.DoCancel? || a.DropPermit?)
    ensures OwnedSame(w.store, Do(w, a).store)
  {
    if w.open {
      match a {
        case DoCommit(p, value, bytes) => CommitEffect(w.store, p, value, bytes);
        case DoFail(p, error) => FailEffect(w.store, p, error);
        case DoCancel(p) => CancelEffect(w.store, p);
        case DropPermit(p) => CancelEffect(w.store, p);
      }
      assert Same(w.store, Do(w, a).store) || Rewrites(w.store, Do(w, a).store, a.permit.id.slot);
      KeepsTokensKeepsOwned(w.store, Do(w, a).store);
    }
  }

  lemma HandleKeepsOwned(w: World, op: HandleOp, handle: Token)
    requires Inv(w) && w.open && handle in w.users
    ensures OwnedSame(w.store, AfterHandle(w, op, handle).store)
  {
    UserIsOwned(w, handle);
    HandleCases(op, w.store, handle);
    assert AfterHandle(w, op, handle).store == HandleOut(op, w.store, handle).state;
    KeepsTokensKeepsOwned(w.store, AfterHandle(w, op, handle).store);
  }

  lemma ObserveKeepsOwned(w: World, handle: Token)
    requires Inv(w) && w.open && handle in w.users
    ensures OwnedSame(w.store, AfterObserve(w, handle).store)
  {
    UserIsOwned(w, handle);
    ObserveEffect(w.store, handle);
    KeepsTokensKeepsOwned(w.store, AfterObserve(w, handle).store);
  }

  predicate RewritesOne(a: Action) {
    a.DoHandle? || a.DoObserve? || a.DoCommit? || a.DoFail? || a.DoCancel? || a.DropPermit?
  }

  lemma CollectKeepsOwned(w: World)
    requires Inv(w) && w.scan.Some?
    ensures OwnedSame(w.store, AfterCollect(w).store)
  {
    CollectEffect(w.store, w.scan.value.idle, w.scan.value.budget);
  }

  lemma RestKeepsStore(w: World, a: Action)
    requires Inv(w) && Can(w, a) && !a.DoCreate? && !a.DoRemove? && !RewritesOne(a) && !a.CollectEnd?
    ensures Do(w, a).store == w.store
  {
  }

  lemma OnlyCreateAndRemove(w: World, a: Action)
    requires Inv(w) && Can(w, a) && !a.DoCreate? && !a.DoRemove?
    ensures OwnedSame(w.store, Do(w, a).store)
  {
    if a.DoHandle? { HandleKeepsOwned(w, a.op, a.handle); }
    else if a.DoObserve? { ObserveKeepsOwned(w, a.handle); }
    else if RewritesOne(a) { PermitKeepsOwned(w, a); }
    else if a.CollectEnd? { CollectKeepsOwned(w); }
    else { RestKeepsStore(w, a); }
  }

  lemma CreatedIsMapped(s: State, n: State, token: Token)
    requires Valid(s) && Valid(n) && Creates(s, n, token)
    ensures OwnedStay(s, n) && Owned(n, token) && !Owned(s, token)
    ensures forall t :: Owned(n, t) ==> t == token || Owned(s, t)
  {
  }

  lemma CreateBringsOne(w: World, t: Token)
    requires Inv(w) && Owned(AfterCreate(w).store, t)
    ensures Owned(w.store, t) || t.id !in w.store.issued
  {
    CreateKeepsValid(w.store);
    if Create(w.store).reply.Ok? {
      CreateEffect(w.store);
      CreatedIsMapped(w.store, Create(w.store).state, Create(w.store).reply.value);
    }
  }

  lemma RemoveBringsNone(w: World, id: AssetId, t: Token)
    requires Inv(w) && Owned(AfterRemove(w, id).store, t)
    ensures Owned(w.store, t)
  {
    RemoveKeepsValid(w.store, id, UsersOf(w, id));
  }

  /** An identity comes to life only when it is issued. */
  lemma LifeStartsAtIssue(w: World, a: Action, t: Token)
    requires Inv(w) && Can(w, a) && Owned(Do(w, a).store, t)
    ensures Owned(w.store, t) || (a.DoCreate? && t.id !in w.store.issued)
  {
    if a.DoCreate? { CreateBringsOne(w, t); }
    else if a.DoRemove? { RemoveBringsNone(w, a.id, t); }
    else { OnlyCreateAndRemove(w, a); }
  }

  /** An identity once issued and no longer live is dead for the rest of the run: no weak handle revives it. */
  lemma {:induction false} DeadStaysDead(run: seq<World>, actions: seq<Action>, j: nat, k: nat, t: Token)
    requires IsRun(run, actions) && j <= k < |run|
    requires t.id in run[j].store.issued && !Owned(run[j].store, t)
    ensures t.id in run[k].store.issued && !Owned(run[k].store, t)
    decreases k - j
  {
    if j < k {
      DeadStaysDead(run, actions, j, k - 1, t);
      StepKeepsDead(run, actions, k - 1, t);
    }
  }

  lemma StepKeepsDead(run: seq<World>, actions: seq<Action>, k: nat, t: Token)
    requires IsRun(run, actions) && k < |actions| && t.id in run[k].store.issued && !Owned(run[k].store, t)
    ensures t.id in run[k + 1].store.issued && !Owned(run[k + 1].store, t)
  {
    RunStepGrows(run, actions, k);
    RunKeepsInv(run, actions, k);
    assert StepAt(run, actions, k);
    if Owned(run[k + 1].store, t) { LifeStartsAtIssue(run[k], actions[k], t); }
  }
}
