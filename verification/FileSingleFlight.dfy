/** File-level single flight: what the directory keeps in every run of the loader. */
module FileSingleFlight {
  import opened Prelude
  import opened StoreState
  import opened StoreInvariant
  import opened StoreWorld
  import opened WorldInvariant
  import opened WorldRuns
  import opened FileDirectory
  import opened FileKey
  import opened TokenLife
  import opened StateMachine

  // ---- what steps outside the directory leave alone

  /** Nothing elsewhere adds a permit. */
  lemma ElsewhereAddsNoPermit(w: World, a: Action)
    requires Valid(w.store) && StoreWorld.Can(w, a) && Elsewhere(a)
    ensures StoreWorld.Do(w, a).permits <= w.permits
  {
  }

  /** Nothing but `DropHandle` takes a strong handle. */
  lemma ElsewhereKeepsHandles(w: World, a: Action)
    requires Valid(w.store) && StoreWorld.Can(w, a) && Elsewhere(a) && !a.DropHandle?
    ensures w.users <= StoreWorld.Do(w, a).users
  {
    if a.DoCommit? || a.DoFail? || a.DoCancel? || a.DropPermit? { PermitKeepsHandles(w, a); }
  }

  lemma PermitKeepsHandles(w: World, a: Action)
    requires Valid(w.store) && StoreWorld.Can(w, a) && (a.DoCommit? || a.DoFail? || a.DoCancel? || a.DropPermit?)
    ensures w.users <= StoreWorld.Do(w, a).users
  {
  }

  lemma OtherStep(l: Loader, a: Action)
    requires FileDirectory.Inv(l) && FileDirectory.Can(l, Other(a))
    ensures FileDirectory.Inv(FileDirectory.Do(l, Other(a)))
  {
    var n := StoreWorld.Do(l.world, a);
    StepKeepsInv(l.world, a);
    OnlyCreateAndRemove(l.world, a);
    ElsewhereAddsNoPermit(l.world, a);
    if !a.DropHandle? { ElsewhereKeepsHandles(l.world, a); }
    OtherKeepsRequests(l, a, n);
  }

  lemma OtherKeepsRequests(l: Loader, a: Action, n: World)
    requires Requests(l)
    requires if a.DropHandle?
             then
               && n.users == l.world.users - multiset{a.handle}
               && |Holders(l.requests, a.handle)| < l.world.users[a.handle]
             else l.world.users <= n.users
    ensures Requests(l.(world := n))
  {
  }

  // ---- requests

  lemma OneMore(before: map<nat, Request>, r: nat, request: Request, token: Token)
    requires r !in before
    ensures |Holders(before[r := request], token)|
         == |Holders(before, token)| + if token == request.handle then 1 else 0
  {
    var after := Holders(before[r := request], token);
    assert after == if token == request.handle then Holders(before, token) + {r} else Holders(before, token);
  }

  lemma RequestIsUser(l: Loader, r: nat)
    requires Requests(l) && r in l.requests
    ensures l.requests[r].handle in l.world.users
  {
    assert r in Holders(l.requests, l.requests[r].handle);
  }

  /** A new request brings its handle with it. */
  lemma RequestJoins(l: Loader, n: Loader, r: nat, request: Request)
    requires Requests(l) && r !in l.requests && n.requests == l.requests[r := request]
    requires n.world.users == l.world.users + multiset{request.handle}
    requires request.key in n.directory && n.directory[request.key] == request.handle
    requires forall key :: key in l.directory ==> key in n.directory && n.directory[key] == l.directory[key]
    ensures Requests(n)
  {
    forall token ensures |Holders(n.requests, token)| <= n.world.users[token] {
      OneMore(l.requests, r, request, token);
    }
  }

  /** A mapped key always upgrades, to its own identity, and nothing is created for it. */
  lemma MappedKeyUpgrades(l: Loader, key: Key)
    requires Valid(l.world.store) && Mapped(l) && key in l.directory
    ensures Routing(l, key) == Routed(l.world.store, l.directory, Ok(l.directory[key]))
  {
    OwnedIsValid(l.world.store, l.directory[key]);
  }

  /**
   Whatever a key is mapped to, a request gets a handle of an identity that lives, the key is
   mapped to it afterwards, and a new identity is one never issued before; it gets none only
   if the mapped handle is of another store or no identity can be created.
   */
  lemma RoutedIsMapped(s: State, directory: Directory, key: Key, upgradable: bool)
    requires Valid(s)
    ensures var routed := FileDirectory.HandleFor(s, directory, key, upgradable);
      var upgrades := key in directory && upgradable && Validate(s, directory[key]).Ok?;
      && (routed.reply.Err? <==>
            !upgrades && ((key in directory && directory[key].id.store != s.storeId) || Create(s).reply.Err?))
      && (match routed.reply
          case Err(_) => routed.directory == directory
          case Ok(handle) =>
            && routed.directory == directory[key := handle] && Validate(routed.state, handle).Ok?
            && (if upgrades then handle == directory[key] && routed.state == s else handle.id !in s.issued))
  {
    CreateKeepsValid(s);
    var created := Create(s);
    if created.reply.Ok? {
      CreateEffect(s);
      OwnedIsValid(created.state, created.reply.value);
    }
  }

  lemma RouteMapped(l: Loader, r: nat, key: Key, retry: bool)
    requires FileDirectory.Inv(l) && FileDirectory.Can(l, Route(r, key, retry)) && key in l.directory
    ensures FileDirectory.Inv(AfterRoute(l, r, key, retry))
  {
    MappedKeyUpgrades(l, key);
    var token, n := l.directory[key], AfterRoute(l, r, key, retry);
    OwnedIsKnown(l.world, token);
    assert n.world == l.world.(users := l.world.users + multiset{token});
    CountsStep(l.world, n.world);
    RequestJoins(l, n, r, n.requests[r]);
  }

  lemma OwnedIsKnown(w: World, token: Token)
    requires Tokens(w) && Owned(w.store, token)
    ensures token in w.tokens && w.tokens + {token} == w.tokens
  {
  }

  lemma RouteNew(l: Loader, r: nat, key: Key, retry: bool)
    requires FileDirectory.Inv(l) && FileDirectory.Can(l, Route(r, key, retry)) && key !in l.directory
    ensures FileDirectory.Inv(AfterRoute(l, r, key, retry))
  {
    var n := AfterRoute(l, r, key, retry);
    CreateStep(l.world);
    assert n.world == AfterCreate(l.world);
    if Create(l.world.store).reply.Err? { RouteRejected(l, n); } else { RouteCreated(l, n, r); }
  }

  lemma RouteRejected(l: Loader, n: Loader)
    requires Valid(l.world.store) && Mapped(l) && Requests(l) && Producers(l)
    requires Create(l.world.store).reply.Err? && n == l.(world := l.world.(store := Create(l.world.store).state))
    ensures Mapped(n) && Requests(n) && Producers(n)
  {
    KeepsTokensKeepsOwned(l.world.store, n.world.store);
  }

  lemma RouteCreated(l: Loader, n: Loader, r: nat)
    requires Valid(l.world.store) && Mapped(l) && Requests(l) && Producers(l) && r !in l.requests
    requires Create(l.world.store).reply.Ok? && n.world == AfterCreate(l.world)
    requires r in n.requests && n.requests == l.requests[r := n.requests[r]] && n.producers == l.producers
    requires n.requests[r].handle == Create(l.world.store).reply.value && n.requests[r].key !in l.directory
    requires n.directory == l.directory[n.requests[r].key := n.requests[r].handle]
    ensures Mapped(n) && Requests(n) && Producers(n)
  {
    CreateKeepsValid(l.world.store);
    CreateEffect(l.world.store);
    CreatedIsMapped(l.world.store, n.world.store, n.requests[r].handle);
    KeyIsMapped(l, n, n.requests[r].key, n.requests[r].handle);
    RequestJoins(l, n, r, n.requests[r]);
  }

  lemma KeyIsMapped(l: Loader, n: Loader, key: Key, token: Token)
    requires Mapped(l) && Producers(l) && key !in l.directory && n.directory == l.directory[key := token]
    requires OwnedStay(l.world.store, n.world.store) && Owned(n.world.store, token) && !Owned(l.world.store, token)
    requires n.producers == l.producers && n.world.permits == l.world.permits
    ensures Mapped(n) && Producers(n)
  {
  }

  lemma AcquireStep(l: Loader, r: nat)
    requires FileDirectory.Inv(l) && FileDirectory.Can(l, AcquireFor(r))
    ensures FileDirectory.Inv(AfterAcquire(l, r))
  {
    var request, n := l.requests[r], AfterAcquire(l, r);
    RequestIsUser(l, r);
    HandleStep(l.world, OpOf(request), request.handle);
    HandleKeepsOwned(l.world, OpOf(request), request.handle);
    AcquiredPermits(l, r);
    AcquiredRequests(l, n, r);
  }

  lemma AcquiredRequests(l: Loader, n: Loader, r: nat)
    requires Requests(l) && r in l.requests && n.requests == l.requests[r := l.requests[r].(acquired := true)]
    requires n.directory == l.directory && l.world.users <= n.world.users
    ensures Requests(n)
  {
    forall token ensures |Holders(n.requests, token)| <= n.world.users[token] {
      assert Holders(n.requests, token) == Holders(l.requests, token);
    }
  }

  lemma AcquiredPermits(l: Loader, r: nat)
    requires StoreWorld.Inv(l.world) && Requests(l) && Producers(l) && FileDirectory.Can(l, AcquireFor(r))
    ensures Producers(AfterAcquire(l, r)) && l.world.users <= AfterAcquire(l, r).world.users
  {
    var request := l.requests[r];
    RequestIsUser(l, r);
    UserIsOwned(l.world, request.handle);
    HandleCases(OpOf(request), l.world.store, request.handle);
    var reply := HandleOut(OpOf(request), l.world.store, request.handle).reply;
    assert reply.Ok? && reply.value.AcquiredProducer? ==> reply.value.permit.id == request.handle.id;
  }

  lemma FinishStep(l: Loader, r: nat)
    requires FileDirectory.Inv(l) && FileDirectory.Can(l, Finish(r))
    ensures FileDirectory.Inv(AfterFinish(l, r))
  {
    CountsStep(l.world, AfterFinish(l, r).world);
    RequestLeaves(l, r);
  }

  lemma RequestLeaves(l: Loader, r: nat)
    requires Requests(l) && r in l.requests
    ensures Requests(AfterFinish(l, r))
  {
    var n := AfterFinish(l, r);
    assert n.requests[r := l.requests[r]] == l.requests;
    forall token ensures |Holders(n.requests, token)| <= n.world.users[token] {
      OneMore(n.requests, r, l.requests[r], token);
    }
  }

  // ---- forgetting

  /**
   Forgetting a mapped key succeeds exactly when nobody uses its identity and nobody
   produces it, and then unmaps that key alone; otherwise it changes nothing and says why.
   */
  lemma ForgetIffIdle(l: Loader, key: Key)
    requires FileDirectory.Inv(l) && l.world.open && key in l.directory
    ensures var token, out := l.directory[key], Forgetting(l, key);
      && (out.reply.Ok? <==> !Pinned(l.world, token) && !EntryAt(l.world.store, token.id.slot).phase.Producing?)
      && (out.reply.Ok? ==> out.directory == l.directory - {key} && Empties(l.world.store, out.state, token.id.slot))
      && (out.reply.Err? ==>
            && out.state == l.world.store && out.directory == l.directory
            && (out.reply.error.LiveUsers? || out.reply.error.ProductionInProgress?)
            && (out.reply.error.LiveUsers? <==> Pinned(l.world, token)))
  {
    var token := l.directory[key];
    OwnedIsValid(l.world.store, token);
    UsersArePins(l.world, token);
    RemoveKeepsValid(l.world.store, token.id, UsersOf(l.world, token.id));
  }

  lemma ForgetStep(l: Loader, key: Key)
    requires FileDirectory.Inv(l) && FileDirectory.Can(l, ForgetKey(key))
    ensures FileDirectory.Inv(AfterForget(l, key))
  {
    var n := AfterForget(l, key);
    if key in l.directory {
      ForgetIffIdle(l, key);
      RemoveStep(l.world, l.directory[key].id);
      assert n.world == AfterRemove(l.world, l.directory[key].id);
      if Forgetting(l, key).reply.Ok? {
        ForgottenStep(l, n, key);
        ForgottenRequests(l, n, key);
      } else {
        assert n == l;
      }
    } else {
      assert n == l;
    }
  }

  lemma ForgottenRequests(l: Loader, n: Loader, key: Key)
    requires Requests(l) && n.requests == l.requests && n.directory == l.directory - {key}
    requires n.world.users == l.world.users && forall r :: r in n.requests ==> l.requests[r].key != key
    ensures Requests(n)
  {
  }

  lemma ForgottenStep(l: Loader, n: Loader, key: Key)
    requires FileDirectory.Inv(l) && l.world.open && key in l.directory && !Pinned(l.world, l.directory[key])
    requires n == l.(world := l.world.(store := n.world.store), directory := l.directory - {key})
    requires Empties(l.world.store, n.world.store, l.directory[key].id.slot)
    ensures Mapped(n) && Producers(n)
    ensures forall r :: r in n.requests ==> l.requests[r].key != key
  {
    NobodyRequests(l, key);
    ForgottenIsUnmapped(l, n, key);
    ForgottenHasNoProducer(l, n, key);
  }

  lemma NobodyRequests(l: Loader, key: Key)
    requires Requests(l) && key in l.directory && !Pinned(l.world, l.directory[key])
    ensures forall r :: r in l.requests ==> l.requests[r].key != key
  {
    forall r | r in l.requests ensures l.requests[r].key != key { RequestIsUser(l, r); }
  }

  lemma ForgottenIsUnmapped(l: Loader, n: Loader, key: Key)
    requires Mapped(l) && key in l.directory && n.directory == l.directory - {key}
    requires Empties(l.world.store, n.world.store, l.directory[key].id.slot)
    ensures Mapped(n)
  {
  }

  lemma ForgottenHasNoProducer(l: Loader, n: Loader, key: Key)
    requires Permits(l.world) && l.world.open && Producers(l) && key in l.directory
    requires n.directory == l.directory - {key} && n.producers == l.producers && n.world.permits == l.world.permits
    requires Empties(l.world.store, n.world.store, l.directory[key].id.slot)
    ensures Producers(n)
  {
    forall p | p in l.world.permits ensures l.producers[p] != key { assert Guards(l.world.store, p); }
  }

  // ---- runs

  lemma StepKeepsLoader(l: Loader, s: Step)
    requires FileDirectory.Inv(l) && FileDirectory.Can(l, s)
    ensures FileDirectory.Inv(FileDirectory.Do(l, s))
  {
    match s
    case Route(r, key, retry) =>
      if key in l.directory { RouteMapped(l, r, key, retry); } else { RouteNew(l, r, key, retry); }
    case AcquireFor(r) => AcquireStep(l, r);
    case Finish(r) => FinishStep(l, r);
    case ForgetKey(key) => ForgetStep(l, key);
    case Other(a) => OtherStep(l, a);
  }

  ghost predicate StepAt(run: seq<Loader>, steps: seq<Step>, k: nat)
    requires k < |steps| && k + 1 < |run|
  {
    && Valid(run[k].world.store) && FileDirectory.Can(run[k], steps[k])
    && run[k + 1] == FileDirectory.Do(run[k], steps[k])
  }

  /** Requests, forgets and everything their callers do with what they got, in any order. */
  ghost predicate IsRun(run: seq<Loader>, steps: seq<Step>) {
    && |run| == |steps| + 1
    && run[0] == FileDirectory.Start(run[0].world.store.storeId)
    && forall k: nat | k < |steps| :: StepAt(run, steps, k)
  }

  lemma RunStepKeepsLoader(run: seq<Loader>, steps: seq<Step>, k: nat)
    requires IsRun(run, steps) && 0 < k < |run| && FileDirectory.Inv(run[k - 1])
    ensures FileDirectory.Inv(run[k])
  {
    assert StepAt(run, steps, k - 1);
    StepKeepsLoader(run[k - 1], steps[k - 1]);
  }

  lemma RunStartsLoader(run: seq<Loader>, steps: seq<Step>)
    requires IsRun(run, steps)
    ensures FileDirectory.Inv(run[0])
  {
    StartInv(run[0].world.store.storeId);
  }

  lemma {:induction false} RunKeepsLoader(run: seq<Loader>, steps: seq<Step>, k: nat)
    requires IsRun(run, steps) && k < |run|
    ensures FileDirectory.Inv(run[k])
  {
    if k == 0 {
      RunStartsLoader(run, steps);
    } else {
      RunKeepsLoader(run, steps, k - 1);
      RunStepKeepsLoader(run, steps, k);
    }
  }

  /** Every mapped key names a live identity, and distinct keys name distinct identities. */
  lemma KeysNameLiveIdentities(run: seq<Loader>, steps: seq<Step>, k: nat)
    requires IsRun(run, steps) && k < |run|
    ensures var l := run[k];
      && (forall key :: key in l.directory ==> Lookup(l.world.store, l.directory[key].id).Ok?)
      && (forall i, j :: i in l.directory && j in l.directory && i != j ==> l.directory[i].id != l.directory[j].id)
  {
    RunKeepsLoader(run, steps, k);
    var l := run[k];
    forall key | key in l.directory ensures Lookup(l.world.store, l.directory[key].id).Ok? {
      OwnedIsValid(l.world.store, l.directory[key]);
    }
  }

  ghost predicate Forgets(l: Loader, s: Step, key: Key) {
    s == ForgetKey(key) && Forgetting(l, key).reply.Ok?
  }

  lemma StepKeepsKey(l: Loader, s: Step, key: Key)
    requires FileDirectory.Inv(l) && FileDirectory.Can(l, s) && key in l.directory && !Forgets(l, s, key)
    ensures var n := FileDirectory.Do(l, s); key in n.directory && n.directory[key] == l.directory[key]
  {
    match s
    case Route(r, routed, retry) => RouteKeepsKey(l, r, routed, retry, key);
    case ForgetKey(forgotten) => ForgetKeepsKey(l, forgotten, key);
    case AcquireFor(r) => assert AfterAcquire(l, r).directory == l.directory;
    case Finish(r) => assert AfterFinish(l, r).directory == l.directory;
    case Other(_) => assert FileDirectory.Do(l, s).directory == l.directory;
  }

  lemma ForgetKeepsKey(l: Loader, forgotten: Key, key: Key)
    requires key in l.directory && (forgotten != key || Forgetting(l, key).reply.Err?)
    ensures var n := AfterForget(l, forgotten); key in n.directory && n.directory[key] == l.directory[key]
  {
  }

  lemma RouteKeepsKey(l: Loader, r: nat, routed: Key, retry: bool, key: Key)
    requires Valid(l.world.store) && Mapped(l) && key in l.directory
    ensures var n := AfterRoute(l, r, routed, retry); key in n.directory && n.directory[key] == l.directory[key]
  {
    if routed in l.directory { MappedKeyUpgrades(l, routed); }
  }

  /** Between successful forgets of it, a key stays mapped to one identity. */
  lemma {:induction false} KeyIsStable(run: seq<Loader>, steps: seq<Step>, j: nat, k: nat, key: Key)
    requires IsRun(run, steps) && j <= k < |run| && key in run[j].directory
    requires forall i: nat | j <= i < k :: !Forgets(run[i], steps[i], key)
    ensures key in run[k].directory && run[k].directory[key] == run[j].directory[key]
    decreases k - j
  {
    if j < k {
      KeyIsStable(run, steps, j, k - 1, key);
      RunStepKeepsKey(run, steps, k - 1, key);
    }
  }

  lemma RunStepKeepsKey(run: seq<Loader>, steps: seq<Step>, k: nat, key: Key)
    requires IsRun(run, steps) && k < |steps| && key in run[k].directory && !Forgets(run[k], steps[k], key)
    ensures key in run[k + 1].directory && run[k + 1].directory[key] == run[k].directory[key]
  {
    RunKeepsLoader(run, steps, k);
    assert StepAt(run, steps, k);
    StepKeepsKey(run[k], steps[k], key);
  }

  /**
   A request that got its handle still reaches the identity its key is mapped to when it
   comes to acquire, however a forget races with it; every other request on the key
   reaches the same one.
   */
  lemma RequestsAgree(run: seq<Loader>, steps: seq<Step>, k: nat, q: nat, r: nat)
    requires IsRun(run, steps) && k < |run| && q in run[k].requests && r in run[k].requests
    ensures var l := run[k];
      && l.requests[q].key in l.directory && l.directory[l.requests[q].key] == l.requests[q].handle
      && (l.requests[q].key == l.requests[r].key <==> l.requests[q].handle == l.requests[r].handle)
      && (l.world.open ==> Forgetting(l, l.requests[q].key).reply.Err?)
  {
    RunKeepsLoader(run, steps, k);
    var l := run[k];
    RequestIsUser(l, q);
    if l.world.open { ForgetIffIdle(l, l.requests[q].key); }
  }

  /** At most one live producer per key, over any history of requests and forgets. */
  lemma OneProducerPerKey(run: seq<Loader>, steps: seq<Step>, k: nat, p: Permit, q: Permit)
    requires IsRun(run, steps) && k < |run| && run[k].world.open
    requires p in run[k].world.permits && q in run[k].world.permits
    ensures p in run[k].producers && q in run[k].producers
    ensures run[k].producers[p] == run[k].producers[q] ==> p == q
  {
    RunKeepsLoader(run, steps, k);
    var l := run[k];
    assert Guards(l.world.store, p) && Guards(l.world.store, q);
  }

  /**
   A request starts work on missing content only, an explicit retry on failed content too;
   everyone else gets the value, the failure or a place beside the producer.
   */
  lemma RequestStartsWork(run: seq<Loader>, steps: seq<Step>, k: nat, r: nat)
    requires IsRun(run, steps) && k < |run| && run[k].world.open && r in run[k].requests
    requires run[k].world.store.touch < U64_MAX
    ensures var l, request := run[k], run[k].requests[r];
      && Live(l.world.store, request.handle.id.slot)
      && var phase := EntryAt(l.world.store, request.handle.id.slot).phase;
         var reply := HandleOut(OpOf(request), l.world.store, request.handle).reply;
         && reply.Ok?
         && (reply.value.AcquiredProducer? <==> phase.Missing? || (phase.Failed? && request.retry))
         && (reply.value.AcquiredFailed? <==> phase.Failed? && !request.retry)
         && (reply.value.AcquiredWaiter? <==> phase.Producing?)
  {
    RunKeepsLoader(run, steps, k);
    var l, request := run[k], run[k].requests[r];
    RequestIsUser(l, r);
    UserIsOwned(l.world, request.handle);
    WhoStarts(OpOf(request), l.world.store, request.handle);
  }

  /** An operation on an identity in production joins the attempt its permit guards. */
  lemma ProducingIsJoined(s: State, p: Permit, op: HandleOp, handle: Token)
    requires Valid(s) && Guards(s, p) && Owned(s, handle) && handle.id == p.id
    ensures HandleOut(op, s, handle).reply
         == if s.touch == U64_MAX then Err(GenerationExhausted) else Ok(AcquiredWaiter(p))
  {
    OwnedIsValid(s, handle);
  }

  lemma RequestAndPermitMeet(l: Loader, p: Permit, r: nat)
    requires FileDirectory.Inv(l) && l.world.open && p in l.world.permits && r in l.requests
    requires l.producers[p] == l.requests[r].key
    ensures Guards(l.world.store, p) && Owned(l.world.store, l.requests[r].handle) && l.requests[r].handle.id == p.id
  {
    RequestIsUser(l, r);
    UserIsOwned(l.world, l.requests[r].handle);
  }

  /** While a key has a producer, every request and retry on it joins that very attempt. */
  lemma RequestsJoinTheProducer(run: seq<Loader>, steps: seq<Step>, k: nat, p: Permit, r: nat)
    requires IsRun(run, steps) && k < |run| && run[k].world.open
    requires p in run[k].world.permits && r in run[k].requests
    requires p in run[k].producers && run[k].producers[p] == run[k].requests[r].key
    ensures var reply := HandleOut(OpOf(run[k].requests[r]), run[k].world.store, run[k].requests[r].handle).reply;
      reply == if run[k].world.store.touch == U64_MAX then Err(GenerationExhausted) else Ok(AcquiredWaiter(p))
  {
    RunKeepsLoader(run, steps, k);
    RequestAndPermitMeet(run[k], p, r);
    ProducingIsJoined(run[k].world.store, p, OpOf(run[k].requests[r]), run[k].requests[r].handle);
  }
}
