/**
 Stores and cells together: every attempt that a store ended is completed once, with the
 outcome decided under the lock, and whoever waited for it is woken.
 */
module AttemptOutcomes {
  import opened Prelude
  import opened StoreState
  import opened StoreInvariant
  import opened Retirement
  import opened CleanExits
  import opened AttemptProtocol
  import opened AttemptLocks
  import opened AttemptWakeups
  import opened AttemptSteps
  import opened AttemptRuns

  // ---- completions on their way

  /** The completions an operation still has to make. */
  function Carried(f: Frame): seq<(nat, Outcome)> {
    match f
    case DropLocked(_, _, _, _, work) => work.completes
    case DropValues(work) => work.completes
    case CompleteAll(completes, _) => completes
    case PublishLock(c, o) => [(c, o)]
    case Publish(c, o) => [(c, o)]
    case _ => []
  }

  predicate Carries(f: Frame, c: nat) {
    exists i | 0 <= i < |Carried(f)| :: Carried(f)[i].0 == c
  }

  predicate CarriesAt(sys: Sys, p: Place, c: nat) {
    At(sys, p) && Carries(FrameAt(sys, p), c)
  }

  ghost predicate InFlight(sys: Sys, c: nat) {
    exists p :: CarriesAt(sys, p, c)
  }

  /** The attempt named `k` runs in its store. */
  ghost predicate Runs(sys: Sys, k: (nat, nat)) {
    k.0 in sys.stores && IsActive(sys.stores[k.0], k.1)
  }

  // ---- the invariant

  ghost predicate NamesInUse(sys: Sys) {
    forall k :: k in sys.names ==> sys.names[k] < |sys.cells| && (k.0 in sys.stores || k.0 in sys.closing)
  }

  ghost predicate NamesApart(sys: Sys) {
    forall k, l :: k in sys.names && l in sys.names && k != l ==> sys.names[k] != sys.names[l]
  }

  ghost predicate NamesTaken(sys: Sys) {
    forall k :: k in sys.names && k.0 in sys.stores ==> k.1 < sys.stores[k.0].arcs
  }

  /** Names of attempts are never shared and never taken again. */
  ghost predicate Named(sys: Sys) {
    NamesInUse(sys) && NamesApart(sys) && NamesTaken(sys)
  }

  predicate NoRepeats(completes: seq<(nat, Outcome)>) {
    forall i, j | 0 <= i < j < |completes| :: completes[i].0 != completes[j].0
  }

  /** No list of completions names a cell twice. */
  ghost predicate Once(sys: Sys) {
    forall p | At(sys, p) :: NoRepeats(Carried(FrameAt(sys, p)))
  }

  /** A completion on its way is the only one for its cell, and the cell is open. */
  ghost predicate Undecided(sys: Sys) {
    && (forall p, c: nat :: CarriesAt(sys, p, c) ==> c < |sys.cells| && sys.cells[c].outcome.None?)
    && (forall p, q, c: nat :: CarriesAt(sys, p, c) && CarriesAt(sys, q, c) ==> p == q)
  }

  /** A running attempt has an open cell, and no completion is on its way. */
  ghost predicate Open(sys: Sys) {
    forall k: (nat, nat) :: Runs(sys, k) ==>
      && k in sys.names && sys.names[k] < |sys.cells|
      && sys.cells[sys.names[k]].outcome.None? && !InFlight(sys, sys.names[k])
  }

  /** An attempt without outcome runs or has its completion on the way. */
  ghost predicate Accounted(sys: Sys) {
    forall k :: k in sys.names && sys.names[k] < |sys.cells| && sys.cells[sys.names[k]].outcome.None? ==>
      Runs(sys, k) || InFlight(sys, sys.names[k])
  }

  ghost predicate Settles(sys: Sys) {
    Named(sys) && Once(sys) && Undecided(sys) && Open(sys) && Accounted(sys)
  }

  // ---- steps that leave completions where they are

  ghost predicate SameCarriers(sys: Sys, n: Sys) {
    forall p, c :: CarriesAt(n, p, c) <==> CarriesAt(sys, p, c)
  }

  ghost predicate SameOutcomes(sys: Sys, n: Sys) {
    |n.cells| == |sys.cells| && forall c | 0 <= c < |sys.cells| :: n.cells[c].outcome == sys.cells[c].outcome
  }

  /** Stores and names stand; a store may have begun to close. */
  predicate StoresStand(sys: Sys, n: Sys) {
    n.stores == sys.stores && n.names == sys.names && sys.closing.Keys <= n.closing.Keys
  }

  lemma NeutralKeeps(sys: Sys, n: Sys)
    requires Settles(sys) && StoresStand(sys, n) && SameOutcomes(sys, n) && SameCarriers(sys, n) && Once(n)
    ensures Settles(n)
  {
    forall c: nat ensures InFlight(n, c) <==> InFlight(sys, c) {
      if InFlight(n, c) { var p :| CarriesAt(n, p, c); assert CarriesAt(sys, p, c); }
      if InFlight(sys, c) { var p :| CarriesAt(sys, p, c); assert CarriesAt(n, p, c); }
    }
    forall k ensures Runs(n, k) <==> Runs(sys, k) {}
  }

  /** The top operation of `t` goes on, or returns, with the same completions before it. */
  lemma MoveIsNeutral(sys: Sys, n: Sys, t: nat, move: Move)
    requires Settles(sys) && StoresStand(sys, n) && SameOutcomes(sys, n) && Running(sys, t)
    requires move.On? || move.Back?
    requires Carried(Top(sys, t)) == if move.On? then Carried(move.frame) else []
    requires n.threads == (if move.On? then Goto(sys, t, move.frame) else Return(sys, t)).threads
    ensures Settles(n)
  {
    var here := TopPlace(sys, t);
    assert FrameAt(sys, here) == Top(sys, t);
    forall p, c: nat ensures CarriesAt(n, p, c) <==> CarriesAt(sys, p, c) {
      if p != here { assert At(n, p) <==> At(sys, p); }
    }
    forall p | At(n, p) ensures NoRepeats(Carried(FrameAt(n, p))) {
      assert At(sys, p) && (p == here || FrameAt(n, p) == FrameAt(sys, p));
    }
    NeutralKeeps(sys, n);
  }

  /** A call that brings no completion with it. */
  lemma PushIsNeutral(sys: Sys, n: Sys, t: nat, f: Frame)
    requires Settles(sys) && SameOutcomes(sys, n) && StoresStand(sys, n)
    requires Carried(f) == [] && n.threads == Push(sys, t, f).threads
    ensures Settles(n)
  {
    var here := Place(t, |Stack(sys, t)|);
    forall p ensures At(n, p) <==> At(sys, p) || p == here {}
    assert FrameAt(n, here) == f;
    forall p, c: nat ensures CarriesAt(n, p, c) <==> CarriesAt(sys, p, c) {
      if p != here && At(n, p) { assert FrameAt(n, p) == FrameAt(sys, p); }
    }
    forall p | At(n, p) ensures NoRepeats(Carried(FrameAt(n, p))) {
      if p != here { assert At(sys, p) && FrameAt(n, p) == FrameAt(sys, p); }
    }
    NeutralKeeps(sys, n);
  }

  // ---- steps that move a completion on

  /** Where frames other than the top one of `t` carry what they carried. */
  ghost predicate OthersCarry(sys: Sys, n: Sys, here: Place) {
    forall p, c: nat | p != here :: CarriesAt(n, p, c) <==> CarriesAt(sys, p, c)
  }

  lemma GotoCarries(sys: Sys, n: Sys, t: nat, f: Frame)
    requires Running(sys, t) && n.threads == Goto(sys, t, f).threads
    ensures OthersCarry(sys, n, TopPlace(sys, t))
    ensures forall c: nat :: CarriesAt(n, TopPlace(sys, t), c) <==> Carries(f, c)
    ensures forall c: nat :: CarriesAt(sys, TopPlace(sys, t), c) <==> Carries(Top(sys, t), c)
    ensures Once(sys) && NoRepeats(Carried(f)) ==> Once(n)
  {
    var here := TopPlace(sys, t);
    assert At(n, here) && FrameAt(n, here) == f && FrameAt(sys, here) == Top(sys, t);
    forall p ensures At(n, p) <==> At(sys, p) {}
    forall p | At(n, p) && p != here ensures FrameAt(n, p) == FrameAt(sys, p) {}
  }

  /** The outcome of `c` is published; its completion is no longer on the way. */
  lemma PublishedKeeps(sys: Sys, n: Sys, c: nat)
    requires Settles(sys) && StoresStand(sys, n) && Once(n) && InFlight(sys, c)
    requires forall p, e: nat :: CarriesAt(n, p, e) <==> CarriesAt(sys, p, e) && e != c
    requires c < |sys.cells| == |n.cells| && n.cells[c].outcome.Some?
    requires forall e: nat | e < |sys.cells| && e != c :: n.cells[e].outcome == sys.cells[e].outcome
    ensures Settles(n)
  {
    forall e: nat ensures InFlight(n, e) <==> InFlight(sys, e) && e != c {
      if InFlight(n, e) { var p :| CarriesAt(n, p, e); assert CarriesAt(sys, p, e); }
      if InFlight(sys, e) && e != c { var p :| CarriesAt(sys, p, e); assert CarriesAt(n, p, e); }
    }
    forall k ensures Runs(n, k) <==> Runs(sys, k) {}
  }

  lemma PublishKeeps(sys: Sys, n: Sys, t: nat, c: nat, o: Outcome)
    requires Settles(sys) && StoresStand(sys, n) && Running(sys, t) && Top(sys, t) == Publish(c, o)
    requires n.threads == Goto(sys, t, DrainLock(c)).threads && c < |sys.cells| == |n.cells|
    requires n.cells[c].outcome.Some?
    requires forall e: nat | e < |sys.cells| && e != c :: n.cells[e].outcome == sys.cells[e].outcome
    ensures Settles(n)
  {
    var here := TopPlace(sys, t);
    GotoCarries(sys, n, t, DrainLock(c));
    assert Carried(Publish(c, o))[0].0 == c;
    assert CarriesAt(sys, here, c);
    PublishedKeeps(sys, n, c);
  }

  /** The next completion of a list becomes an operation of its own. */
  lemma PoppedKeeps(sys: Sys, n: Sys, here: Place, call: Place, c: nat)
    requires Settles(sys) && StoresStand(sys, n) && Once(n) && SameOutcomes(sys, n)
    requires CarriesAt(sys, here, c) && call != here && forall e: nat :: !CarriesAt(sys, call, e)
    requires forall p, e: nat :: CarriesAt(n, p, e) <==> if e == c then p == call else CarriesAt(sys, p, e)
    ensures Settles(n)
  {
    forall e: nat ensures InFlight(n, e) <==> InFlight(sys, e) {
      if InFlight(n, e) { var p :| CarriesAt(n, p, e); assert e == c || CarriesAt(sys, p, e); }
      if InFlight(sys, e) {
        var p :| CarriesAt(sys, p, e);
        assert CarriesAt(n, if e == c then call else p, e);
      }
    }
    forall k ensures Runs(n, k) <==> Runs(sys, k) {}
  }

  lemma PopKeeps(sys: Sys, n: Sys, t: nat, completes: seq<(nat, Outcome)>, late: multiset<Held>)
    requires Settles(sys) && StoresStand(sys, n) && SameOutcomes(sys, n) && Running(sys, t)
    requires Top(sys, t) == CompleteAll(completes, late) && completes != []
    requires n.threads == Push(Goto(sys, t, CompleteAll(completes[1..], late)), t,
                               PublishLock(completes[0].0, completes[0].1)).threads
    ensures Settles(n)
  {
    var here := TopPlace(sys, t);
    var call := Place(t, here.depth + 1);
    assert FrameAt(sys, here) == Top(sys, t);
    PoppedList(completes, late, completes[0].1);
    assert NoRepeats(Carried(FrameAt(sys, here)));
    IntoPlaces(sys, n, t, CompleteAll(completes[1..], late), PublishLock(completes[0].0, completes[0].1));
    PopMoves(sys, n, here, call);
    PopCarries(sys, n, here, call, completes, late);
    PoppedKeeps(sys, n, here, call, completes[0].0);
  }

  lemma IntoPlaces(sys: Sys, n: Sys, t: nat, f: Frame, called: Frame)
    requires Running(sys, t) && n.threads == Push(Goto(sys, t, f), t, called).threads
    ensures var here, call := TopPlace(sys, t), Place(t, |Stack(sys, t)|);
      && At(n, here) && FrameAt(n, here) == f && At(n, call) && FrameAt(n, call) == called && !At(sys, call)
      && |Stack(n, t)| == |Stack(sys, t)| + 1
    ensures forall u: nat :: u != t ==> Stack(n, u) == Stack(sys, u)
    ensures forall i | 0 <= i < |Stack(sys, t)| - 1 :: Stack(n, t)[i] == Stack(sys, t)[i]
  {
  }

  lemma PopCarries(sys: Sys, n: Sys, here: Place, call: Place, completes: seq<(nat, Outcome)>, late: multiset<Held>)
    requires Undecided(sys) && completes != [] && NoRepeats(completes)
    requires At(sys, here) && FrameAt(sys, here) == CompleteAll(completes, late) && !At(sys, call)
    requires At(n, here) && FrameAt(n, here) == CompleteAll(completes[1..], late)
    requires At(n, call) && FrameAt(n, call) == PublishLock(completes[0].0, completes[0].1)
    requires forall p, e: nat | p != here && p != call :: CarriesAt(n, p, e) <==> CarriesAt(sys, p, e)
    ensures CarriesAt(sys, here, completes[0].0)
    ensures forall p, e: nat ::
      CarriesAt(n, p, e) <==> if e == completes[0].0 then p == call else CarriesAt(sys, p, e)
  {
    var c := completes[0].0;
    PoppedList(completes, late, completes[0].1);
    assert CarriesAt(sys, here, c);
    forall p, e: nat ensures CarriesAt(n, p, e) <==> if e == c then p == call else CarriesAt(sys, p, e) {
      if p != here && p != call { assert CarriesAt(n, p, e) <==> CarriesAt(sys, p, e); }
    }
  }

  lemma PopMoves(sys: Sys, n: Sys, here: Place, call: Place)
    requires At(sys, here) && !At(sys, call) && At(n, here) && At(n, call)
    requires |Stack(n, here.thread)| == |Stack(sys, here.thread)| + 1
    requires call == Place(here.thread, |Stack(sys, here.thread)|)
    requires forall u: nat :: u != here.thread ==> Stack(n, u) == Stack(sys, u)
    requires forall i | 0 <= i < |Stack(sys, here.thread)| && i != here.depth ::
               Stack(n, here.thread)[i] == Stack(sys, here.thread)[i]
    requires Once(sys) && NoRepeats(Carried(FrameAt(n, here))) && NoRepeats(Carried(FrameAt(n, call)))
    ensures Once(n)
    ensures forall p, e: nat | p != here && p != call :: CarriesAt(n, p, e) <==> CarriesAt(sys, p, e)
  {
    forall p ensures At(n, p) <==> At(sys, p) || p == call {}
    forall p | At(n, p) && p != here && p != call ensures FrameAt(n, p) == FrameAt(sys, p) {}
  }

  lemma PoppedList(completes: seq<(nat, Outcome)>, late: multiset<Held>, o: Outcome)
    requires completes != [] && NoRepeats(completes)
    ensures forall e: nat :: Carries(CompleteAll(completes[1..], late), e)
                         <==> Carries(CompleteAll(completes, late), e) && e != completes[0].0
    ensures Carries(CompleteAll(completes, late), completes[0].0)
    ensures forall e: nat :: Carries(PublishLock(completes[0].0, o), e) <==> e == completes[0].0
    ensures NoRepeats(completes[1..])
  {
    var all, rest := CompleteAll(completes, late), CompleteAll(completes[1..], late);
    assert Carried(all)[0].0 == completes[0].0;
    assert Carried(PublishLock(completes[0].0, o))[0].0 == completes[0].0;
    forall e: nat ensures Carries(rest, e) <==> Carries(all, e) && e != completes[0].0 {
      if Carries(rest, e) {
        var i :| 0 <= i < |completes| - 1 && Carried(rest)[i].0 == e;
        assert Carried(all)[i + 1].0 == e;
      }
      if Carries(all, e) && e != completes[0].0 {
        var i :| 0 <= i < |completes| && Carried(all)[i].0 == e;
        assert Carried(rest)[i - 1].0 == e;
      }
    }
  }

  // ---- under the lock of a store

  /** `n` has what the operation made of cells, names and stores, and its completions are on the way. */
  ghost predicate Embarks(sys: Sys, n: Sys, here: Place, s: nat, op: Op, exit: Exit) {
    && n == AfterBody(sys, s, op, exit).(threads := n.threads, locks := n.locks)
    && (forall c: nat :: !CarriesAt(sys, here, c))
    && (forall p, c: nat | p != here :: CarriesAt(n, p, c) <==> CarriesAt(sys, p, c))
    && (forall c: nat :: CarriesAt(n, here, c) <==> Completing(sys, s, exit, c))
  }

  /** Cell `c` is that of an attempt the operation ended. */
  ghost predicate Completing(sys: Sys, s: nat, exit: Exit, c: nat) {
    exists a: nat :: Ends(exit, a) && CellOf(sys, s, a) == c
  }

  /** An ended attempt ran, so its cell is open and nobody else completes it. */
  lemma EndedRan(sys: Sys, s: nat, op: Op, exit: Exit, a: nat)
    requires Open(sys) && s in sys.stores && Sound(sys, s, op, exit) && Ends(exit, a)
    ensures Runs(sys, (s, a)) && (s, a) in sys.names && CellOf(sys, s, a) == sys.names[(s, a)] < |sys.cells|
    ensures sys.cells[CellOf(sys, s, a)].outcome.None? && !InFlight(sys, CellOf(sys, s, a))
  {
    assert Runs(sys, (s, a));
  }

  lemma StartedIsNew(sys: Sys, s: nat, op: Op, exit: Exit)
    requires Named(sys) && s in sys.stores && Sound(sys, s, op, exit) && exit.starts.Some?
    ensures (s, exit.starts.value) !in sys.names && !op.OpClose? && exit.starts.value < exit.state.arcs
  {
  }

  lemma GrownNamesApart(sys: Sys, n: Sys, k: (nat, nat))
    requires NamesInUse(sys) && NamesApart(sys) && n.names == sys.names[k := |sys.cells|]
    ensures NamesApart(n)
  {
  }

  lemma BodyKeepsNamed(sys: Sys, n: Sys, here: Place, s: nat, op: Op, exit: Exit)
    requires Named(sys) && MayUse(sys, here, s, op) && Sound(sys, s, op, exit)
    requires n == AfterBody(sys, s, op, exit).(threads := n.threads, locks := n.locks)
    ensures Named(n)
  {
    if exit.starts.Some? {
      StartedIsNew(sys, s, op, exit);
      GrownNamesApart(sys, n, (s, exit.starts.value));
    }
    assert !op.OpClose? ==> sys.stores[s].arcs <= exit.state.arcs;
  }

  lemma BodyRuns(sys: Sys, n: Sys, s: nat, op: Op, exit: Exit, k: (nat, nat))
    requires s in sys.stores && Sound(sys, s, op, exit)
    requires n == AfterBody(sys, s, op, exit).(threads := n.threads, locks := n.locks)
    ensures Runs(n, k) <==> (Runs(sys, k) && !(k.0 == s && Ends(exit, k.1))) || (k.0 == s && exit.starts == Some(k.1))
  {
    if op.OpClose? && k.0 == s && Runs(sys, k) { assert Ends(exit, k.1); }
  }

  lemma BodyKeepsUndecided(sys: Sys, n: Sys, here: Place, s: nat, op: Op, exit: Exit)
    requires Undecided(sys) && Open(sys) && s in sys.stores && Sound(sys, s, op, exit)
    requires Embarks(sys, n, here, s, op, exit)
    ensures Undecided(n)
  {
    forall c: nat | Completing(sys, s, exit, c)
      ensures c < |sys.cells| && sys.cells[c].outcome.None? && !InFlight(sys, c)
    {
      var a: nat :| Ends(exit, a) && CellOf(sys, s, a) == c;
      EndedRan(sys, s, op, exit, a);
    }
    forall p, q, c: nat | CarriesAt(n, p, c) && CarriesAt(n, q, c) ensures p == q {
      assert (p != here ==> CarriesAt(sys, p, c)) && (q != here ==> CarriesAt(sys, q, c));
    }
    forall p, c: nat | CarriesAt(n, p, c) ensures c < |n.cells| && n.cells[c].outcome.None? {
      if p != here { assert CarriesAt(sys, p, c); }
    }
  }

  lemma BodyFlights(sys: Sys, n: Sys, here: Place, s: nat, op: Op, exit: Exit, c: nat)
    requires Embarks(sys, n, here, s, op, exit)
    ensures InFlight(n, c) <==> InFlight(sys, c) || Completing(sys, s, exit, c)
  {
    if InFlight(n, c) { var p :| CarriesAt(n, p, c); assert p == here || CarriesAt(sys, p, c); }
    if InFlight(sys, c) { var p :| CarriesAt(sys, p, c); assert CarriesAt(n, p, c); }
    if Completing(sys, s, exit, c) { assert CarriesAt(n, here, c); }
  }

  lemma BodyKeepsOpen(sys: Sys, n: Sys, here: Place, s: nat, op: Op, exit: Exit)
    requires Named(sys) && Undecided(sys) && Open(sys) && MayUse(sys, here, s, op) && Sound(sys, s, op, exit)
    requires Embarks(sys, n, here, s, op, exit)
    ensures Open(n)
  {
    BodyKeepsNamed(sys, n, here, s, op, exit);
    forall k: (nat, nat) | Runs(n, k)
      ensures k in n.names && n.names[k] < |n.cells| && n.cells[n.names[k]].outcome.None? && !InFlight(n, n.names[k])
    {
      BodyRuns(sys, n, s, op, exit, k);
      if k.0 == s && exit.starts == Some(k.1) {
        StartedIsOpen(sys, n, here, s, op, exit);
      } else {
        StillOpen(sys, n, here, s, op, exit, k);
      }
    }
  }

  lemma StartedIsOpen(sys: Sys, n: Sys, here: Place, s: nat, op: Op, exit: Exit)
    requires Undecided(sys) && Open(sys) && s in sys.stores && Sound(sys, s, op, exit)
    requires Embarks(sys, n, here, s, op, exit)
    requires exit.starts.Some?
    ensures var k := (s, exit.starts.value);
      && k in n.names && n.names[k] == |sys.cells| < |n.cells|
      && n.cells[n.names[k]].outcome.None? && !InFlight(n, n.names[k])
  {
    var c := |sys.cells|;
    BodyFlights(sys, n, here, s, op, exit, c);
    assert !InFlight(sys, c);
    if Completing(sys, s, exit, c) {
      var a: nat :| Ends(exit, a) && CellOf(sys, s, a) == c;
      EndedRan(sys, s, op, exit, a);
    }
  }

  lemma StillOpen(sys: Sys, n: Sys, here: Place, s: nat, op: Op, exit: Exit, k: (nat, nat))
    requires Named(sys) && Open(sys) && s in sys.stores && Sound(sys, s, op, exit) && Embarks(sys, n, here, s, op, exit)
    requires Runs(sys, k) && !(k.0 == s && Ends(exit, k.1)) && !(k.0 == s && exit.starts == Some(k.1))
    ensures k in n.names && n.names[k] < |n.cells| && n.cells[n.names[k]].outcome.None? && !InFlight(n, n.names[k])
  {
    var c := sys.names[k];
    BodyFlights(sys, n, here, s, op, exit, c);
    if Completing(sys, s, exit, c) {
      var a: nat :| Ends(exit, a) && CellOf(sys, s, a) == c;
      EndedRan(sys, s, op, exit, a);
    }
  }

  lemma BodyKeepsAccounted(sys: Sys, n: Sys, here: Place, s: nat, op: Op, exit: Exit)
    requires Named(sys) && Accounted(sys) && s in sys.stores && Sound(sys, s, op, exit)
    requires Embarks(sys, n, here, s, op, exit)
    ensures Accounted(n)
  {
    forall k | k in n.names && n.names[k] < |n.cells| && n.cells[n.names[k]].outcome.None?
      ensures Runs(n, k) || InFlight(n, n.names[k])
    {
      BodyRuns(sys, n, s, op, exit, k);
      if !(k.0 == s && exit.starts == Some(k.1)) {
        var c := sys.names[k];
        BodyFlights(sys, n, here, s, op, exit, c);
        if Runs(sys, k) && k.0 == s && Ends(exit, k.1) { assert CellOf(sys, s, k.1) == c; }
      }
    }
  }

  /** Distinct ended attempts have distinct cells. */
  lemma WorkNamesOnce(sys: Sys, s: nat, op: Op, exit: Exit)
    requires Named(sys) && Open(sys) && s in sys.stores && Sound(sys, s, op, exit)
    ensures NoRepeats(WorkOf(sys, s, exit).completes)
  {
    var list := WorkOf(sys, s, exit).completes;
    forall i, j | 0 <= i < j < |list| ensures list[i].0 != list[j].0 {
      var a, b := exit.completes[i].0, exit.completes[j].0;
      assert Ends(exit, a) && Ends(exit, b) && a != b;
      EndedRan(sys, s, op, exit, a);
      EndedRan(sys, s, op, exit, b);
    }
  }

  lemma DropsCarry(sys: Sys, s: nat, op: Op, exit: Exit, c: nat)
    ensures Carries(DropsOf(sys, s, op, exit), c) <==> Completing(sys, s, exit, c)
  {
    var f := DropsOf(sys, s, op, exit);
    if Carries(f, c) {
      var i :| 0 <= i < |Carried(f)| && Carried(f)[i].0 == c;
      assert Ends(exit, exit.completes[i].0);
    }
    if Completing(sys, s, exit, c) {
      var a: nat :| Ends(exit, a) && CellOf(sys, s, a) == c;
      var i :| 0 <= i < |exit.completes| && exit.completes[i].0 == a;
      assert Carried(f)[i].0 == c;
    }
  }

  lemma BodySettles(sys: Sys, t: nat, s: nat, op: Op, exit: Exit)
    requires Settles(sys) && Running(sys, t) && Top(sys, t) == StoreBody(s, op)
    requires MayUse(sys, TopPlace(sys, t), s, op) && Sound(sys, s, op, exit)
    ensures Running(AfterBody(sys, s, op, exit), t)
    ensures Settles(Goto(AfterBody(sys, s, op, exit), t, DropsOf(sys, s, op, exit)))
  {
    var here, d, f := TopPlace(sys, t), AfterBody(sys, s, op, exit), DropsOf(sys, s, op, exit);
    BodyIsLocal(sys, s, op, exit, here);
    GotoAfterData(sys, d, t, f);
    var n := Goto(d, t, f);
    WorkNamesOnce(sys, s, op, exit);
    GotoCarries(sys, n, t, f);
    forall c: nat ensures Carries(f, c) <==> Completing(sys, s, exit, c) { DropsCarry(sys, s, op, exit, c); }
    EmbarkedSettles(sys, n, here, s, op, exit);
  }

  lemma EmbarkedSettles(sys: Sys, n: Sys, here: Place, s: nat, op: Op, exit: Exit)
    requires Settles(sys) && Once(n) && MayUse(sys, here, s, op) && Sound(sys, s, op, exit)
    requires Embarks(sys, n, here, s, op, exit)
    ensures Settles(n)
  {
    BodyKeepsNamed(sys, n, here, s, op, exit);
    BodyKeepsUndecided(sys, n, here, s, op, exit);
    BodyKeepsOpen(sys, n, here, s, op, exit);
    BodyKeepsAccounted(sys, n, here, s, op, exit);
  }

  // ---- every step

  /** A frame that neither publishes, nor acts on a store, nor hands a completion to a call. */
  predicate KeepsCompletions(f: Frame) {
    !f.Publish? && !f.StoreBody? && (f.CompleteAll? ==> f.completes == [])
  }

  /** It changes no outcome, and carries on what it carried. */
  ghost predicate Neutral(sys: Sys, d: Sys, f: Frame, move: Move) {
    && SameStores(sys, d) && |sys.cells| == |d.cells|
    && (forall c | 0 <= c < |sys.cells| :: d.cells[c].outcome == sys.cells[c].outcome)
    && match move
       case On(g) => Carried(g) == Carried(f)
       case Back => Carried(f) == []
       case Stay => d == sys
       case Into(_, _) => false
  }

  lemma PollIsNeutral(sys: Sys, here: Place, f: Frame, pick: Choice)
    requires Defined(sys, here, f) && InPoll(f)
    ensures Neutral(sys, Effect(sys, here, f, pick), f, Next(sys, here, f, pick))
  {
  }

  lemma DrainIsNeutral(sys: Sys, here: Place, f: Frame, pick: Choice)
    requires Defined(sys, here, f) && (f.Pick? || f.TakeLock? || f.Take?)
    ensures Neutral(sys, Effect(sys, here, f, pick), f, Next(sys, here, f, pick))
  {
  }

  lemma WakeIsNeutral(sys: Sys, here: Place, f: Frame, pick: Choice)
    requires Defined(sys, here, f) && (f.WakeNext? || f.Wake?)
    ensures Neutral(sys, Effect(sys, here, f, pick), f, Next(sys, here, f, pick))
  {
  }

  lemma CompleteIsNeutral(sys: Sys, here: Place, f: Frame, pick: Choice)
    requires Defined(sys, here, f) && InPublish(f) && !f.Publish?
    ensures Neutral(sys, Effect(sys, here, f, pick), f, Next(sys, here, f, pick))
  {
  }

  lemma OtherIsNeutral(sys: Sys, here: Place, f: Frame, pick: Choice)
    requires Defined(sys, here, f) && !InPoll(f) && !InPublish(f) && !InWake(f) && KeepsCompletions(f)
    ensures Neutral(sys, Effect(sys, here, f, pick), f, Next(sys, here, f, pick))
  {
  }

  lemma NeutralAdvance(sys: Sys, t: nat, pick: Choice)
    requires Settles(sys) && Placed(sys, t) && KeepsCompletions(Top(sys, t))
    ensures Settles(Advance(sys, t, pick))
  {
    var here, f := TopPlace(sys, t), Top(sys, t);
    if InPoll(f) { PollIsNeutral(sys, here, f, pick); }
    else if InPublish(f) { CompleteIsNeutral(sys, here, f, pick); }
    else if f.WakeNext? || f.Wake? { WakeIsNeutral(sys, here, f, pick); }
    else if InWake(f) { DrainIsNeutral(sys, here, f, pick); }
    else { OtherIsNeutral(sys, here, f, pick); }
    EffectKeepsThreads(sys, here, f, pick);
    AppliedIsNeutral(sys, Effect(sys, here, f, pick), t, Next(sys, here, f, pick));
  }

  lemma AppliedIsNeutral(sys: Sys, d: Sys, t: nat, move: Move)
    requires Settles(sys) && Running(sys, t) && d.threads == sys.threads && d.locks == sys.locks
    requires Neutral(sys, d, Top(sys, t), move)
    ensures Settles(Apply(d, t, move))
  {
    if !move.Stay? {
      AppliedThreads(sys, d, t, move);
      MoveIsNeutral(sys, Apply(d, t, move), t, move);
    }
  }

  lemma AppliedThreads(sys: Sys, d: Sys, t: nat, move: Move)
    requires Running(sys, t) && d.threads == sys.threads && (move.On? || move.Back?)
    ensures var n := Apply(d, t, move);
      && n.threads == (if move.On? then Goto(sys, t, move.frame) else Return(sys, t)).threads
      && n == d.(threads := n.threads, locks := n.locks)
  {
  }

  lemma PublishAdvanceSettles(sys: Sys, t: nat, pick: Choice)
    requires Settles(sys) && Placed(sys, t) && Top(sys, t).Publish?
    ensures Settles(Advance(sys, t, pick)) && sys.cells[Top(sys, t).cell].outcome.None?
  {
    var here, c, o := TopPlace(sys, t), Top(sys, t).cell, Top(sys, t).outcome;
    assert FrameAt(sys, here) == Top(sys, t) && Carried(Top(sys, t))[0].0 == c;
    assert CarriesAt(sys, here, c);
    EffectKeepsThreads(sys, here, Top(sys, t), pick);
    PublishKeeps(sys, Advance(sys, t, pick), t, c, o);
  }

  lemma PopAdvanceSettles(sys: Sys, t: nat, pick: Choice)
    requires Settles(sys) && Placed(sys, t) && Top(sys, t).CompleteAll? && Top(sys, t).completes != []
    ensures Settles(Advance(sys, t, pick))
  {
    PopKeeps(sys, Advance(sys, t, pick), t, Top(sys, t).completes, Top(sys, t).late);
  }

  lemma AdvanceSettles(sys: Sys, t: nat, pick: Choice)
    requires Settles(sys) && Placed(sys, t) && Legal(sys, t, pick)
    ensures Settles(Advance(sys, t, pick))
  {
    var f := Top(sys, t);
    if KeepsCompletions(f) { NeutralAdvance(sys, t, pick); }
    else if f.Publish? { PublishAdvanceSettles(sys, t, pick); }
    else if f.CompleteAll? { PopAdvanceSettles(sys, t, pick); }
    else { LegalIsSound(sys, t, pick); BodyAdvanceSettles(sys, t, pick); }
  }

  lemma BodyAdvanceSettles(sys: Sys, t: nat, pick: Choice)
    requires Settles(sys) && Placed(sys, t) && Top(sys, t).StoreBody?
    requires Top(sys, t).store in sys.stores && Sound(sys, Top(sys, t).store, Top(sys, t).op, pick.exit)
    ensures Settles(Advance(sys, t, pick))
  {
    BodyAdvanceIs(sys, t, pick);
    BodySettles(sys, t, Top(sys, t).store, Top(sys, t).op, pick.exit);
  }

  lemma NewStoreSettles(sys: Sys, t: nat, s: nat)
    requires Settles(sys) && CallOk(sys, NewStore(s))
    ensures Settles(Started(sys, t, NewStore(s)))
  {
    var n := Started(sys, t, NewStore(s));
    forall p, c: nat ensures CarriesAt(n, p, c) <==> CarriesAt(sys, p, c) {}
    forall c: nat ensures InFlight(n, c) <==> InFlight(sys, c) {
      if InFlight(n, c) { var p :| CarriesAt(n, p, c); assert CarriesAt(sys, p, c); }
      if InFlight(sys, c) { var p :| CarriesAt(sys, p, c); assert CarriesAt(n, p, c); }
    }
    forall k: (nat, nat) ensures Runs(n, k) <==> Runs(sys, k) {}
    forall p | At(n, p) ensures NoRepeats(Carried(FrameAt(n, p))) {
      assert At(sys, p) && FrameAt(n, p) == FrameAt(sys, p);
    }
  }

  predicate OnWaiter(call: Call) {
    call.CallPoll? || call.CallClone? || call.CallDrop?
  }

  lemma WaiterCallSettles(sys: Sys, t: nat, call: Call)
    requires Settles(sys) && CallOk(sys, call) && OnWaiter(call)
    ensures Settles(Started(sys, t, call))
  {
    var n := Started(sys, t, call);
    match call
    case CallPoll(w, k) => PushIsNeutral(sys, n, t, PollLock(sys.waiters[w].cell, w, k));
    case CallClone(c) => PushIsNeutral(sys, n, t, CloneLock(c));
    case CallDrop(w) => PushIsNeutral(sys, n, t, DropLock(sys.waiters[w].cell, w));
  }

  lemma StartedSettles(sys: Sys, t: nat, call: Call)
    requires Settles(sys) && CallOk(sys, call)
    ensures Settles(Started(sys, t, call))
  {
    var n := Started(sys, t, call);
    match call
    case NewStore(s) => NewStoreSettles(sys, t, s);
    case CallStore(s, op) => PushIsNeutral(sys, n, t, StoreEnter(s, op));
    case CallClose(s) => PushIsNeutral(sys, n, t, StoreEnter(s, OpClose));
    case _ => WaiterCallSettles(sys, t, call);
  }

  lemma StepSettles(sys: Sys, e: Event, n: Sys)
    requires Settles(sys) && Does(sys, e, n)
    ensures Settles(n)
  {
    match e
    case Go(t, pick) => AdvanceSettles(sys, t, pick);
    case Start(t, call) => StartedSettles(sys, t, call);
  }

  lemma InitialSettles()
    ensures Settles(Initial)
  {
    forall p, c: nat ensures !CarriesAt(Initial, p, c) {}
  }

  lemma {:induction false} RunSettles(run: seq<Sys>, events: seq<Event>, k: nat)
    requires IsRun(run, events) && k < |run|
    ensures Settles(run[k])
  {
    if k == 0 {
      InitialSettles();
    } else {
      RunSettles(run, events, k - 1);
      RunStepSettles(run, events, k);
    }
  }

  lemma RunStepSettles(run: seq<Sys>, events: seq<Event>, k: nat)
    requires IsRun(run, events) && 0 < k < |run| && Settles(run[k - 1])
    ensures Settles(run[k])
  {
    assert StepAt(run, events, k - 1);
    StepSettles(run[k - 1], events[k - 1], run[k]);
  }

  // ---- what waiters get

  /**
   Once an attempt no longer runs in its store, whether its permit was consumed or dropped or
   the store was closed, and no call is completing it, it has its outcome; every waiter whose
   last poll returned Pending was woken, exactly once, and whoever saw an outcome saw this one.
   */
  lemma EndedIsDelivered(run: seq<Sys>, events: seq<Event>, k: nat, name: (nat, nat))
    requires IsRun(run, events) && k < |run| && name in run[k].names && !Runs(run[k], name)
    ensures run[k].names[name] < |run[k].cells|
    ensures var sys, c := run[k], run[k].names[name];
      !InFlight(sys, c) && !BeingCompleted(sys, c) ==>
        && sys.cells[c].outcome.Some?
        && forall w | 0 <= w < |sys.waiters| && sys.waiters[w].cell == c ::
             && (sys.waiters[w].waiting.Some? ==> sys.waiters[w].woken == [sys.waiters[w].waiting.value])
             && (sys.waiters[w].seen.Some? ==> sys.waiters[w].seen == sys.cells[c].outcome)
  {
    RunSettles(run, events, k);
    var sys := run[k];
    var c := sys.names[name];
    forall w: nat | w < |sys.waiters| && sys.waiters[w].cell == c && !InFlight(sys, c) && !BeingCompleted(sys, c)
      ensures sys.waiters[w].waiting.Some? ==> sys.waiters[w].woken == [sys.waiters[w].waiting.value]
      ensures sys.waiters[w].seen.Some? ==> sys.waiters[w].seen == sys.cells[c].outcome
    {
      if sys.waiters[w].waiting.Some? { NoLostWakeup(run, events, k, w); }
      if sys.waiters[w].seen.Some? { SeenIsTheOutcome(run, events, k, w); }
    }
  }

  // ---- what was decided is what is published

  predicate CarriesPair(sys: Sys, p: Place, c: nat, o: Outcome) {
    At(sys, p) && (c, o) in Carried(FrameAt(sys, p))
  }

  /** The outcome `o` of cell `c` is on its way, or there. */
  ghost predicate Pledged(sys: Sys, c: nat, o: Outcome) {
    c < |sys.cells| && (sys.cells[c].outcome == Some(o) || exists p :: CarriesPair(sys, p, c, o))
  }

  lemma ApplyKeepsElsewhere(sys: Sys, t: nat, move: Move, p: Place)
    requires Running(sys, t) && At(sys, p) && p != TopPlace(sys, t)
    ensures At(Apply(sys, t, move), p) && FrameAt(Apply(sys, t, move), p) == FrameAt(sys, p)
  {
  }

  lemma AdvanceKeepsElsewhere(sys: Sys, t: nat, pick: Choice, p: Place)
    requires Placed(sys, t) && At(sys, p) && p != TopPlace(sys, t)
    ensures At(Advance(sys, t, pick), p) && FrameAt(Advance(sys, t, pick), p) == FrameAt(sys, p)
  {
    var here, f := TopPlace(sys, t), Top(sys, t);
    EffectKeepsThreads(sys, here, f, pick);
    ApplyKeepsElsewhere(Effect(sys, here, f, pick), t, Next(sys, here, f, pick), p);
  }

  lemma StartedKeepsFrames(sys: Sys, t: nat, call: Call, p: Place)
    requires CallOk(sys, call) && At(sys, p)
    ensures At(Started(sys, t, call), p) && FrameAt(Started(sys, t, call), p) == FrameAt(sys, p)
  {
  }

  /** The operation that carries the outcome carries it on, hands it to a call, or publishes it. */
  lemma CarrierDelivers(sys: Sys, t: nat, pick: Choice, c: nat, o: Outcome)
    requires Settles(sys) && Placed(sys, t) && c < |sys.cells| && (c, o) in Carried(Top(sys, t))
    ensures Pledged(Advance(sys, t, pick), c, o)
  {
    var f := Top(sys, t);
    if KeepsCompletions(f) { CarriesOn(sys, t, pick, c, o); }
    else if f.Publish? { PublishDelivers(sys, t, pick, c, o); }
    else { PopDelivers(sys, t, pick, c, o); }
  }

  lemma CarriesOn(sys: Sys, t: nat, pick: Choice, c: nat, o: Outcome)
    requires Placed(sys, t) && c < |sys.cells| && (c, o) in Carried(Top(sys, t)) && KeepsCompletions(Top(sys, t))
    ensures Pledged(Advance(sys, t, pick), c, o)
  {
    var here, f, n := TopPlace(sys, t), Top(sys, t), Advance(sys, t, pick);
    if InPublish(f) { CompleteIsNeutral(sys, here, f, pick); } else { OtherIsNeutral(sys, here, f, pick); }
    EffectKeepsThreads(sys, here, f, pick);
    assert Next(sys, here, f, pick).On?;
    assert CarriesPair(n, here, c, o);
  }

  lemma PublishDelivers(sys: Sys, t: nat, pick: Choice, c: nat, o: Outcome)
    requires Settles(sys) && Placed(sys, t) && c < |sys.cells| && Top(sys, t).Publish? && (c, o) in Carried(Top(sys, t))
    ensures Pledged(Advance(sys, t, pick), c, o)
  {
    PublishAdvanceSettles(sys, t, pick);
    EffectKeepsThreads(sys, TopPlace(sys, t), Top(sys, t), pick);
  }

  lemma PopDelivers(sys: Sys, t: nat, pick: Choice, c: nat, o: Outcome)
    requires Placed(sys, t) && c < |sys.cells| && Top(sys, t).CompleteAll? && (c, o) in Carried(Top(sys, t))
    ensures Pledged(Advance(sys, t, pick), c, o)
  {
    var here, completes, late, n := TopPlace(sys, t), Top(sys, t).completes, Top(sys, t).late, Advance(sys, t, pick);
    var rest, called := CompleteAll(completes[1..], late), PublishLock(completes[0].0, completes[0].1);
    IntoPlaces(sys, n, t, rest, called);
    if (c, o) == completes[0] {
      assert CarriesPair(n, Place(t, here.depth + 1), c, o);
    } else {
      assert (c, o) in completes[1..];
      assert CarriesPair(n, here, c, o);
    }
  }

  lemma PledgeStays(sys: Sys, e: Event, n: Sys, c: nat, o: Outcome)
    requires Inv(sys) && Settles(sys) && Does(sys, e, n) && Pledged(sys, c, o)
    ensures Pledged(n, c, o)
  {
    StepGrows(sys, e, n);
    if sys.cells[c].outcome == Some(o) {
      assert CellGrows(sys.cells[c], n.cells[c]);
    } else {
      var p :| CarriesPair(sys, p, c, o);
      match e
      case Go(t, pick) =>
        if p == TopPlace(sys, t) {
          CarrierDelivers(sys, t, pick, c, o);
        } else {
          AdvanceKeepsElsewhere(sys, t, pick, p);
          assert CarriesPair(n, p, c, o);
        }
      case Start(t, call) =>
        StartedKeepsFrames(sys, t, call, p);
        assert CarriesPair(n, p, c, o);
    }
  }

  lemma RunStepKeepsPledge(run: seq<Sys>, events: seq<Event>, k: nat, c: nat, o: Outcome)
    requires IsRun(run, events) && 0 < k < |run| && Pledged(run[k - 1], c, o)
    ensures Pledged(run[k], c, o)
  {
    RunSettles(run, events, k - 1);
    RunKeepsInv(run, events, k - 1);
    assert StepAt(run, events, k - 1);
    PledgeStays(run[k - 1], events[k - 1], run[k], c, o);
  }

  lemma {:induction false} RunKeepsPledge(run: seq<Sys>, events: seq<Event>, j: nat, k: nat, c: nat, o: Outcome)
    requires IsRun(run, events) && j <= k < |run| && Pledged(run[j], c, o)
    ensures Pledged(run[k], c, o)
    decreases k - j
  {
    if j < k {
      RunKeepsPledge(run, events, j, k - 1, c, o);
      RunStepKeepsPledge(run, events, k, c, o);
    }
  }

  /** The operation `e` performs on a store ends the attempt at address `a` with outcome `o`. */
  ghost predicate Decides(sys: Sys, e: Event, s: nat, a: nat, o: Outcome) {
    e.Go? && Running(sys, e.thread) && Top(sys, e.thread).StoreBody? && Top(sys, e.thread).store == s
    && (a, o) in e.pick.exit.completes
  }

  lemma BodyPledges(sys: Sys, t: nat, pick: Choice, s: nat, a: nat, o: Outcome)
    requires Settles(sys) && Placed(sys, t) && Top(sys, t).StoreBody? && Top(sys, t).store == s && s in sys.stores
    requires Sound(sys, s, Top(sys, t).op, pick.exit) && (a, o) in pick.exit.completes
    ensures (s, a) in sys.names && Pledged(Advance(sys, t, pick), sys.names[(s, a)], o)
  {
    var op, exit := Top(sys, t).op, pick.exit;
    BodyAdvanceIs(sys, t, pick);
    DropsCarryPair(sys, s, op, exit, a, o);
    EndedRan(sys, s, op, exit, a);
    DropsArePlaced(sys, t, s, op, exit, CellOf(sys, s, a), o);
  }

  lemma DropsCarryPair(sys: Sys, s: nat, op: Op, exit: Exit, a: nat, o: Outcome)
    requires (a, o) in exit.completes
    ensures Ends(exit, a) && (CellOf(sys, s, a), o) in Carried(DropsOf(sys, s, op, exit))
  {
    var i :| 0 <= i < |exit.completes| && exit.completes[i] == (a, o);
    assert Carried(DropsOf(sys, s, op, exit))[i] == (CellOf(sys, s, a), o);
  }

  lemma DropsArePlaced(sys: Sys, t: nat, s: nat, op: Op, exit: Exit, c: nat, o: Outcome)
    requires Running(sys, t) && c < |sys.cells| && (c, o) in Carried(DropsOf(sys, s, op, exit))
    ensures Running(AfterBody(sys, s, op, exit), t)
    ensures Pledged(Goto(AfterBody(sys, s, op, exit), t, DropsOf(sys, s, op, exit)), c, o)
  {
    var d, f := AfterBody(sys, s, op, exit), DropsOf(sys, s, op, exit);
    assert d.threads == sys.threads && d.locks == sys.locks;
    GotoAfterData(sys, d, t, f);
    assert CarriesPair(Goto(d, t, f), TopPlace(sys, t), c, o);
  }

  lemma DecidedIsPledged(run: seq<Sys>, events: seq<Event>, j: nat, s: nat, a: nat, o: Outcome)
    requires IsRun(run, events) && j < |events| && Decides(run[j], events[j], s, a, o)
    ensures (s, a) in run[j].names && Pledged(run[j + 1], run[j].names[(s, a)], o)
  {
    RunSettles(run, events, j);
    assert StepAt(run, events, j);
    LegalIsSound(run[j], events[j].thread, events[j].pick);
    BodyPledges(run[j], events[j].thread, events[j].pick, s, a, o);
  }

  /**
   Whatever a commit, fail, cancel, permit drop or close decides for an attempt under the
   lock of its store is the outcome its cell gets, and the only one it ever has.
   */
  lemma DecidedIsPublished(
    run: seq<Sys>, events: seq<Event>, j: nat, k: nat, s: nat, a: nat, o: Outcome)
    requires IsRun(run, events) && j < k < |run| && Decides(run[j], events[j], s, a, o)
    ensures (s, a) in run[j].names && run[j].names[(s, a)] < |run[k].cells|
    ensures var c := run[j].names[(s, a)];
      && (run[k].cells[c].outcome.Some? ==> run[k].cells[c].outcome == Some(o))
      && (!InFlight(run[k], c) ==> run[k].cells[c].outcome == Some(o))
  {
    DecidedIsPledged(run, events, j, s, a, o);
    PledgeIsKept(run, events, j + 1, k, run[j].names[(s, a)], o);
  }

  lemma PledgeIsKept(run: seq<Sys>, events: seq<Event>, j: nat, k: nat, c: nat, o: Outcome)
    requires IsRun(run, events) && j <= k < |run| && Pledged(run[j], c, o)
    ensures c < |run[k].cells|
    ensures run[k].cells[c].outcome.Some? ==> run[k].cells[c].outcome == Some(o)
    ensures !InFlight(run[k], c) ==> run[k].cells[c].outcome == Some(o)
  {
    RunKeepsPledge(run, events, j, k, c, o);
    RunSettles(run, events, k);
    PledgeIsExclusive(run[k], c, o);
  }

  lemma PledgeIsExclusive(sys: Sys, c: nat, o: Outcome)
    requires Undecided(sys) && Pledged(sys, c, o)
    ensures sys.cells[c].outcome.Some? ==> sys.cells[c].outcome == Some(o)
    ensures !InFlight(sys, c) ==> sys.cells[c].outcome == Some(o)
  {
    if sys.cells[c].outcome != Some(o) {
      var p :| CarriesPair(sys, p, c, o);
      var i :| 0 <= i < |Carried(FrameAt(sys, p))| && Carried(FrameAt(sys, p))[i] == (c, o);
      assert Carried(FrameAt(sys, p))[i].0 == c;
      assert CarriesAt(sys, p, c);
    }
  }
}
