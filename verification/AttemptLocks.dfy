/**
 The lock discipline of the attempt protocol: locks are taken in rank order, foreign
 code runs with none held, and so no interleaving and no re-entry can deadlock.
 */
module AttemptLocks {
  import opened Prelude
  import opened AttemptProtocol

  /** Every lock is requested above all locks held. */
  lemma LockOrder(f: Frame)
    ensures Wants(f).Some? ==> forall l :: l in Holds(f) ==> Rank(l) < Rank(Wants(f).value)
  {
  }

  /**
   Foreign code holds no lock and wants none. This is true of a drop under the guard
   only because, in a valid store, there is nothing to drop there.
   */
  lemma FrameDiscipline(sys: Sys, p: Place)
    requires Frames(sys) && At(sys, p) && Calls(FrameAt(sys, p))
    ensures Holds(FrameAt(sys, p)) == {} && Wants(FrameAt(sys, p)).None?
  {
    assert FrameOk(sys, p, FrameAt(sys, p));
  }

  /** A frame may follow another when it holds no more than that one held and just acquired. */
  predicate Follows(f: Frame, next: Frame) {
    forall l :: l in Holds(next) ==> l in Holds(f) || Wants(f) == Some(l)
  }

  function HeldBy(sys: Sys, t: nat): set<Lock> {
    if Running(sys, t) then Holds(Top(sys, t)) else {}
  }

  /** Relocking by `t` leaves every other thread with what it holds. */
  lemma RelockKeepsLocks(sys: Sys, n: Sys, t: nat)
    requires Locks(sys) && Running(sys, t) && CallsBelow(n)
    requires forall l :: l in HeldBy(n, t) ==> l !in sys.locks || l in Holds(Top(sys, t))
    requires n.locks == Relock(sys, t, HeldBy(n, t))
    requires forall u: nat :: u != t ==> Stack(n, u) == Stack(sys, u)
    ensures Locks(n)
  {
    forall u: nat, l | Running(n, u) && l in Holds(Top(n, u)) ensures l in n.locks && n.locks[l] == u {
      if u != t {
        assert Running(sys, u) && Top(n, u) == Top(sys, u);
        assert l in Holds(Top(sys, u));
        assert l in sys.locks && sys.locks[l] == u;
      }
    }
    forall l | l in n.locks ensures Running(n, n.locks[l]) && l in Holds(Top(n, n.locks[l])) {
      var u := n.locks[l];
      if l !in HeldBy(n, t) {
        assert l in sys.locks && u == sys.locks[l];
        assert u != t;
      }
    }
  }

  /** No frame gets below another but at a call out of foreign code. */
  lemma StaysCallsBelow(sys: Sys, n: Sys, t: nat)
    requires CallsBelow(sys)
    requires forall u: nat :: u != t ==> Stack(n, u) == Stack(sys, u)
    requires forall i | 0 <= i < |Stack(n, t)| - 1 :: i < |Stack(sys, t)| && Stack(n, t)[i] == Stack(sys, t)[i]
    requires |Stack(n, t)| > |Stack(sys, t)| ==> MayPush(sys, t) && |Stack(n, t)| == |Stack(sys, t)| + 1
    ensures CallsBelow(n)
  {
    forall p | At(n, p) && p.depth + 1 < |Stack(n, p.thread)| ensures Calls(FrameAt(n, p)) {
      assert At(sys, p) && FrameAt(n, p) == FrameAt(sys, p);
    }
  }

  lemma GotoKeepsLocks(sys: Sys, n: Sys, t: nat, f: Frame)
    requires Locks(sys) && CanGo(sys, t) && Follows(Top(sys, t), f)
    requires n.threads == Goto(sys, t, f).threads && n.locks == Goto(sys, t, f).locks
    ensures Locks(n)
  {
    StaysCallsBelow(sys, n, t);
    assert Top(n, t) == f;
    RelockKeepsLocks(sys, n, t);
  }

  lemma ReturnKeepsLocks(sys: Sys, n: Sys, t: nat)
    requires Locks(sys) && Frames(sys) && Running(sys, t)
    requires n.threads == Return(sys, t).threads && n.locks == Return(sys, t).locks
    ensures Locks(n)
  {
    StaysCallsBelow(sys, n, t);
    if Running(n, t) {
      var p := TopPlace(n, t);
      assert At(sys, p) && FrameAt(sys, p) == Top(n, t);
      FrameDiscipline(sys, p);
    }
    assert HeldBy(n, t) == {};
    RelockKeepsLocks(sys, n, t);
  }

  /** A frame can be put on top of `t`. */
  predicate MayPush(sys: Sys, t: nat) {
    Running(sys, t) ==> Calls(Top(sys, t))
  }

  lemma PushKeepsLocks(sys: Sys, n: Sys, t: nat, f: Frame)
    requires Locks(sys) && Frames(sys) && MayPush(sys, t) && Holds(f) == {}
    requires n.threads == Push(sys, t, f).threads && n.locks == sys.locks
    ensures Locks(n)
  {
    assert Stack(n, t) == Stack(sys, t) + [f];
    StaysCallsBelow(sys, n, t);
    assert Top(n, t) == f;
    if Running(sys, t) { FrameDiscipline(sys, TopPlace(sys, t)); }
    PushedHolds(sys, n, t, f);
  }

  /** The new frame holds nothing, and what is below it held nothing either. */
  lemma PushedHolds(sys: Sys, n: Sys, t: nat, f: Frame)
    requires Locks(sys) && Holds(f) == {} && (Running(sys, t) ==> Holds(Top(sys, t)) == {})
    requires Stack(n, t) == Stack(sys, t) + [f] && n.locks == sys.locks
    requires forall u: nat :: u != t ==> Stack(n, u) == Stack(sys, u)
    ensures forall l :: l in n.locks ==> Running(n, n.locks[l]) && l in Holds(Top(n, n.locks[l]))
    ensures forall u: nat, l :: Running(n, u) && l in Holds(Top(n, u)) ==> l in n.locks && n.locks[l] == u
  {
    assert Top(n, t) == f;
    forall u: nat, l | Running(n, u) && l in Holds(Top(n, u)) ensures l in n.locks && n.locks[l] == u {
      assert Running(sys, u) && Top(n, u) == Top(sys, u);
      assert l in Holds(Top(sys, u));
    }
  }

  /** While a thread runs foreign code it holds no lock at all, at any depth of its stack. */
  lemma ForeignHoldsNothing(sys: Sys, t: nat)
    requires Locks(sys) && Frames(sys) && Running(sys, t) && Foreign(Top(sys, t))
    ensures forall l :: l in sys.locks ==> sys.locks[l] != t
    ensures forall i | 0 <= i < |Stack(sys, t)| :: Holds(Stack(sys, t)[i]) == {}
  {
    FrameDiscipline(sys, TopPlace(sys, t));
    forall i | 0 <= i < |Stack(sys, t)| ensures Holds(Stack(sys, t)[i]) == {} {
      assert FrameAt(sys, Place(t, i)) == Stack(sys, t)[i];
      FrameDiscipline(sys, Place(t, i));
    }
  }

  // ---- who waits for whom

  /** Thread `t` waits for a lock that `u` holds. */
  predicate WaitsFor(sys: Sys, t: nat, u: nat) {
    && Running(sys, t) && Wants(Top(sys, t)).Some?
    && Wants(Top(sys, t)).value in sys.locks && sys.locks[Wants(Top(sys, t)).value] == u
  }

  /** From `t` on each thread waits for the next, and the last can go on; a holder is not in foreign code. */
  ghost predicate WaitChain(sys: Sys, t: nat, chain: seq<nat>) {
    && chain != [] && chain[0] == t
    && (forall i | 0 <= i < |chain| - 1 :: WaitsFor(sys, chain[i], chain[i + 1]))
    && CanGo(sys, chain[|chain| - 1])
    && (|chain| > 1 ==> !Foreign(Top(sys, chain[|chain| - 1])))
  }

  /** Follow a blocked thread to the owner of the lock it waits for: the rank goes up, so the chain ends. */
  lemma {:induction false} ChainEnds(sys: Sys, t: nat) returns (chain: seq<nat>)
    requires Locks(sys) && Frames(sys) && Running(sys, t)
    ensures WaitChain(sys, t, chain) && |chain| <= 5
    ensures Wants(Top(sys, t)).Some? ==> |chain| <= 5 - Rank(Wants(Top(sys, t)).value)
    ensures Wants(Top(sys, t)).None? ==> |chain| == 1
    decreases if Wants(Top(sys, t)).Some? then 4 - Rank(Wants(Top(sys, t)).value) else 0
  {
    var wanted := Wants(Top(sys, t));
    if wanted.Some? && wanted.value in sys.locks {
      var owner := sys.locks[wanted.value];
      LockOrder(Top(sys, owner));
      if Calls(Top(sys, owner)) { FrameDiscipline(sys, TopPlace(sys, owner)); }
      var rest := ChainEnds(sys, owner);
      chain := [t] + rest;
      assert forall i | 1 <= i < |chain| :: chain[i] == rest[i - 1];
    } else {
      chain := [t];
    }
  }
}
