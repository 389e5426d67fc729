/**
 The loader's producer counters as what they are: independent atomics, each bumped in a
 step of its own by any number of producers in any interleaving.
 */
module ProducerLife {
  import opened Prelude

  datatype Stats = Stats(
    requests: nat, readyHits: nat, producers: nat, joinedWaiters: nat, failedRequests: nat,
    successes: nat, failures: nat, cancellations: nat, budgetRejections: nat, inFlight: nat)

  const Zero := Stats(0, 0, 0, 0, 0, 0, 0, 0, 0, 0)

  /** `fetch_add(1)` and `fetch_sub(1)` wrap. */
  function Up(counter: nat): nat {
    if counter == U64_MAX then 0 else counter + 1
  }

  function Down(counter: nat): nat {
    if counter == 0 then U64_MAX else counter - 1
  }

  /** What a wrapping counter shows after `n` increments. */
  function Word(n: nat): (counter: nat)
    ensures counter <= U64_MAX && (n <= U64_MAX ==> counter == n)
  {
    if n <= U64_MAX then n else Word(n - U64_MAX - 1)
  }

  lemma {:induction false} WordSteps(n: nat)
    ensures Up(Word(n)) == Word(n + 1) && Down(Word(n + 1)) == Word(n)
  {
    if n > U64_MAX { WordSteps(n - U64_MAX - 1); }
  }

  datatype Ending = Success | Failure | Cancellation

  /** How many of its counter updates a producer has made. */
  datatype Life = Acquired | Counted | InFlight | Settled(ending: Ending) | Ended(ending: Ending)

  function Began(stats: Stats): Stats {
    stats.(producers := Up(stats.producers), inFlight := Up(stats.inFlight))
  }

  function EndedAs(stats: Stats, ending: Ending): Stats {
    match ending
    case Success => stats.(successes := Up(stats.successes))
    case Failure => stats.(failures := Up(stats.failures))
    case Cancellation => stats.(cancellations := Up(stats.cancellations))
  }

  datatype Loaders = Loaders(stats: Stats, lives: map<nat, Life>)

  datatype Step =
    | Acquire(producer: nat)
    | Count(producer: nat)
    | Fly(producer: nat)
    | Settle(producer: nat, ending: Ending)
    | End(producer: nat)

  predicate Is(l: Loaders, p: nat, life: Life) {
    p in l.lives && l.lives[p] == life
  }

  predicate Can(l: Loaders, s: Step) {
    match s
    case Acquire(p) => p !in l.lives
    case Count(p) => Is(l, p, Acquired)
    case Fly(p) => Is(l, p, Counted)
    case Settle(p, _) => Is(l, p, InFlight)
    case End(p) => p in l.lives && l.lives[p].Settled?
  }

  function Do(l: Loaders, s: Step): Loaders
    requires Can(l, s)
  {
    match s
    case Acquire(p) => l.(lives := l.lives[p := Acquired])
    case Count(p) => Loaders(l.stats.(producers := Up(l.stats.producers)), l.lives[p := Counted])
    case Fly(p) => Loaders(l.stats.(inFlight := Up(l.stats.inFlight)), l.lives[p := InFlight])
    case Settle(p, ending) => Loaders(l.stats.(inFlight := Down(l.stats.inFlight)), l.lives[p := Settled(ending)])
    case End(p) => Loaders(EndedAs(l.stats, l.lives[p].ending), l.lives[p := Ended(l.lives[p].ending)])
  }

  /** The producers at one of these points of their life. */
  function Those(lives: map<nat, Life>, points: set<Life>): set<nat> {
    set p | p in lives && lives[p] in points
  }

  function Tally(lives: map<nat, Life>, points: set<Life>): nat {
    |Those(lives, points)|
  }

  const Begun: set<Life> :=
    {Counted, InFlight, Settled(Success), Settled(Failure), Settled(Cancellation),
     Ended(Success), Ended(Failure), Ended(Cancellation)}

  const Finished: set<Life> := {Ended(Success), Ended(Failure), Ended(Cancellation)}

  lemma Points(life: Life)
    ensures life in Begun <==> !life.Acquired?
    ensures life in Finished <==> life.Ended?
  {
    if life.Settled? || life.Ended? {
      match life.ending
      case Success =>
      case Failure =>
      case Cancellation =>
    }
  }

  /** The tally when `p` goes on to `to`. */
  lemma TallyStep(lives: map<nat, Life>, p: nat, to: Life, points: set<Life>)
    ensures Tally(lives[p := to], points)
         == Tally(lives, points) + (if to in points then 1 else 0) - (if p in lives && lives[p] in points then 1 else 0)
  {
    var before, after := Those(lives, points), Those(lives[p := to], points);
    if to in points {
      assert after == before + {p};
    } else {
      assert after == before - {p};
    }
  }

  /** Each counter shows the number of producers past its update. */
  predicate Tallied(l: Loaders) {
    && l.stats.producers == Word(Tally(l.lives, Begun))
    && l.stats.inFlight == Word(Tally(l.lives, {InFlight}))
    && l.stats.successes == Word(Tally(l.lives, {Ended(Success)}))
    && l.stats.failures == Word(Tally(l.lives, {Ended(Failure)}))
    && l.stats.cancellations == Word(Tally(l.lives, {Ended(Cancellation)}))
  }

  lemma StepKeepsTallies(l: Loaders, s: Step)
    requires Tallied(l) && Can(l, s)
    ensures Tallied(Do(l, s))
  {
    var n := Do(l, s);
    var p, to := s.producer, n.lives[s.producer];
    assert n.lives == l.lives[p := to];
    Points(to);
    TallyStep(l.lives, p, to, Begun);
    TallyStep(l.lives, p, to, {InFlight});
    TallyStep(l.lives, p, to, {Ended(Success)});
    TallyStep(l.lives, p, to, {Ended(Failure)});
    TallyStep(l.lives, p, to, {Ended(Cancellation)});
    match s
    case Acquire(_) =>
    case Count(_) => WordSteps(Tally(l.lives, Begun));
    case Fly(_) => WordSteps(Tally(l.lives, {InFlight}));
    case Settle(_, _) => WordSteps(Tally(n.lives, {InFlight}));
    case End(_) => WordSteps(Tally(l.lives, {to}));
  }

  predicate StepAt(run: seq<Loaders>, steps: seq<Step>, k: nat)
    requires k < |steps| && k + 1 < |run|
  {
    Can(run[k], steps[k]) && run[k + 1] == Do(run[k], steps[k])
  }

  ghost predicate IsRun(run: seq<Loaders>, steps: seq<Step>) {
    |run| == |steps| + 1 && run[0] == Loaders(Zero, map[]) && forall k: nat | k < |steps| :: StepAt(run, steps, k)
  }

  lemma {:induction false} RunKeepsTallies(run: seq<Loaders>, steps: seq<Step>, k: nat)
    requires IsRun(run, steps) && k < |run|
    ensures Tallied(run[k])
  {
    if k > 0 {
      RunKeepsTallies(run, steps, k - 1);
      assert StepAt(run, steps, k - 1);
      StepKeepsTallies(run[k - 1], steps[k - 1]);
    }
  }

  /** No producer is between two of its counter updates. */
  predicate Quiescent(lives: map<nat, Life>) {
    forall p :: p in lives ==> lives[p].InFlight? || lives[p].Ended?
  }

  /**
   At quiescence every producer ever made is either in flight or has exactly one ending on
   the counters, for every interleaving, as long as the counters themselves have not wrapped.
   */
  lemma ProducersAreAccountedFor(run: seq<Loaders>, steps: seq<Step>, k: nat)
    requires IsRun(run, steps) && k < |run| && Quiescent(run[k].lives)
    ensures var stats := run[k].stats;
      && stats.producers == Word(|run[k].lives|)
      && (|run[k].lives| <= U64_MAX ==>
            stats.producers == stats.successes + stats.failures + stats.cancellations + stats.inFlight)
  {
    RunKeepsTallies(run, steps, k);
    var lives := run[k].lives;
    forall p | p in lives ensures lives[p] in Begun && lives[p] in {InFlight} + Finished { Points(lives[p]); }
    assert Those(lives, Begun) == lives.Keys == Those(lives, {InFlight} + Finished);
    TallyParts(lives, {InFlight}, Finished);
    assert Finished == {Ended(Success)} + {Ended(Failure), Ended(Cancellation)};
    TallyParts(lives, {Ended(Success)}, {Ended(Failure), Ended(Cancellation)});
    assert {Ended(Failure), Ended(Cancellation)} == {Ended(Failure)} + {Ended(Cancellation)};
    TallyParts(lives, {Ended(Failure)}, {Ended(Cancellation)});
  }

  lemma TallyParts(lives: map<nat, Life>, a: set<Life>, b: set<Life>)
    requires a !! b
    ensures Tally(lives, a + b) == Tally(lives, a) + Tally(lives, b)
  {
    assert Those(lives, a + b) == Those(lives, a) + Those(lives, b);
  }
}
