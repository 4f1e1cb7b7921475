/** Runs of a token bucket: traces of timed operations, and the sums a trace defines. */
module BucketRuns {
  import opened Numbers
  import opened Buckets

  datatype Op = Consume(count: real) | Peek | Retune(rate: real) | Resize(burst: real)

  datatype Event = Event(at: real, op: Op)

  datatype Outcome = Admitted | Denied | Level(tokens: real) | Done

  function Step(b: Bucket, e: Event): (r: Bucket)
    ensures Sound(b) ==> Sound(r)
  {
    match e.op
    case Consume(count) => TryConsume(b, count, e.at).0
    case Peek => Refill(b, e.at)
    case Retune(rate) => SetRate(b, rate, e.at)
    case Resize(burst) => SetBurst(b, burst, e.at)
  }

  function Result(b: Bucket, e: Event): Outcome {
    match e.op
    case Consume(count) => if TryConsume(b, count, e.at).1 then Admitted else Denied
    case Peek => Level(Refill(b, e.at).tokens)
    case Retune(_) => Done
    case Resize(_) => Done
  }

  function Run(b: Bucket, es: seq<Event>): (r: Bucket)
    ensures Sound(b) ==> Sound(r)
  {
    if es == [] then b else Step(Run(b, es[..|es| - 1]), es[|es| - 1])
  }

  function Outcomes(b: Bucket, es: seq<Event>): (r: seq<Outcome>)
    ensures |r| == |es|
  {
    if es == [] then [] else
      Outcomes(b, es[..|es| - 1]) + [Result(Run(b, es[..|es| - 1]), es[|es| - 1])]
  }

  /** Consuming nothing returns before the refill; every other operation refills. */
  predicate Refills(e: Event) {
    !(e.op.Consume? && e.op.count <= 0.0)
  }

  /** The positive count the operation takes out of the bucket. */
  function Taken(b: Bucket, e: Event): real {
    if Refills(e) && e.op.Consume? && Result(b, e) == Admitted then e.op.count else 0.0
  }

  function EndTime(start: real, es: seq<Event>): real {
    if es == [] then start else es[|es| - 1].at
  }

  /** The clock never goes backwards. */
  ghost predicate Monotone(start: real, es: seq<Event>) {
    es == [] || (Monotone(start, es[..|es| - 1]) && EndTime(start, es[..|es| - 1]) <= EndTime(start, es))
  }

  /** Up to the end of a monotone trace, the bucket was last refilled no later than any later time. */
  lemma {:induction false} LastRefill(b: Bucket, es: seq<Event>)
    requires Monotone(b.last, es)
    ensures b.last <= Run(b, es).last <= EndTime(b.last, es)
  {
    if es != [] {
      LastRefill(b, es[..|es| - 1]);
    }
  }

  lemma RefillComposes(b: Bucket, s: real, t: real)
    requires Sound(b) && b.last <= s <= t
    ensures Refill(Refill(b, s), t) == Refill(b, t)
  {
    var x, y := s - b.last, t - s;
    assert Gain(b.rate, b.last, t) == Gain(b.rate, b.last, s) + Gain(b.rate, s, t) by {
      assert t - b.last == x + y;
      Distribute(b.rate, x, y);
    }
    ProductSign(x, b.rate);
    ProductSign(y, b.rate);
  }
}

/** Which rate and burst are in force, and what a clock that goes backwards does. */
module BucketParameters {
  import opened Numbers
  import opened Buckets
  import opened BucketRuns

  /** The latest rate given, by the construction or since; negative ones count as zero. */
  function RateGiven(rate: real, es: seq<Event>): real {
    if es == [] then Max(0.0, rate) else
      var e := es[|es| - 1];
      if e.op.Retune? then Max(0.0, e.op.rate) else RateGiven(rate, es[..|es| - 1])
  }

  /** The latest burst given; a construction without one takes the rate. */
  function BurstGiven(rate: real, burst: real, es: seq<Event>): real {
    if es == [] then (if burst < 0.0 then Max(0.0, rate) else burst) else
      var e := es[|es| - 1];
      if e.op.Resize? then Max(0.0, e.op.burst) else BurstGiven(rate, burst, es[..|es| - 1])
  }

  lemma {:induction false} ParametersInForce(rate: real, burst: real, start: real, es: seq<Event>)
    ensures var b := Run(Fresh(rate, burst, start), es);
            && b.rate == RateGiven(rate, es) && b.burst == BurstGiven(rate, burst, es)
            && 0.0 <= b.tokens <= b.burst && (es == [] ==> b.tokens == b.burst && b.last == start)
  {
    hide Gain;
    if es != [] {
      ParametersInForce(rate, burst, start, es[..|es| - 1]);
    }
  }

  /** A clock that goes back earns nothing and takes nothing; from then on the bucket earns from the new reading. */
  lemma BackwardClock(b: Bucket, early: real, later: real)
    requires Sound(b) && early < b.last && early <= later
    ensures Refill(b, early).tokens == b.tokens
    ensures Refill(Refill(b, early), later).tokens == Min(b.tokens + Gain(b.rate, early, later), b.burst)
  {
    hide Gain;
  }
}

/** The token ledger: what a trace of any operations, at any times, does to the tokens. */
module BucketLedger {
  import opened Numbers
  import opened Buckets
  import opened BucketRuns

  function Admissions(b: Bucket, es: seq<Event>): real {
    if es == [] then 0.0 else
      Admissions(b, es[..|es| - 1]) + Taken(Run(b, es[..|es| - 1]), es[|es| - 1])
  }

  /** What the refill of one operation earns: rate in force times forward elapsed time. */
  function Earned(b: Bucket, e: Event): real {
    if Refills(e) && e.at >= b.last then Gain(b.rate, b.last, e.at) else 0.0
  }

  function Accrual(b: Bucket, es: seq<Event>): real {
    if es == [] then 0.0 else
      Accrual(b, es[..|es| - 1]) + Earned(Run(b, es[..|es| - 1]), es[|es| - 1])
  }

  /** What one operation throws away: the overflow of the refill, then the excess over a smaller burst. */
  function Overflow(b: Bucket, e: Event): real {
    var full := b.tokens + Earned(b, e);
    var kept := Min(full, b.burst);
    if !Refills(e) then 0.0
    else full - kept + (if e.op.Resize? then Max(0.0, kept - Max(0.0, e.op.burst)) else 0.0)
  }

  function Waste(b: Bucket, es: seq<Event>): real {
    if es == [] then 0.0 else
      Waste(b, es[..|es| - 1]) + Overflow(Run(b, es[..|es| - 1]), es[|es| - 1])
  }

  lemma StepBalances(b: Bucket, e: Event)
    requires Sound(b)
    ensures Step(b, e).tokens + Taken(b, e) + Overflow(b, e) == b.tokens + Earned(b, e)
    ensures Overflow(b, e) >= 0.0
  {
    if Refills(e) && e.at >= b.last {
      ProductSign(e.at - b.last, b.rate);
    }
  }

  /**
   * Conservation under changing parameters and any clock, backward moves included. In particular no trace admits
   * more than it started with plus what it earned.
   */
  lemma {:induction false} TokenLedger(b: Bucket, es: seq<Event>)
    requires Sound(b)
    ensures 0.0 <= Run(b, es).tokens <= Run(b, es).burst
    ensures Run(b, es).tokens + Admissions(b, es) + Waste(b, es) == b.tokens + Accrual(b, es)
    ensures Waste(b, es) >= 0.0
    ensures Admissions(b, es) <= b.tokens + Accrual(b, es)
  {
    if es != [] {
      TokenLedger(b, es[..|es| - 1]);
      StepBalances(Run(b, es[..|es| - 1]), es[|es| - 1]);
    }
  }
}

/** Admission at fixed rate and burst, described by the counts admitted since each earlier refill. */
module AdmissionWindows {
  import opened Numbers
  import opened Buckets
  import opened BucketRuns

  /** A refill (or the construction of the bucket) and the count admitted by the same call. */
  datatype Point = Point(at: real, taken: real)

  function History(b: Bucket, es: seq<Event>): (h: seq<Point>)
    ensures |h| > 0
  {
    if es == [] then [Point(b.last, 0.0)] else
      var h := History(b, es[..|es| - 1]);
      var e := es[|es| - 1];
      if Refills(e) then h + [Point(e.at, Taken(Run(b, es[..|es| - 1]), e))] else h
  }

  /** The counts admitted from point k on. */
  function Spent(h: seq<Point>, k: nat): real {
    if k >= |h| then 0.0 else Spent(h[..|h| - 1], k) + h[|h| - 1].taken
  }

  /** What was admitted from point k on, plus x, is at most one burst plus the accrual up to time t. */
  ghost predicate Room(h: seq<Point>, k: nat, t: real, rate: real, burst: real, x: real)
    requires k < |h|
  {
    Spent(h, k) + x <= burst + Gain(rate, h[k].at, t)
  }

  ghost predicate Fits(h: seq<Point>, t: real, rate: real, burst: real, x: real) {
    forall k | 0 <= k < |h| :: Room(h, k, t, rate, burst, x)
  }

  /** No operation of the trace changes the rate or the burst. */
  ghost predicate Steady(b: Bucket, es: seq<Event>) {
    forall i | 0 <= i < |es| ::
      && (es[i].op.Retune? ==> Max(0.0, es[i].op.rate) == b.rate)
      && (es[i].op.Resize? ==> Max(0.0, es[i].op.burst) == b.burst)
  }

  lemma RoomLater(h: seq<Point>, k: nat, s: real, t: real, rate: real, burst: real, taken: real, x: real)
    requires k < |h|
    ensures Room(h + [Point(t, taken)], k, t, rate, burst, x) <==>
            Room(h, k, s, rate, burst, x + taken - Gain(rate, s, t))
  {
    assert (h + [Point(t, taken)])[..|h|] == h;
    assert t - h[k].at == (s - h[k].at) + (t - s);
    Distribute(rate, s - h[k].at, t - s);
  }

  lemma FitsLater(h: seq<Point>, s: real, t: real, rate: real, burst: real, taken: real, x: real, y: real)
    requires y == x + taken - Gain(rate, s, t)
    ensures Fits(h + [Point(t, taken)], t, rate, burst, x) <==> Fits(h, s, rate, burst, y) && taken + x <= burst
  {
    var g := h + [Point(t, taken)];
    forall k | 0 <= k < |h|
      ensures Room(g, k, t, rate, burst, x) <==> Room(h, k, s, rate, burst, y)
    {
      RoomLater(h, k, s, t, rate, burst, taken, x);
    }
    assert g[..|h|] == h && Spent(g, |h|) == taken && Gain(rate, t, t) == 0.0;
    assert Room(g, |h|, t, rate, burst, x) <==> taken + x <= burst;
  }

  /** The level after a refilling operation, in terms of the level before it. */
  lemma StepLevel(p: Bucket, e: Event, x: real)
    requires Sound(p) && p.last <= e.at && Refills(e) && Steady(p, [e])
    ensures Step(p, e).rate == p.rate && Step(p, e).burst == p.burst && Step(p, e).last == e.at
    ensures Step(p, e).tokens >= x <==>
            p.tokens >= x + Taken(p, e) - Gain(p.rate, p.last, e.at) && Taken(p, e) + x <= p.burst
  {
    assert [e][0] == e;
    assert Step(p, e).tokens == Refill(p, e.at).tokens - Taken(p, e);
  }

  ghost predicate Full(b: Bucket) {
    Sound(b) && b.tokens == b.burst
  }

  /** The level reaches x exactly when every window has room for x. */
  ghost predicate LevelFits(b: Bucket, es: seq<Event>, x: real) {
    Run(b, es).tokens >= x <==> Fits(History(b, es), Run(b, es).last, b.rate, b.burst, x)
  }

  /** A bucket just constructed has one window, of no length. */
  lemma StartFits(b: Bucket, es: seq<Event>, x: real)
    requires Full(b) && es == []
    ensures LevelFits(b, es, x)
  {
    assert Gain(b.rate, b.last, b.last) == 0.0;
    hide Gain;
    assert Spent(History(b, es), 0) == 0.0;
    assert Room(History(b, es), 0, b.last, b.rate, b.burst, x) <==> b.tokens >= x;
  }

  lemma {:induction false} LevelIsWindow(b: Bucket, es: seq<Event>, x: real)
    requires Full(b) && Monotone(b.last, es) && Steady(b, es)
    ensures Run(b, es).rate == b.rate && Run(b, es).burst == b.burst
    ensures LevelFits(b, es, x)
  {
    hide Step, Refill, Fits, Gain, History, LevelFits, Result, Max;
    if es == [] {
      StartFits(b, es, x);
    } else {
      var front, e := es[..|es| - 1], es[|es| - 1];
      var p := Run(b, front);
      LastRefill(b, front);
      if Refills(e) {
        LevelIsWindow(b, front, x + Taken(p, e) - Gain(b.rate, p.last, e.at));
        StepFits(b, front, p, e, x);
        assert es == front + [e];
      } else {
        LevelIsWindow(b, front, x);
        SkipFits(b, front, e, x);
        assert es == front + [e];
      }
    }
  }

  lemma StepFits(b: Bucket, front: seq<Event>, p: Bucket, e: Event, x: real)
    requires Full(b) && p == Run(b, front) && p.rate == b.rate && p.burst == b.burst
    requires p.last <= e.at && Refills(e) && Steady(p, [e])
    requires LevelFits(b, front, x + Taken(p, e) - Gain(b.rate, p.last, e.at))
    ensures LevelFits(b, front + [e], x)
    ensures Run(b, front + [e]).rate == b.rate && Run(b, front + [e]).burst == b.burst
  {
    hide Step, Refill, Gain, Fits, Steady, Result;
    var y := x + Taken(p, e) - Gain(b.rate, p.last, e.at);
    assert (front + [e])[..|front|] == front;
    StepLevel(p, e, x);
    FitsLater(History(b, front), p.last, e.at, b.rate, b.burst, Taken(p, e), x, y);
  }

  /**
   * The exact characterisation of admission: a positive count is admitted if and only if for the construction and
   * for every refill up to and including this one, what was admitted since plus the count is at most the burst plus
   * the rate times the time since.
   */
  lemma AdmissionWindow(rate: real, burst: real, start: real, es: seq<Event>, count: real, now: real)
    requires count > 0.0
    requires Monotone(start, es + [Event(now, Consume(count))])
    requires Steady(Fresh(rate, burst, start), es)
    ensures var b := Fresh(rate, burst, start);
            TryConsume(Run(b, es), count, now).1 <==>
            Fits(History(b, es) + [Point(now, 0.0)], now, b.rate, b.burst, count)
  {
    var b, e := Fresh(rate, burst, start), Event(now, Peek);
    assert (es + [Event(now, Consume(count))])[..|es|] == es == (es + [e])[..|es|];
    assert Steady(b, es + [e]);
    LevelIsWindow(b, es + [e], count);
  }

  lemma SkipFits(b: Bucket, front: seq<Event>, e: Event, x: real)
    requires !Refills(e) && LevelFits(b, front, x)
    ensures LevelFits(b, front + [e], x) && Run(b, front + [e]) == Run(b, front)
  {
    assert (front + [e])[..|front|] == front;
  }

  /** Hence from any refill on, a bucket that started full admits at most one burst plus the accrual. */
  lemma BurstPlusRate(b: Bucket, es: seq<Event>, k: nat)
    requires Full(b) && Monotone(b.last, es) && Steady(b, es) && k < |History(b, es)|
    ensures Spent(History(b, es), k) <= b.burst + Gain(b.rate, History(b, es)[k].at, Run(b, es).last)
  {
    LevelIsWindow(b, es, 0.0);
    assert Room(History(b, es), k, Run(b, es).last, b.rate, b.burst, 0.0);
  }
}

/** Admitting whenever the tokens suffice is the best policy for requests of one size. */
module GreedyAdmission {
  import opened Numbers
  import opened Buckets
  import opened BucketRuns

  ghost predicate EqualCounts(es: seq<Event>, count: real) {
    es == [] ||
    (var n := |es| - 1;
     EqualCounts(es[..n], count) && (es[n].op.Consume? ==> es[n].op.count == count))
  }

  /** The bucket of a policy that may also turn away a request it could serve. */
  function Obey(b: Bucket, e: Event, take: bool): Bucket {
    if !e.op.Consume? then Step(b, e)
    else if !Refills(e) then b
    else if take then Refill(b, e.at).(tokens := Refill(b, e.at).tokens - e.op.count)
    else Refill(b, e.at)
  }

  function Follow(b: Bucket, es: seq<Event>, policy: seq<bool>): Bucket
    requires |policy| == |es|
  {
    if es == [] then b else
      Obey(Follow(b, es[..|es| - 1], policy[..|es| - 1]), es[|es| - 1], policy[|es| - 1])
  }

  /** The policy never takes more tokens than its own bucket holds after the refill. */
  ghost predicate Affordable(b: Bucket, es: seq<Event>, policy: seq<bool>)
    requires |policy| == |es|
  {
    es == [] ||
    (var n := |es| - 1;
     && Affordable(b, es[..n], policy[..n])
     && (es[n].op.Consume? && Refills(es[n]) && policy[n] ==>
           Refill(Follow(b, es[..n], policy[..n]), es[n].at).tokens >= es[n].op.count))
  }

  function Served(es: seq<Event>, policy: seq<bool>): nat
    requires |policy| == |es|
  {
    if es == [] then 0 else
      Served(es[..|es| - 1], policy[..|es| - 1]) + (if es[|es| - 1].op.Consume? && policy[|es| - 1] then 1 else 0)
  }

  /** The decisions of the bucket itself. */
  function Greedy(b: Bucket, es: seq<Event>): (policy: seq<bool>)
    ensures |policy| == |es|
  {
    if es == [] then [] else
      Greedy(b, es[..|es| - 1]) + [Result(Run(b, es[..|es| - 1]), es[|es| - 1]) == Admitted]
  }

  /** A policy that is `lead` requests behind holds at most the tokens those requests would have cost more. */
  ghost predicate Ahead(own: Bucket, alt: Bucket, lead: nat, count: real) {
    && own.rate == alt.rate && own.burst == alt.burst && own.last == alt.last
    && alt.tokens <= own.tokens + Copies(lead, count)
  }

  lemma GreedyStep(own: Bucket, alt: Bucket, e: Event, take: bool, lead: nat, count: real)
    requires Sound(own) && count > 0.0 && Ahead(own, alt, lead, count)
    requires e.op.Consume? ==> e.op.count == count && (take ==> Refill(alt, e.at).tokens >= count)
    ensures if !e.op.Consume? || (Result(own, e) == Admitted) == take
            then Ahead(Step(own, e), Obey(alt, e, take), lead, count)
            else if take then lead > 0 && Ahead(Step(own, e), Obey(alt, e, take), lead - 1, count)
            else Ahead(Step(own, e), Obey(alt, e, take), lead + 1, count)
  {
    CopiesIsProduct(lead, count);
    ProductSign(lead as real, count);
    assert Refill(alt, e.at).tokens <= Refill(own, e.at).tokens + Copies(lead, count);
  }

  lemma NothingIsAdmitted(b: Bucket, e: Event)
    ensures e.op.Consume? && e.op.count <= 0.0 ==> Result(b, e) == Admitted
  {
  }

  lemma SameStart(b: Bucket, count: real)
    ensures Ahead(b, b, 0, count)
  {
  }

  lemma {:induction false} GreedyKeepsUp(b: Bucket, es: seq<Event>, policy: seq<bool>, count: real)
    requires Sound(b) && |policy| == |es| && EqualCounts(es, count) && Affordable(b, es, policy)
    ensures Served(es, Greedy(b, es)) >= Served(es, policy)
    ensures count > 0.0 ==>
      Ahead(Run(b, es), Follow(b, es, policy), Served(es, Greedy(b, es)) - Served(es, policy), count)
  {
    hide Step, Obey, Result, Refill, Ahead;
    if es == [] {
      SameStart(b, count);
    } else {
      var n := |es| - 1;
      GreedyKeepsUp(b, es[..n], policy[..n], count);
      assert Greedy(b, es)[..n] == Greedy(b, es[..n]);
      if count > 0.0 {
        var lead := Served(es[..n], Greedy(b, es[..n])) - Served(es[..n], policy[..n]);
        GreedyStep(Run(b, es[..n]), Follow(b, es[..n], policy[..n]), es[n], policy[n], lead, count);
      } else {
        NothingIsAdmitted(Run(b, es[..n]), es[n]);
      }
    }
  }

  /**
   * Greedy optimality at every prefix, for requests of one size, while rate, burst and clock do anything at all: no
   * policy that respects the same refills, caps and balances has served more requests.
   */
  lemma {:induction false} GreedyIsOptimal(b: Bucket, es: seq<Event>, policy: seq<bool>, count: real, n: nat)
    requires Sound(b) && |policy| == |es| && n <= |es|
    requires EqualCounts(es, count) && Affordable(b, es, policy)
    ensures Served(es[..n], policy[..n]) <= Served(es[..n], Greedy(b, es)[..n])
    decreases |es|
  {
    hide Step, Obey, Result, Refill;
    if n < |es| {
      var m := |es| - 1;
      GreedyIsOptimal(b, es[..m], policy[..m], count, n);
      assert es[..m][..n] == es[..n] && policy[..m][..n] == policy[..n];
      assert Greedy(b, es)[..n] == Greedy(b, es[..m])[..n];
    } else {
      assert es[..n] == es && policy[..n] == policy && Greedy(b, es)[..n] == Greedy(b, es);
      GreedyKeepsUp(b, es, policy, count);
    }
  }

  /** One more event, unfolded. */
  lemma Extend(b: Bucket, es: seq<Event>, e: Event, policy: seq<bool>, take: bool)
    requires |policy| == |es|
    ensures Run(b, es + [e]) == Step(Run(b, es), e)
    ensures Follow(b, es + [e], policy + [take]) == Obey(Follow(b, es, policy), e, take)
    ensures Served(es + [e], policy + [take]) == Served(es, policy) + if e.op.Consume? && take then 1 else 0
    ensures Affordable(b, es + [e], policy + [take]) <==>
            Affordable(b, es, policy) && (e.op.Consume? && Refills(e) && take ==>
              Refill(Follow(b, es, policy), e.at).tokens >= e.op.count)
    ensures Greedy(b, es + [e]) == Greedy(b, es) + [Result(Run(b, es), e) == Admitted]
  {
    var n := |es|;
    assert (es + [e])[..n] == es && (policy + [take])[..n] == policy;
  }

  /** A full bucket of two, offered a large request and then two small ones, all at once. */
  ghost predicate Offer(b: Bucket, large: Event, small: Event) {
    b == Bucket(0.0, 2.0, 2.0, 0.0) && large == Event(0.0, Consume(2.0)) && small == Event(0.0, Consume(1.0))
  }

  lemma LargeFirst(b: Bucket, large: Event, small: Event, es: seq<Event>)
    requires Offer(b, large, small) && es == [large]
    ensures Served(es + [small] + [small], Greedy(b, es + [small] + [small])) == 1
  {
    var empty := b.(tokens := 0.0);
    assert Step(b, large) == empty && Result(b, large) == Admitted;
    assert Step(empty, small) == empty && Result(empty, small) == Denied;
    hide Step, Obey, Refill, Result;
    var none: seq<Event> := [];
    Extend(b, none, large, Greedy(b, none), true);
    assert none + [large] == es;
    assert Served(es, Greedy(b, es)) == 1 && Run(b, es) == empty;
    hide Affordable, Follow, Run, Served, Greedy;
    Extend(b, es, small, Greedy(b, es), false);
    Extend(b, es + [small], small, Greedy(b, es + [small]), false);
  }

  /** A policy that has kept the bucket full can serve two small requests. */
  lemma SmallOnes(b: Bucket, large: Event, small: Event, es: seq<Event>, policy: seq<bool>)
    requires Offer(b, large, small) && |policy| == |es|
    requires Affordable(b, es, policy) && Follow(b, es, policy) == b
    ensures Affordable(b, es + [small] + [small], policy + [true] + [true])
    ensures Served(es + [small] + [small], policy + [true] + [true]) == Served(es, policy) + 2
  {
    var half := b.(tokens := 1.0);
    assert Refill(b, 0.0) == b && Refill(half, 0.0) == half && Obey(b, small, true) == half;
    hide Step, Obey, Refill, Result, Affordable, Follow, Run, Served, Greedy;
    Extend(b, es, small, policy, true);
    Extend(b, es + [small], small, policy + [true], true);
  }

  lemma SkipLarge(b: Bucket, large: Event, small: Event, es: seq<Event>, policy: seq<bool>)
    requires Offer(b, large, small) && es == [large] && policy == [false]
    ensures Affordable(b, es, policy) && Follow(b, es, policy) == b && Served(es, policy) == 0
  {
    assert Refill(b, 0.0) == b && Obey(b, large, false) == b;
  }

  /** With requests of different sizes the greedy rule can be beaten: serving the large one first was a mistake. */
  lemma GreedyNeedsEqualCounts()
    ensures exists b, es, policy | Sound(b) && |policy| == |es| && Affordable(b, es, policy) ::
              Served(es, policy) > Served(es, Greedy(b, es))
  {
    hide Greedy, Affordable, Served;
    var b, large, small := Bucket(0.0, 2.0, 2.0, 0.0), Event(0.0, Consume(2.0)), Event(0.0, Consume(1.0));
    LargeFirst(b, large, small, [large]);
    SkipLarge(b, large, small, [large], [false]);
    SmallOnes(b, large, small, [large], [false]);
  }
}

/** Looking at the bucket, failing to consume and re-sending the same parameters cannot be noticed later. */
module Observations {
  import opened Numbers
  import opened Buckets
  import opened BucketRuns

  /** Operations that take nothing out of the bucket and leave its parameters alone. */
  ghost predicate Idle(b: Bucket, e: Event) {
    match e.op
    case Consume(count) => count <= 0.0 || Result(b, e) == Denied
    case Peek => true
    case Retune(rate) => Max(0.0, rate) == b.rate
    case Resize(burst) => Max(0.0, burst) == b.burst
  }

  /** The elements of `s` at the positions that `keep` marks. */
  function Kept<T>(s: seq<T>, keep: seq<bool>): seq<T>
    requires |keep| == |s|
  {
    if s == [] then [] else
      Kept(s[..|s| - 1], keep[..|s| - 1]) + (if keep[|s| - 1] then [s[|s| - 1]] else [])
  }

  lemma KeptAppend<T>(s: seq<T>, x: T, keep: seq<bool>)
    requires |keep| == |s| + 1
    ensures Kept(s + [x], keep) == Kept(s, keep[..|s|]) + if keep[|s|] then [x] else []
  {
    assert (s + [x])[..|s|] == s;
  }

  ghost predicate DropsOnlyIdle(b: Bucket, es: seq<Event>, keep: seq<bool>)
    requires |keep| == |es|
  {
    es == [] ||
    (var n := |es| - 1;
     DropsOnlyIdle(b, es[..n], keep[..n]) && (!keep[n] ==> Idle(Run(b, es[..n]), es[n])))
  }

  /** `lazy` has skipped refills that `eager` did, and a refill now would make up for them. */
  ghost predicate CatchesUp(eager: Bucket, lazy: Bucket) {
    lazy.last <= eager.last && eager == Refill(lazy, eager.last)
  }

  lemma KeptStep(eager: Bucket, lazy: Bucket, e: Event)
    requires Sound(lazy) && CatchesUp(eager, lazy) && eager.last <= e.at
    ensures Result(eager, e) == Result(lazy, e)
    ensures CatchesUp(Step(eager, e), Step(lazy, e))
  {
    RefillComposes(lazy, eager.last, e.at);
    if Refills(e) {
      assert Step(eager, e) == Step(lazy, e);
    }
  }

  lemma DroppedStep(eager: Bucket, lazy: Bucket, e: Event)
    requires Sound(lazy) && CatchesUp(eager, lazy) && eager.last <= e.at && Idle(eager, e)
    ensures CatchesUp(Step(eager, e), lazy)
  {
    RefillComposes(lazy, eager.last, e.at);
  }

  /** What the trace with only the kept events does, compared with the whole trace. */
  ghost predicate Transparent(b: Bucket, es: seq<Event>, keep: seq<bool>)
    requires |keep| == |es|
  {
    && Outcomes(b, Kept(es, keep)) == Kept(Outcomes(b, es), keep)
    && CatchesUp(Run(b, es), Run(b, Kept(es, keep)))
  }

  lemma TransparentStep(b: Bucket, front: seq<Event>, e: Event, keep: seq<bool>, stays: bool)
    requires Sound(b) && |keep| == |front| && Transparent(b, front, keep)
    requires Run(b, front).last <= e.at && (!stays ==> Idle(Run(b, front), e))
    ensures Transparent(b, front + [e], keep + [stays])
  {
    var eager, kept := Run(b, front), Kept(front, keep);
    assert (front + [e])[..|front|] == front && (keep + [stays])[..|keep|] == keep;
    KeptAppend(front, e, keep + [stays]);
    KeptAppend(Outcomes(b, front), Result(eager, e), keep + [stays]);
    if stays {
      assert (kept + [e])[..|kept|] == kept;
      KeptStep(eager, Run(b, kept), e);
    } else {
      assert kept + [] == kept;
      DroppedStep(eager, Run(b, kept), e);
    }
  }

  /**
   * Deleting any idle operations anywhere in a monotone trace (or inserting them, read the other way) changes no
   * result of any operation that stays, nor what a refill at the end of the trace finds.
   */
  lemma {:induction false} ObservationTransparency(b: Bucket, es: seq<Event>, keep: seq<bool>)
    requires Sound(b) && |keep| == |es| && Monotone(b.last, es) && DropsOnlyIdle(b, es, keep)
    ensures Outcomes(b, Kept(es, keep)) == Kept(Outcomes(b, es), keep)
    ensures CatchesUp(Run(b, es), Run(b, Kept(es, keep)))
  {
    WholeTrace(b, es, keep);
  }

  lemma EmptyTrace(b: Bucket, es: seq<Event>, keep: seq<bool>)
    requires Sound(b) && es == [] && keep == []
    ensures Transparent(b, es, keep)
  {
  }

  lemma {:induction false} WholeTrace(b: Bucket, es: seq<Event>, keep: seq<bool>)
    requires Sound(b) && |keep| == |es| && Monotone(b.last, es) && DropsOnlyIdle(b, es, keep)
    ensures Transparent(b, es, keep)
  {
    hide Step, Result, Idle, Transparent, Run, Kept, Outcomes, Refill;
    if es == [] {
      EmptyTrace(b, es, keep);
    } else {
      var n := |es| - 1;
      WholeTrace(b, es[..n], keep[..n]);
      LastRefill(b, es[..n]);
      assert es[..n] + [es[n]] == es && keep[..n] + [keep[n]] == keep;
      TransparentStep(b, es[..n], es[n], keep[..n], keep[n]);
    }
  }
}
