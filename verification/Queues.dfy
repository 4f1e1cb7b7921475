/** Starvation: callers that come later may take every token that a queued request is waiting for. */
module Starvation {
  import opened Buckets
  import opened ClientRuntime
  import opened ClientRuns
  import opened WaitingTimes

  /** How often a poll has refused the request although it was attainable. */
  function Overtaken(s: Client, steps: seq<Step>, q: Request): nat {
    if steps == [] then 0 else
      var n := |steps| - 1;
      var t := After(s, steps[..n]);
      Overtaken(s, steps[..n], q) +
      if steps[n] == Refuse && t.worker == Holding(q) && Attainable(t.buckets, q) then 1 else 0
  }

  /** After n refusals over a time of n * d the request is still the head of the queue, and still attainable. */
  ghost predicate Starved(now: real, q: Request, d: real, n: nat, steps: seq<Step>) {
    && Legal(Initial(now), steps) && Run !in steps && Overtaken(Initial(now), steps, q) == n
    && (var s := After(Initial(now), steps);
        s.now == now + n as real * d && HeadIs(s, q) && SoundFor(s.buckets, q) && Attainable(s.buckets, q))
  }

  ghost predicate MayStarve(now: real, q: Request, d: real, n: nat) {
    exists steps :: Starved(now, q, d, n, steps)
  }

  /** The request is alone in the queue, in front of an empty bucket that could hold just enough. */
  ghost predicate Waits(s: Client, q: Request) {
    && s.phase.Running? && s.worker.Top? && s.queue == [q]
    && s.buckets == map[q.resource := Bucket(q.count, q.count, 0.0, s.now)]
  }

  /** One more step of a run in which no queued request runs. */
  lemma OneMore(s: Client, steps: seq<Step>, step: Step, q: Request)
    requires Legal(s, steps) && Enabled(After(s, steps), step) && Run !in steps && step != Run
    ensures var t := After(s, steps);
            && Legal(s, steps + [step]) && Run !in steps + [step] && After(s, steps + [step]) == Next(t, step)
            && Overtaken(s, steps + [step], q) ==
               Overtaken(s, steps, q) +
               if step == Refuse && t.worker == Holding(q) && Attainable(t.buckets, q) then 1 else 0
  {
    hide Next, Enabled, Attainable;
    OneStep(s, steps, step);
    assert (steps + [step])[..|steps|] == steps;
  }

  /** A caller takes all the tokens there are. */
  lemma EmptyingHit(s: Client, q: Request, level: real)
    requires q.count > 0.0 && 0.0 < level <= q.count
    requires q.resource in s.buckets && Refill(s.buckets[q.resource], s.now) == Bucket(q.count, q.count, level, s.now)
    requires s.buckets.Keys == {q.resource}
    ensures var x := Request(q.id, q.resource, level);
            && Enabled(s, Hit(x))
            && Next(s, Hit(x)) == s.(buckets := map[q.resource := Bucket(q.count, q.count, 0.0, s.now)])
  {
    hide Refill;
    var x := Request(q.id, q.resource, level);
    assert TryTake(s.buckets, x, s.now).0 == map[q.resource := Bucket(q.count, q.count, 0.0, s.now)];
  }

  /** An empty bucket refuses. */
  lemma EmptyRefuses(buckets: BucketMap, q: Request, now: real)
    requires q.count > 0.0 && buckets == map[q.resource := Bucket(q.count, q.count, 0.0, now)]
    ensures TryTake(buckets, q, now) == (buckets, false) && Attainable(buckets, q) && SoundFor(buckets, q)
  {
    var b := buckets[q.resource];
    assert Sound(b);
    assert Refill(b, now) == b by { RefillAtOnce(b); }
    hide Refill;
    assert TryConsume(b, q.count, now) == (b, false);
    assert buckets[q.resource := b] == buckets;
  }

  /** The worker polls in vain. */
  lemma PollStates(s: Client, q: Request)
    requires Waits(s, q) && q.count > 0.0
    ensures var s1 := Next(s, Enter);
            var s2 := Next(s1, Pop);
            var s3 := Next(s2, Refuse);
            && Enabled(s, Enter) && Enabled(s1, Pop)
            && Enabled(s2, Refuse) && s2.worker == Holding(q) && Attainable(s2.buckets, q)
            && Enabled(s3, Requeue) && Next(s3, Requeue) == s
  {
    EmptyRefuses(s.buckets, q, s.now);
    hide TryTake, Attainable;
    assert [q][1..] == [] && [q] + [] == [q];
  }

  /** Time passes, and a caller takes everything. */
  lemma CallStates(s: Client, q: Request, d: real) returns (x: Request)
    requires Waits(s, q) && q.count > 0.0 && d > 0.0
    ensures var s1 := Next(s, Tick(d));
            && Enabled(s, Tick(d)) && Enabled(s1, Hit(x))
            && Waits(Next(s1, Hit(x)), q) && Next(s1, Hit(x)).now == s.now + d
  {
    var b, later := s.buckets[q.resource], s.now + d;
    assert Gain(b.rate, b.last, later) > 0.0 by { assert d * q.count > 0.0; }
    var level := Refill(b, later).tokens;
    assert 0.0 < level <= q.count && Refill(b, later) == Bucket(q.count, q.count, level, later);
    hide Refill, Gain, TryTake;
    x := Request(q.id, q.resource, level);
    EmptyingHit(Next(s, Tick(d)), q, level);
  }

  lemma Round(now: real, steps: seq<Step>, q: Request, d: real, n: nat) returns (more: seq<Step>)
    requires Legal(Initial(now), steps) && Run !in steps && Overtaken(Initial(now), steps, q) == n
    requires Waits(After(Initial(now), steps), q) && q.count > 0.0 && d > 0.0
    ensures Legal(Initial(now), more) && Run !in more && Overtaken(Initial(now), more, q) == n + 1
    ensures Waits(After(Initial(now), more), q)
    ensures After(Initial(now), more).now == After(Initial(now), steps).now + d
  {
    hide Next, Enabled, Waits, Attainable, Legal, After, Overtaken, Initial;
    var s := After(Initial(now), steps);
    var x := CallStates(s, q, d);
    PollStates(Next(Next(s, Tick(d)), Hit(x)), q);
    OneMore(Initial(now), steps, Tick(d), q);
    more := steps + [Tick(d)];
    OneMore(Initial(now), more, Hit(x), q);
    more := more + [Hit(x)];
    OneMore(Initial(now), more, Enter, q);
    more := more + [Enter];
    OneMore(Initial(now), more, Pop, q);
    more := more + [Pop];
    OneMore(Initial(now), more, Refuse, q);
    more := more + [Refuse];
    OneMore(Initial(now), more, Requeue, q);
    more := more + [Requeue];
  }

  lemma OpeningStates(now: real, q: Request)
    requires q.count > 0.0
    ensures var given: map<int, real> := map[q.resource := q.count];
            var s0 := Next(Initial(now), Launch);
            var s1 := Next(s0, Apply(given));
            var s2 := Next(s1, Hit(q));
            var s3 := Next(s2, Miss(q));
            && Enabled(Initial(now), Launch) && Enabled(s0, Apply(given)) && Enabled(s1, Hit(q))
            && Enabled(s2, Miss(q)) && Enabled(s3, Enqueue(0))
            && Waits(Next(s3, Enqueue(0)), q) && Next(s3, Enqueue(0)).now == now
  {
    var given: map<int, real> := map[q.resource := q.count];
    var s0 := Next(Initial(now), Launch);
    var s1 := Next(s0, Apply(given));
    var full := Bucket(q.count, q.count, q.count, now);
    assert s1 == s0.(buckets := map[q.resource := full]);
    assert Refill(full, now) == full by { RefillAtOnce(full); }
    hide Refill, TryTake, Reconcile;
    assert Request(q.id, q.resource, q.count) == q;
    EmptyingHit(s1, q, q.count);
    EmptyRefuses(Next(s1, Hit(q)).buckets, q, now);
  }

  lemma Opening(now: real, q: Request) returns (steps: seq<Step>)
    requires q.count > 0.0
    ensures Legal(Initial(now), steps) && Run !in steps && Overtaken(Initial(now), steps, q) == 0
    ensures Waits(After(Initial(now), steps), q) && After(Initial(now), steps).now == now
  {
    var given: map<int, real> := map[q.resource := q.count];
    steps := [];
    assert Legal(Initial(now), steps) && After(Initial(now), steps) == Initial(now);
    assert Overtaken(Initial(now), steps, q) == 0;
    OpeningStates(now, q);
    hide Next, Enabled, Waits, Attainable, Legal, After, Overtaken, Initial;
    OneMore(Initial(now), steps, Launch, q);
    steps := steps + [Launch];
    OneMore(Initial(now), steps, Apply(given), q);
    steps := steps + [Apply(given)];
    OneMore(Initial(now), steps, Hit(q), q);
    steps := steps + [Hit(q)];
    OneMore(Initial(now), steps, Miss(q), q);
    steps := steps + [Miss(q)];
    OneMore(Initial(now), steps, Enqueue(0), q);
    steps := steps + [Enqueue(0)];
  }

  lemma {:induction false} Rounds(now: real, q: Request, d: real, n: nat) returns (steps: seq<Step>)
    requires q.count > 0.0 && d > 0.0
    ensures Legal(Initial(now), steps) && Run !in steps && Overtaken(Initial(now), steps, q) == n
    ensures Waits(After(Initial(now), steps), q) && After(Initial(now), steps).now == now + n as real * d
  {
    hide Waits, Legal, After, Overtaken, Initial;
    if n == 0 {
      steps := Opening(now, q);
    } else {
      steps := Rounds(now, q, d, n - 1);
      steps := Round(now, steps, q, d, n - 1);
      assert n as real * d == (n - 1) as real * d + d;
    }
  }

  /** A request for nothing is never refused while its bucket is there. */
  lemma {:induction false} NothingIsNeverRefused(s: Client, steps: seq<Step>, q: Request)
    requires Legal(s, steps) && q.count <= 0.0
    ensures Overtaken(s, steps, q) == 0
  {
    if steps != [] {
      hide Next, After, Legal;
      NothingIsNeverRefused(s, steps[..|steps| - 1], q);
    }
  }

  /**
   * Later callers can starve a queued request for ever: any number of polls over any time refuse it, though it is
   * attainable at every one of them, if and only if its count is positive.
   */
  lemma CallersStarveTheQueue(now: real, q: Request, d: real)
    requires d > 0.0
    ensures (forall n: nat :: MayStarve(now, q, d, n)) <==> q.count > 0.0
  {
    if q.count > 0.0 {
      forall n: nat
        ensures MayStarve(now, q, d, n)
      {
        var steps := Rounds(now, q, d, n);
        EmptyRefuses(After(Initial(now), steps).buckets, q, After(Initial(now), steps).now);
        assert Starved(now, q, d, n, steps);
      }
    } else {
      forall steps
        ensures !Starved(now, q, d, 1, steps)
      {
        if Legal(Initial(now), steps) {
          NothingIsNeverRefused(Initial(now), steps, q);
        }
      }
      assert !MayStarve(now, q, d, 1);
    }
  }
}

/** When the worker alone can empty a whole queue. */
module WholeQueue {
  import opened Numbers
  import opened Buckets
  import opened ClientRuntime
  import opened WaitingTimes

  /** The positive counts asked for one resource by the first n requests. */
  function Demand(queue: seq<Request>, r: int, n: nat): real
    requires n <= |queue|
  {
    if n == 0 then 0.0 else Demand(queue, r, n - 1) + Asked(queue[n - 1], r)
  }

  function Asked(q: Request, r: int): real {
    if q.resource == r then Max(0.0, q.count) else 0.0
  }

  /**
   * The request at position i has a bucket, and asks for nothing, or for no more than the burst where the bucket earns
   * something or its tokens cover everything asked for up to here.
   */
  predicate FitsAt(buckets: BucketMap, queue: seq<Request>, i: nat)
    requires i < |queue|
  {
    var q := queue[i];
    q.resource in buckets &&
    (var b := buckets[q.resource];
     || q.count <= 0.0
     || (q.count <= b.burst && (b.rate > 0.0 || Demand(queue, q.resource, i + 1) <= b.tokens)))
  }

  ghost predicate Fits(buckets: BucketMap, queue: seq<Request>) {
    forall i: nat | i < |queue| :: FitsAt(buckets, queue, i)
  }

  ghost predicate AllSound(buckets: BucketMap) {
    forall r | r in buckets :: Sound(buckets[r])
  }

  lemma {:induction false} DemandWithoutFirst(queue: seq<Request>, r: int, n: nat)
    requires 0 < n <= |queue|
    ensures Demand(queue, r, n) == Asked(queue[0], r) + Demand(queue[1..], r, n - 1)
  {
    if n == 1 {
      assert Demand(queue, r, 0) == 0.0;
    } else {
      DemandWithoutFirst(queue, r, n - 1);
      assert queue[1..][n - 2] == queue[n - 1];
    }
  }

  /** The second bucket is what the first becomes when x tokens are taken out of it; tokens count if none are earned. */
  ghost predicate Becomes(b: Bucket, c: Bucket, x: real) {
    && Sound(c) && c.rate == b.rate && c.burst == b.burst
    && (b.rate <= 0.0 ==> c.tokens == b.tokens - x)
  }

  lemma RefillBecomes(b: Bucket, now: real)
    requires Sound(b)
    ensures Becomes(b, Refill(b, now), 0.0)
  {
    assert b.rate <= 0.0 ==> Gain(b.rate, b.last, now) == 0.0;
    hide Gain;
  }

  /** One attempt at the head. */
  lemma AttemptBecomes(b: Bucket, count: real, now: real)
    requires Sound(b)
    ensures var (c, ok) := TryConsume(b, count, now);
            && Becomes(b, c, if ok then Max(0.0, count) else 0.0)
            && (if ok then count <= 0.0 || (count <= b.burst && (b.rate > 0.0 || count <= b.tokens)) else count > 0.0)
  {
    RefillBecomes(b, now);
    hide Refill;
  }

  /** A turn changes the bucket of the head only. */
  ghost predicate TurnIs(buckets: BucketMap, queue: seq<Request>, turn: Turn)
    requires queue != []
  {
    var q, ok := queue[0], turn.ran != [];
    && turn.queue == (if ok then queue[1..] else queue) && turn.ran == (if ok then [q] else [])
    && turn.buckets.Keys == buckets.Keys && (ok ==> FitsAt(buckets, queue, 0))
    && (forall r | r in buckets :: Becomes(buckets[r], turn.buckets[r], if ok then Asked(q, r) else 0.0))
  }

  lemma TurnMeans(buckets: BucketMap, queue: seq<Request>, now: real)
    requires queue != [] && AllSound(buckets)
    ensures TurnIs(buckets, queue, WorkerTurn(buckets, queue, now))
  {
    var q := queue[0];
    assert [q] + queue[1..] == queue;
    assert Demand(queue, q.resource, 1) == Demand(queue, q.resource, 0) + Asked(q, q.resource);
    hide TryConsume;
    if q.resource in buckets {
      AttemptBecomes(buckets[q.resource], q.count, now);
    }
  }

  lemma FitsAfter(buckets: BucketMap, queue: seq<Request>, turn: Turn, i: nat)
    requires queue != [] && TurnIs(buckets, queue, turn) && turn.ran != [] && 0 < i < |queue|
    ensures FitsAt(buckets, queue, i) <==> FitsAt(turn.buckets, turn.queue, i - 1)
  {
    var q := queue[i];
    assert turn.queue[i - 1] == q;
    DemandWithoutFirst(queue, q.resource, i + 1);
    hide Demand, Asked;
  }

  lemma FitsStill(buckets: BucketMap, queue: seq<Request>, turn: Turn, i: nat)
    requires queue != [] && TurnIs(buckets, queue, turn) && turn.ran == [] && i < |queue|
    ensures FitsAt(buckets, queue, i) <==> FitsAt(turn.buckets, turn.queue, i)
  {
    hide Demand, Asked;
  }

  /** Whether the rest of the queue fits is decided from the start: no turn of the worker changes it. */
  lemma TurnKeepsFit(buckets: BucketMap, queue: seq<Request>, turn: Turn)
    requires queue != [] && TurnIs(buckets, queue, turn) && AllSound(buckets)
    ensures AllSound(turn.buckets)
    ensures Fits(buckets, queue) <==> Fits(turn.buckets, turn.queue)
  {
    assert AllSound(turn.buckets);
    if turn.ran == [] {
      forall i: nat | i < |queue|
        ensures FitsAt(buckets, queue, i) <==> FitsAt(turn.buckets, turn.queue, i)
      {
        FitsStill(buckets, queue, turn, i);
      }
    } else {
      forall i: nat | 0 < i < |queue|
        ensures FitsAt(buckets, queue, i) <==> FitsAt(turn.buckets, turn.queue, i - 1)
      {
        FitsAfter(buckets, queue, turn, i);
      }
      hide FitsAt;
      if Fits(turn.buckets, turn.queue) {
        forall i: nat | i < |queue|
          ensures FitsAt(buckets, queue, i)
        {
          assert i > 0 ==> FitsAt(turn.buckets, turn.queue, i - 1);
        }
      }
      if Fits(buckets, queue) {
        forall i: nat | i < |turn.queue|
          ensures FitsAt(turn.buckets, turn.queue, i)
        {
          assert FitsAt(buckets, queue, i + 1);
        }
      }
    }
  }

  lemma TurnKeeps(before: Turn, now: real)
    requires AllSound(before.buckets)
    ensures var turn := WorkerTurn(before.buckets, before.queue, now);
            && turn.ran + turn.queue == before.queue && AllSound(turn.buckets)
            && (Fits(before.buckets, before.queue) <==> Fits(turn.buckets, turn.queue))
  {
    if before.queue != [] {
      TurnMeans(before.buckets, before.queue, now);
      hide WorkerTurn, AllSound, Fits;
      TurnKeepsFit(before.buckets, before.queue, WorkerTurn(before.buckets, before.queue, now));
      assert before.queue == [before.queue[0]] + before.queue[1..];
    }
  }

  lemma Regroup(a: seq<Request>, b: seq<Request>, c: seq<Request>)
    ensures (a + b) + c == a + (b + c)
  {
  }

  /** Along any polls nothing is reordered, and it stays decided whether the rest fits. */
  lemma {:induction false} PollsKeepFit(buckets: BucketMap, queue: seq<Request>, times: seq<real>)
    requires AllSound(buckets)
    ensures var turn := Polls(buckets, queue, times);
            && turn.ran + turn.queue == queue && AllSound(turn.buckets)
            && (Fits(buckets, queue) <==> Fits(turn.buckets, turn.queue))
  {
    hide WorkerTurn, Fits, AllSound;
    if times != [] {
      var n := |times| - 1;
      var before := Polls(buckets, queue, times[..n]);
      PollsKeepFit(buckets, queue, times[..n]);
      TurnKeeps(before, times[n]);
      var turn := WorkerTurn(before.buckets, before.queue, times[n]);
      Regroup(before.ran, turn.ran, turn.queue);
    }
  }

  /** Polls after polls. */
  lemma {:induction false} PollsJoin(buckets: BucketMap, queue: seq<Request>, first: seq<real>, more: seq<real>)
    ensures var half := Polls(buckets, queue, first);
            var rest := Polls(half.buckets, half.queue, more);
            Polls(buckets, queue, first + more) == Turn(rest.buckets, rest.queue, half.ran + rest.ran)
  {
    hide WorkerTurn;
    if more == [] {
      assert first + more == first;
    } else {
      var n := |more| - 1;
      assert (first + more)[..|first| + n] == first + more[..n] && (first + more)[|first| + n] == more[n];
      PollsJoin(buckets, queue, first, more[..n]);
    }
  }

  lemma {:induction false} FittingQueueEmpties(buckets: BucketMap, queue: seq<Request>, now: real)
    returns (times: seq<real>)
    requires AllSound(buckets) && Fits(buckets, queue)
    ensures Polls(buckets, queue, times).queue == [] && forall t | t in times :: t >= now
    decreases |queue|
  {
    times := [];
    if queue != [] {
      assert FitsAt(buckets, queue, 0);
      assert Attainable(buckets, queue[0]) && SoundFor(buckets, queue[0]) by {
        assert Demand(queue, queue[0].resource, 1) == Demand(queue, queue[0].resource, 0) + Max(0.0, queue[0].count);
      }
      hide WorkerTurn, Fits, FitsAt, AllSound, Attainable, SoundFor;
      var t := AdmittedOnce(buckets, queue, now);
      PollsKeepFit(buckets, queue, [t]);
      var turn := Polls(buckets, queue, [t]);
      assert turn.queue == queue[1..] by { assert [queue[0]] + turn.queue == queue; }
      times := FittingQueueEmpties(turn.buckets, turn.queue, t);
      PollsJoin(buckets, queue, [t], times);
      times := [t] + times;
    }
  }

  /**
   * The whole queue, left to the worker at fixed rates: some polls empty it if and only if every request fits; then
   * polls after any given time do, and the requests have run in order.
   */
  lemma QueueEmpties(buckets: BucketMap, queue: seq<Request>, now: real)
    requires AllSound(buckets)
    ensures (exists times :: Polls(buckets, queue, times).queue == []) <==> Fits(buckets, queue)
    ensures Fits(buckets, queue) ==>
              exists times :: Polls(buckets, queue, times).ran == queue && forall t | t in times :: t >= now
  {
    hide WorkerTurn, AllSound, FitsAt;
    if Fits(buckets, queue) {
      var times := FittingQueueEmpties(buckets, queue, now);
      PollsKeepFit(buckets, queue, times);
      assert Polls(buckets, queue, times).ran == queue;
    }
    forall times | Polls(buckets, queue, times).queue == []
      ensures Fits(buckets, queue)
    {
      PollsKeepFit(buckets, queue, times);
    }
  }
}
