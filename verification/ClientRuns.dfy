/**
 * All interleavings of one client: callers of `Acquire`, the worker, heartbeat responses, `Start` and `Stop`. Each
 * step is one critical section, with bucket lookup and consumption taken together.
 */
module ClientRuns {
  import opened ClientRuntime

  /** Where the worker is: at the head of its loop, in its wait, with a request in its hand, or out of its loop. */
  datatype Worker = Top | Waiting | Holding(q: Request) | Refused(q: Request) | Exited

  /** How far `Start` and `Stop` have got. `running_` is true in phase Running only. */
  datatype Phase = Idle | Running | Halting | Joined | BucketsCleared

  /** `callers` are the calls of `Acquire` that were refused tokens and have not queued their request yet. */
  datatype Client = Client(
    phase: Phase, worker: Worker, buckets: BucketMap, queue: seq<Request>, callers: seq<Request>, now: real)

  datatype Step =
    | Tick(elapsed: real)
    | Hit(q: Request)
    | Miss(q: Request)
    | Enqueue(caller: nat)
    | Enter
    | Leave
    | TimeOut
    | Break
    | Pop
    | Run
    | Refuse
    | Requeue
    | Apply(allocations: map<int, real>)
    | Launch
    | Halt
    | Join
    | ClearBuckets
    | ClearQueue

  function Initial(now: real): Client {
    Client(Idle, Exited, map[], [], [], now)
  }

  ghost predicate Enabled(s: Client, step: Step) {
    match step
    case Tick(elapsed) => elapsed >= 0.0
    case Hit(q) => TryTake(s.buckets, q, s.now).1
    case Miss(q) => !TryTake(s.buckets, q, s.now).1
    case Enqueue(i) => i < |s.callers|
    case Enter => s.worker.Top? && s.phase.Running?
    case Leave => s.worker.Top? && !s.phase.Running?
    case TimeOut => s.worker.Waiting? && s.phase.Running? && s.queue == []
    case Break => s.worker.Waiting? && !s.phase.Running? && s.queue == []
    case Pop => s.worker.Waiting? && s.queue != []
    case Run => s.worker.Holding? && TryTake(s.buckets, s.worker.q, s.now).1
    case Refuse => s.worker.Holding? && !TryTake(s.buckets, s.worker.q, s.now).1
    case Requeue => s.worker.Refused?
    case Apply(_) => s.phase.Running? || s.phase.Halting?
    case Launch => s.phase.Idle?
    case Halt => s.phase.Running?
    case Join => s.phase.Halting? && s.worker.Exited?
    case ClearBuckets => s.phase.Joined?
    case ClearQueue => s.phase.BucketsCleared?
  }

  function Next(s: Client, step: Step): Client {
    match step
    case Tick(elapsed) => s.(now := s.now + elapsed)
    case Hit(q) => s.(buckets := TryTake(s.buckets, q, s.now).0)
    case Miss(q) => s.(buckets := TryTake(s.buckets, q, s.now).0, callers := s.callers + [q])
    case Enqueue(i) =>
      if i < |s.callers| then s.(queue := s.queue + [s.callers[i]], callers := s.callers[..i] + s.callers[i + 1..])
      else s
    case Enter => s.(worker := Waiting)
    case Leave => s.(worker := Exited)
    case TimeOut => s.(worker := Top)
    case Break => s.(worker := Exited)
    case Pop => if s.queue == [] then s else s.(worker := Holding(s.queue[0]), queue := s.queue[1..])
    case Run =>
      if s.worker.Holding? then s.(buckets := TryTake(s.buckets, s.worker.q, s.now).0, worker := Top) else s
    case Refuse =>
      if s.worker.Holding?
      then s.(buckets := TryTake(s.buckets, s.worker.q, s.now).0, worker := Refused(s.worker.q)) else s
    case Requeue => if s.worker.Refused? then s.(queue := [s.worker.q] + s.queue, worker := Top) else s
    case Apply(allocations) => s.(buckets := Reconcile(s.buckets, allocations, s.now))
    case Launch => s.(phase := Running, worker := Top)
    case Halt => s.(phase := Halting)
    case Join => s.(phase := Joined)
    case ClearBuckets => s.(phase := BucketsCleared, buckets := map[])
    case ClearQueue => s.(phase := Idle, queue := [])
  }

  function After(s: Client, steps: seq<Step>): Client {
    if steps == [] then s else Next(After(s, steps[..|steps| - 1]), steps[|steps| - 1])
  }

  ghost predicate Legal(s: Client, steps: seq<Step>) {
    steps == [] ||
    (var n := |steps| - 1;
     Legal(s, steps[..n]) && Enabled(After(s, steps[..n]), steps[n]))
  }

  lemma OneStep(s: Client, steps: seq<Step>, step: Step)
    requires Legal(s, steps) && Enabled(After(s, steps), step)
    ensures Legal(s, steps + [step]) && After(s, steps + [step]) == Next(After(s, steps), step)
  {
    assert (steps + [step])[..|steps|] == steps;
  }

  /** The request in the worker's hand. */
  function Hand(s: Client): seq<Request> {
    if s.worker.Holding? || s.worker.Refused? then [s.worker.q] else []
  }

  /** A whole turn of the worker is what the client object's loop body computes. */
  lemma TurnRefines(s: Client)
    requires s.worker.Waiting? && s.queue != []
    ensures var turn := WorkerTurn(s.buckets, s.queue, s.now);
            var popped := Next(s, Pop);
            Enabled(s, Pop) &&
            if turn.ran == [] then
              && Enabled(popped, Refuse) && Enabled(Next(popped, Refuse), Requeue)
              && Next(Next(popped, Refuse), Requeue) == s.(buckets := turn.buckets, queue := turn.queue, worker := Top)
            else
              && Enabled(popped, Run) && turn.ran == [s.queue[0]]
              && Next(popped, Run) == s.(buckets := turn.buckets, queue := turn.queue, worker := Top)
  {
    hide TryTake;
  }
}

/** The request ledger: nothing queued is lost, reordered or run twice. */
module RequestLedger {
  import opened ClientRuntime
  import opened ClientRuns

  /**
   * What the steps of a run did with requests. `enqueued` and `ran` belong to the present epoch, which began with the
   * latest clearing of the queue; the other fields belong to the whole run.
   */
  datatype Book = Book(
    enqueued: seq<Request>, ran: seq<Request>,
    issued: seq<Request>, direct: seq<Request>, earlier: seq<Request>, discarded: seq<Request>)

  function Record(book: Book, s: Client, step: Step): Book {
    match step
    case Hit(q) => book.(issued := book.issued + [q], direct := book.direct + [q])
    case Miss(q) => book.(issued := book.issued + [q])
    case Enqueue(i) => if i < |s.callers| then book.(enqueued := book.enqueued + [s.callers[i]]) else book
    case Run => if s.worker.Holding? then book.(ran := book.ran + [s.worker.q]) else book
    case ClearQueue =>
      book.(enqueued := [], ran := [], earlier := book.earlier + book.ran, discarded := book.discarded + s.queue)
    case _ => book
  }

  function Kept(s: Client, steps: seq<Step>): Book {
    if steps == [] then Book([], [], [], [], [], []) else
      var n := |steps| - 1;
      Record(Kept(s, steps[..n]), After(s, steps[..n]), steps[n])
  }

  function Times(qs: seq<Request>, q: Request): nat {
    multiset(qs)[q]
  }

  lemma TimesJoin(a: seq<Request>, b: seq<Request>, q: Request)
    ensures Times(a + b, q) == Times(a, q) + Times(b, q)
  {
  }

  lemma TimesWithout(qs: seq<Request>, i: nat, q: Request)
    requires i < |qs|
    ensures Times(qs, q) == Times(qs[..i] + qs[i + 1..], q) + Times([qs[i]], q)
    ensures i == 0 ==> Times(qs, q) == Times(qs[1..], q) + Times([qs[0]], q)
  {
    assert qs == qs[..i] + [qs[i]] + qs[i + 1..];
    TimesJoin(qs[..i] + [qs[i]], qs[i + 1..], q);
    TimesJoin(qs[..i], [qs[i]], q);
    TimesJoin(qs[..i], qs[i + 1..], q);
    assert Times(qs[..0], q) == 0;
  }

  lemma TimesIn(qs: seq<Request>, q: Request)
    ensures q in qs <==> Times(qs, q) > 0
  {
    assert q in qs <==> q in multiset(qs);
  }

  /** How often the callback has run, immediately or from the queue. */
  function Executed(book: Book, q: Request): nat {
    Times(book.direct, q) + Times(book.earlier, q) + Times(book.ran, q)
  }

  /** The present epoch, in order. */
  ghost predicate InOrder(s: Client, book: Book) {
    book.enqueued == book.ran + Hand(s) + s.queue
  }

  /** The whole run, counting one request. */
  ghost predicate Counted(s: Client, book: Book, q: Request) {
    Times(book.issued, q) ==
    Executed(book, q) + Times(s.callers, q) + Times(Hand(s), q) + Times(s.queue, q) + Times(book.discarded, q)
  }

  /** Once `Stop` has joined the worker, the worker is out of its loop. */
  ghost predicate Parked(s: Client) {
    s.phase.Running? || s.phase.Halting? || s.worker.Exited?
  }

  lemma StepKeepsOrder(s: Client, book: Book, step: Step)
    requires InOrder(s, book) && Parked(s) && Enabled(s, step)
    ensures InOrder(Next(s, step), Record(book, s, step)) && Parked(Next(s, step))
  {
    hide TryTake, Reconcile;
    match step {
      case Pop => assert s.queue == [s.queue[0]] + s.queue[1..];
      case _ =>
    }
  }

  lemma AcquireKeepsCount(s: Client, book: Book, step: Step, q: Request)
    requires Counted(s, book, q) && Enabled(s, step) && (step.Hit? || step.Miss? || step.Enqueue?)
    ensures Counted(Next(s, step), Record(book, s, step), q)
  {
    hide TryTake, Reconcile, Times;
    match step {
      case Hit(x) =>
        TimesJoin(book.issued, [x], q);
        TimesJoin(book.direct, [x], q);
      case Miss(x) =>
        TimesJoin(book.issued, [x], q);
        TimesJoin(s.callers, [x], q);
      case Enqueue(i) =>
        TimesJoin(s.queue, [s.callers[i]], q);
        TimesWithout(s.callers, i, q);
    }
  }

  lemma PopKeepsCount(s: Client, book: Book, q: Request)
    requires Counted(s, book, q) && Enabled(s, Pop)
    ensures Counted(Next(s, Pop), Record(book, s, Pop), q)
  {
    var v := Next(s, Pop);
    assert Hand(s) == [] && Hand(v) == [s.queue[0]] && v.queue == s.queue[1..] && v.callers == s.callers;
    assert Times([], q) == 0;
    hide Next, Enabled, Hand, Times, TryTake;
    TimesWithout(s.queue, 0, q);
  }

  lemma RunKeepsCount(s: Client, book: Book, q: Request)
    requires Counted(s, book, q) && Enabled(s, Run)
    ensures Counted(Next(s, Run), Record(book, s, Run), q)
  {
    var v := Next(s, Run);
    assert Hand(s) == [s.worker.q] && Hand(v) == [] && v.queue == s.queue && v.callers == s.callers;
    assert Times([], q) == 0;
    hide Next, Enabled, Hand, Times, TryTake;
    TimesJoin(book.ran, [s.worker.q], q);
  }

  lemma RefuseKeepsCount(s: Client, book: Book, q: Request)
    requires Counted(s, book, q) && Enabled(s, Refuse)
    ensures Counted(Next(s, Refuse), Record(book, s, Refuse), q)
  {
    var v := Next(s, Refuse);
    assert Hand(v) == Hand(s) && v.queue == s.queue && v.callers == s.callers;
    assert Times([], q) == 0;
    hide Next, Enabled, Hand, Times, TryTake;
  }

  lemma RequeueKeepsCount(s: Client, book: Book, q: Request)
    requires Counted(s, book, q) && Enabled(s, Requeue)
    ensures Counted(Next(s, Requeue), Record(book, s, Requeue), q)
  {
    var v := Next(s, Requeue);
    assert Hand(s) == [s.worker.q] && Hand(v) == [] && v.queue == [s.worker.q] + s.queue && v.callers == s.callers;
    assert Times([], q) == 0;
    hide Next, Enabled, Hand, Times, TryTake;
    TimesJoin([s.worker.q], s.queue, q);
  }

  lemma ClearKeepsCount(s: Client, book: Book, q: Request)
    requires Counted(s, book, q) && Parked(s) && Enabled(s, ClearQueue)
    ensures Counted(Next(s, ClearQueue), Record(book, s, ClearQueue), q)
  {
    var v := Next(s, ClearQueue);
    assert Hand(s) == [] && Hand(v) == [] && v.queue == [] && v.callers == s.callers;
    assert Times([], q) == 0;
    hide Next, Enabled, Hand, Times, TryTake;
    TimesJoin(book.earlier, book.ran, q);
    TimesJoin(book.discarded, s.queue, q);
  }

  /** The steps that move no request. */
  predicate MovesNone(step: Step) {
    match step
    case Hit(_) => false
    case Miss(_) => false
    case Enqueue(_) => false
    case Pop => false
    case Run => false
    case Refuse => false
    case Requeue => false
    case ClearQueue => false
    case _ => true
  }

  lemma OthersKeepCount(s: Client, book: Book, step: Step, q: Request)
    requires Counted(s, book, q) && Parked(s) && Enabled(s, step) && MovesNone(step)
    ensures Counted(Next(s, step), Record(book, s, step), q)
  {
    hide TryTake, Reconcile;
    var v := Next(s, step);
    assert v.queue == s.queue && v.callers == s.callers && Hand(v) == Hand(s) && Record(book, s, step) == book;
    hide Next, Enabled, Record, Hand, Times;
  }

  lemma StepKeepsCount(s: Client, book: Book, step: Step, q: Request)
    requires Counted(s, book, q) && Parked(s) && Enabled(s, step)
    ensures Counted(Next(s, step), Record(book, s, step), q)
  {
    hide Next, Record, Counted, Enabled, Parked;
    match step {
      case Pop => PopKeepsCount(s, book, q);
      case Run => RunKeepsCount(s, book, q);
      case Refuse => RefuseKeepsCount(s, book, q);
      case Requeue => RequeueKeepsCount(s, book, q);
      case ClearQueue => ClearKeepsCount(s, book, q);
      case Hit(_) => AcquireKeepsCount(s, book, step, q);
      case Miss(_) => AcquireKeepsCount(s, book, step, q);
      case Enqueue(_) => AcquireKeepsCount(s, book, step, q);
      case _ => OthersKeepCount(s, book, step, q);
    }
  }

  /**
   * In every interleaving, at every moment: what was enqueued in this epoch is exactly what ran from the queue, then
   * what is in the worker's hand, then what is still queued, in that order; and over the whole run every issued
   * request is accounted for exactly once.
   */
  lemma {:induction false} LedgerHolds(now: real, steps: seq<Step>, q: Request)
    requires Legal(Initial(now), steps)
    ensures var s, book := After(Initial(now), steps), Kept(Initial(now), steps);
            InOrder(s, book) && Counted(s, book, q) && Parked(s)
  {
    if steps != [] {
      hide Enabled, Next, Record, InOrder, Counted, Parked;
      var n := |steps| - 1;
      LedgerHolds(now, steps[..n], q);
      StepKeepsOrder(After(Initial(now), steps[..n]), Kept(Initial(now), steps[..n]), steps[n]);
      StepKeepsCount(After(Initial(now), steps[..n]), Kept(Initial(now), steps[..n]), steps[n], q);
    }
  }

  /** A request issued once runs at most once, and not at all if it is still waiting somewhere or was discarded. */
  lemma {:induction false} AtMostOnce(now: real, steps: seq<Step>, q: Request)
    requires Legal(Initial(now), steps) && Times(Kept(Initial(now), steps).issued, q) <= 1
    ensures var s, book := After(Initial(now), steps), Kept(Initial(now), steps);
            && Executed(book, q) <= 1
            && (q in s.callers || q in Hand(s) || q in s.queue || q in book.discarded ==> Executed(book, q) == 0)
  {
    LedgerHolds(now, steps, q);
    var s, book := After(Initial(now), steps), Kept(Initial(now), steps);
    TimesIn(s.callers, q);
    TimesIn(Hand(s), q);
    TimesIn(s.queue, q);
    TimesIn(book.discarded, q);
  }

  lemma ClearDiscards(s: Client, book: Book)
    requires InOrder(s, book) && Parked(s) && Enabled(s, ClearQueue)
    ensures Hand(s) == [] && book.enqueued == book.ran + s.queue
    ensures Record(book, s, ClearQueue).discarded == book.discarded + s.queue
  {
  }

  /** When `Stop` clears the queue, everything enqueued and not run is discarded by the clear, nothing else. */
  lemma StopDiscardsTheRest(now: real, steps: seq<Step>, all: seq<Step>)
    requires Legal(Initial(now), all) && all == steps + [ClearQueue]
    ensures var s, book := After(Initial(now), steps), Kept(Initial(now), steps);
            && Hand(s) == [] && book.enqueued == book.ran + s.queue
            && Kept(Initial(now), all).discarded == book.discarded + s.queue
  {
    hide Next, Enabled, Record, InOrder, Counted, Parked, Hand;
    assert all[..|all| - 1] == steps;
    LedgerHolds(now, steps, Request(0, 0, 0.0));
    ClearDiscards(After(Initial(now), steps), Kept(Initial(now), steps));
  }
}

/** How much a client can admit for one resource, whatever happens to its bucket. */
module AdmissionBound {
  import opened Numbers
  import opened Buckets
  import opened BucketRuns
  import opened ClientRuntime
  import opened ClientRuns

  /** The positive count one step admits for the resource, by either path. */
  function Charge(s: Client, step: Step, r: int): real {
    match step
    case Hit(q) => if q.resource == r then Max(0.0, q.count) else 0.0
    case Run => if s.worker.Holding? && s.worker.q.resource == r then Max(0.0, s.worker.q.count) else 0.0
    case _ => 0.0
  }

  function Admitted(s: Client, steps: seq<Step>, r: int): real {
    if steps == [] then 0.0 else
      var n := |steps| - 1;
      Admitted(s, steps[..n], r) + Charge(After(s, steps[..n]), steps[n], r)
  }

  /** The rate of the bucket over the time that passes, and the allocation of every bucket that is created. */
  function Credit(s: Client, step: Step, r: int): real {
    match step
    case Tick(elapsed) => if r in s.buckets then Gain(s.buckets[r].rate, s.now, s.now + elapsed) else 0.0
    case Apply(allocations) => if r in allocations && r !in s.buckets then Max(0.0, allocations[r]) else 0.0
    case _ => 0.0
  }

  function Granted(s: Client, steps: seq<Step>, r: int): real {
    if steps == [] then 0.0 else
      var n := |steps| - 1;
      Granted(s, steps[..n], r) + Credit(After(s, steps[..n]), steps[n], r)
  }

  /** What the bucket could hand out now. */
  function Worth(s: Client, r: int): real {
    if r in s.buckets then Refill(s.buckets[r], s.now).tokens else 0.0
  }

  ghost predicate Timed(b: Bucket, now: real) {
    Sound(b) && b.last <= now
  }

  ghost predicate Sane(s: Client) {
    forall r | r in s.buckets :: Timed(s.buckets[r], s.now)
  }

  lemma RefillAgain(b: Bucket, now: real)
    requires Timed(b, now)
    ensures var f := Refill(b, now);
            && Refill(f, now) == f && Timed(f, now) && f.rate == b.rate && 0.0 <= f.tokens <= f.burst == b.burst
    ensures forall level, rate | 0.0 <= level <= b.burst && rate >= 0.0 ::
              var g := Refill(b, now).(tokens := level, rate := rate); Refill(g, now) == g && Timed(g, now)
  {
    assert forall rate :: Gain(rate, now, now) == 0.0;
    hide Gain;
  }

  lemma RefillLater(b: Bucket, now: real, later: real)
    requires Timed(b, now) && now <= later
    ensures Refill(b, later).tokens <= Refill(b, now).tokens + Gain(b.rate, now, later)
  {
    RefillComposes(b, now, later);
    hide Gain;
  }

  /** Consuming charges the level of the bucket, and of no other. */
  lemma ConsumeCharges(b: Bucket, count: real, now: real)
    requires Timed(b, now)
    ensures var (c, ok) := TryConsume(b, count, now);
            && Timed(c, now)
            && Refill(c, now).tokens + (if ok then Max(0.0, count) else 0.0) == Refill(b, now).tokens
  {
    RefillAgain(b, now);
    hide Refill;
  }

  lemma TakeCharges(s: Client, q: Request, r: int)
    requires Sane(s)
    ensures var (bs, ok) := TryTake(s.buckets, q, s.now);
            var t := s.(buckets := bs);
            && Sane(t)
            && Worth(t, r) + (if ok && q.resource == r then Max(0.0, q.count) else 0.0) <= Worth(s, r)
  {
    hide TryConsume, Refill;
    if q.resource in s.buckets {
      ConsumeCharges(s.buckets[q.resource], q.count, s.now);
    }
  }

  lemma TickCredits(s: Client, elapsed: real, r: int)
    requires Sane(s) && elapsed >= 0.0
    ensures Sane(s.(now := s.now + elapsed))
    ensures Worth(s.(now := s.now + elapsed), r) <= Worth(s, r) + Credit(s, Tick(elapsed), r)
  {
    hide Refill, Gain;
    if r in s.buckets {
      RefillLater(s.buckets[r], s.now, s.now + elapsed);
    }
  }

  /** A re-rated bucket holds what it held; a new one holds its allocation. */
  lemma ReratedWorth(buckets: BucketMap, r: int, rate: real, now: real)
    requires r in buckets ==> Timed(buckets[r], now)
    ensures var b := Rerated(buckets, r, rate, now);
            && Timed(b, now)
            && Refill(b, now).tokens == if r in buckets then Refill(buckets[r], now).tokens else Max(0.0, rate)
  {
    if r in buckets {
      RefillAgain(buckets[r], now);
      hide Refill;
    } else {
      assert Gain(Max(0.0, rate), now, now) == 0.0;
      hide Gain;
    }
  }

  lemma ApplyCredits(s: Client, allocations: map<int, real>, r: int)
    requires Sane(s)
    ensures var t := s.(buckets := Reconcile(s.buckets, allocations, s.now));
            Sane(t) && Worth(t, r) <= Worth(s, r) + Credit(s, Apply(allocations), r)
  {
    WorthIsPositive(s, r);
    hide Rerated, Refill;
    forall x | x in allocations
      ensures Timed(Rerated(s.buckets, x, allocations[x], s.now), s.now)
    {
      ReratedWorth(s.buckets, x, allocations[x], s.now);
    }
    if r in allocations {
      ReratedWorth(s.buckets, r, allocations[r], s.now);
    }
  }

  lemma StepPays(s: Client, step: Step, r: int)
    requires Sane(s) && Enabled(s, step)
    ensures Sane(Next(s, step))
    ensures Worth(Next(s, step), r) + Charge(s, step, r) <= Worth(s, r) + Credit(s, step, r)
  {
    hide TryTake, Reconcile;
    match step {
      case Tick(elapsed) => TickCredits(s, elapsed, r);
      case Hit(q) => TakeCharges(s, q, r);
      case Miss(q) => TakeCharges(s, q, r);
      case Run => TakeCharges(s, s.worker.q, r);
      case Refuse => TakeCharges(s, s.worker.q, r);
      case Apply(allocations) => ApplyCredits(s, allocations, r);
      case ClearBuckets => WorthIsPositive(s, r);
      case _ =>
    }
  }

  lemma WorthIsPositive(s: Client, r: int)
    requires Sane(s)
    ensures 0.0 <= Worth(s, r)
    ensures r in s.buckets ==> Worth(s, r) <= s.buckets[r].burst
  {
    hide Refill;
    if r in s.buckets {
      RefillAgain(s.buckets[r], s.now);
    }
  }

  lemma {:induction false} WindowPays(s: Client, steps: seq<Step>, r: int)
    requires Sane(s) && Legal(s, steps)
    ensures Sane(After(s, steps))
    ensures Worth(After(s, steps), r) + Admitted(s, steps, r) <= Worth(s, r) + Granted(s, steps, r)
  {
    if steps != [] {
      hide Enabled, Next, Charge, Credit, Worth, Sane;
      var n := |steps| - 1;
      WindowPays(s, steps[..n], r);
      StepPays(After(s, steps[..n]), steps[n], r);
    }
  }

  /**
   * Over any window of any run, the count admitted through both paths is at most what the bucket can hand out at the
   * start, which is at most its burst, plus the allocation of every bucket created, plus the rate in force over time.
   */
  lemma AdmissionIsBounded(s: Client, steps: seq<Step>, r: int)
    requires Sane(s) && Legal(s, steps)
    ensures Admitted(s, steps, r) <= Worth(s, r) + Granted(s, steps, r)
    ensures Worth(s, r) <= if r in s.buckets then s.buckets[r].burst else 0.0
  {
    WindowPays(s, steps, r);
    WorthIsPositive(After(s, steps), r);
    WorthIsPositive(s, r);
  }

  /** From the start of a client's life the bound needs no opening balance. */
  lemma AdmissionFromTheStart(now: real, steps: seq<Step>, r: int)
    requires Legal(Initial(now), steps)
    ensures Admitted(Initial(now), steps, r) <= Granted(Initial(now), steps, r)
  {
    AdmissionIsBounded(Initial(now), steps, r);
  }
}

/** When a queued request is admitted, and when it never is. */
module WaitingTimes {
  import opened Numbers
  import opened Buckets
  import opened BucketRuns
  import opened ClientRuntime
  import opened ClientRuns

  /** The earliest time at which the bucket's uncapped tokens reach the count. */
  function Ready(b: Bucket, count: real): real
    requires b.rate > 0.0
  {
    b.last + Max(0.0, (count - b.tokens) / b.rate)
  }

  lemma ReadyMeans(b: Bucket, count: real, t: real)
    requires Sound(b) && b.rate > 0.0 && b.last <= t
    ensures t >= Ready(b, count) <==> b.tokens + Gain(b.rate, b.last, t) >= count
    ensures t < Ready(b, count) ==> count > 0.0
  {
    var q, d := (count - b.tokens) / b.rate, t - b.last;
    assert q * b.rate == count - b.tokens;
    ProductSign(d, b.rate);
    if d >= q {
      ProductSign(d - q, b.rate);
      Distribute(b.rate, d - q, q);
    } else {
      assert (q - d) * b.rate > 0.0;
      Distribute(b.rate, q - d, d);
    }
  }

  /** The poll times are in order and none is before the start. */
  ghost predicate Ascending(start: real, times: seq<real>) {
    times == [] ||
    (var n := |times| - 1;
     Ascending(start, times[..n]) && LastOf(start, times[..n]) <= times[n])
  }

  function LastOf(start: real, times: seq<real>): real {
    if times == [] then start else times[|times| - 1]
  }

  lemma {:induction false} AscendingBounds(start: real, times: seq<real>)
    requires Ascending(start, times)
    ensures start <= LastOf(start, times)
    ensures forall i | 0 <= i < |times| :: start <= times[i] <= LastOf(start, times)
  {
    if times != [] {
      AscendingBounds(start, times[..|times| - 1]);
      assert forall i | 0 <= i < |times| - 1 :: times[..|times| - 1][i] == times[i];
    }
  }

  /** Every poll comes too early. */
  ghost predicate TooEarly(b: Bucket, count: real, times: seq<real>) {
    forall t | t in times :: b.tokens + Gain(b.rate, b.last, t) < count
  }

  /** A poll that refuses the head leaves the queue as it was, and the bucket only refilled. */
  lemma RefusedTurn(buckets: BucketMap, queue: seq<Request>, b: Bucket, now: real)
    requires queue != [] && queue[0].resource in buckets
    requires Sound(b) && buckets[queue[0].resource].last <= now && b.last <= buckets[queue[0].resource].last
    requires buckets[queue[0].resource] == Refill(b, buckets[queue[0].resource].last)
    ensures var q := queue[0];
            var turn := WorkerTurn(buckets, queue, now);
            if (b.tokens + Gain(b.rate, b.last, now) >= q.count && q.count <= b.burst) || q.count <= 0.0
            then turn.ran == [q] && turn.queue == queue[1..]
            else turn.ran == [] && turn.queue == queue && q.resource in turn.buckets &&
                 turn.buckets[q.resource] == Refill(b, now)
  {
    var q := queue[0];
    RefillComposes(b, buckets[q.resource].last, now);
    assert [q] + queue[1..] == queue;
  }

  /** While every poll is too early, the head stays the head and nothing at all runs. */
  lemma {:induction false} NotYet(buckets: BucketMap, queue: seq<Request>, times: seq<real>)
    requires queue != [] && queue[0].resource in buckets && queue[0].count > 0.0
    requires var b := buckets[queue[0].resource];
             Sound(b) && Ascending(b.last, times) && TooEarly(b, queue[0].count, times)
    ensures var b, turn := buckets[queue[0].resource], Polls(buckets, queue, times);
            && turn.ran == [] && turn.queue == queue && queue[0].resource in turn.buckets
            && turn.buckets[queue[0].resource] == Refill(b, LastOf(b.last, times))
  {
    if times != [] {
      hide WorkerTurn, Refill;
      var b, n := buckets[queue[0].resource], |times| - 1;
      var before := Polls(buckets, queue, times[..n]);
      NotYet(buckets, queue, times[..n]);
      AscendingBounds(b.last, times[..n]);
      RefillTime(b, LastOf(b.last, times[..n]));
      RefusedTurn(before.buckets, queue, b, times[n]);
      assert times[n] in times;
    } else {
      RefillAtOnce(buckets[queue[0].resource]);
    }
  }

  lemma RefillTime(b: Bucket, t: real)
    ensures Refill(b, t).last == t
  {
  }

  /**
   * The exact waiting time. With no other consumer and a fixed positive rate, a head request within the burst is
   * admitted at the first poll at or after the time at which its tokens have accrued, and at no earlier poll, however
   * often it was popped and put back.
   */
  lemma ExactWait(buckets: BucketMap, queue: seq<Request>, times: seq<real>, t: real)
    requires queue != [] && queue[0].resource in buckets
    requires var b := buckets[queue[0].resource];
             && Sound(b) && b.rate > 0.0 && queue[0].count <= b.burst && Ascending(b.last, times + [t])
             && forall x | x in times :: x < Ready(b, queue[0].count)
    ensures var b := buckets[queue[0].resource];
            var (before, turn) := (Polls(buckets, queue, times), Polls(buckets, queue, times + [t]));
            && before.ran == [] && before.queue == queue
            && (if t >= Ready(b, queue[0].count) then turn.ran == [queue[0]] && turn.queue == queue[1..]
                else turn.ran == [] && turn.queue == queue)
  {
    var q, b := queue[0], buckets[queue[0].resource];
    hide WorkerTurn, Refill, Gain, Ready;
    assert (times + [t])[..|times|] == times;
    AscendingBounds(b.last, times);
    EarlyPolls(buckets, queue, times);
    RefillTime(b, LastOf(b.last, times));
    ReadyMeans(b, q.count, t);
    RefusedTurn(Polls(buckets, queue, times).buckets, queue, b, t);
  }

  lemma EarlyPolls(buckets: BucketMap, queue: seq<Request>, times: seq<real>)
    requires queue != [] && queue[0].resource in buckets
    requires var b := buckets[queue[0].resource];
             && Sound(b) && b.rate > 0.0 && Ascending(b.last, times)
             && forall x | x in times :: x < Ready(b, queue[0].count)
    ensures var b, turn := buckets[queue[0].resource], Polls(buckets, queue, times);
            && turn.ran == [] && turn.queue == queue && queue[0].resource in turn.buckets
            && turn.buckets[queue[0].resource] == Refill(b, LastOf(b.last, times))
  {
    var q, b := queue[0], buckets[queue[0].resource];
    hide Ready, Gain, Refill;
    AscendingBounds(b.last, times);
    forall x | x in times
      ensures q.count > 0.0 && b.tokens + Gain(b.rate, b.last, x) < q.count
    {
      ReadyMeans(b, q.count, x);
    }
    if times == [] {
      RefillAtOnce(b);
    } else {
      assert times[0] in times;
      NotYet(buckets, queue, times);
    }
  }

  lemma RefillAtOnce(b: Bucket)
    requires Sound(b)
    ensures Refill(b, b.last) == b
  {
  }

  /**
   * What the head needs: a bucket, whose burst covers the count and which earns something, unless the tokens are there
   * already. Consuming nothing needs the bucket only.
   */
  predicate Attainable(buckets: BucketMap, q: Request) {
    q.resource in buckets &&
    (var b := buckets[q.resource];
     q.count <= 0.0 || (q.count <= b.burst && (b.rate > 0.0 || q.count <= b.tokens)))
  }

  ghost predicate SoundFor(buckets: BucketMap, q: Request) {
    q.resource in buckets ==> Sound(buckets[q.resource])
  }

  /** A refill earns nothing that helps. */
  lemma HopelessRefill(b: Bucket, count: real, now: real)
    requires Sound(b) && (b.burst < count || (b.rate == 0.0 && b.tokens < count))
    ensures var f := Refill(b, now);
            && f.rate == b.rate && f.burst == b.burst && Sound(f) && f.tokens < count
            && (b.burst < count || (f.rate == 0.0 && f.tokens < count))
  {
    assert b.rate == 0.0 ==> Gain(b.rate, b.last, now) == 0.0;
    hide Gain;
  }

  lemma HopelessTurn(buckets: BucketMap, queue: seq<Request>, now: real)
    requires queue != [] && SoundFor(buckets, queue[0]) && !Attainable(buckets, queue[0])
    ensures var turn := WorkerTurn(buckets, queue, now);
            && turn.ran == [] && turn.queue == queue
            && SoundFor(turn.buckets, queue[0]) && !Attainable(turn.buckets, queue[0])
  {
    assert [queue[0]] + queue[1..] == queue;
    if queue[0].resource in buckets {
      HopelessRefill(buckets[queue[0].resource], queue[0].count, now);
    }
    hide Refill;
  }

  /** A head that is not attainable is admitted at no poll, in whatever way time moves, and nothing behind it either. */
  lemma {:induction false} NeverAdmitted(buckets: BucketMap, queue: seq<Request>, times: seq<real>)
    requires queue != [] && SoundFor(buckets, queue[0]) && !Attainable(buckets, queue[0])
    ensures var turn := Polls(buckets, queue, times);
            && turn.ran == [] && turn.queue == queue
            && SoundFor(turn.buckets, queue[0]) && !Attainable(turn.buckets, queue[0])
  {
    if times != [] {
      hide WorkerTurn, SoundFor, Attainable;
      var n := |times| - 1;
      NeverAdmitted(buckets, queue, times[..n]);
      HopelessTurn(Polls(buckets, queue, times[..n]).buckets, queue, times[n]);
    }
  }

  /** Exactly when the head runs eventually: some poll admits it if and only if it is attainable. */
  lemma RunsEventually(buckets: BucketMap, queue: seq<Request>, now: real)
    requires queue != [] && SoundFor(buckets, queue[0])
    ensures (exists times :: Polls(buckets, queue, times).ran != []) <==> Attainable(buckets, queue[0])
    ensures Attainable(buckets, queue[0]) ==> exists t :: t >= now && Polls(buckets, queue, [t]).ran == [queue[0]]
  {
    if Attainable(buckets, queue[0]) {
      var t := AdmittedOnce(buckets, queue, now);
    } else {
      forall times
        ensures Polls(buckets, queue, times).ran == []
      {
        NeverAdmitted(buckets, queue, times);
      }
    }
  }

  lemma AdmittedOnce(buckets: BucketMap, queue: seq<Request>, now: real) returns (t: real)
    requires queue != [] && SoundFor(buckets, queue[0]) && Attainable(buckets, queue[0])
    ensures t >= now && Polls(buckets, queue, [t]).ran == [queue[0]]
  {
    var q, b := queue[0], buckets[queue[0].resource];
    t := Max(now, if b.rate > 0.0 then Ready(b, q.count) else b.last);
    var times, none: seq<real> := [t], [];
    assert times[..0] == none && Polls(buckets, queue, none) == Turn(buckets, queue, []);
    RefillAtOnce(b);
    assert t >= b.last;
    if b.rate > 0.0 {
      ReadyMeans(b, q.count, t);
    }
    hide WorkerTurn, Refill, Ready;
    RefusedTurn(buckets, queue, b, t);
    assert Polls(buckets, queue, times).ran == [q];
  }

  // The same blocking in the full client, where everything else may happen as well.

  /** The first request that the worker has not run: in its hand, or else at the head of the queue. */
  ghost predicate HeadIs(s: Client, q: Request) {
    Hand(s) + s.queue != [] && (Hand(s) + s.queue)[0] == q
  }

  /** The head has no bucket, or one whose burst is too small. */
  ghost predicate Blocked(s: Client, q: Request) {
    && HeadIs(s, q) && SoundFor(s.buckets, q)
    && (q.resource in s.buckets ==> s.buckets[q.resource].burst < q.count)
  }

  /** The step leaves the bucket there, or missing, as it was, and does not end the epoch. */
  predicate Keeps(step: Step, r: int, present: bool) {
    match step
    case Apply(allocations) => (r in allocations) == present
    case ClearBuckets => !present
    case ClearQueue => false
    case Launch => false
    case _ => true
  }

  lemma StaysBlocked(s: Client, step: Step, q: Request)
    requires Blocked(s, q) && Enabled(s, step) && Keeps(step, q.resource, q.resource in s.buckets)
    ensures Blocked(Next(s, step), q) && step != Run
    ensures q.resource in Next(s, step).buckets <==> q.resource in s.buckets
  {
    hide Gain;
  }

  /**
   * A request at the head that has no bucket, or exceeds its bucket's burst, blocks the whole queue, requests for other
   * resources included: whatever callers, heartbeats (with any rates) and the clock do, no queued request runs as long
   * as the bucket stays missing or kept and the epoch lasts, because nothing in the client ever raises a burst.
   */
  lemma {:induction false} HeadBlocksQueue(s: Client, steps: seq<Step>, q: Request)
    requires Blocked(s, q) && Legal(s, steps)
    requires forall step | step in steps :: Keeps(step, q.resource, q.resource in s.buckets)
    ensures Blocked(After(s, steps), q) && Run !in steps
    ensures q.resource in After(s, steps).buckets <==> q.resource in s.buckets
  {
    if steps != [] {
      hide Enabled, Next, Blocked, Keeps;
      var n := |steps| - 1;
      HeadBlocksQueue(s, steps[..n], q);
      assert steps[n] in steps;
      StaysBlocked(After(s, steps[..n]), steps[n], q);
      assert steps == steps[..n] + [steps[n]];
    }
  }

  /** Both blocked states occur: a request above the first allocation, and a request for an unallocated resource. */
  lemma BlockingHappens(now: real, q: Request)
    ensures q.count > 1.0 ==>
              exists steps :: Legal(Initial(now), steps) && Blocked(After(Initial(now), steps), q) &&
                q.resource in After(Initial(now), steps).buckets
    ensures exists steps :: Legal(Initial(now), steps) && Blocked(After(Initial(now), steps), q) &&
              q.resource !in After(Initial(now), steps).buckets
  {
    var steps := Refusal(now, q, false);
    if q.count > 1.0 {
      steps := Refusal(now, q, true);
    }
  }

  /** A request refused at once is the head of an empty queue. */
  lemma RefusedHead(s: Client, q: Request)
    requires s.queue == [] && s.callers == [] && s.worker.Top? && !TryTake(s.buckets, q, s.now).1
    requires SoundFor(s.buckets, q) && (q.resource in s.buckets ==> s.buckets[q.resource].burst < q.count)
    ensures var refused := Next(s, Miss(q));
            && Enabled(s, Miss(q)) && Enabled(refused, Enqueue(0))
            && Blocked(Next(refused, Enqueue(0)), q)
            && (q.resource in Next(refused, Enqueue(0)).buckets <==> q.resource in s.buckets)
  {
    hide Gain;
  }

  /** The client is started and, if `heard`, gets an allocation of one. */
  lemma Opened(now: real, q: Request, heard: bool) returns (steps: seq<Step>)
    requires heard ==> q.count > 1.0
    ensures Legal(Initial(now), steps)
    ensures var s := After(Initial(now), steps);
            && s.queue == [] && s.callers == [] && s.worker.Top? && !TryTake(s.buckets, q, s.now).1
            && SoundFor(s.buckets, q) && (q.resource in s.buckets ==> s.buckets[q.resource].burst < q.count)
            && (q.resource in s.buckets <==> heard)
  {
    var none: seq<Step> := [];
    var started := Next(Initial(now), Launch);
    assert Enabled(Initial(now), Launch) && After(Initial(now), none) == Initial(now);
    var given: map<int, real> := map[q.resource := 1.0];
    var ready := Next(started, Apply(given));
    assert ready == started.(buckets := map[q.resource := Fresh(1.0, -1.0, now)]) && Enabled(started, Apply(given));
    assert heard ==> !TryTake(ready.buckets, q, now).1;
    hide Next, Enabled, Initial, TryTake;
    OneStep(Initial(now), none, Launch);
    steps := none + [Launch];
    if heard {
      OneStep(Initial(now), steps, Apply(given));
      steps := steps + [Apply(given)];
    }
  }

  lemma Refusal(now: real, q: Request, heard: bool) returns (steps: seq<Step>)
    requires heard ==> q.count > 1.0
    ensures Legal(Initial(now), steps) && Blocked(After(Initial(now), steps), q)
    ensures q.resource in After(Initial(now), steps).buckets <==> heard
  {
    hide Next, Enabled, Initial, TryTake, Blocked, SoundFor, Legal, After;
    steps := Opened(now, q, heard);
    RefusedHead(After(Initial(now), steps), q);
    OneStep(Initial(now), steps, Miss(q));
    steps := steps + [Miss(q)];
    OneStep(Initial(now), steps, Enqueue(0));
    steps := steps + [Enqueue(0)];
  }
}

/** What it means that a bucket keeps the burst it was created with. */
module FixedBurst {
  import opened Numbers
  import opened Buckets
  import opened ClientRuntime
  import opened ClientRuns

  predicate KeepsBucket(step: Step, r: int) {
    match step
    case Apply(allocations) => r in allocations
    case ClearBuckets => false
    case _ => true
  }

  /** The request a step admits. */
  function Admits(s: Client, step: Step): seq<Request> {
    match step
    case Hit(q) => [q]
    case Run => Hand(s)
    case _ => []
  }

  lemma BurstStays(s: Client, step: Step, r: int)
    requires r in s.buckets && Sound(s.buckets[r]) && KeepsBucket(step, r)
    ensures r in Next(s, step).buckets && Sound(Next(s, step).buckets[r])
    ensures Next(s, step).buckets[r].burst == s.buckets[r].burst
  {
    hide Gain;
  }

  lemma {:induction false} BurstNeverChanges(s: Client, steps: seq<Step>, r: int)
    requires r in s.buckets && Sound(s.buckets[r]) && forall step | step in steps :: KeepsBucket(step, r)
    ensures r in After(s, steps).buckets && Sound(After(s, steps).buckets[r])
    ensures After(s, steps).buckets[r].burst == s.buckets[r].burst
  {
    if steps != [] {
      hide Next, KeepsBucket;
      var n := |steps| - 1;
      assert steps == steps[..n] + [steps[n]] && steps[n] in steps;
      BurstNeverChanges(s, steps[..n], r);
      BurstStays(After(s, steps[..n]), steps[n], r);
    }
  }

  /** The allocation of r in the latest of the responses, or the given one if there was none. */
  function Latest(steps: seq<Step>, r: int, first: real): real {
    if steps == [] then first else
      match steps[|steps| - 1]
      case Apply(allocations) => if r in allocations then allocations[r] else Latest(steps[..|steps| - 1], r, first)
      case _ => Latest(steps[..|steps| - 1], r, first)
  }

  lemma RateFollows(s: Client, step: Step, r: int)
    requires r in s.buckets && KeepsBucket(step, r)
    ensures r in Next(s, step).buckets
    ensures Next(s, step).buckets[r].rate ==
            if step.Apply? then Max(0.0, step.allocations[r]) else s.buckets[r].rate
  {
    hide Gain;
  }

  lemma {:induction false} RateIsLatest(s: Client, steps: seq<Step>, r: int, first: real)
    requires r in s.buckets && s.buckets[r].rate == Max(0.0, first)
    requires forall step | step in steps :: KeepsBucket(step, r)
    ensures r in After(s, steps).buckets && After(s, steps).buckets[r].rate == Max(0.0, Latest(steps, r, first))
  {
    if steps != [] {
      hide Next;
      var n := |steps| - 1;
      assert steps == steps[..n] + [steps[n]] && steps[n] in steps;
      RateIsLatest(s, steps[..n], r, first);
      RateFollows(After(s, steps[..n]), steps[n], r);
    }
  }

  /** The client right after a response has created the bucket of r. */
  function Created(s: Client, allocations: map<int, real>): Client {
    Next(s, Apply(allocations))
  }

  lemma CreatedBucket(s: Client, allocations: map<int, real>, r: int)
    requires r in allocations && r !in s.buckets
    ensures r in Created(s, allocations).buckets && Sound(Created(s, allocations).buckets[r])
    ensures Created(s, allocations).buckets[r].burst == Created(s, allocations).buckets[r].rate
            == Max(0.0, allocations[r])
  {
  }

  /**
   * When the burst is one second of tokens: after any run that keeps the bucket, if and only if the latest allocation
   * is the one the bucket was created with (negative ones counting as zero).
   */
  lemma BurstIsOneSecond(s: Client, allocations: map<int, real>, steps: seq<Step>, r: int)
    requires r in allocations && r !in s.buckets && forall step | step in steps :: KeepsBucket(step, r)
    ensures var t := After(Created(s, allocations), steps);
            && r in t.buckets
            && (t.buckets[r].burst == t.buckets[r].rate <==>
                  Max(0.0, Latest(steps, r, allocations[r])) == Max(0.0, allocations[r]))
  {
    CreatedBucket(s, allocations, r);
    hide Created, KeepsBucket;
    BurstNeverChanges(Created(s, allocations), steps, r);
    RateIsLatest(Created(s, allocations), steps, r, allocations[r]);
  }

  /** Two responses are enough to part them: from the start, an allocation of one, then of two. */
  lemma BurstLagsBehind(now: real, r: int) returns (steps: seq<Step>)
    ensures Legal(Initial(now), steps) && r in After(Initial(now), steps).buckets
    ensures After(Initial(now), steps).buckets[r].burst == 1.0
    ensures After(Initial(now), steps).buckets[r].rate == 2.0
  {
    var none: seq<Step>, one: map<int, real>, two: map<int, real> := [], map[r := 1.0], map[r := 2.0];
    var started := Next(Initial(now), Launch);
    CreatedBucket(started, one, r);
    BurstStays(Created(started, one), Apply(two), r);
    RateFollows(Created(started, one), Apply(two), r);
    steps := none + [Launch];
    assert steps[..0] == none && After(Initial(now), steps) == started && Legal(Initial(now), steps);
    hide After, Legal, Reconcile;
    OneStep(Initial(now), steps, Apply(one));
    steps := steps + [Apply(one)];
    OneStep(Initial(now), steps, Apply(two));
    steps := steps + [Apply(two)];
  }

  /**
   * As long as a bucket is kept, no request larger than the allocation it was created with is admitted by either
   * path, however high later heartbeats raise the rate.
   */
  lemma FirstAllocationCapsRequests(
    s: Client, allocations: map<int, real>, steps: seq<Step>, step: Step, r: int, q: Request)
    requires r in allocations && r !in s.buckets && forall x | x in steps :: KeepsBucket(x, r)
    requires var t := After(Created(s, allocations), steps); Enabled(t, step) && q in Admits(t, step)
    requires q.resource == r && q.count > 0.0
    ensures q.count <= Max(0.0, allocations[r])
  {
    CreatedBucket(s, allocations, r);
    BurstNeverChanges(Created(s, allocations), steps, r);
    hide Gain, After, Created;
  }
}
