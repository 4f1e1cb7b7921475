/**
 * What the service is for: once the shares have settled, all clients together admit at most the limit per second,
 * plus the tokens their buckets hold at the start.
 */
module FleetRate {
  import opened Numbers
  import opened Buckets
  import BucketRuns
  import opened RegistryLaws
  import opened Shares
  import opened ClientRuntime
  import opened System
  import opened Overshoot
  import opened Convergence

  /** The positive count one step admits for the resource at one of the given clients. */
  function Charge(w: World, step: Step, r: int, fans: set<string>): real {
    match step
    case Use(id, q, at) =>
      if id in fans && q.resource == r && TryTake(Held(w, id), q, at).1 then Max(0.0, q.count) else 0.0
    case _ => 0.0
  }

  ghost function FleetAdmitted(w: World, steps: seq<Step>, r: int, fans: set<string>): real
    requires Legal(w, steps)
  {
    if steps == [] then 0.0 else
      var n := |steps| - 1;
      FleetAdmitted(w, steps[..n], r, fans) + Charge(After(w, steps[..n]), steps[n], r, fans)
  }

  ghost function AdmittedBy(w: World, steps: seq<Step>, r: int): string -> real
    requires Legal(w, steps)
  {
    (id: string) => FleetAdmitted(w, steps, r, {id})
  }

  function ChargeBy(w: World, step: Step, r: int): string -> real {
    (id: string) => Charge(w, step, r, {id})
  }

  lemma {:induction false} TotalSum<T>(ids: set<T>, f: T -> real, g: T -> real, sum: T -> real)
    requires forall x | x in ids :: sum(x) == f(x) + g(x)
    ensures Total(ids, sum) == Total(ids, f) + Total(ids, g)
    decreases |ids|
  {
    if ids != {} {
      var x :| x in ids;
      TotalPick(ids, f, x);
      TotalPick(ids, g, x);
      TotalPick(ids, sum, x);
      TotalSum(ids - {x}, f, g, sum);
    }
  }

  lemma NoneAddUp<T>(ids: set<T>, f: T -> real)
    requires forall x | x in ids :: f(x) == 0.0
    ensures Total(ids, f) == 0.0
  {
    TotalUniform(ids, {}, f, 0.0);
  }

  /** A step admits at one client at most. */
  lemma ChargeSplits(w: World, step: Step, r: int, ids: set<string>)
    ensures Charge(w, step, r, ids) == Total(ids, ChargeBy(w, step, r))
  {
    if step.Use? && step.id in ids {
      TotalPick(ids, ChargeBy(w, step, r), step.id);
      NoneAddUp(ids - {step.id}, ChargeBy(w, step, r));
    } else {
      NoneAddUp(ids, ChargeBy(w, step, r));
    }
  }

  lemma {:induction false} AdmittedSplits(w: World, steps: seq<Step>, r: int, ids: set<string>)
    requires Legal(w, steps)
    ensures FleetAdmitted(w, steps, r, ids) == Total(ids, AdmittedBy(w, steps, r))
  {
    if steps == [] {
      NoneAddUp(ids, AdmittedBy(w, steps, r));
    } else {
      hide Charge, Next, Enabled, Total;
      var n := |steps| - 1;
      var v := After(w, steps[..n]);
      AdmittedSplits(w, steps[..n], r, ids);
      ChargeSplits(v, steps[n], r, ids);
      TotalSum(ids, AdmittedBy(w, steps[..n], r), ChargeBy(v, steps[n], r), AdmittedBy(w, steps, r));
    }
  }

  lemma {:induction false} TotalLess<T>(ids: set<T>, f: T -> real, g: T -> real)
    requires forall x | x in ids :: f(x) <= g(x)
    ensures Total(ids, f) <= Total(ids, g)
    decreases |ids|
  {
    if ids != {} {
      var x :| x in ids;
      TotalPick(ids, f, x);
      TotalPick(ids, g, x);
      TotalLess(ids - {x}, f, g);
    }
  }

  lemma GainSign(rate: real, from: real, to: real)
    requires rate >= 0.0 && from <= to
    ensures Gain(rate, from, to) >= 0.0
  {
    ProductSign(to - from, rate);
  }

  lemma GainJoins(rate: real, from: real, at: real, to: real)
    ensures Gain(rate, from, to) == Gain(rate, from, at) + Gain(rate, at, to)
  {
    assert to - from == (at - from) + (to - at);
    Distribute(rate, at - from, to - at);
  }

  // A window of clock readings.

  /** The client whose buckets a step touches, and its clock reading. */
  datatype Touch = Nobody | Somebody(id: string, at: real)

  function Touched(w: World, step: Step): Touch {
    match step
    case Use(id, _, at) => Somebody(id, at)
    case Deliver(t, at) => if t in w.threads && w.threads[t].Replying? then Somebody(w.threads[t].id, at) else Nobody
    case _ => Nobody
  }

  /** Client clocks do not go backwards and are read within the window only; no client of ours is stopped. */
  ghost predicate Timely(w: World, step: Step, r: int, fans: set<string>, from: real, to: real) {
    && (step.Reset? ==> step.id !in fans)
    && (var touch := Touched(w, step);
        touch.Somebody? ==>
          from <= touch.at <= to && (r in Held(w, touch.id) ==> Held(w, touch.id)[r].last <= touch.at))
  }

  ghost predicate TimelyRun(w: World, steps: seq<Step>, r: int, fans: set<string>, from: real, to: real)
    requires Legal(w, steps)
  {
    steps == [] ||
    (var n := |steps| - 1;
     TimelyRun(w, steps[..n], r, fans, from, to) && Timely(After(w, steps[..n]), steps[n], r, fans, from, to))
  }

  /** Every fan's bucket is sound and was last refilled by time `at`. */
  ghost predicate BucketsBy(w: World, r: int, fans: set<string>, at: real) {
    forall id | id in fans :: r in Held(w, id) && Sound(Held(w, id)[r]) && Held(w, id)[r].last <= at
  }

  // One bucket at a steady rate.

  /** What the bucket can hand out within the window: its level when the window opens, and what it earns until `to`. */
  function Purse(b: Bucket, from: real, to: real): real {
    var c := Max(b.last, from);
    Refill(b, c).tokens + Gain(b.rate, c, to)
  }

  /** A refill within the window fills no purse. */
  lemma RefillPays(b: Bucket, at: real, from: real, to: real)
    requires Sound(b) && b.last <= at && from <= at <= to
    ensures var f := Refill(b, at);
            f.tokens + Gain(b.rate, at, to) <= Purse(b, from, to) && f.last == at
    ensures Gain(b.rate, at, to) >= 0.0
  {
    var c := Max(b.last, from);
    BucketRuns.RefillComposes(b, c, at);
    GainJoins(b.rate, c, at, to);
    GainSign(b.rate, c, at);
    GainSign(b.rate, at, to);
    assert Refill(b, c).rate == b.rate && Refill(b, c).last == c;
    hide Gain;
  }

  /** A bucket refilled within the window has its tokens in its purse. */
  lemma PurseNow(b: Bucket, from: real, to: real)
    requires Sound(b) && from <= b.last
    ensures Purse(b, from, to) == b.tokens + Gain(b.rate, b.last, to)
  {
    assert Gain(b.rate, b.last, b.last) == 0.0;
    hide Gain;
  }

  lemma ConsumePays(b: Bucket, count: real, at: real, from: real, to: real)
    requires Sound(b) && b.last <= at && from <= at <= to
    ensures var (c, ok) := TryConsume(b, count, at);
            && Sound(c) && c.last <= to && c.rate == b.rate
            && Purse(c, from, to) + (if ok then Max(0.0, count) else 0.0) <= Purse(b, from, to)
  {
    RefillPays(b, at, from, to);
    if count > 0.0 {
      PurseNow(TryConsume(b, count, at).0, from, to);
    }
    hide Purse, Gain;
  }

  /** Taking tokens pays for what is admitted. */
  lemma UsePays(bs: BucketMap, q: Request, at: real, r: int, from: real, to: real)
    requires r in bs && Sound(bs[r]) && bs[r].last <= at && from <= at <= to
    ensures var (after, ok) := TryTake(bs, q, at);
            && r in after && Sound(after[r]) && after[r].last <= to && after[r].rate == bs[r].rate
            && Purse(after[r], from, to) + (if ok && q.resource == r then Max(0.0, q.count) else 0.0)
               <= Purse(bs[r], from, to)
  {
    hide Purse, TryConsume;
    if q.resource == r {
      ConsumePays(bs[r], q.count, at, from, to);
    }
  }

  /** A response with the share the bucket already has costs nothing and gives nothing. */
  lemma DeliveryPays(bs: BucketMap, acc: map<int, real>, at: real, r: int, from: real, to: real)
    requires r in bs && Sound(bs[r]) && bs[r].last <= at && from <= at <= to
    requires r in acc && Max(0.0, acc[r]) == bs[r].rate
    ensures var after := Reconcile(bs, acc, at);
            && r in after && Sound(after[r]) && after[r].last <= to && after[r].rate == bs[r].rate
            && Purse(after[r], from, to) <= Purse(bs[r], from, to)
  {
    RefillPays(bs[r], at, from, to);
    PurseNow(SetRate(bs[r], acc[r], at), from, to);
    hide Purse, Gain;
  }

  // One client of a settled fleet.

  /** What a step does to one client of ours. */
  ghost predicate Pays(w: World, v: World, id: string, r: int, from: real, to: real, charge: real) {
    && r in Held(v, id) && Sound(Held(v, id)[r]) && Held(v, id)[r].last <= to
    && r in Held(w, id) && Purse(Held(v, id)[r], from, to) + charge <= Purse(Held(w, id)[r], from, to)
  }

  lemma StepPays(
    w: World, step: Step, r: int, fans: set<string>, limit: real, from: real, to: real, id: string)
    requires Enabled(w, step) && Converging(w, r, fans, limit, fans) && id in fans
    requires BucketsBy(w, r, fans, to) && Timely(w, step, r, fans, from, to)
    ensures Pays(w, Next(w, step), id, r, from, to, Charge(w, step, r, {id}))
  {
    hide IndexAgrees, Settled, RegAfter, ThreadAfter, Looked, TryTake, Reconcile, Purse, Portion;
    assert id in fans * fans && AtShare(w, id, r, Portion(limit, |fans|));
    PortionShrinks(limit, |fans|, |fans|);
    match step {
      case Use(x, q, at) =>
        if x == id {
          UsePays(Held(w, x), q, at, r, from, to);
        }
      case Deliver(t, at) =>
        var reply := w.threads[t];
        if reply.id == id {
          assert Fair(reply, r, fans, limit, Portion(limit, |fans|));
          DeliveryPays(Held(w, id), reply.acc, at, r, from, to);
        }
      case _ =>
    }
  }

  lemma BucketsStay(
    w: World, step: Step, r: int, fans: set<string>, limit: real, from: real, to: real)
    requires Enabled(w, step) && Converging(w, r, fans, limit, fans)
    requires BucketsBy(w, r, fans, to) && Timely(w, step, r, fans, from, to)
    ensures BucketsBy(Next(w, step), r, fans, to)
  {
    hide Next, Enabled, Converging, Timely, Charge, Held, Purse;
    forall id | id in fans
      ensures r in Held(Next(w, step), id)
      ensures Sound(Held(Next(w, step), id)[r]) && Held(Next(w, step), id)[r].last <= to
    {
      StepPays(w, step, r, fans, limit, from, to, id);
    }
  }

  lemma ServedStays(
    w: World, step: Step, r: int, fans: set<string>, limit: real, from: real, to: real)
    requires Enabled(w, step) && Converging(w, r, fans, limit, fans) && Timely(w, step, r, fans, from, to)
    requires Settled(Next(w, step), r, fans, limit)
    ensures Converging(Next(w, step), r, fans, limit, fans)
  {
    hide IndexAgrees, Settled, AtShare, Fair, Portion, Next, Enabled;
    StepKeeps(w, step);
    ThreadsStayFair(w, step, r, fans, limit, fans);
    forall id | id in fans * fans
      ensures AtShare(Next(w, step), id, r, Portion(limit, |fans|))
    {
      RatesStayFair(w, step, r, fans, limit, fans, id);
    }
  }

  /** The fleet stays settled along the run. */
  lemma {:induction false} RunStays(
    w: World, steps: seq<Step>, r: int, fans: set<string>, limit: real, from: real, to: real)
    requires Legal(w, steps) && StaysSettled(w, steps, r, fans, limit) && TimelyRun(w, steps, r, fans, from, to)
    requires Converging(w, r, fans, limit, fans) && BucketsBy(w, r, fans, to)
    ensures Converging(After(w, steps), r, fans, limit, fans) && BucketsBy(After(w, steps), r, fans, to)
  {
    hide Enabled, Next, Converging, BucketsBy, Timely, Settled;
    if steps != [] {
      var n := |steps| - 1;
      RunStays(w, steps[..n], r, fans, limit, from, to);
      ServedStays(After(w, steps[..n]), steps[n], r, fans, limit, from, to);
      BucketsStay(After(w, steps[..n]), steps[n], r, fans, limit, from, to);
    }
  }

  lemma FansHold(w: World, r: int, fans: set<string>, at: real, id: string)
    requires BucketsBy(w, r, fans, at) && id in fans
    ensures r in Held(w, id) && Sound(Held(w, id)[r]) && Held(w, id)[r].last <= at
  {
  }

  /** What a client admits along the run comes out of its purse. */
  lemma {:induction false} WindowPays(
    w: World, steps: seq<Step>, r: int, fans: set<string>, limit: real, from: real, to: real, id: string)
    requires Legal(w, steps) && StaysSettled(w, steps, r, fans, limit) && TimelyRun(w, steps, r, fans, from, to)
    requires Converging(w, r, fans, limit, fans) && BucketsBy(w, r, fans, to) && id in fans
    ensures var v := After(w, steps);
            && r in Held(v, id) && r in Held(w, id)
            && Purse(Held(v, id)[r], from, to) + FleetAdmitted(w, steps, r, {id}) <= Purse(Held(w, id)[r], from, to)
  {
    hide Enabled, Next, Converging, BucketsBy, Timely, Charge, Settled, Purse, Held;
    if steps == [] {
      FansHold(w, r, fans, to, id);
    } else {
      var n := |steps| - 1;
      var v := After(w, steps[..n]);
      WindowPays(w, steps[..n], r, fans, limit, from, to, id);
      RunStays(w, steps[..n], r, fans, limit, from, to);
      StepPays(v, steps[n], r, fans, limit, from, to, id);
    }
  }

  // The whole fleet.

  /** The tokens of a client's bucket when the window opens. */
  function Level(w: World, id: string, r: int, from: real): real {
    if r in Held(w, id) then Refill(Held(w, id)[r], from).tokens else 0.0
  }

  function LevelBy(w: World, r: int, from: real): string -> real {
    (id: string) => Level(w, id, r, from)
  }

  function BurstBy(w: World, r: int): string -> real {
    (id: string) => if r in Held(w, id) then Held(w, id)[r].burst else 0.0
  }

  lemma LevelWithinBurst(b: Bucket, from: real)
    requires Sound(b)
    ensures Refill(b, from).tokens <= b.burst
  {
  }

  lemma LevelsWithinBursts(w: World, r: int, fans: set<string>, from: real)
    requires BucketsBy(w, r, fans, from)
    ensures Total(fans, LevelBy(w, r, from)) <= Total(fans, BurstBy(w, r))
  {
    hide Refill, Total;
    forall id | id in fans
      ensures LevelBy(w, r, from)(id) <= BurstBy(w, r)(id)
    {
      LevelWithinBurst(Held(w, id)[r], from);
    }
    TotalLess(fans, LevelBy(w, r, from), BurstBy(w, r));
  }

  lemma PurseIsPositive(b: Bucket, from: real, to: real)
    requires Sound(b) && b.last <= to && from <= to
    ensures Purse(b, from, to) >= 0.0
  {
    var c := Max(b.last, from);
    assert Sound(Refill(b, c));
    GainSign(b.rate, c, to);
    hide Gain, Refill;
  }

  /** A client's admissions in the window: its level at the opening and its share over the time. */
  lemma ClientObeys(
    w: World, steps: seq<Step>, r: int, fans: set<string>, limit: real, from: real, to: real, id: string)
    requires Legal(w, steps) && StaysSettled(w, steps, r, fans, limit) && TimelyRun(w, steps, r, fans, from, to)
    requires Converging(w, r, fans, limit, fans) && BucketsBy(w, r, fans, from) && from <= to && id in fans
    ensures FleetAdmitted(w, steps, r, {id}) <= Level(w, id, r, from) + Gain(Portion(limit, |fans|), from, to)
  {
    assert BucketsBy(w, r, fans, to);
    assert AtShare(w, id, r, Portion(limit, |fans|)) by { assert id in fans * fans; }
    hide Legal, After, StaysSettled, TimelyRun, Converging, FleetAdmitted, Refill, Gain, Portion;
    WindowPays(w, steps, r, fans, limit, from, to, id);
    RunStays(w, steps, r, fans, limit, from, to);
    PurseIsPositive(Held(After(w, steps), id)[r], from, to);
  }

  lemma EachObeys(
    w: World, steps: seq<Step>, r: int, fans: set<string>, limit: real, from: real, to: real)
    requires Legal(w, steps) && StaysSettled(w, steps, r, fans, limit) && TimelyRun(w, steps, r, fans, from, to)
    requires Converging(w, r, fans, limit, fans) && BucketsBy(w, r, fans, from) && from <= to
    ensures forall id | id in fans ::
              AdmittedBy(w, steps, r)(id) <= LevelBy(w, r, from)(id) + Gain(Portion(limit, |fans|), from, to)
  {
    hide Legal, After, StaysSettled, TimelyRun, Converging, Level, Gain, Portion, BucketsBy;
    forall id | id in fans
      ensures AdmittedBy(w, steps, r)(id) <= LevelBy(w, r, from)(id) + Gain(Portion(limit, |fans|), from, to)
    {
      ClientObeys(w, steps, r, fans, limit, from, to, id);
    }
  }

  lemma GainsAddUp(n: nat, limit: real, from: real, to: real)
    requires n > 0
    ensures Copies(n, Gain(Portion(limit, n), from, to)) == Gain(limit, from, to)
  {
    var share, d := Portion(limit, n), to - from;
    CopiesIsProduct(n, Gain(share, from, to));
    assert n as real * (d * share) == d * (n as real * share);
    assert n as real * share == limit;
  }

  /**
   * The rate of the whole fleet. From any state in which every interested client holds the fair share and nothing
   * unfair is in flight, as long as membership and limit stay the same and no interested client is stopped: between
   * the clock readings `from` and `to`, all interested clients together admit at most the tokens their buckets hold at
   * `from`, which their bursts cap, plus the limit times the time between.
   */
  lemma FleetObeysLimit(
    w: World, steps: seq<Step>, r: int, fans: set<string>, limit: real, from: real, to: real)
    requires Legal(w, steps) && StaysSettled(w, steps, r, fans, limit) && TimelyRun(w, steps, r, fans, from, to)
    requires Converging(w, r, fans, limit, fans) && BucketsBy(w, r, fans, from) && from <= to
    ensures FleetAdmitted(w, steps, r, fans) <= Total(fans, LevelBy(w, r, from)) + Gain(limit, from, to)
    ensures Total(fans, LevelBy(w, r, from)) <= Total(fans, BurstBy(w, r))
  {
    assert |fans| > 0 by { SomeFans(w, r, fans, limit); }
    hide Legal, After, StaysSettled, TimelyRun, Converging, FleetAdmitted, Level, Gain, Portion, Total, BucketsBy;
    var share := Gain(Portion(limit, |fans|), from, to);
    var even: string -> real := (id: string) => share;
    var sum: string -> real := (id: string) => LevelBy(w, r, from)(id) + even(id);
    EachObeys(w, steps, r, fans, limit, from, to);
    AdmittedSplits(w, steps, r, fans);
    TotalLess(fans, AdmittedBy(w, steps, r), sum);
    TotalSum(fans, LevelBy(w, r, from), even, sum);
    TotalUniform(fans, fans, even, share);
    GainsAddUp(|fans|, limit, from, to);
    LevelsWithinBursts(w, r, fans, from);
  }

  lemma SomeFans(w: World, r: int, fans: set<string>, limit: real)
    requires Converging(w, r, fans, limit, fans)
    ensures |fans| > 0
  {
  }

  /** By time `at` the fans' clocks had not been read for this resource any later. */
  ghost predicate ReadBy(w: World, r: int, fans: set<string>, at: real) {
    forall id | id in fans && r in Held(w, id) :: Held(w, id)[r].last <= at
  }

  /**
   * Settling and then obeying, in any reachable state with nothing in flight to the interested clients: after a first
   * run in which each of them receives a response, any second run between two clock readings obeys the limit.
   */
  lemma FleetAfterConvergence(
    timeout: real, now: real, past: seq<Step>, first: seq<Step>, second: seq<Step>,
    r: int, fans: set<string>, limit: real, from: real, to: real)
    requires Legal(Start(timeout, now), past)
    requires var w := After(Start(timeout, now), past);
             && NothingInFlight(w, fans) && fans != {}
             && Legal(w, first) && StaysSettled(w, first, r, fans, limit) && fans <= Served(w, first)
    requires var v := After(After(Start(timeout, now), past), first);
             && Legal(v, second) && StaysSettled(v, second, r, fans, limit) && TimelyRun(v, second, r, fans, from, to)
             && ReadBy(v, r, fans, from) && from <= to
    ensures var v := After(After(Start(timeout, now), past), first);
            && FleetAdmitted(v, second, r, fans) <= Total(fans, LevelBy(v, r, from)) + Gain(limit, from, to)
            && Total(fans, LevelBy(v, r, from)) <= Total(fans, BurstBy(v, r))
  {
    var w := After(Start(timeout, now), past);
    var v := After(w, first);
    RegistryConsistent(timeout, now, past);
    RunKeeps(w, first);
    RunKeepsSound(Start(timeout, now), past);
    RunKeepsSound(w, first);
    assert limit >= 0.0 by { LimitIsFit(w, first, r, fans, limit); }
    hide Legal, After, StaysSettled, Start, NothingInFlight, Served, TimelyRun, Gain, Level, LevelBy;
    StartsConverging(w, first, r, fans, limit);
    SettledRunConverges(w, first, r, fans, limit);
    assert Served(w, first) * fans == fans * fans;
    assert Converging(v, r, fans, limit, fans);
    AllHeld(v, r, fans, limit, from);
    FleetObeysLimit(v, second, r, fans, limit, from, to);
  }

  lemma LimitIsFit(w: World, steps: seq<Step>, r: int, fans: set<string>, limit: real)
    requires Legal(w, steps) && StaysSettled(w, steps, r, fans, limit) && LimitsFit(After(w, steps))
    ensures limit >= 0.0
  {
  }

  lemma AllHeld(w: World, r: int, fans: set<string>, limit: real, at: real)
    requires Converging(w, r, fans, limit, fans) && SoundClients(w) && ReadBy(w, r, fans, at)
    ensures BucketsBy(w, r, fans, at)
  {
    hide IndexAgrees, Settled, Fair, Portion;
    forall id | id in fans
      ensures r in Held(w, id) && Sound(Held(w, id)[r]) && Held(w, id)[r].last <= at
    {
      assert id in fans * fans && AtShare(w, id, r, Portion(limit, |fans|));
    }
  }
}
