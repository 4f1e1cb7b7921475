/**
 * What the whole fleet can admit while clients are still arriving: the harmonic bound, seen from the requests.
 */
module FleetOvershoot {
  import opened Numbers
  import opened Buckets
  import opened ClientRuntime
  import opened System
  import opened Overshoot
  import opened FleetRate

  // The clients' clocks.

  /** The latest clock reading of a client, or `from` before its first. */
  ghost function ClockOf(w: World, steps: seq<Step>, id: string, from: real): real
    requires Legal(w, steps)
  {
    if steps == [] then from else
      var n := |steps| - 1;
      var touch := Touched(After(w, steps[..n]), steps[n]);
      if touch.Somebody? && touch.id == id then touch.at else ClockOf(w, steps[..n], id, from)
  }

  /** No client's clock goes backwards, and none is read before `from` or after `to`. */
  ghost predicate Clocked(w: World, steps: seq<Step>, from: real, to: real)
    requires Legal(w, steps)
  {
    steps == [] ||
    (var n := |steps| - 1;
     var touch := Touched(After(w, steps[..n]), steps[n]);
     && Clocked(w, steps[..n], from, to)
     && (touch.Somebody? ==> ClockOf(w, steps[..n], touch.id, from) <= touch.at <= to))
  }

  lemma {:induction false} ClockBounds(w: World, steps: seq<Step>, id: string, from: real, to: real)
    requires Legal(w, steps) && Clocked(w, steps, from, to) && from <= to
    ensures ClockOf(w, steps, id, from) <= to
  {
    if steps != [] {
      hide Next, Enabled;
      ClockBounds(w, steps[..|steps| - 1], id, from, to);
    }
  }

  // One client, whose rate never exceeds a cap.

  /** The burst of a bucket that one step creates for r at the client. */
  function Creation(w: World, step: Step, r: int, id: string): real {
    match step
    case Deliver(t, _) =>
      if t in w.threads && w.threads[t].Replying? && w.threads[t].id == id
         && r in w.threads[t].acc && r !in Held(w, id)
      then Max(0.0, w.threads[t].acc[r]) else 0.0
    case _ => 0.0
  }

  /** The bursts of all buckets a run creates for r at the client. */
  ghost function Created(w: World, steps: seq<Step>, r: int, id: string): real
    requires Legal(w, steps)
  {
    if steps == [] then 0.0 else
      var n := |steps| - 1;
      Created(w, steps[..n], r, id) + Creation(After(w, steps[..n]), steps[n], r, id)
  }

  /** What the client could still admit by time `to`, earning at the cap. */
  function Reserve(bs: BucketMap, r: int, cap: real, clock: real, to: real): real {
    if r in bs then bs[r].tokens + Gain(cap, bs[r].last, to) else Gain(cap, clock, to)
  }

  ghost predicate Within(bs: BucketMap, r: int, cap: real, clock: real) {
    r in bs ==> Sound(bs[r]) && bs[r].last <= clock && bs[r].rate <= cap
  }

  lemma GainOrder(small: real, large: real, from: real, to: real)
    requires small <= large && from <= to
    ensures Gain(small, from, to) <= Gain(large, from, to)
  {
    ProductSign(to - from, large - small);
    Distribute(to - from, large - small, small);
  }

  lemma GainGrows(small: real, cap: real, from: real, at: real, to: real)
    requires 0.0 <= small <= cap && from <= at <= to
    ensures Gain(small, from, at) + Gain(cap, at, to) <= Gain(cap, from, to)
    ensures Gain(small, from, at) >= 0.0 && Gain(cap, at, to) >= 0.0
  {
    hide Gain;
    GainSign(small, from, at);
    GainSign(cap, at, to);
    GainOrder(small, cap, from, at);
    GainJoins(cap, from, at, to);
  }

  lemma UseReserves(bs: BucketMap, q: Request, at: real, r: int, cap: real, clock: real, to: real)
    requires Within(bs, r, cap, clock) && clock <= at <= to && cap >= 0.0
    ensures var (after, ok) := TryTake(bs, q, at);
            && Within(after, r, cap, at)
            && Reserve(after, r, cap, at, to) + (if ok && q.resource == r then Max(0.0, q.count) else 0.0)
               <= Reserve(bs, r, cap, clock, to)
  {
    if r in bs {
      GainGrows(bs[r].rate, cap, bs[r].last, at, to);
    } else {
      GainGrows(0.0, cap, clock, at, to);
    }
  }

  lemma DeliveryReserves(bs: BucketMap, acc: map<int, real>, at: real, r: int, cap: real, clock: real, to: real)
    requires Within(bs, r, cap, clock) && clock <= at <= to && (r in acc ==> Max(0.0, acc[r]) <= cap) && cap >= 0.0
    ensures var after := Reconcile(bs, acc, at);
            && Within(after, r, cap, at)
            && Reserve(after, r, cap, at, to)
               <= Reserve(bs, r, cap, clock, to) + if r in acc && r !in bs then Max(0.0, acc[r]) else 0.0
  {
    if r in bs {
      GainGrows(bs[r].rate, cap, bs[r].last, at, to);
    } else {
      GainGrows(0.0, cap, clock, at, to);
    }
  }

  lemma ResetReserves(bs: BucketMap, r: int, cap: real, clock: real, to: real)
    requires Within(bs, r, cap, clock) && clock <= to && cap >= 0.0
    ensures 0.0 <= Gain(cap, clock, to) <= Reserve(bs, r, cap, clock, to)
  {
    if r in bs {
      GainGrows(0.0, cap, bs[r].last, clock, to);
    } else {
      GainGrows(0.0, cap, clock, clock, to);
    }
  }

  lemma StepReserves(w: World, step: Step, r: int, id: string, cap: real, clock: real, later: real, to: real)
    requires Enabled(w, step) && Within(Held(w, id), r, cap, clock) && clock <= later <= to && cap >= 0.0
    requires var touch := Touched(w, step);
             later == if touch.Somebody? && touch.id == id then touch.at else clock
    requires RateOf(Next(w, step), id, r) <= cap
    ensures Within(Held(Next(w, step), id), r, cap, later)
    ensures Reserve(Held(Next(w, step), id), r, cap, later, to) + Charge(w, step, r, {id})
            <= Reserve(Held(w, id), r, cap, clock, to) + Creation(w, step, r, id)
  {
    hide RegAfter, ThreadAfter, Looked, TryTake, Reconcile, Gain, Reserve, Within;
    match step {
      case Use(x, q, at) =>
        if x == id {
          UseReserves(Held(w, id), q, at, r, cap, clock, to);
        }
      case Deliver(t, at) =>
        if w.threads[t].id == id {
          DeliveredRate(Held(w, id), w.threads[t].acc, at, r);
          DeliveryReserves(Held(w, id), w.threads[t].acc, at, r, cap, clock, to);
        }
      case Reset(x) =>
        if x == id {
          ResetReserves(Held(w, id), r, cap, clock, to);
          assert Within(map[], r, cap, later) && Reserve(map[], r, cap, later, to) == Gain(cap, later, to) by {
            NoBucket(r, cap, later, to);
          }
        }
      case _ =>
    }
  }

  lemma NoBucket(r: int, cap: real, clock: real, to: real)
    ensures Within(map[], r, cap, clock) && Reserve(map[], r, cap, clock, to) == Gain(cap, clock, to)
  {
  }

  /** Along the whole run no client's rate exceeds its cap. */
  ghost predicate RatesBelow(w: World, steps: seq<Step>, r: int, cap: string -> real)
    requires Legal(w, steps)
  {
    && (forall id :: RateOf(After(w, steps), id, r) <= cap(id))
    && (steps == [] || RatesBelow(w, steps[..|steps| - 1], r, cap))
  }

  ghost predicate NoClients(w: World) {
    w.clients == map[]
  }

  lemma {:induction false} RunReserves(
    w: World, steps: seq<Step>, r: int, id: string, cap: string -> real, from: real, to: real)
    requires Legal(w, steps) && Clocked(w, steps, from, to) && from <= to
    requires NoClients(w) && RatesBelow(w, steps, r, cap) && cap(id) >= 0.0
    ensures var v, clock := After(w, steps), ClockOf(w, steps, id, from);
            && Within(Held(v, id), r, cap(id), clock)
            && Reserve(Held(v, id), r, cap(id), clock, to) + FleetAdmitted(w, steps, r, {id})
               <= Gain(cap(id), from, to) + Created(w, steps, r, id)
  {
    if steps == [] {
      NoBucket(r, cap(id), from, to);
    } else {
      hide Enabled, Next, Within, Reserve, Gain, Charge, Creation, Held;
      var n := |steps| - 1;
      RunReserves(w, steps[..n], r, id, cap, from, to);
      ClockBounds(w, steps, id, from, to);
      StepReserves(After(w, steps[..n]), steps[n], r, id, cap(id), ClockOf(w, steps[..n], id, from),
                   ClockOf(w, steps, id, from), to);
    }
  }

  /** One client's admissions, over the whole run. */
  lemma ClientAdmits(
    w: World, steps: seq<Step>, r: int, id: string, cap: string -> real, from: real, to: real)
    requires Legal(w, steps) && Clocked(w, steps, from, to) && from <= to
    requires NoClients(w) && RatesBelow(w, steps, r, cap) && cap(id) >= 0.0
    ensures FleetAdmitted(w, steps, r, {id}) <= Created(w, steps, r, id) + Gain(cap(id), from, to)
  {
    RunReserves(w, steps, r, id, cap, from, to);
    ClockBounds(w, steps, id, from, to);
    hide Legal, After, Clocked, ClockOf, RatesBelow, FleetAdmitted, Created;
    ResetReserves(Held(After(w, steps), id), r, cap(id), ClockOf(w, steps, id, from), to);
  }

  // All clients together.

  ghost function CreatedBy(w: World, steps: seq<Step>, r: int): string -> real
    requires Legal(w, steps)
  {
    (id: string) => Created(w, steps, r, id)
  }

  function GainBy(cap: string -> real, from: real, to: real): string -> real {
    (id: string) => Gain(cap(id), from, to)
  }

  lemma {:induction false} GainsSumUp(ids: set<string>, cap: string -> real, from: real, to: real)
    ensures Total(ids, GainBy(cap, from, to)) == Gain(Total(ids, cap), from, to)
    decreases |ids|
  {
    if ids != {} {
      var x :| x in ids;
      TotalPick(ids, cap, x);
      TotalPick(ids, GainBy(cap, from, to), x);
      GainsSumUp(ids - {x}, cap, from, to);
      Distribute(to - from, cap(x), Total(ids - {x}, cap));
    }
  }

  /** Whatever the caps are. */
  lemma CappedFleetAdmits(
    w: World, steps: seq<Step>, r: int, ids: set<string>, cap: string -> real, from: real, to: real)
    requires Legal(w, steps) && Clocked(w, steps, from, to) && from <= to
    requires NoClients(w) && RatesBelow(w, steps, r, cap) && forall id :: cap(id) >= 0.0
    ensures FleetAdmitted(w, steps, r, ids) <= Total(ids, CreatedBy(w, steps, r)) + Gain(Total(ids, cap), from, to)
  {
    forall id | id in ids
      ensures AdmittedBy(w, steps, r)(id) <= CreatedBy(w, steps, r)(id) + GainBy(cap, from, to)(id)
    {
      ClientAdmits(w, steps, r, id, cap, from, to);
    }
    AdmittedSplits(w, steps, r, ids);
    hide Legal, After, Clocked, RatesBelow, FleetAdmitted, Created, Gain, Total;
    var sum: string -> real := (id: string) => CreatedBy(w, steps, r)(id) + GainBy(cap, from, to)(id);
    TotalLess(ids, AdmittedBy(w, steps, r), sum);
    TotalSum(ids, CreatedBy(w, steps, r), GainBy(cap, from, to), sum);
    GainsSumUp(ids, cap, from, to);
  }

  // The caps of a growing run.

  function CapBy(order: seq<string>, limit: real): string -> real {
    (id: string) => Cap(order, id, limit)
  }

  lemma {:induction false} RatesBelowLater(
    w: World, steps: seq<Step>, r: int, order: seq<string>, later: seq<string>, limit: real)
    requires Legal(w, steps) && RatesBelow(w, steps, r, CapBy(order, limit)) && CapsRise(order, later, limit)
    ensures RatesBelow(w, steps, r, CapBy(later, limit))
  {
    hide Next, Enabled, Cap, RateOf;
    forall id
      ensures RateOf(After(w, steps), id, r) <= CapBy(later, limit)(id)
    {
      assert RateOf(After(w, steps), id, r) <= CapBy(order, limit)(id);
      assert Cap(order, id, limit) <= Cap(later, id, limit);
    }
    if steps != [] {
      RatesBelowLater(w, steps[..|steps| - 1], r, order, later, limit);
    }
  }

  /** The caps at the end of a growing run bound every rate along the run. */
  lemma {:induction false} CapsBoundHistory(w: World, steps: seq<Step>, r: int, limit: real)
    returns (order: seq<string>)
    requires Legal(w, steps) && Growing(w, steps, r, limit) && Tame(w, r, [], limit) && limit >= 0.0
    ensures Tame(After(w, steps), r, order, limit) && RatesBelow(w, steps, r, CapBy(order, limit))
  {
    if steps == [] {
      order := [];
      TameRates(w, r, order, limit);
    } else {
      hide Tame, Enabled, Next, Fans, LimitAtMost, CapsRise, Cap;
      var n := |steps| - 1;
      var before := CapsBoundHistory(w, steps[..n], r, limit);
      order := StepStaysTame(After(w, steps[..n]), steps[n], r, before, limit);
      RatesBelowLater(w, steps[..n], r, before, order, limit);
      TameRates(After(w, steps), r, order, limit);
    }
  }

  lemma TameRates(w: World, r: int, order: seq<string>, limit: real)
    requires Tame(w, r, order, limit)
    ensures forall id :: RateOf(w, id, r) <= CapBy(order, limit)(id)
  {
  }

  lemma CapsArePositive(order: seq<string>, limit: real)
    requires limit >= 0.0
    ensures forall id :: CapBy(order, limit)(id) >= 0.0
  {
    forall id
      ensures CapBy(order, limit)(id) >= 0.0
    {
      CapIsLarge(order, id, limit);
    }
  }

  lemma CapsAreHarmonic(w: World, r: int, ids: set<string>, order: seq<string>, limit: real)
    requires Tame(w, r, order, limit) && limit >= 0.0
    ensures Total(ids, CapBy(order, limit)) <= Peak(limit, |Fans(w, r)|)
  {
    ListsSize(order, Fans(w, r));
    assert Capped(ids, CapBy(order, limit), order, limit);
    hide Cap, Lists, Harmonic, Tame, Capped, CapBy, Total, Stack, Fans;
    CapsSumUp(ids, CapBy(order, limit), order, limit);
    StackIsHarmonic(limit, |order|);
  }

  lemma TameFleetAdmits(
    w: World, steps: seq<Step>, r: int, limit: real, ids: set<string>, order: seq<string>, from: real, to: real)
    requires limit >= 0.0 && Legal(w, steps) && NoClients(w)
    requires Tame(After(w, steps), r, order, limit) && RatesBelow(w, steps, r, CapBy(order, limit))
    requires Clocked(w, steps, from, to) && from <= to
    ensures FleetAdmitted(w, steps, r, ids)
            <= Total(ids, CreatedBy(w, steps, r)) + Gain(Peak(limit, |Fans(After(w, steps), r)|), from, to)
  {
    CapsAreHarmonic(After(w, steps), r, ids, order, limit);
    CapsArePositive(order, limit);
    hide *;
    CappedFleetAdmits(w, steps, r, ids, CapBy(order, limit), from, to);
    GainOrder(Total(ids, CapBy(order, limit)), Peak(limit, |Fans(After(w, steps), r)|), from, to);
  }

  /**
   * What a growing fleet can admit. From the moment the server is set up, along any run in which nobody loses interest
   * in the resource and its limit stays at most `limit`, with responses lost, delayed or reordered in any way: between
   * the clock readings `from` and `to` any clients together admit at most the bursts of the buckets created for them
   * plus limit * (1 + 1/2 + ... + 1/n) times the time between, for n interested clients.
   */
  lemma {:induction false} GrowingFleetAdmits(
    timeout: real, now: real, steps: seq<Step>, r: int, limit: real, ids: set<string>, from: real, to: real)
    requires limit >= 0.0 && Legal(Start(timeout, now), steps) && Growing(Start(timeout, now), steps, r, limit)
    requires Clocked(Start(timeout, now), steps, from, to) && from <= to
    ensures var w := Start(timeout, now);
            FleetAdmitted(w, steps, r, ids)
            <= Total(ids, CreatedBy(w, steps, r)) + Gain(Peak(limit, |Fans(After(w, steps), r)|), from, to)
  {
    var w := Start(timeout, now);
    StartIsTame(timeout, now, r, limit);
    assert NoClients(w);
    hide *;
    var order := CapsBoundHistory(w, steps, r, limit);
    TameFleetAdmits(w, steps, r, limit, ids, order, from, to);
  }
}
