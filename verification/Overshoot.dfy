/**
 * The transient overshoot: while clients only become interested, the rates held by all clients never sum to more than
 * the limit times a harmonic number.
 */
module Overshoot {
  import opened Numbers
  import opened Registry
  import opened RegistryLaws
  import opened Shares
  import opened ClientRuntime
  import opened System

  function RateOf(w: World, id: string, r: int): real {
    if id in w.clients && r in w.clients[id] then w.clients[id][r].rate else 0.0
  }

  function RateBy(w: World, r: int): string -> real {
    (id: string) => RateOf(w, id, r)
  }

  /** The sum of the rates all clients hold for the resource. */
  ghost function HeldTotal(w: World, r: int): real {
    Total(w.clients.Keys, RateBy(w, r))
  }

  ghost function Fans(w: World, r: int): set<string> {
    Interested(w.reg.clients, r)
  }

  // The clients interested so far, in order of arrival.

  ghost predicate Lists(order: seq<string>, ids: set<string>) {
    if order == [] then ids == {} else
      order[|order| - 1] in ids && Lists(order[..|order| - 1], ids - {order[|order| - 1]})
  }

  lemma {:induction false} ListsSize(order: seq<string>, ids: set<string>)
    requires Lists(order, ids)
    ensures |order| == |ids|
  {
    if order != [] {
      ListsSize(order[..|order| - 1], ids - {order[|order| - 1]});
    }
  }

  /** The largest share a client can have been told: the one of the moment it arrived. */
  function Cap(order: seq<string>, id: string, limit: real): real {
    if order == [] then 0.0
    else if order[|order| - 1] == id then Portion(limit, |order|)
    else Cap(order[..|order| - 1], id, limit)
  }

  lemma PortionShrinks(limit: real, m: nat, n: nat)
    requires limit >= 0.0 && 0 < m <= n
    ensures 0.0 <= Portion(limit, n) <= Portion(limit, m)
  {
    var p, q := Portion(limit, m), Portion(limit, n);
    assert p * m as real == limit == q * n as real;
    if q < 0.0 {
      ProductSign(-q, n as real);
    } else if q > p {
      var k := (n - m) as real;
      assert n as real == m as real + k;
      Distribute(q, m as real, k);
      ProductSign(q, k);
      ProductLess(p, q, m as real);
    }
  }

  lemma PortionGrows(small: real, limit: real, n: nat)
    requires small <= limit && n > 0
    ensures Portion(small, n) <= Portion(limit, n)
  {
    var p, q := Portion(small, n), Portion(limit, n);
    assert p * n as real == small && q * n as real == limit;
    if p > q {
      ProductLess(q, p, n as real);
    }
  }

  lemma {:induction false} CapIsLarge(order: seq<string>, id: string, limit: real)
    requires limit >= 0.0
    ensures Cap(order, id, limit) >= 0.0
    ensures id in order ==> Cap(order, id, limit) >= Portion(limit, |order|)
  {
    if order != [] {
      var front := order[..|order| - 1];
      assert order == front + [order[|order| - 1]];
      PortionShrinks(limit, |order|, |order|);
      CapIsLarge(front, id, limit);
      if id in front {
        PortionShrinks(limit, |front|, |order|);
      }
    }
  }

  lemma {:induction false} ListsElements(order: seq<string>, ids: set<string>, id: string)
    requires Lists(order, ids)
    ensures id in order <==> id in ids
  {
    if order != [] {
      ListsElements(order[..|order| - 1], ids - {order[|order| - 1]}, id);
      assert order == order[..|order| - 1] + [order[|order| - 1]];
    }
  }

  /** A newcomer leaves the caps of the others alone. */
  lemma CapAfter(order: seq<string>, ids: set<string>, x: string, id: string, limit: real)
    requires Lists(order, ids) && x !in ids && limit >= 0.0
    ensures Lists(order + [x], ids + {x})
    ensures Cap(order, id, limit) <= Cap(order + [x], id, limit)
  {
    assert (order + [x])[..|order|] == order && ids + {x} - {x} == ids;
    if id == x {
      CapIsZero(order, ids, x, limit);
      PortionShrinks(limit, |order| + 1, |order| + 1);
    }
  }

  lemma {:induction false} CapIsZero(order: seq<string>, ids: set<string>, id: string, limit: real)
    requires Lists(order, ids) && id !in ids
    ensures Cap(order, id, limit) == 0.0
  {
    if order != [] {
      CapIsZero(order[..|order| - 1], ids - {order[|order| - 1]}, id, limit);
    }
  }

  // The invariant.

  /** A thread that carries a share for r, or the limit it is about to divide, carries nothing too large. */
  ghost predicate Modest(thread: Thread, r: int, order: seq<string>, limit: real) {
    match thread
    case Sharing(id, _, acc) => r in acc ==> acc[r] <= Cap(order, id, limit)
    case Dividing(id, _, acc, x, l, _) =>
      (r in acc ==> acc[r] <= Cap(order, id, limit)) && (x == r ==> l <= limit)
    case Replying(id, acc) => r in acc ==> acc[r] <= Cap(order, id, limit)
    case _ => true
  }

  ghost predicate AllModest(w: World, r: int, order: seq<string>, limit: real) {
    && (forall t | t in w.threads :: Modest(w.threads[t], r, order, limit))
    && (forall id :: RateOf(w, id, r) <= Cap(order, id, limit))
  }

  ghost predicate LimitAtMost(w: World, r: int, limit: real) {
    r in w.limits ==> w.limits[r] <= limit
  }

  ghost predicate Tame(w: World, r: int, order: seq<string>, limit: real) {
    && Lists(order, Fans(w, r)) && AllModest(w, r, order, limit)
    && LimitAtMost(w, r, limit) && IndexAgrees(w.reg.clients, w.reg.index)
  }

  lemma ShareIsModest(w: World, id: string, r: int, order: seq<string>, l: real, limit: real)
    requires IndexAgrees(w.reg.clients, w.reg.index) && Lists(order, Fans(w, r)) && l <= limit && limit >= 0.0
    ensures ShareNow(w.reg, id, r, l) <= Cap(order, id, limit)
  {
    ListedIsInterested(w.reg, r);
    ListsElements(order, Fans(w, r), id);
    ListsSize(order, Fans(w, r));
    CapIsLarge(order, id, limit);
    if id in Fans(w, r) {
      PortionGrows(l, limit, |order|);
    }
  }

  lemma ThreadStaysModest(w: World, thread: Thread, r: int, order: seq<string>, limit: real)
    requires Lists(order, Fans(w, r)) && IndexAgrees(w.reg.clients, w.reg.index) && limit >= 0.0
    requires Modest(thread, r, order, limit)
    ensures ThreadAfter(w, thread).Some? ==> Modest(ThreadAfter(w, thread).value, r, order, limit)
  {
    if thread.Dividing? && thread.r == r {
      ShareIsModest(w, thread.id, r, order, thread.limit, limit);
    }
    hide ShareNow, Cap, IndexAgrees, Lists;
  }

  lemma LookupIsModest(w: World, thread: Thread, x: int, r: int, order: seq<string>, limit: real)
    requires thread.Sharing? && LimitAtMost(w, r, limit) && limit >= 0.0 && Modest(thread, r, order, limit)
    ensures Modest(Looked(w, thread, x), r, order, limit)
  {
    CapIsLarge(order, thread.id, limit);
  }

  lemma DeliveredRate(bs: BucketMap, acc: map<int, real>, at: real, r: int)
    ensures var after := Reconcile(bs, acc, at);
            if r in acc then r in after && after[r].rate == Max(0.0, acc[r]) else r !in after
  {
  }

  lemma UsedRate(bs: BucketMap, q: Request, at: real, r: int)
    ensures var after := TryTake(bs, q, at).0;
            after.Keys == bs.Keys && (r in bs ==> after[r].rate == bs[r].rate)
  {
  }

  /** With the order of arrival unchanged, a step keeps everything modest. */
  lemma StepStaysModest(w: World, step: Step, r: int, order: seq<string>, limit: real)
    requires Enabled(w, step) && Tame(w, r, order, limit) && limit >= 0.0
    ensures AllModest(Next(w, step), r, order, limit)
  {
    hide Cap, Lists, IndexAgrees, RegAfter, ThreadAfter, Looked, Reconcile, TryTake, LimitAtMost;
    match step {
      case Go(t) =>
        var thread := w.threads[t];
        ThreadStaysModest(w, thread, r, order, limit);
        hide Modest;
        forall id
          ensures RateOf(Next(w, step), id, r) == RateOf(w, id, r)
        {
        }
      case Divide(t, x) =>
        LookupIsModest(w, w.threads[t], x, r, order, limit);
        hide Modest;
        forall id
          ensures RateOf(Next(w, step), id, r) == RateOf(w, id, r)
        {
        }
      case Deliver(t, at) =>
        var reply := w.threads[t];
        assert Modest(reply, r, order, limit);
        DeliveredRate(Held(w, reply.id), reply.acc, at, r);
        forall id
          ensures RateOf(Next(w, step), id, r) <= Cap(order, id, limit)
        {
          CapIsLarge(order, id, limit);
        }
      case Use(x, q, at) =>
        UsedRate(Held(w, x), q, at, r);
        hide Modest;
        forall id
          ensures RateOf(Next(w, step), id, r) == RateOf(w, id, r)
        {
        }
      case Reset(x) =>
        hide Modest;
        forall id
          ensures RateOf(Next(w, step), id, r) <= Cap(order, id, limit)
        {
          CapIsLarge(order, id, limit);
        }
      case _ =>
        forall id
          ensures RateOf(Next(w, step), id, r) == RateOf(w, id, r)
        {
        }
    }
  }

  /** A later order of arrival only raises the caps. */
  lemma NewcomerKeepsModest(w: World, r: int, order: seq<string>, ids: set<string>, x: string, limit: real)
    requires AllModest(w, r, order, limit) && Lists(order, ids) && x !in ids && limit >= 0.0
    ensures AllModest(w, r, order + [x], limit)
  {
    forall id
      ensures Cap(order, id, limit) <= Cap(order + [x], id, limit)
    {
      CapAfter(order, ids, x, id, limit);
    }
    hide Cap, Lists;
    forall t | t in w.threads
      ensures Modest(w.threads[t], r, order + [x], limit)
    {
      assert Modest(w.threads[t], r, order, limit);
    }
  }

  /** One step adds at most one client to those interested. */
  lemma OneNewcomer(w: World, step: Step, r: int) returns (x: string)
    requires Enabled(w, step)
    ensures Fans(Next(w, step), r) <= Fans(w, r) + {x}
  {
    x := "";
    if step.Go? {
      var thread := w.threads[step.t];
      ExpireClients(w.reg, w.now);
      assert Next(w, step).reg == RegAfter(w, thread);
      hide Expire, Next, Enabled, AddTo, DropFrom, IsStale;
      if thread.Beating? {
        x := thread.id;
      }
    }
  }

  ghost predicate CapsRise(order: seq<string>, later: seq<string>, limit: real) {
    forall id :: Cap(order, id, limit) <= Cap(later, id, limit)
  }

  lemma NewcomerRaisesCaps(order: seq<string>, ids: set<string>, x: string, limit: real)
    requires Lists(order, ids) && x !in ids && limit >= 0.0
    ensures CapsRise(order, order + [x], limit)
  {
    forall id
      ensures Cap(order, id, limit) <= Cap(order + [x], id, limit)
    {
      CapAfter(order, ids, x, id, limit);
    }
  }

  lemma StepStaysTame(w: World, step: Step, r: int, order: seq<string>, limit: real) returns (later: seq<string>)
    requires Enabled(w, step) && Tame(w, r, order, limit) && limit >= 0.0
    requires Fans(w, r) <= Fans(Next(w, step), r) && LimitAtMost(Next(w, step), r, limit)
    ensures Tame(Next(w, step), r, later, limit) && CapsRise(order, later, limit)
  {
    var v := Next(w, step);
    StepKeeps(w, step);
    StepStaysModest(w, step, r, order, limit);
    var x := OneNewcomer(w, step, r);
    hide Next, IndexAgrees, LimitAtMost, AllModest, Interested, Lists;
    if x in Fans(v, r) && x !in Fans(w, r) {
      NewcomerKeepsModest(v, r, order, Fans(w, r), x, limit);
      CapAfter(order, Fans(w, r), x, x, limit);
      assert Fans(v, r) == Fans(w, r) + {x};
      later := order + [x];
      NewcomerRaisesCaps(order, Fans(w, r), x, limit);
    } else {
      assert Fans(v, r) == Fans(w, r);
      later := order;
    }
  }

  /** Along the run nobody loses interest in r, and its limit is never above `limit`. */
  ghost predicate Growing(w: World, steps: seq<Step>, r: int, limit: real)
    requires Legal(w, steps)
  {
    && LimitAtMost(After(w, steps), r, limit)
    && (steps == [] ||
        (var front := steps[..|steps| - 1];
         Growing(w, front, r, limit) && Fans(After(w, front), r) <= Fans(After(w, steps), r)))
  }

  lemma {:induction false} GrowingStaysTame(w: World, steps: seq<Step>, r: int, limit: real)
    returns (order: seq<string>)
    requires Legal(w, steps) && Growing(w, steps, r, limit) && Tame(w, r, [], limit) && limit >= 0.0
    ensures Tame(After(w, steps), r, order, limit)
  {
    if steps == [] {
      order := [];
    } else {
      hide Tame, Enabled, Next, Fans, LimitAtMost;
      var n := |steps| - 1;
      order := GrowingStaysTame(w, steps[..n], r, limit);
      order := StepStaysTame(After(w, steps[..n]), steps[n], r, order, limit);
    }
  }

  // Summing the caps.

  ghost predicate Capped(ids: set<string>, f: string -> real, order: seq<string>, limit: real) {
    forall id | id in ids :: f(id) <= Cap(order, id, limit)
  }

  /** limit * (1 + 1/2 + ... + 1/n). */
  function Peak(limit: real, n: nat): real {
    limit * Harmonic(n)
  }

  /** limit/1 + limit/2 + ... + limit/n. */
  function Stack(limit: real, n: nat): real {
    if n == 0 then 0.0 else Stack(limit, n - 1) + Portion(limit, n)
  }

  lemma {:induction false} StackIsHarmonic(limit: real, n: nat)
    ensures Stack(limit, n) == Peak(limit, n)
  {
    if n > 0 {
      StackIsHarmonic(limit, n - 1);
      Distribute(limit, Harmonic(n - 1), 1.0 / n as real);
      assert limit * (1.0 / n as real) == limit / n as real;
    }
  }

  lemma {:induction false} CapsSumUp(ids: set<string>, f: string -> real, order: seq<string>, limit: real)
    requires limit >= 0.0 && Capped(ids, f, order, limit)
    ensures Total(ids, f) <= Stack(limit, |order|)
    decreases |order|
  {
    if order == [] {
      NoPositive(ids, f);
    } else {
      var n, x, front := |order|, order[|order| - 1], order[..|order| - 1];
      PortionShrinks(limit, n, n);
      assert Capped(ids - {x}, f, front, limit);
      assert x in ids ==> f(x) <= Portion(limit, n);
      hide Capped, Cap, Total, Portion;
      CapsSumUp(ids - {x}, f, front, limit);
      if x in ids {
        TotalPick(ids, f, x);
      } else {
        assert ids - {x} == ids;
      }
    }
  }

  lemma {:induction false} NoPositive(ids: set<string>, f: string -> real)
    requires forall id | id in ids :: f(id) <= 0.0
    ensures Total(ids, f) <= 0.0
    decreases |ids|
  {
    if ids != {} {
      var x :| x in ids;
      TotalPick(ids, f, x);
      NoPositive(ids - {x}, f);
    }
  }

  /**
   * The harmonic bound. From the moment the server is set up, along any run in which nobody loses interest in the
   * resource and its limit stays at most `limit`, with responses lost, delayed or reordered in any way, the rates held
   * by the clients sum to at most limit * (1 + 1/2 + ... + 1/n) for n interested clients.
   */
  lemma {:induction false} HarmonicBound(timeout: real, now: real, steps: seq<Step>, r: int, limit: real)
    requires limit >= 0.0 && Legal(Start(timeout, now), steps) && Growing(Start(timeout, now), steps, r, limit)
    ensures var w := After(Start(timeout, now), steps);
            HeldTotal(w, r) <= Peak(limit, |Fans(w, r)|)
  {
    StartIsTame(timeout, now, r, limit);
    hide Start, Tame, Growing;
    var order := GrowingStaysTame(Start(timeout, now), steps, r, limit);
    TameIsBounded(After(Start(timeout, now), steps), r, order, limit);
  }

  lemma StartIsTame(timeout: real, now: real, r: int, limit: real)
    ensures Tame(Start(timeout, now), r, [], limit)
  {
    RegistryConsistent(timeout, now, []);
  }

  lemma TameIsBounded(w: World, r: int, order: seq<string>, limit: real)
    requires Tame(w, r, order, limit) && limit >= 0.0
    ensures HeldTotal(w, r) <= Peak(limit, |Fans(w, r)|)
  {
    ListsSize(order, Fans(w, r));
    assert Capped(w.clients.Keys, RateBy(w, r), order, limit);
    hide Cap, Lists, Harmonic, Tame, Capped;
    CapsSumUp(w.clients.Keys, RateBy(w, r), order, limit);
    StackIsHarmonic(limit, |order|);
  }
}
