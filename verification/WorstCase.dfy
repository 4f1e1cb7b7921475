/** The harmonic bound is attained: clients that arrive one after another and hear nothing more reach it exactly. */
module WorstCase {
  import opened Numbers
  import opened Registry
  import opened RegistryLaws
  import opened Shares
  import opened ClientRuntime
  import opened HeartbeatHandler
  import opened System
  import opened Overshoot
  import opened HandlerRuns

  // Runs that lose no interest.

  lemma GrowingOn(w: World, steps: seq<Step>, step: Step, x: int, limit: real)
    requires Legal(w, steps) && Growing(w, steps, x, limit) && Enabled(After(w, steps), step)
    requires var v, next := After(w, steps), Next(After(w, steps), step);
             Fans(v, x) <= Fans(next, x) && LimitAtMost(next, x, limit)
    ensures Legal(w, steps + [step]) && Growing(w, steps + [step], x, limit)
    ensures After(w, steps + [step]) == Next(After(w, steps), step)
  {
    Extend(w, steps, step);
    hide Next, Enabled, Fans, LimitAtMost;
    assert (steps + [step])[..|steps|] == steps;
  }

  lemma NowGrowing(w: World, steps: seq<Step>, x: int, limit: real)
    requires Legal(w, steps) && Growing(w, steps, x, limit)
    ensures LimitAtMost(After(w, steps), x, limit)
  {
  }

  /** From one registry state to the next, nobody loses interest in x. */
  ghost predicate Rising(via: seq<State>, x: int) {
    |via| <= 1 ||
    (var n := |via| - 1;
     Rising(via[..n], x) && Interested(via[n - 1].clients, x) <= Interested(via[n].clients, x))
  }

  lemma {:induction false} VisitsGrow(
    w: World, from: seq<Step>, steps: seq<Step>, via: seq<State>, x: int, limit: real)
    requires Legal(w, from) && Legal(w, steps) && Visits(w, from, steps, via) && Rising(via, x)
    requires Growing(w, from, x, limit)
    ensures Growing(w, steps, x, limit)
    decreases |steps|
  {
    hide Next, Enabled, Interested;
    assert LimitAtMost(After(w, steps), x, limit) by { assert LimitAtMost(After(w, from), x, limit); }
    if |steps| > |from| {
      var front := steps[..|steps| - 1];
      if Visits(w, from, front, via) {
        VisitsGrow(w, from, front, via, x, limit);
      } else {
        VisitsGrow(w, from, front, via[..|via| - 1], x, limit);
      }
    }
  }

  lemma RisingOn(via: seq<State>, s: State, x: int)
    requires Rising(via, x) && via != [] && Interested(via[|via| - 1].clients, x) <= Interested(s.clients, x)
    ensures Rising(via + [s], x)
  {
    hide Interested;
    assert (via + [s])[..|via|] == via;
  }

  // The arrivals.

  ghost predicate AllAlike(clients: Clients, info: Info, n: nat) {
    forall id | id in clients :: clients[id] == info && |id| <= n
  }

  function Newcomer(n: nat): (id: string)
    ensures |id| == n + 1
  {
    seq(n + 1, _ => 'c')
  }

  /** The k-th newcomer holds what it was told when it was one of k. */
  ghost predicate Told(v: World, n: nat, r: int, limit: real) {
    forall k: nat | k < n :: Newcomer(k) in v.clients && RateOf(v, Newcomer(k), r) == Portion(limit, k + 1)
  }

  /** n clients have arrived at one instant, each interested in r only and heard once. */
  ghost predicate Arrived(v: World, n: nat, r: int, limit: real) {
    && v.threads == map[] && v.limits == map[r := limit] && v.reg.timeout >= 0.0
    && IndexAgrees(v.reg.clients, v.reg.index)
    && AllAlike(v.reg.clients, Info(v.now, {r}), n)
    && v.clients.Keys == v.reg.clients.Keys && |v.clients.Keys| == n
    && Told(v, n, r, limit) && HeldTotal(v, r) == Stack(limit, n)
  }

  lemma NobodyStale(reg: State, now: real)
    requires reg.timeout >= 0.0 && forall id | id in reg.clients :: reg.clients[id].last == now
    ensures Expire(reg, now) == reg && NotStale(reg.clients, reg.timeout, now) == reg.clients
  {
    assert StaleIds(reg, now) == {};
    NothingStale(reg, now, reg.clients.Keys);
  }

  /** The newcomer has registered and has no interests yet. */
  ghost predicate Registered(v: World, u: World, id: string) {
    && u == v.(reg := u.reg) && u.reg.timeout == v.reg.timeout
    && u.reg.clients == v.reg.clients[id := Info(v.now, {})]
    && IndexAgrees(u.reg.clients, u.reg.index)
  }

  /** Joining expires nobody and takes no interest away. */
  lemma Joining(v: World, n: nat, r: int, limit: real)
    requires Arrived(v, n, r, limit)
    ensures var id := Newcomer(n);
            var joined := Join(v.reg, id, v.now);
            && id != "" && id !in v.clients && Expire(v.reg, v.now) == v.reg
            && Registered(v, v.(reg := joined), id) && Fans(v, r) <= Interested(joined.clients, r)
  {
    NobodyStale(v.reg, v.now);
    JoinKeepsIndex(v.reg, Newcomer(n), v.now);
    hide IndexAgrees, Expire, HeldTotal;
  }

  lemma Register(w: World, steps: seq<Step>, n: nat, r: int, limit: real) returns (more: seq<Step>)
    requires Legal(w, steps) && Growing(w, steps, r, limit) && Arrived(After(w, steps), n, r, limit)
    ensures Legal(w, more) && Growing(w, more, r, limit)
    ensures Registered(After(w, steps), After(w, more), Newcomer(n))
  {
    var v, id := After(w, steps), Newcomer(n);
    Joining(v, n, r, limit);
    assert v.threads == map[];
    var start, joined := [v.reg], Join(v.reg, id, v.now);
    assert Rising(start, r);
    hide Legal, After, Growing, Visits, Rising, Expire, Join, Interested, Newcomer, Arrived, Registered;
    RisingOn(start, v.reg, r);
    RisingOn(start + [v.reg], joined, r);
    more := RegisterAlone(w, steps, 0, id);
    VisitsGrow(w, steps, more, start + [v.reg] + [joined], r, limit);
  }

  /** Nobody is stale, the newcomer included. */
  lemma StillNobodyStale(v: World, u: World, n: nat, r: int, limit: real)
    requires Arrived(v, n, r, limit) && Registered(v, u, Newcomer(n))
    ensures NotStale(u.reg.clients, u.reg.timeout, u.now) == u.reg.clients && Expire(u.reg, u.now) == u.reg
    ensures Newcomer(n) in u.reg.clients && u.reg.clients[Newcomer(n)].interests == {} && u.reg.timeout >= 0.0
  {
    NobodyStale(u.reg, u.now);
  }

  /** The newcomer shares with everybody who arrived before. */
  lemma NewcomerShares(v: World, u: World, n: nat, r: int, limit: real)
    requires Arrived(v, n, r, limit) && Registered(v, u, Newcomer(n))
    ensures |Sharers(u.reg, Newcomer(n), r, u.now)| == n + 1
  {
    var id := Newcomer(n);
    assert id !in v.clients.Keys && |v.clients.Keys| == n && v.clients.Keys == v.reg.clients.Keys by {
      Joining(v, n, r, limit);
    }
    StillNobodyStale(v, u, n, r, limit);
    assert Interested(u.reg.clients, r) == v.reg.clients.Keys by { InterestedBefore(v, u, n, r, limit); }
    hide Arrived, Registered, Newcomer, NotStale, Interested;
    assert |v.clients.Keys + {id}| == n + 1;
  }

  lemma InterestedBefore(v: World, u: World, n: nat, r: int, limit: real)
    requires Arrived(v, n, r, limit) && Registered(v, u, Newcomer(n))
    ensures Interested(u.reg.clients, r) == v.reg.clients.Keys
  {
    hide IndexAgrees, HeldTotal;
  }

  lemma SameLimits(v: World, u: World, n: nat, r: int, limit: real)
    requires Arrived(v, n, r, limit) && Registered(v, u, Newcomer(n))
    ensures u.limits == map[r := limit]
  {
    hide Newcomer, IndexAgrees, HeldTotal, Told;
  }

  lemma NewcomerGrant(v: World, u: World, n: nat, r: int, limit: real)
    requires Arrived(v, n, r, limit) && Registered(v, u, Newcomer(n))
    ensures FairGrant(u.limits, u.reg, Newcomer(n), {r}, u.now) == map[r := Portion(limit, n + 1)]
  {
    assert u.limits == map[r := limit] by { SameLimits(v, u, n, r, limit); }
    hide Arrived, Registered, Portion, Newcomer, Sharers, NotStale;
    NewcomerShares(v, u, n, r, limit);
  }

  lemma BeatenRegistry(reg: State, id: string, r: int, now: real)
    requires Expire(reg, now) == reg && NotStale(reg.clients, reg.timeout, now) == reg.clients
    requires id in reg.clients && reg.clients[id].interests == {} && reg.timeout >= 0.0
    requires IndexAgrees(reg.clients, reg.index)
    ensures var beaten := Beat(reg, id, {r}, now).0;
            && beaten.clients == reg.clients[id := Info(now, {r})] && beaten.timeout == reg.timeout
            && Expire(beaten, now) == beaten && IndexAgrees(beaten.clients, beaten.index)
            && Interested(reg.clients, r) <= Interested(beaten.clients, r)
  {
    BeatLeavesNobodyElseStale(reg, id, {r}, now);
    BeatKeepsIndex(reg, id, {r}, now);
    hide IndexAgrees, Expire, AddTo, DropFrom;
  }

  /** With nobody stale, the handler's effect on the registry is the heartbeat's body. */
  lemma HandleIsBeat(limits: Limits, reg: State, id: string, r: int, now: real)
    requires Expire(reg, now) == reg && id in reg.clients && id != ""
    requires Expire(Beat(reg, id, {r}, now).0, now) == Beat(reg, id, {r}, now).0
    ensures Handle(limits, reg, id, [r], now).0 == Beat(reg, id, {r}, now).0
  {
    assert Requested([r]) == {r};
    hide Expire, Beat, Requested;
    BeatSucceeds(reg, id, {r}, now);
  }

  lemma BeatKeepsInterest(reg: State, id: string, r: int, now: real)
    requires Expire(reg, now) == reg
    requires Expire(Beat(reg, id, {r}, now).0, now) == Beat(reg, id, {r}, now).0
    requires Interested(reg.clients, r) <= Interested(Beat(reg, id, {r}, now).0.clients, r)
    ensures Rising(Path(reg, id, [r], now), r)
  {
    assert Requested([r]) == {r};
    var e := Expire(reg, now);
    var b := Beat(e, id, {r}, now).0;
    hide Expire, Beat, Requested, Interested;
    assert Rising([reg], r);
    RisingOn([reg], e, r);
    RisingOn([reg] + [e], b, r);
    RisingOn([reg] + [e] + [b], Expire(b, now), r);
    assert [reg] + [e] + [b] + [] == [reg] + [e] + [b];
  }

  /** What the handler makes of the registry. */
  lemma NewcomerRecorded(v: World, u: World, n: nat, r: int, limit: real)
    requires Arrived(v, n, r, limit) && Registered(v, u, Newcomer(n))
    ensures var reg := Handle(u.limits, u.reg, Newcomer(n), [r], u.now).0;
            && reg.clients == v.reg.clients[Newcomer(n) := Info(v.now, {r})] && reg.timeout == v.reg.timeout
            && IndexAgrees(reg.clients, reg.index)
    ensures Rising(Path(u.reg, Newcomer(n), [r], u.now), r)
  {
    var id := Newcomer(n);
    assert id != "" && u.now == v.now && u.reg.timeout == v.reg.timeout;
    StillNobodyStale(v, u, n, r, limit);
    assert u.reg.clients[id := Info(u.now, {r})] == v.reg.clients[id := Info(v.now, {r})];
    assert IndexAgrees(u.reg.clients, u.reg.index);
    hide Arrived, Registered, Newcomer, Expire, Beat, Interested, IndexAgrees, NotStale, Rising, Path, Handle;
    BeatenRegistry(u.reg, id, r, u.now);
    HandleIsBeat(u.limits, u.reg, id, r, u.now);
    BeatKeepsInterest(u.reg, id, r, u.now);
  }

  /** What the handler answers the newcomer. */
  lemma NewcomerServed(v: World, u: World, n: nat, r: int, limit: real)
    requires Arrived(v, n, r, limit) && Registered(v, u, Newcomer(n))
    ensures Handle(u.limits, u.reg, Newcomer(n), [r], u.now).1 == Granted(map[r := Portion(limit, n + 1)])
  {
    var id := Newcomer(n);
    assert Requested([r]) == {r} && id != "";
    StillNobodyStale(v, u, n, r, limit);
    NewcomerGrant(v, u, n, r, limit);
    hide Arrived, Newcomer, Expire, Beat, IndexAgrees, FairGrant, NotStale, Portion, Requested, GetAllAllocations;
    GrantedAllocations(u.limits, u.reg, id, {r}, u.now);
    BeatSucceeds(u.reg, id, {r}, u.now);
  }

  lemma OneMore(w: World, steps: seq<Step>, n: nat, r: int, limit: real) returns (more: seq<Step>)
    requires Legal(w, steps) && Growing(w, steps, r, limit) && Arrived(After(w, steps), n, r, limit) && limit >= 0.0
    ensures Legal(w, more) && Growing(w, more, r, limit) && Arrived(After(w, more), n + 1, r, limit)
  {
    hide Legal, After, Growing, Visits, Rising, Path, Handle, Newcomer, Arrived, Registered, Portion;
    var v, id := After(w, steps), Newcomer(n);
    more := Register(w, steps, n, r, limit);
    var u := After(w, more);
    NewcomerServed(v, u, n, r, limit);
    NewcomerRecorded(v, u, n, r, limit);
    assert u.threads == map[] by { Fields(v, u, n, r, limit); }
    var called := more;
    more := HandlerAlone(w, called, 0, id, [r]);
    VisitsGrow(w, called, more, Path(u.reg, id, [r], u.now), r, limit);
    var reg := Handle(u.limits, u.reg, id, [r], u.now).0;
    var x := After(w, more);
    var reply := Replying(id, map[r := Portion(limit, n + 1)]);
    assert x == u.(reg := reg, threads := u.threads[0 := reply]);
    assert LimitAtMost(x, r, limit) by { NowGrowing(w, more, r, limit); }
    GrowingOn(w, more, Deliver(0, u.now), r, limit);
    more := more + [Deliver(0, u.now)];
    Arrival(v, u, reg, x, n, r, limit);
  }

  lemma Fields(v: World, u: World, n: nat, r: int, limit: real)
    requires Arrived(v, n, r, limit) && Registered(v, u, Newcomer(n))
    ensures u.threads == map[]
  {
  }

  lemma Arrival(v: World, u: World, reg: State, x: World, n: nat, r: int, limit: real)
    requires Arrived(v, n, r, limit) && Registered(v, u, Newcomer(n)) && limit >= 0.0
    requires reg.clients == v.reg.clients[Newcomer(n) := Info(v.now, {r})] && reg.timeout == v.reg.timeout
    requires IndexAgrees(reg.clients, reg.index)
    requires x == u.(reg := reg, threads := map[0 := Replying(Newcomer(n), map[r := Portion(limit, n + 1)])])
    ensures Arrived(Next(x, Deliver(0, u.now)), n + 1, r, limit)
  {
    var id, share := Newcomer(n), Portion(limit, n + 1);
    var held := Reconcile(map[], map[r := share], u.now);
    assert id !in v.clients by { Joining(v, n, r, limit); }
    var y := v.(reg := reg, clients := v.clients[id := held]);
    assert Next(x, Deliver(0, u.now)) == y;
    hide Portion, Reconcile, Next, Newcomer, IndexAgrees, Arrived, Registered;
    assert share >= 0.0 by { PortionShrinks(limit, n + 1, n + 1); }
    assert r in held && held[r].rate == share by { DeliveredRate(map[], map[r := share], u.now, r); }
    NewRate(v, y, id, held, r, share);
    assert Told(v, n, r, limit) by { ToldBefore(v, n, r, limit); }
    ToldOneMore(v, y, n, held, r, limit);
    ArrivedWithOneMore(v, y, id, held, n, r, limit);
  }

  lemma ToldBefore(v: World, n: nat, r: int, limit: real)
    requires Arrived(v, n, r, limit)
    ensures Told(v, n, r, limit)
  {
  }

  lemma ToldOneMore(v: World, y: World, n: nat, held: BucketMap, r: int, limit: real)
    requires Told(v, n, r, limit) && y.clients == v.clients[Newcomer(n) := held]
    requires r in held && held[r].rate == Portion(limit, n + 1)
    ensures Told(y, n + 1, r, limit)
  {
    hide Portion;
    forall k: nat | k < n + 1
      ensures Newcomer(k) in y.clients && RateOf(y, Newcomer(k), r) == Portion(limit, k + 1)
    {
      assert |Newcomer(k)| == k + 1 && |Newcomer(n)| == n + 1;
    }
  }

  lemma ArrivedWithOneMore(v: World, y: World, id: string, held: BucketMap, n: nat, r: int, limit: real)
    requires Arrived(v, n, r, limit) && |id| == n + 1 && id !in v.clients
    requires y == v.(reg := y.reg, clients := v.clients[id := held]) && y.reg.timeout == v.reg.timeout
    requires y.reg.clients == v.reg.clients[id := Info(v.now, {r})] && IndexAgrees(y.reg.clients, y.reg.index)
    requires HeldTotal(y, r) == HeldTotal(v, r) + Portion(limit, n + 1) && Told(y, n + 1, r, limit)
    ensures Arrived(y, n + 1, r, limit)
  {
    ClientsAfter(v.reg.clients, id, Info(v.now, {r}), n);
    KeysAfter(v, y, id, held, n, Info(v.now, {r}));
    assert Stack(limit, n + 1) == Stack(limit, n) + Portion(limit, n + 1);
    hide IndexAgrees, HeldTotal, Portion, AllAlike, Stack, Told;
  }

  lemma KeysAfter(v: World, y: World, id: string, held: BucketMap, n: nat, info: Info)
    requires v.clients.Keys == v.reg.clients.Keys && |v.clients.Keys| == n && id !in v.clients
    requires y.clients == v.clients[id := held] && y.reg.clients == v.reg.clients[id := info]
    ensures y.clients.Keys == y.reg.clients.Keys && |y.clients.Keys| == n + 1
  {
    OneMoreKey(v.clients, id, held);
    OneMoreKey(v.reg.clients, id, info);
  }

  lemma OneMoreKey<T>(m: map<string, T>, id: string, value: T)
    requires id !in m
    ensures m[id := value].Keys == m.Keys + {id} && |m.Keys + {id}| == |m.Keys| + 1
  {
  }

  lemma ClientsAfter(clients: Clients, id: string, info: Info, n: nat)
    requires AllAlike(clients, info, n) && |id| == n + 1
    ensures AllAlike(clients[id := info], info, n + 1)
  {
  }

  lemma NewRate(v: World, y: World, id: string, held: BucketMap, r: int, share: real)
    requires id !in v.clients && y.clients == v.clients[id := held]
    requires r in held && held[r].rate == share
    ensures HeldTotal(y, r) == HeldTotal(v, r) + share
  {
    assert RateBy(y, r)(id) == share;
    TotalPick(y.clients.Keys, RateBy(y, r), id);
    assert y.clients.Keys - {id} == v.clients.Keys;
    forall other | other in v.clients.Keys
      ensures RateBy(y, r)(other) == RateBy(v, r)(other)
    {
    }
    TotalSame(v.clients.Keys, RateBy(y, r), RateBy(v, r));
  }

  lemma {:induction false} Arrivals(timeout: real, now: real, n: nat, r: int, limit: real) returns (steps: seq<Step>)
    requires timeout >= 0.0 && limit >= 0.0
    ensures Legal(Start(timeout, now), steps) && Growing(Start(timeout, now), steps, r, limit)
    ensures Arrived(After(Start(timeout, now), steps), n, r, limit)
    ensures Told(After(Start(timeout, now), steps), n, r, limit)
  {
    hide Start, Legal, After, Growing, Arrived, Told;
    if n == 0 {
      steps := Opening(timeout, now, r, limit);
    } else {
      steps := Arrivals(timeout, now, n - 1, r, limit);
      steps := OneMore(Start(timeout, now), steps, n - 1, r, limit);
    }
    ToldBefore(After(Start(timeout, now), steps), n, r, limit);
  }

  lemma Opening(timeout: real, now: real, r: int, limit: real) returns (steps: seq<Step>)
    requires timeout >= 0.0 && limit >= 0.0
    ensures Legal(Start(timeout, now), steps) && Growing(Start(timeout, now), steps, r, limit)
    ensures Arrived(After(Start(timeout, now), steps), 0, r, limit)
  {
    var s, none: seq<Step> := Start(timeout, now), [];
    assert IndexAgrees(s.reg.clients, s.reg.index) by { RegistryConsistent(timeout, now, none); }
    assert Growing(s, none, r, limit) && Enabled(s, SetLimit(r, limit));
    assert Arrived(Next(s, SetLimit(r, limit)), 0, r, limit);
    hide Arrived, Enabled, Growing, IndexAgrees;
    GrowingOn(s, none, SetLimit(r, limit), r, limit);
    steps := none + [SetLimit(r, limit)];
  }

  /** For every number of clients there is a run on which the harmonic bound holds with equality. */
  lemma {:induction false} BoundIsAttained(timeout: real, now: real, n: nat, r: int, limit: real)
    returns (steps: seq<Step>)
    requires timeout >= 0.0 && limit >= 0.0
    ensures Legal(Start(timeout, now), steps) && Growing(Start(timeout, now), steps, r, limit)
    ensures var w := After(Start(timeout, now), steps);
            |Fans(w, r)| == n && HeldTotal(w, r) == Peak(limit, n)
  {
    steps := Arrivals(timeout, now, n, r, limit);
    var w := After(Start(timeout, now), steps);
    hide Legal, After, Growing, Start, IndexAgrees, HeldTotal;
    assert Fans(w, r) == w.reg.clients.Keys;
    StackIsHarmonic(limit, n);
  }
}
