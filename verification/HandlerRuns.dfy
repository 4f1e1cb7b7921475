/** Runs of the whole service in which one server thread works alone: the sequential handler is one of them. */
module HandlerRuns {
  import opened Options
  import opened Registry
  import opened Shares
  import opened HeartbeatHandler
  import opened System

  lemma Extend(w: World, steps: seq<Step>, step: Step)
    requires Legal(w, steps) && Enabled(After(w, steps), step)
    ensures Legal(w, steps + [step]) && After(w, steps + [step]) == Next(After(w, steps), step)
  {
    hide Next, Enabled;
    assert (steps + [step])[..|steps|] == steps;
  }

  /** On the way from one run to a longer one the registry passes through exactly these states, and no limit changes. */
  ghost predicate Visits(w: World, from: seq<Step>, steps: seq<Step>, via: seq<State>)
    requires Legal(w, from) && Legal(w, steps)
    decreases |steps|
  {
    && via != [] && After(w, steps).reg == via[|via| - 1] && After(w, steps).limits == After(w, from).limits
    && (if |steps| <= |from| then steps == from && |via| == 1 else
          var front := steps[..|steps| - 1];
          Visits(w, from, front, via) || (|via| > 1 && Visits(w, from, front, via[..|via| - 1])))
  }

  lemma VisitsLength(w: World, from: seq<Step>, steps: seq<Step>, via: seq<State>)
    requires Legal(w, from) && Legal(w, steps) && Visits(w, from, steps, via)
    ensures |from| <= |steps|
  {
  }

  /** The step moves thread t on without touching the registry. */
  lemma QuietStep(
    w: World, from: seq<Step>, steps: seq<Step>, via: seq<State>, step: Step, t: nat, th: Thread)
    requires Legal(w, from) && Legal(w, steps) && Visits(w, from, steps, via) && Enabled(After(w, steps), step)
    requires var v := After(w, steps); Next(v, step) == v.(threads := v.threads[t := th])
    ensures Legal(w, steps + [step]) && Visits(w, from, steps + [step], via)
    ensures After(w, steps + [step]) == After(w, steps).(threads := After(w, steps).threads[t := th])
  {
    hide Next, Enabled;
    Extend(w, steps, step);
    VisitsLength(w, from, steps, via);
    assert (steps + [step])[..|steps|] == steps;
  }

  /** A critical section of thread t. */
  lemma SectionStep(w: World, from: seq<Step>, steps: seq<Step>, via: seq<State>, t: nat, reg: State)
    requires Legal(w, from) && Legal(w, steps) && Visits(w, from, steps, via) && Enabled(After(w, steps), Go(t))
    requires !After(w, steps).threads[t].Sharing? && reg == RegAfter(After(w, steps), After(w, steps).threads[t])
    ensures var v := After(w, steps);
            && Legal(w, steps + [Go(t)]) && Visits(w, from, steps + [Go(t)], via + [reg])
            && After(w, steps + [Go(t)]) ==
               v.(reg := reg, threads := Put(v.threads, t, ThreadAfter(v, v.threads[t])))
  {
    hide RegAfter, ThreadAfter, Put;
    Extend(w, steps, Go(t));
    VisitsLength(w, from, steps, via);
    assert (steps + [Go(t)])[..|steps|] == steps && (via + [reg])[..|via|] == via;
  }

  function Alone(v: World, t: nat, th: Thread): World {
    v.(threads := v.threads[t := th])
  }

  /**
   * The lookup of the limit and, if there is one, the two sections of the query under the manager's lock make up the
   * manager's computation of one share, at whatever moment it is made.
   */
  lemma DivideSections(v: World, t: nat, r: int)
    requires t in v.threads && v.threads[t].Sharing? && r in v.threads[t].todo && ManagerFree(v)
    ensures var th := v.threads[t];
            var (reg, share) := GetAllocation(v.limits, v.reg, th.id, r, v.now);
            var done := Alone(v, t, Sharing(th.id, th.todo - {r}, th.acc[r := share])).(reg := reg);
            && Enabled(v, Divide(t, r))
            && var v1 := Next(v, Divide(t, r));
               if r in v.limits then
                 && Enabled(v1, Go(t)) && Enabled(Next(v1, Go(t)), Go(t))
                 && Next(Next(v1, Go(t)), Go(t)) == done && Next(v1, Go(t)).reg == reg
               else v1 == done
  {
    hide Expire, Portion;
    var th := v.threads[t];
    if r in v.limits {
      var v1, v2 := Next(v, Divide(t, r)), Next(Next(v, Divide(t, r)), Go(t));
      var asked := Dividing(th.id, th.todo - {r}, th.acc, r, v.limits[r], true);
      assert v2 == Alone(v, t, asked).(reg := Expire(v.reg, v.now));
    }
  }

  /** One share in a registry with nobody to expire. */
  lemma ShareOne(w: World, from: seq<Step>, steps: seq<Step>, via: seq<State>, t: nat, r: int)
    returns (more: seq<Step>)
    requires Legal(w, from) && Legal(w, steps) && Visits(w, from, steps, via)
    requires var v := After(w, steps);
             && t in v.threads && v.threads[t].Sharing? && r in v.threads[t].todo && ManagerFree(v)
             && Expire(v.reg, v.now) == v.reg
    ensures Legal(w, more) && Visits(w, from, more, via)
    ensures var v := After(w, steps);
            var th := v.threads[t];
            After(w, more) ==
            Alone(v, t, Sharing(th.id, th.todo - {r}, th.acc[r := ShareOf(v.limits, v.reg, th.id, r)]))
  {
    hide Legal, After, Visits, Expire, Portion;
    var v := After(w, steps);
    var th := v.threads[t];
    var looked := Looked(v, th, r);
    QuietStep(w, from, steps, via, Divide(t, r), t, looked);
    more := steps + [Divide(t, r)];
    if r in v.limits {
      var asked := Dividing(th.id, th.todo - {r}, th.acc, r, v.limits[r], true);
      var done := Sharing(th.id, th.todo - {r}, th.acc[r := ShareOf(v.limits, v.reg, th.id, r)]);
      var v1, v2 := Alone(v, t, looked), Alone(v, t, asked);
      assert Next(v1, Go(t)) == Alone(v1, t, asked) == v2;
      QuietStep(w, from, more, via, Go(t), t, asked);
      more := more + [Go(t)];
      assert After(w, more) == v2;
      assert Next(v2, Go(t)) == Alone(v2, t, done);
      QuietStep(w, from, more, via, Go(t), t, done);
      more := more + [Go(t)];
      assert Alone(v2, t, done) == Alone(v, t, done);
    }
  }

  ghost function AllShares(v: World, id: string, todo: set<int>): map<int, real> {
    map r | r in todo :: ShareOf(v.limits, v.reg, id, r)
  }

  lemma OneShareLess(v: World, v1: World, id: string, todo: set<int>, r: int, acc: map<int, real>)
    requires r in todo && v1.limits == v.limits && v1.reg == v.reg
    ensures acc[r := ShareOf(v.limits, v.reg, id, r)] + AllShares(v1, id, todo - {r}) == acc + AllShares(v, id, todo)
  {
  }

  lemma {:induction false} ShareAll(
    w: World, from: seq<Step>, steps: seq<Step>, via: seq<State>, t: nat, todo: set<int>)
    returns (more: seq<Step>)
    requires Legal(w, from) && Legal(w, steps) && Visits(w, from, steps, via)
    requires var v := After(w, steps);
             && t in v.threads && v.threads[t].Sharing? && todo == v.threads[t].todo && ManagerFree(v)
             && Expire(v.reg, v.now) == v.reg
    ensures Legal(w, more) && Visits(w, from, more, via)
    ensures var v := After(w, steps);
            var th := v.threads[t];
            After(w, more) == Alone(v, t, Replying(th.id, th.acc + AllShares(v, th.id, todo)))
    decreases |todo|
  {
    hide Legal, After, Visits, Expire, ShareOf;
    var v := After(w, steps);
    var th := v.threads[t];
    if todo == {} {
      assert th.acc + AllShares(v, th.id, todo) == th.acc;
      QuietStep(w, from, steps, via, Go(t), t, Replying(th.id, th.acc));
      more := steps + [Go(t)];
    } else {
      hide Next, Enabled;
      var r := Choose(todo);
      more := ShareOne(w, from, steps, via, t, r);
      var v1 := After(w, more);
      assert ManagerFree(v1);
      more := ShareAll(w, from, more, via, t, todo - {r});
      OneShareLess(v, v1, th.id, todo, r, th.acc);
    }
  }

  lemma Choose<T>(s: set<T>) returns (x: T)
    requires s != {}
    ensures x in s
  {
    x :| x in s;
  }

  /** The states of the registry during a heartbeat: expired, beaten, and expired again if the beat succeeded. */
  ghost function Path(reg: State, id: string, ids: seq<int>, now: real): seq<State> {
    var e := Expire(reg, now);
    var b := Beat(e, id, Requested(ids), now).0;
    [reg] + [e] + [b] + if id in e.clients then [Expire(b, now)] else []
  }

  lemma BeatSucceeds(s: State, id: string, rs: set<int>, now: real)
    ensures Beat(s, id, rs, now).1 <==> id in s.clients
    ensures id !in s.clients ==> Beat(s, id, rs, now).0 == s
  {
  }

  /** A thread alone in a call of two sections: the registry becomes e and then x, the thread goes to `last`. */
  ghost predicate TwoSections(
    v: World, t: nat, called: Thread, second: Thread, e: State, x: State, last: Option<Thread>)
  {
    var v0, v1 := Alone(v, t, called), Alone(v, t, second).(reg := e);
    && Received(called) && !called.Sharing? && !second.Sharing? && !second.Replying?
    && RegAfter(v0, called) == e && ThreadAfter(v0, called) == Some(second)
    && RegAfter(v1, second) == x && ThreadAfter(v1, second) == last
  }

  lemma RunSections(
    w: World, steps: seq<Step>, t: nat, called: Thread, second: Thread, e: State, x: State, last: Option<Thread>)
    returns (more: seq<Step>)
    requires Legal(w, steps) && t !in After(w, steps).threads
    requires TwoSections(After(w, steps), t, called, second, e, x, last)
    ensures Legal(w, more) && Visits(w, steps, more, [After(w, steps).reg] + [e] + [x])
    ensures After(w, more) ==
            After(w, steps).(reg := x, threads := Put(After(w, steps).threads, t, last))
  {
    var v := After(w, steps);
    var start := [v.reg];
    assert Visits(w, steps, steps, start);
    hide Legal, After, Visits, RegAfter, ThreadAfter;
    QuietStep(w, steps, steps, start, Spawn(t, called), t, called);
    more := steps + [Spawn(t, called)];
    SectionStep(w, steps, more, start, t, e);
    more := more + [Go(t)];
    assert After(w, more) == Alone(v, t, second).(reg := e);
    SectionStep(w, steps, more, start + [e], t, x);
    more := more + [Go(t)];
    assert Put(v.threads[t := second], t, last) == Put(v.threads, t, last) by { PutTwice(v.threads, t, second, last); }
  }

  lemma PutTwice(threads: map<nat, Thread>, t: nat, th: Thread, last: Option<Thread>)
    requires t !in threads
    ensures Put(threads[t := th], t, last) == Put(threads, t, last)
  {
  }

  /** The first half of the handler: the two sections of the registry's heartbeat. */
  lemma BeatAlone(w: World, steps: seq<Step>, t: nat, id: string, rs: set<int>, e: State, b: State)
    returns (more: seq<Step>)
    requires Legal(w, steps) && id != "" && t !in After(w, steps).threads
    requires e == Expire(After(w, steps).reg, After(w, steps).now) && b == Beat(e, id, rs, After(w, steps).now).0
    ensures Legal(w, more) && Visits(w, steps, more, [After(w, steps).reg] + [e] + [b])
    ensures var v := After(w, steps);
            After(w, more) ==
            v.(reg := b, threads := if id in e.clients then v.threads[t := Listing(id, false)] else v.threads)
  {
    var v := After(w, steps);
    var last := if id in e.clients then Some(Listing(id, false)) else None;
    assert TwoSections(v, t, Beating(id, rs, false), Beating(id, rs, true), e, b, last) by { hide Expire, Beat; }
    hide Legal, After, Visits, TwoSections, Expire, Beat;
    more := RunSections(w, steps, t, Beating(id, rs, false), Beating(id, rs, true), e, b, last);
    assert v.threads - {t} == v.threads;
  }

  /** A registration alone is the registry's whole operation. */
  lemma RegisterAlone(w: World, steps: seq<Step>, t: nat, id: string) returns (more: seq<Step>)
    requires Legal(w, steps) && id != "" && t !in After(w, steps).threads
    ensures Legal(w, more)
    ensures var v := After(w, steps);
            var (e, x) := (Expire(v.reg, v.now), RegisterClient(v.reg, id, v.now).0);
            Visits(w, steps, more, [v.reg] + [e] + [x]) && After(w, more) == v.(reg := x) && id in x.clients
  {
    var v := After(w, steps);
    var e := Expire(v.reg, v.now);
    var x := Join(e, id, v.now);
    assert TwoSections(v, t, Registering(id, false), Registering(id, true), e, x, None) by { hide Expire, Join; }
    hide Legal, After, Visits, TwoSections, Expire;
    more := RunSections(w, steps, t, Registering(id, false), Registering(id, true), e, x, None);
    assert v.threads - {t} == v.threads;
  }

  /**
   * An unregistration alone is the registry's whole operation: the client is out of the map, everybody else is as the
   * expiry left them.
   */
  lemma UnregisterAlone(w: World, steps: seq<Step>, t: nat, id: string) returns (more: seq<Step>)
    requires Legal(w, steps) && t !in After(w, steps).threads
    ensures Legal(w, more)
    ensures var v := After(w, steps);
            var (e, x) := (Expire(v.reg, v.now), UnregisterClient(v.reg, id, v.now));
            && Visits(w, steps, more, [v.reg] + [e] + [x]) && After(w, more) == v.(reg := x)
            && x.clients == e.clients - {id}
  {
    var v := After(w, steps);
    var e := Expire(v.reg, v.now);
    var x := Remove(e, id);
    assert TwoSections(v, t, Unregistering(id, false), Unregistering(id, true), e, x, None) by { hide Expire, Remove; }
    hide Legal, After, Visits, TwoSections, Expire;
    more := RunSections(w, steps, t, Unregistering(id, false), Unregistering(id, true), e, x, None);
    assert v.threads - {t} == v.threads;
  }

  /** A query alone expires the stale clients and changes nothing else. */
  lemma AskAlone(w: World, steps: seq<Step>, t: nat) returns (more: seq<Step>)
    requires Legal(w, steps) && t !in After(w, steps).threads
    ensures Legal(w, more)
    ensures var v := After(w, steps);
            var e := Expire(v.reg, v.now);
            Visits(w, steps, more, [v.reg] + [e] + [e]) && After(w, more) == v.(reg := e)
  {
    var v := After(w, steps);
    var e := Expire(v.reg, v.now);
    assert TwoSections(v, t, Asking(false), Asking(true), e, e, None) by { hide Expire; }
    hide Legal, After, Visits, TwoSections, Expire;
    more := RunSections(w, steps, t, Asking(false), Asking(true), e, e, None);
    assert v.threads - {t} == v.threads;
  }

  /** The second half of the handler: `GetAllAllocations`. */
  lemma ListAndShare(w: World, from: seq<Step>, steps: seq<Step>, via: seq<State>, t: nat, id: string, v: World)
    returns (more: seq<Step>)
    requires Legal(w, from) && Legal(w, steps) && Visits(w, from, steps, via) && After(w, steps) == v
    requires t in v.threads && v.threads[t] == Listing(id, false)
    requires forall u | u in v.threads && u != t :: !v.threads[u].Dividing?
    ensures Legal(w, more) && Visits(w, from, more, via + [Expire(v.reg, v.now)])
    ensures var (reg, shares) := GetAllAllocations(v.limits, v.reg, id, v.now);
            After(w, more) == v.(reg := reg, threads := v.threads[t := Replying(id, shares)])
  {
    hide Legal, After, Visits, Expire, ShareOf;
    var d := Expire(v.reg, v.now);
    ExpireTwice(v.reg, v.now);
    SectionStep(w, from, steps, via, t, d);
    more := steps + [Go(t)];
    var v1 := v.(reg := d, threads := v.threads[t := Listing(id, true)]);
    assert After(w, more) == v1;
    var todo := InterestsOf(d, id);
    var v2 := v.(reg := d, threads := v.threads[t := Sharing(id, todo, map[])]);
    assert Next(v1, Go(t)) == v2;
    QuietStep(w, from, more, via + [d], Go(t), t, Sharing(id, todo, map[]));
    more := more + [Go(t)];
    assert After(w, more) == v2;
    assert ManagerFree(v2);
    more := ShareAll(w, from, more, via + [d], t, todo);
    assert map[] + AllShares(v2, id, todo) == GetAllAllocations(v.limits, v.reg, id, v.now).1;
  }

  /**
   * The sequential handler is the run in which the handler's thread works alone: same registry, same response, and the
   * registry states on the way are those of the code's critical sections.
   */
  lemma {:induction false} HandlerAlone(w: World, steps: seq<Step>, t: nat, id: string, ids: seq<int>)
    returns (more: seq<Step>)
    requires Legal(w, steps) && id != ""
    requires var v := After(w, steps); t !in v.threads && ManagerFree(v)
    ensures Legal(w, more) && Visits(w, steps, more, Path(After(w, steps).reg, id, ids, After(w, steps).now))
    ensures var v := After(w, steps);
            var (reg, response) := Handle(v.limits, v.reg, id, ids, v.now);
            After(w, more) == v.(
              reg := reg,
              threads := if response.Granted? then v.threads[t := Replying(id, response.allocations)] else v.threads)
  {
    hide Legal, After, Visits, Expire, Beat, Requested;
    var v := After(w, steps);
    var e := Expire(v.reg, v.now);
    var b := Beat(e, id, Requested(ids), v.now).0;
    var via := [v.reg] + [e] + [b];
    BeatSucceeds(e, id, Requested(ids), v.now);
    more := BeatAlone(w, steps, t, id, Requested(ids), e, b);
    if id in e.clients {
      more := ListAndShare(w, steps, more, via, t, id, v.(reg := b, threads := v.threads[t := Listing(id, false)]));
    } else {
      assert via + [] == via;
    }
  }
}
