/**
 * What a heartbeat's response says under any interleaving. The handler reads the caller's interests, then for each
 * resource a limit and an index entry, each at a moment of its own; the answer is as good as these moments.
 */
module Replies {
  import Numbers
  import opened Registry
  import opened RegistryLaws
  import opened Shares
  import opened ClientRuntime
  import opened System
  import opened Overshoot

  /** How long the run was when thread t was last spawned. */
  function Birth(steps: seq<Step>, t: nat): (n: nat)
    ensures n <= |steps|
  {
    if steps == [] then 0 else
      match steps[|steps| - 1]
      case Spawn(u, _) => if u == t then |steps| else Birth(steps[..|steps| - 1], t)
      case _ => Birth(steps[..|steps| - 1], t)
  }

  // What was the case at some moment since the run had length `from`.

  ghost predicate InterestsSince(w: World, steps: seq<Step>, from: nat, id: string, rs: set<int>)
    requires Legal(w, steps)
  {
    && from <= |steps|
    && (|| InterestsOf(After(w, steps).reg, id) == rs
        || (from < |steps| && InterestsSince(w, steps[..|steps| - 1], from, id, rs)))
  }

  ghost predicate LimitSince(w: World, steps: seq<Step>, from: nat, r: int, l: real)
    requires Legal(w, steps)
  {
    && from <= |steps|
    && (|| (r in After(w, steps).limits && After(w, steps).limits[r] == l)
        || (from < |steps| && LimitSince(w, steps[..|steps| - 1], from, r, l)))
  }

  /** The part of l for a client, by who is interested now. */
  ghost predicate Part(w: World, id: string, r: int, l: real, share: real) {
    if id in Fans(w, r) then share == Portion(l, |Fans(w, r)|) else share == 0.0
  }

  /**
   * The share is the client's part, by who was interested at some moment, of a limit that was in force at that moment
   * or before; or it is zero, and there was no limit at some moment.
   */
  ghost predicate DividedSince(w: World, steps: seq<Step>, from: nat, id: string, r: int, share: real)
    requires Legal(w, steps)
  {
    && from <= |steps|
    && (|| (exists l :: LimitSince(w, steps, from, r, l) && Part(After(w, steps), id, r, l, share))
        || (r !in After(w, steps).limits && share == 0.0)
        || (from < |steps| && DividedSince(w, steps[..|steps| - 1], from, id, r, share)))
  }

  ghost predicate AllDivided(w: World, steps: seq<Step>, from: nat, id: string, acc: map<int, real>)
    requires Legal(w, steps)
  {
    forall r | r in acc :: DividedSince(w, steps, from, id, r, acc[r])
  }

  /** What a thread carries comes from moments of its own call. */
  ghost predicate Genuine(w: World, steps: seq<Step>, from: nat, th: Thread)
    requires Legal(w, steps)
  {
    match th
    case Sharing(id, todo, acc) =>
      AllDivided(w, steps, from, id, acc) && InterestsSince(w, steps, from, id, todo + acc.Keys)
    case Dividing(id, todo, acc, r, l, _) =>
      && AllDivided(w, steps, from, id, acc) && InterestsSince(w, steps, from, id, todo + {r} + acc.Keys)
      && LimitSince(w, steps, from, r, l)
    case Replying(id, acc) =>
      AllDivided(w, steps, from, id, acc) && InterestsSince(w, steps, from, id, acc.Keys)
    case _ => true
  }

  lemma StaysGenuine(w: World, front: seq<Step>, step: Step, from: nat, th: Thread)
    requires Legal(w, front) && Legal(w, front + [step]) && Genuine(w, front, from, th) && from <= |front|
    ensures Genuine(w, front + [step], from, th)
  {
    hide Legal, After, Part;
    assert (front + [step])[..|front|] == front;
  }

  /** A limit just looked up, or found missing. */
  lemma LookedUp(w: World, steps: seq<Step>, from: nat, before: World, th: Thread, r: int)
    requires Legal(w, steps) && from <= |steps| && Genuine(w, steps, from, th)
    requires th.Sharing? && r in th.todo && before.limits == After(w, steps).limits
    ensures Genuine(w, steps, from, Looked(before, th, r))
  {
    assert th.todo - {r} + {r} == th.todo;
    assert th.todo - {r} + (th.acc.Keys + {r}) == th.todo + th.acc.Keys;
    hide Legal, After, Part;
    if r !in before.limits {
      var acc := th.acc[r := 0.0];
      assert acc.Keys == th.acc.Keys + {r};
      forall x | x in acc
        ensures DividedSince(w, steps, from, th.id, x, acc[x])
      {
      }
    }
  }

  /** A share just computed. */
  lemma JustDivided(w: World, steps: seq<Step>, from: nat, th: Thread)
    requires Legal(w, steps) && from <= |steps| && Genuine(w, steps, from, th) && th.Dividing?
    requires IndexAgrees(After(w, steps).reg.clients, After(w, steps).reg.index)
    ensures Genuine(w, steps, from,
                    Sharing(th.id, th.todo, th.acc[th.r := ShareNow(After(w, steps).reg, th.id, th.r, th.limit)]))
  {
    var v := After(w, steps);
    ListedIsInterested(v.reg, th.r);
    var share := ShareNow(v.reg, th.id, th.r, th.limit);
    assert Part(v, th.id, th.r, th.limit, share);
    var acc := th.acc[th.r := share];
    assert th.todo + acc.Keys == th.todo + {th.r} + th.acc.Keys;
    hide Legal, After, Part, ShareNow, IndexAgrees;
    forall x | x in acc
      ensures DividedSince(w, steps, from, th.id, x, acc[x])
    {
    }
  }

  lemma SectionIsGenuine(w: World, steps: seq<Step>, from: nat, before: World, th: Thread)
    requires Legal(w, steps) && from <= |steps| && Genuine(w, steps, from, th)
    requires After(w, steps).reg == RegAfter(before, th) && IndexAgrees(before.reg.clients, before.reg.index)
    requires th.Sharing? ==> th.todo == {}
    ensures ThreadAfter(before, th).Some? ==> Genuine(w, steps, from, ThreadAfter(before, th).value)
  {
    if th.Dividing? && th.expired {
      JustDivided(w, steps, from, th);
    }
    hide Legal, After, IndexAgrees, Expire, Part, ShareNow;
    match th {
      case Listing(id, expired) =>
        var rs, none: map<int, real> := InterestsOf(before.reg, id), map[];
        assert rs + none.Keys == rs;
      case Sharing(id, todo, acc) => assert todo + acc.Keys == acc.Keys;
      case _ =>
    }
  }

  ghost predicate AllGenuine(w: World, steps: seq<Step>)
    requires Legal(w, steps)
  {
    forall t | t in After(w, steps).threads :: Genuine(w, steps, Birth(steps, t), After(w, steps).threads[t])
  }

  lemma StepIsGenuine(w: World, front: seq<Step>, step: Step)
    requires Legal(w, front) && Legal(w, front + [step]) && Enabled(After(w, front), step) && AllGenuine(w, front)
    requires After(w, front + [step]) == Next(After(w, front), step)
    requires IndexAgrees(After(w, front).reg.clients, After(w, front).reg.index)
    ensures AllGenuine(w, front + [step])
  {
    var v, steps := After(w, front), front + [step];
    assert steps[..|front|] == front;
    hide Legal, After, IndexAgrees, RegAfter, ThreadAfter, Looked, Reconcile, TryTake, Genuine;
    forall t | t in After(w, steps).threads
      ensures Genuine(w, steps, Birth(steps, t), After(w, steps).threads[t])
    {
      if step.Spawn? && step.t == t {
        assert Genuine(w, steps, |steps|, step.thread) by { NewIsGenuine(w, steps, step.thread); }
      } else {
        StaysGenuine(w, front, step, Birth(front, t), v.threads[t]);
        if step.Go? && step.t == t {
          SectionIsGenuine(w, steps, Birth(front, t), v, v.threads[t]);
        } else if step.Divide? && step.t == t {
          LookedUp(w, steps, Birth(front, t), v, v.threads[t], step.r);
        }
      }
    }
  }

  lemma NewIsGenuine(w: World, steps: seq<Step>, th: Thread)
    requires Legal(w, steps) && Received(th)
    ensures Genuine(w, steps, |steps|, th)
  {
  }

  lemma NobodyYet(timeout: real, now: real, steps: seq<Step>)
    requires steps == []
    ensures Legal(Start(timeout, now), steps) && AllGenuine(Start(timeout, now), steps)
  {
  }

  lemma {:induction false} RunIsGenuine(timeout: real, now: real, steps: seq<Step>)
    requires Legal(Start(timeout, now), steps)
    ensures AllGenuine(Start(timeout, now), steps)
  {
    hide Start, Enabled, Next, AllGenuine, ServerInvariant, IndexAgrees;
    if steps == [] {
      NobodyYet(timeout, now, steps);
    } else {
      var front := steps[..|steps| - 1];
      RunIsGenuine(timeout, now, front);
      RegistryConsistent(timeout, now, front);
      var reg := After(Start(timeout, now), front).reg;
      AgreesIsRebuilt(reg.clients, reg.index);
      assert front + [steps[|steps| - 1]] == steps;
      StepIsGenuine(Start(timeout, now), front, steps[|steps| - 1]);
    }
  }

  /**
   * In every interleaving, a response lists exactly the interests the caller had at some moment of the call, and each
   * share in it is the caller's part, by who was interested at some moment of the call, of a limit in force at that
   * moment or earlier in the call; or it is zero, and at some moment of the call the resource had no limit.
   */
  lemma RepliesAreGenuine(timeout: real, now: real, steps: seq<Step>, t: nat, id: string, acc: map<int, real>)
    requires Legal(Start(timeout, now), steps) && t in After(Start(timeout, now), steps).threads
    requires After(Start(timeout, now), steps).threads[t] == Replying(id, acc)
    ensures InterestsSince(Start(timeout, now), steps, Birth(steps, t), id, acc.Keys)
    ensures forall r | r in acc :: DividedSince(Start(timeout, now), steps, Birth(steps, t), id, r, acc[r])
  {
    RunIsGenuine(timeout, now, steps);
    hide Legal, After, Start, InterestsSince, DividedSince;
    assert Genuine(Start(timeout, now), steps, Birth(steps, t), Replying(id, acc));
  }

  // The rates the clients hold.

  /** The rate is a share, not below zero, that some response of an earlier call has delivered to the client. */
  ghost predicate Heard(w: World, steps: seq<Step>, id: string, r: int, rate: real)
    requires Legal(w, steps)
  {
    steps != [] &&
    (var front := steps[..|steps| - 1];
     || Heard(w, front, id, r, rate)
     || match steps[|steps| - 1]
        case Deliver(t, _) =>
          var reply := After(w, front).threads[t];
          && reply.id == id && r in reply.acc && rate == Numbers.Max(0.0, reply.acc[r])
          && DividedSince(w, front, Birth(front, t), id, r, reply.acc[r])
        case _ => false)
  }

  ghost predicate AllHeard(w: World, steps: seq<Step>)
    requires Legal(w, steps)
  {
    forall id, r | r in Held(After(w, steps), id) :: Heard(w, steps, id, r, Held(After(w, steps), id)[r].rate)
  }

  /** A step that delivers nothing for r to the client leaves its rate alone, or takes the bucket away. */
  lemma RateStays(w: World, step: Step, id: string, r: int)
    requires Enabled(w, step) && r in Held(Next(w, step), id)
    requires step.Deliver? ==> w.threads[step.t].id != id
    ensures r in Held(w, id) && Held(Next(w, step), id)[r].rate == Held(w, id)[r].rate
  {
    hide RegAfter, ThreadAfter, Looked, TryTake, Reconcile;
    if step.Use? && step.id == id {
      UsedRate(Held(w, id), step.q, step.at, r);
    }
  }

  lemma RateDelivered(w: World, step: Step, r: int)
    requires Enabled(w, step) && step.Deliver? && r in Held(Next(w, step), w.threads[step.t].id)
    ensures var reply := w.threads[step.t];
            r in reply.acc && Held(Next(w, step), reply.id)[r].rate == Numbers.Max(0.0, reply.acc[r])
  {
    hide Reconcile;
    DeliveredRate(Held(w, w.threads[step.t].id), w.threads[step.t].acc, step.at, r);
  }

  lemma ReplyDivided(w: World, steps: seq<Step>, t: nat, r: int)
    requires Legal(w, steps) && AllGenuine(w, steps) && t in After(w, steps).threads
    requires After(w, steps).threads[t].Replying? && r in After(w, steps).threads[t].acc
    ensures var reply := After(w, steps).threads[t];
            DividedSince(w, steps, Birth(steps, t), reply.id, r, reply.acc[r])
  {
    hide DividedSince, InterestsSince, LimitSince;
    assert Genuine(w, steps, Birth(steps, t), After(w, steps).threads[t]);
  }

  lemma StepIsHeard(w: World, front: seq<Step>, step: Step, id: string, r: int)
    requires Legal(w, front) && Legal(w, front + [step]) && Enabled(After(w, front), step)
    requires After(w, front + [step]) == Next(After(w, front), step)
    requires AllHeard(w, front) && AllGenuine(w, front) && r in Held(After(w, front + [step]), id)
    ensures Heard(w, front + [step], id, r, Held(After(w, front + [step]), id)[r].rate)
  {
    var v := After(w, front);
    assert (front + [step])[..|front|] == front && (front + [step])[|front|] == step;
    assert step.Deliver? ==> step.t in v.threads && v.threads[step.t].Replying?;
    hide Legal, After, Next, Enabled, Held, AllGenuine, DividedSince;
    if step.Deliver? && v.threads[step.t].id == id {
      RateDelivered(v, step, r);
      ReplyDivided(w, front, step.t, r);
    } else {
      RateStays(v, step, id, r);
    }
  }

  /**
   * In every reachable state, whoever has left meanwhile: each rate a client holds is a share that one past call
   * computed for it, from a limit in force and the clients interested at moments of that call.
   */
  lemma {:induction false} RatesAreGenuine(timeout: real, now: real, steps: seq<Step>)
    requires Legal(Start(timeout, now), steps)
    ensures AllHeard(Start(timeout, now), steps)
  {
    if steps != [] {
      var w, front, step := Start(timeout, now), steps[..|steps| - 1], steps[|steps| - 1];
      hide Start, Next, Enabled, Heard, AllGenuine, Held;
      assert front + [step] == steps;
      RatesAreGenuine(timeout, now, front);
      RunIsGenuine(timeout, now, front);
      forall id, r | r in Held(After(w, steps), id)
        ensures Heard(w, steps, id, r, Held(After(w, steps), id)[r].rate)
      {
        StepIsHeard(w, front, step, id, r);
      }
    }
  }
}
