/** Once membership, interests and the limit settle, one heartbeat each brings everybody to the fair share. */
module Convergence {
  import opened Numbers
  import opened Registry
  import opened RegistryLaws
  import opened Shares
  import opened ClientRuntime
  import opened System
  import opened Overshoot

  /** Who is interested in r and what its limit is. */
  ghost predicate Settled(w: World, r: int, fans: set<string>, limit: real) {
    Fans(w, r) == fans && r in w.limits && w.limits[r] == limit
  }

  ghost predicate StaysSettled(w: World, steps: seq<Step>, r: int, fans: set<string>, limit: real)
    requires Legal(w, steps)
  {
    && Settled(After(w, steps), r, fans, limit)
    && (steps == [] || StaysSettled(w, steps[..|steps| - 1], r, fans, limit))
  }

  /** No share computed earlier is still on its way to an interested client. */
  ghost predicate NothingInFlight(w: World, fans: set<string>) {
    forall t | t in w.threads ::
      var th := w.threads[t];
      th.Sharing? || th.Dividing? || th.Replying? ==> th.id !in fans
  }

  /** The clients that have received a response since the start of the run and have not been reset since. */
  ghost function Served(w: World, steps: seq<Step>): set<string>
    requires Legal(w, steps)
  {
    if steps == [] then {} else
      var n := |steps| - 1;
      match steps[n]
      case Deliver(t, _) => Served(w, steps[..n]) + {After(w, steps[..n]).threads[t].id}
      case Reset(id) => Served(w, steps[..n]) - {id}
      case _ => Served(w, steps[..n])
  }

  /** A thread working for an interested client carries the fair share, or will still compute it. */
  ghost predicate Fair(th: Thread, r: int, fans: set<string>, limit: real, share: real) {
    match th
    case Sharing(id, todo, acc) => id in fans ==> r in todo || (r in acc && acc[r] == share)
    case Dividing(id, todo, acc, x, l, _) =>
      && (id in fans ==> r == x || r in todo || (r in acc && acc[r] == share))
      && (id in fans && r == x ==> l == limit)
    case Replying(id, acc) => id in fans ==> r in acc && acc[r] == share
    case _ => true
  }

  ghost predicate AtShare(w: World, id: string, r: int, share: real) {
    id in w.clients && r in w.clients[id] && w.clients[id][r].rate == share
  }

  ghost predicate Converging(w: World, r: int, fans: set<string>, limit: real, served: set<string>) {
    && IndexAgrees(w.reg.clients, w.reg.index) && Settled(w, r, fans, limit) && fans != {} && limit >= 0.0
    && (forall t | t in w.threads :: Fair(w.threads[t], r, fans, limit, Portion(limit, |fans|)))
    && (forall id | id in served * fans :: AtShare(w, id, r, Portion(limit, |fans|)))
  }

  lemma ThreadStaysFair(w: World, th: Thread, r: int, fans: set<string>, limit: real)
    requires IndexAgrees(w.reg.clients, w.reg.index) && Settled(w, r, fans, limit) && fans != {}
    requires Fair(th, r, fans, limit, Portion(limit, |fans|))
    ensures ThreadAfter(w, th).Some? ==> Fair(ThreadAfter(w, th).value, r, fans, limit, Portion(limit, |fans|))
  {
    ListedIsInterested(w.reg, r);
    hide IndexAgrees, Portion;
    if th.Listing? && th.expired && th.id in fans {
      assert r in InterestsOf(w.reg, th.id);
    }
  }

  lemma LookupIsFair(w: World, th: Thread, x: int, r: int, fans: set<string>, limit: real, share: real)
    requires th.Sharing? && Settled(w, r, fans, limit) && Fair(th, r, fans, limit, share)
    ensures Fair(Looked(w, th, x), r, fans, limit, share)
  {
  }

  lemma ThreadsStayFair(w: World, step: Step, r: int, fans: set<string>, limit: real, served: set<string>)
    requires Enabled(w, step) && Converging(w, r, fans, limit, served)
    ensures forall t | t in Next(w, step).threads ::
              Fair(Next(w, step).threads[t], r, fans, limit, Portion(limit, |fans|))
  {
    hide IndexAgrees, ThreadAfter, Looked, RegAfter, Portion, Settled;
    match step {
      case Go(t) => ThreadStaysFair(w, w.threads[t], r, fans, limit);
      case Divide(t, x) => LookupIsFair(w, w.threads[t], x, r, fans, limit, Portion(limit, |fans|));
      case _ =>
    }
  }

  lemma RatesStayFair(w: World, step: Step, r: int, fans: set<string>, limit: real, served: set<string>, id: string)
    requires Enabled(w, step) && Converging(w, r, fans, limit, served) && id in fans
    requires match step
             case Deliver(t, _) => id in served + {w.threads[t].id}
             case Reset(x) => id in served - {x}
             case _ => id in served
    ensures AtShare(Next(w, step), id, r, Portion(limit, |fans|))
  {
    PortionShrinks(limit, |fans|, |fans|);
    assert id in served ==> id in served * fans && AtShare(w, id, r, Portion(limit, |fans|));
    hide IndexAgrees, ThreadAfter, Looked, RegAfter, Portion, Settled, Reconcile, TryTake;
    match step {
      case Deliver(t, at) =>
        var reply := w.threads[t];
        DeliveredRate(Held(w, reply.id), reply.acc, at, r);
        assert Fair(reply, r, fans, limit, Portion(limit, |fans|));
      case Use(x, q, at) => UsedRate(Held(w, x), q, at, r);
      case _ =>
    }
  }

  lemma {:induction false} SettledRunConverges(w: World, steps: seq<Step>, r: int, fans: set<string>, limit: real)
    requires Legal(w, steps) && StaysSettled(w, steps, r, fans, limit) && Converging(w, r, fans, limit, {})
    ensures Converging(After(w, steps), r, fans, limit, Served(w, steps))
  {
    if steps != [] {
      hide Enabled, Next, AtShare, Fair, Settled, IndexAgrees, Portion;
      var n := |steps| - 1;
      var v, step := After(w, steps[..n]), steps[n];
      SettledRunConverges(w, steps[..n], r, fans, limit);
      StepKeeps(v, step);
      ThreadsStayFair(v, step, r, fans, limit, Served(w, steps[..n]));
      forall id | id in Served(w, steps) * fans
        ensures AtShare(After(w, steps), id, r, Portion(limit, |fans|))
      {
        RatesStayFair(v, step, r, fans, limit, Served(w, steps[..n]), id);
      }
    }
  }

  /**
   * From any state with a consistent index and nothing in flight to the interested clients: if along the run the
   * interested clients and the limit stay the same and each of those clients receives a response, then each holds
   * exactly limit / n, their rates sum exactly to the limit, and this stays so however long the run goes on.
   */
  lemma ConvergesToFairShare(w: World, steps: seq<Step>, r: int, fans: set<string>, limit: real)
    requires IndexAgrees(w.reg.clients, w.reg.index) && NothingInFlight(w, fans) && fans != {} && limit >= 0.0
    requires Legal(w, steps) && StaysSettled(w, steps, r, fans, limit) && fans <= Served(w, steps)
    ensures forall id | id in fans :: RateOf(After(w, steps), id, r) == Portion(limit, |fans|)
    ensures Total(fans, RateBy(After(w, steps), r)) == limit
  {
    StartsConverging(w, steps, r, fans, limit);
    SettledRunConverges(w, steps, r, fans, limit);
    var v := After(w, steps);
    assert Served(w, steps) * fans == fans;
    forall id | id in fans
      ensures RateOf(v, id, r) == Portion(limit, |fans|)
    {
      assert id in Served(w, steps) * fans;
      assert AtShare(v, id, r, Portion(limit, |fans|));
    }
    hide After, StaysSettled, Settled, Converging, Portion;
    TotalUniform(fans, fans, RateBy(v, r), Portion(limit, |fans|));
    assert Copies(|fans|, Portion(limit, |fans|)) == limit by { PortionsAddUp(|fans|, limit); }
  }

  lemma PortionsAddUp(n: nat, limit: real)
    requires n > 0
    ensures Copies(n, Portion(limit, n)) == limit
  {
    SharesAddUp(n, limit);
  }

  lemma {:induction false} StartsConverging(w: World, steps: seq<Step>, r: int, fans: set<string>, limit: real)
    requires IndexAgrees(w.reg.clients, w.reg.index) && NothingInFlight(w, fans) && fans != {} && limit >= 0.0
    requires Legal(w, steps) && StaysSettled(w, steps, r, fans, limit)
    ensures Converging(w, r, fans, limit, {})
  {
    if steps != [] {
      StartsConverging(w, steps[..|steps| - 1], r, fans, limit);
    }
  }
}
