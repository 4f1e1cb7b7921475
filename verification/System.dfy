/**
 * The whole service: server threads interleaved at their critical sections, responses that may be lost, delayed or
 * reordered, and the bucket maps of the clients. The registry's lock is taken twice by every operation that expires,
 * once to expire and once for its body; the manager's lock is held over both while a share is computed.
 */
module System {
  import Numbers
  import opened Options
  import opened Buckets
  import opened Registry
  import opened RegistryLaws
  import opened Shares
  import opened ClientRuntime

  /** `expired` tells whether the thread has passed the first of its two critical sections. */
  datatype Thread =
    | Registering(id: string, expired: bool)
    | Unregistering(id: string, expired: bool)
    | Asking(expired: bool)
    | Beating(id: string, resources: set<int>, expired: bool)
    | Listing(id: string, expired: bool)
    | Sharing(id: string, todo: set<int>, acc: map<int, real>)
    | Dividing(id: string, todo: set<int>, acc: map<int, real>, r: int, limit: real, expired: bool)
    | Replying(id: string, acc: map<int, real>)

  datatype World = World(
    reg: State, limits: Limits, now: real, threads: map<nat, Thread>, clients: map<string, BucketMap>)

  datatype Step =
    | Tick(now: real)
    | Spawn(t: nat, thread: Thread)
    | Go(t: nat)
    | Divide(t: nat, r: int)
    | SetLimit(r: int, limit: real)
    | DropLimit(r: int)
    | Deliver(t: nat, at: real)
    | Lose(t: nat)
    | Use(id: string, q: Request, at: real)
    | Reset(id: string)

  /** The server as it is set up: nobody registered, no limits, the listener set. */
  function Start(timeout: real, now: real): World {
    World(Empty(timeout).(listening := true), map[], now, map[], map[])
  }

  /** A call that has been received and has not taken a lock yet. Empty ids are refused before any lock. */
  predicate Received(thread: Thread) {
    match thread
    case Registering(id, expired) => id != "" && !expired
    case Unregistering(_, expired) => !expired
    case Asking(expired) => !expired
    case Beating(id, _, expired) => id != "" && !expired
    case _ => false
  }

  ghost predicate ManagerFree(w: World) {
    forall t | t in w.threads :: !w.threads[t].Dividing?
  }

  ghost predicate Enabled(w: World, step: Step) {
    match step
    case Tick(_) => true
    case Spawn(t, thread) => t !in w.threads && Received(thread)
    case Go(t) =>
      && t in w.threads && !w.threads[t].Replying?
      && (w.threads[t].Sharing? ==> w.threads[t].todo == {})
    case Divide(t, r) => t in w.threads && w.threads[t].Sharing? && r in w.threads[t].todo && ManagerFree(w)
    case SetLimit(_, _) => ManagerFree(w)
    case DropLimit(_) => ManagerFree(w)
    case Deliver(t, _) => t in w.threads && w.threads[t].Replying?
    case Lose(t) => t in w.threads && w.threads[t].Replying?
    case Use(_, _, _) => true
    case Reset(_) => true
  }

  function Held(w: World, id: string): BucketMap {
    if id in w.clients then w.clients[id] else map[]
  }

  /** The share computed in the second section of a query, from the limit read when the manager's lock was taken. */
  function ShareNow(reg: State, id: string, r: int, limit: real): real {
    if id in Listed(reg.index, r) then Portion(limit, |Listed(reg.index, r)|) else 0.0
  }

  /** The registry after a thread's next critical section. */
  ghost function RegAfter(w: World, thread: Thread): State {
    match thread
    case Registering(id, expired) => if !expired then Expire(w.reg, w.now) else Join(w.reg, id, w.now)
    case Unregistering(id, expired) => if !expired then Expire(w.reg, w.now) else Remove(w.reg, id)
    case Asking(expired) => if !expired then Expire(w.reg, w.now) else w.reg
    case Beating(id, rs, expired) => if !expired then Expire(w.reg, w.now) else Beat(w.reg, id, rs, w.now).0
    case Listing(_, expired) => if !expired then Expire(w.reg, w.now) else w.reg
    case Dividing(_, _, _, _, _, expired) => if !expired then Expire(w.reg, w.now) else w.reg
    case _ => w.reg
  }

  /** Where the thread stands after its next critical section, if it goes on. */
  function ThreadAfter(w: World, thread: Thread): Option<Thread> {
    match thread
    case Registering(id, expired) => if !expired then Some(Registering(id, true)) else None
    case Unregistering(id, expired) => if !expired then Some(Unregistering(id, true)) else None
    case Asking(expired) => if !expired then Some(Asking(true)) else None
    case Beating(id, rs, expired) =>
      if !expired then Some(Beating(id, rs, true))
      else if id in w.reg.clients then Some(Listing(id, false)) else None
    case Listing(id, expired) =>
      if !expired then Some(Listing(id, true)) else Some(Sharing(id, InterestsOf(w.reg, id), map[]))
    case Sharing(id, todo, acc) => if todo == {} then Some(Replying(id, acc)) else Some(thread)
    case Dividing(id, todo, acc, r, limit, expired) =>
      if !expired then Some(Dividing(id, todo, acc, r, limit, true))
      else Some(Sharing(id, todo, acc[r := ShareNow(w.reg, id, r, limit)]))
    case Replying(_, _) => Some(thread)
  }

  function Put(threads: map<nat, Thread>, t: nat, thread: Option<Thread>): map<nat, Thread> {
    match thread
    case None => threads - {t}
    case Some(th) => threads[t := th]
  }

  /** The lookup of the limit, under the manager's lock; an unconfigured resource needs no more than that. */
  function Looked(w: World, thread: Thread, r: int): Thread
    requires thread.Sharing?
  {
    if r in w.limits then Dividing(thread.id, thread.todo - {r}, thread.acc, r, w.limits[r], false)
    else Sharing(thread.id, thread.todo - {r}, thread.acc[r := 0.0])
  }

  ghost function Next(w: World, step: Step): World
    requires Enabled(w, step)
  {
    match step
    case Tick(now) => w.(now := now)
    case Spawn(t, thread) => w.(threads := w.threads[t := thread])
    case Go(t) =>
      w.(reg := RegAfter(w, w.threads[t]), threads := Put(w.threads, t, ThreadAfter(w, w.threads[t])))
    case Divide(t, r) => w.(threads := w.threads[t := Looked(w, w.threads[t], r)])
    case SetLimit(r, limit) => w.(limits := Shares.SetLimit(w.limits, r, limit).0)
    case DropLimit(r) => w.(limits := Shares.DropLimit(w.limits, r))
    case Deliver(t, at) =>
      var reply := w.threads[t];
      w.(threads := w.threads - {t}, clients := w.clients[reply.id := Reconcile(Held(w, reply.id), reply.acc, at)])
    case Lose(t) => w.(threads := w.threads - {t})
    case Use(id, q, at) => w.(clients := w.clients[id := TryTake(Held(w, id), q, at).0])
    case Reset(id) => w.(clients := w.clients[id := map[]])
  }

  ghost predicate Legal(w: World, steps: seq<Step>)
    decreases |steps|, 0
  {
    steps == [] || (Legal(w, steps[..|steps| - 1]) && Enabled(After(w, steps[..|steps| - 1]), steps[|steps| - 1]))
  }

  ghost function After(w: World, steps: seq<Step>): World
    requires Legal(w, steps)
    decreases |steps|, 1
  {
    if steps == [] then w else Next(After(w, steps[..|steps| - 1]), steps[|steps| - 1])
  }

  /**
   * Who changes what: only a thread's section changes the registry, only the manager's operations a limit, only the
   * clock the time, and only a response, a request or a stop the buckets of a client, those of that one client.
   */
  lemma StepFrames(w: World, step: Step, id: string, r: int)
    requires Enabled(w, step)
    ensures var v := Next(w, step);
            && (!step.Go? ==> v.reg == w.reg)
            && v.now == (if step.Tick? then step.now else w.now)
            && (r in v.limits <==>
                  if step == DropLimit(r) then false
                  else r in w.limits || (step.SetLimit? && step.r == r && step.limit >= 0.0))
            && (r in v.limits ==>
                  v.limits[r] ==
                  if step.SetLimit? && step.r == r && step.limit >= 0.0 then step.limit else w.limits[r])
            && Held(v, id) ==
               (match step
                case Deliver(t, at) =>
                  if w.threads[t].id == id then Reconcile(Held(w, id), w.threads[t].acc, at) else Held(w, id)
                case Use(x, q, at) => if x == id then TryTake(Held(w, id), q, at).0 else Held(w, id)
                case Reset(x) => if x == id then map[] else Held(w, id)
                case _ => Held(w, id))
            && (step.Deliver? || step.Lose? ==> step.t !in v.threads)
  {
    hide RegAfter, ThreadAfter, Looked, TryTake, Reconcile;
  }

  // What every interleaving of server threads keeps.

  lemma SectionKeeps(w: World, thread: Thread)
    ensures IndexAgrees(w.reg.clients, w.reg.index) ==>
              IndexAgrees(RegAfter(w, thread).clients, RegAfter(w, thread).index)
    ensures LogComplete(w.reg) ==> LogComplete(RegAfter(w, thread))
  {
    hide IndexAgrees, LogComplete, Expire, Join, Beat, Remove;
    ExpireKeeps(w.reg, w.now);
    if IndexAgrees(w.reg.clients, w.reg.index) {
      match thread {
        case Registering(id, _) => JoinKeepsIndex(w.reg, id, w.now);
        case Unregistering(id, _) => RemoveKeepsIndex(w.reg, id);
        case Beating(id, rs, _) => BeatKeepsIndex(w.reg, id, rs, w.now);
        case _ =>
      }
    }
    if LogComplete(w.reg) {
      match thread {
        case Registering(id, _) => JoinKeepsLog(w.reg, id, w.now);
        case Unregistering(id, _) => RemoveKeepsLog(w.reg, id);
        case Beating(id, rs, _) => BeatKeepsLog(w.reg, id, rs, w.now);
        case _ =>
      }
    }
  }

  ghost predicate LimitsFit(w: World) {
    forall r | r in w.limits :: w.limits[r] >= 0.0
  }

  ghost predicate ServerInvariant(w: World) {
    IndexAgrees(w.reg.clients, w.reg.index) && LogComplete(w.reg) && LimitsFit(w)
  }

  lemma StepKeeps(w: World, step: Step)
    requires Enabled(w, step)
    ensures ServerInvariant(w) ==> ServerInvariant(Next(w, step))
    ensures IndexAgrees(w.reg.clients, w.reg.index) ==>
              IndexAgrees(Next(w, step).reg.clients, Next(w, step).reg.index)
  {
    hide IndexAgrees, LogComplete, RegAfter, ThreadAfter, Reconcile, TryTake;
    if step.Go? {
      SectionKeeps(w, w.threads[step.t]);
    }
  }

  /**
   * Whatever the interleaving, after every critical section: the reverse index is the one a rebuild from scratch
   * would give, and replaying the event log gives the registered clients with their interests.
   */
  lemma {:induction false} RegistryConsistent(timeout: real, now: real, steps: seq<Step>)
    requires Legal(Start(timeout, now), steps)
    ensures var w := After(Start(timeout, now), steps);
            && ServerInvariant(w)
            && w.reg.index == Rebuild(w.reg.clients)
            && Replay(w.reg.log) == Roster(w.reg.clients) && Coherent(w.reg.log)
  {
    var w := After(Start(timeout, now), steps);
    assert ServerInvariant(w) by {
      if steps == [] {
        assert forall r, id :: id in Listed(map[], r) <==> Wants(map[], id, r);
        assert Roster(map[]) == map[];
      } else {
        hide ServerInvariant, Enabled, Next, Start;
        RegistryConsistent(timeout, now, steps[..|steps| - 1]);
        StepKeeps(After(Start(timeout, now), steps[..|steps| - 1]), steps[|steps| - 1]);
      }
    }
    AgreesIsRebuilt(w.reg.clients, w.reg.index);
  }

  /** The same from any state that satisfies the invariant. */
  lemma {:induction false} RunKeeps(w: World, steps: seq<Step>)
    requires Legal(w, steps) && ServerInvariant(w)
    ensures ServerInvariant(After(w, steps))
  {
    if steps != [] {
      hide ServerInvariant, Enabled, Next;
      RunKeeps(w, steps[..|steps| - 1]);
      StepKeeps(After(w, steps[..|steps| - 1]), steps[|steps| - 1]);
    }
  }

  /** Every bucket of every client keeps its bounds. */
  ghost predicate SoundClients(w: World) {
    forall id, r | id in w.clients && r in w.clients[id] :: Sound(w.clients[id][r])
  }

  lemma StepKeepsSound(w: World, step: Step)
    requires Enabled(w, step) && SoundClients(w)
    ensures SoundClients(Next(w, step))
  {
    hide RegAfter, ThreadAfter, Looked, SetRate, Fresh, TryConsume;
  }

  lemma {:induction false} RunKeepsSound(w: World, steps: seq<Step>)
    requires Legal(w, steps) && SoundClients(w)
    ensures SoundClients(After(w, steps))
  {
    if steps != [] {
      hide SoundClients, Enabled, Next;
      RunKeepsSound(w, steps[..|steps| - 1]);
      StepKeepsSound(After(w, steps[..|steps| - 1]), steps[|steps| - 1]);
    }
  }

  /**
   * In every reachable state the shares of a configured resource, summed over any clients that include the
   * interested ones, equal its limit, or zero if nobody is interested.
   */
  lemma FairShareConserved(timeout: real, now: real, steps: seq<Step>, r: int, ids: set<string>, id: string)
    requires Legal(Start(timeout, now), steps)
    requires var w := After(Start(timeout, now), steps); r in w.limits && Interested(w.reg.clients, r) <= ids
    ensures var w := After(Start(timeout, now), steps);
            && Numbers.Total(ids, ShareBy(w.limits, w.reg, r)) ==
                 (if Interested(w.reg.clients, r) == {} then 0.0 else w.limits[r])
            && 0.0 <= ShareOf(w.limits, w.reg, id, r) <= w.limits[r]
            && (forall other | {id, other} <= Interested(w.reg.clients, r) ::
                  ShareOf(w.limits, w.reg, id, r) == ShareOf(w.limits, w.reg, other, r))
  {
    RegistryConsistent(timeout, now, steps);
    var w := After(Start(timeout, now), steps);
    SharesSumToLimit(w.limits, w.reg, r, ids);
    ShareBounds(w.limits, w.reg, id, r);
  }
}
