/** The client runtime (src/client/throttling_client.cc) as values: its buckets, its queue and what each step does. */
module ClientRuntime {
  import Numbers
  import opened Buckets

  type BucketMap = map<int, Bucket>

  /** A callback is an opaque identifier; running it is recorded in a log. */
  datatype Request = Request(id: nat, resource: int, count: real)

  /** Bucket lookup and consumption in one step. */
  function TryTake(buckets: BucketMap, q: Request, now: real): (BucketMap, bool) {
    if q.resource !in buckets then (buckets, false) else
      var (b, ok) := TryConsume(buckets[q.resource], q.count, now);
      (buckets[q.resource := b], ok)
  }

  /** An existing bucket is re-rated after a refill at the old rate; a new one is full with one second of tokens. */
  function Rerated(buckets: BucketMap, r: int, rate: real, now: real): Bucket {
    if r in buckets then SetRate(buckets[r], rate, now) else Fresh(rate, -1.0, now)
  }

  /** The buckets after a heartbeat response: exactly the allocated resources. */
  function Reconcile(buckets: BucketMap, allocations: map<int, real>, now: real): BucketMap {
    map r | r in allocations :: Rerated(buckets, r, allocations[r], now)
  }

  /**
   * Reconciliation, one resource at a time: a surviving bucket keeps its burst and the tokens it earned at the old
   * rate, whatever the new rate is, and earns at the new rate, clamped at zero, from now on; a new bucket starts full
   * with a burst of one second; no other bucket is left.
   */
  lemma ReconcileMeans(buckets: BucketMap, allocations: map<int, real>, now: real, r: int, later: real)
    requires now <= later && forall x | x in buckets :: Sound(buckets[x])
    ensures var after := Reconcile(buckets, allocations, now);
            && (r in after <==> r in allocations)
            && (r in allocations ==>
                  var rate := Numbers.Max(0.0, allocations[r]);
                  && after[r].rate == rate
                  && (r in buckets ==>
                        && after[r].burst == buckets[r].burst
                        && Refill(after[r], later).tokens ==
                             Numbers.Min(Refill(buckets[r], now).tokens + Gain(rate, now, later), buckets[r].burst))
                  && (r !in buckets ==> Refill(after[r], later).tokens == after[r].burst == rate))
  {
    if r in allocations {
      var rate := Numbers.Max(0.0, allocations[r]);
      Numbers.ProductSign(later - now, rate);
      assert Gain(rate, now, later) >= 0.0;
    }
  }

  /** The buckets after the allocations in `done` have been visited and before anything is erased. */
  function Visited(buckets: BucketMap, allocations: map<int, real>, done: set<int>, now: real): BucketMap
    requires done <= allocations.Keys
  {
    map r | r in buckets.Keys + done :: if r in done then Rerated(buckets, r, allocations[r], now) else buckets[r]
  }

  lemma VisitOne(buckets: BucketMap, allocations: map<int, real>, done: set<int>, r: int, now: real)
    requires done + {r} <= allocations.Keys && r !in done
    ensures var part := Visited(buckets, allocations, done, now);
            Visited(buckets, allocations, done + {r}, now) == part[r := Rerated(part, r, allocations[r], now)]
  {
    hide SetRate, Fresh;
  }

  lemma VisitNone(buckets: BucketMap, allocations: map<int, real>, now: real)
    ensures Visited(buckets, allocations, {}, now) == buckets
  {
  }

  lemma VisitAll(buckets: BucketMap, allocations: map<int, real>, erased: BucketMap, now: real)
    requires erased.Keys == allocations.Keys
    requires forall r | r in erased :: erased[r] == Visited(buckets, allocations, allocations.Keys, now)[r]
    ensures erased == Reconcile(buckets, allocations, now)
  {
    hide Rerated;
  }

  datatype Turn = Turn(buckets: BucketMap, queue: seq<Request>, ran: seq<Request>)

  /** One iteration of the worker: pop the head, try it, run it or put it back in front. */
  function WorkerTurn(buckets: BucketMap, queue: seq<Request>, now: real): Turn {
    if queue == [] then Turn(buckets, queue, []) else
      var (bs, ok) := TryTake(buckets, queue[0], now);
      if ok then Turn(bs, queue[1..], [queue[0]]) else Turn(bs, [queue[0]] + queue[1..], [])
  }

  /** The worker's loop, its iterations taking place at the given times. */
  function Polls(buckets: BucketMap, queue: seq<Request>, times: seq<real>): Turn {
    if times == [] then Turn(buckets, queue, []) else
      var n := |times| - 1;
      var before := Polls(buckets, queue, times[..n]);
      var turn := WorkerTurn(before.buckets, before.queue, times[n]);
      turn.(ran := before.ran + turn.ran)
  }
}

/** The client's side of the protocol: the remote calls it makes over its life. */
module ClientCalls {
  /** The remote calls the client makes. */
  datatype Call =
    | RegisterClient(id: string)
    | UnregisterClient(id: string)
    | Heartbeat(id: string, resources: set<int>)

  /** Whether the client runs, and what it has sent, oldest first. */
  datatype Line = Line(running: bool, sent: seq<Call>)

  /** `registered` is what the registration call returns. */
  datatype Action = Starting(registered: bool) | Beating | Stopping

  /** Heartbeats are sent while the client runs; a start sends the first one itself. */
  function Speak(line: Line, a: Action, id: string, interests: set<int>): Line {
    match a
    case Starting(registered) =>
      if line.running then line
      else if !registered then line.(sent := line.sent + [RegisterClient(id)])
      else Line(true, line.sent + [RegisterClient(id)] + [Heartbeat(id, interests)])
    case Beating => if line.running then line.(sent := line.sent + [Heartbeat(id, interests)]) else line
    case Stopping => if line.running then Line(false, line.sent + [UnregisterClient(id)]) else line
  }

  /** Actions, each with the interests at its time. */
  function Talk(actions: seq<(Action, set<int>)>, id: string): Line {
    if actions == [] then Line(false, []) else
      var n := |actions| - 1;
      Speak(Talk(actions[..n], id), actions[n].0, id, actions[n].1)
  }

  /** There is a registration, and no unregistration after the latest. */
  predicate Open(sent: seq<Call>) {
    sent != [] &&
    match sent[|sent| - 1]
    case RegisterClient(_) => true
    case UnregisterClient(_) => false
    case Heartbeat(_, _) => Open(sent[..|sent| - 1])
  }

  /** Every heartbeat and every unregistration comes after a registration, with no unregistration in between. */
  predicate Orderly(sent: seq<Call>) {
    sent == [] ||
    (var front := sent[..|sent| - 1];
     Orderly(front) && (sent[|sent| - 1].RegisterClient? || Open(front)))
  }

  lemma SayOneMore(sent: seq<Call>, call: Call)
    requires Orderly(sent) && (call.RegisterClient? || Open(sent))
    ensures Orderly(sent + [call])
    ensures Open(sent + [call]) <==> !call.UnregisterClient?
  {
    assert (sent + [call])[..|sent|] == sent;
  }

  /** The calls of a client's life are orderly, carry its id, and are open to heartbeats while it runs. */
  lemma {:induction false} TalkIsOrderly(actions: seq<(Action, set<int>)>, id: string)
    ensures var line := Talk(actions, id);
            && Orderly(line.sent) && (line.running ==> Open(line.sent))
            && forall call | call in line.sent :: call.id == id
  {
    if actions != [] {
      var n := |actions| - 1;
      var line, rs := Talk(actions[..n], id), actions[n].1;
      TalkIsOrderly(actions[..n], id);
      hide Orderly, Open, Talk;
      match actions[n].0 {
        case Starting(registered) =>
          SayOneMore(line.sent, RegisterClient(id));
          SayOneMore(line.sent + [RegisterClient(id)], Heartbeat(id, rs));
        case Beating =>
          if line.running {
            SayOneMore(line.sent, Heartbeat(id, rs));
          }
        case Stopping =>
          if line.running {
            SayOneMore(line.sent, UnregisterClient(id));
          }
      }
    }
  }
}

/** The client object. The mutexes, threads and condition variables are the business of module ClientRuns. */
module ThrottlingClients {
  import opened Clocks
  import opened Sets
  import opened TokenBuckets
  import Buckets
  import opened ClientRuntime
  import opened ClientCalls

  datatype Reply = Failed | Allocated(allocations: map<int, real>)

  class ThrottlingClient {
    const clientId: string
    const clock: FakeClock
    var interests: set<int>
    var buckets: map<int, TokenBucket>
    var queue: seq<Request>
    var running: bool
    var executed: seq<Request>
    var sent: seq<Call>

    ghost predicate Valid()
      reads this`buckets
    {
      && (forall r | r in buckets :: buckets[r].clock == clock)
      && (forall r, q | r in buckets && q in buckets && r != q :: buckets[r] != buckets[q])
    }

    ghost function View(): BucketMap
      reads this`buckets, buckets.Values
    {
      map r | r in buckets :: buckets[r].State()
    }

    constructor (clientId: string, clock: FakeClock)
      ensures Valid() && this.clientId == clientId && this.clock == clock && !running
      ensures View() == map[] && queue == [] && executed == [] && interests == {} && sent == []
    {
      this.clientId := clientId;
      this.clock := clock;
      this.interests := {};
      this.buckets := map[];
      this.queue := [];
      this.running := false;
      this.executed := [];
      this.sent := [];
    }

    method SetResourceInterests(resources: set<int>)
      modifies this`interests
      ensures interests == resources
    {
      interests := resources;
    }

    /** Lookup and consumption, as both `Acquire` and the worker do them. */
    method TryBucket(q: Request) returns (ok: bool)
      requires Valid()
      modifies buckets.Values
      ensures Valid() && (View(), ok) == TryTake(old(View()), q, clock.Now())
    {
      if q.resource !in buckets {
        return false;
      }
      var bucket := buckets[q.resource];
      ok := bucket.TryConsume(q.count);
      assert forall r | r in buckets && r != q.resource :: buckets[r].State() == old(buckets[r].State());
      assert View() == old(View())[q.resource := bucket.State()];
    }

    method Acquire(q: Request)
      requires Valid()
      modifies this`queue, this`executed, buckets.Values
      ensures Valid()
      ensures View() == TryTake(old(View()), q, clock.Now()).0
      ensures if TryTake(old(View()), q, clock.Now()).1
              then executed == old(executed) + [q] && queue == old(queue)
              else executed == old(executed) && queue == old(queue) + [q]
    {
      var ok := TryBucket(q);
      if ok {
        executed := executed + [q];
        return;
      }
      queue := queue + [q];
    }

    /** The body of the worker's loop. */
    method WorkerIteration()
      requires Valid()
      modifies this`queue, this`executed, buckets.Values
      ensures Valid()
      ensures var turn := WorkerTurn(old(View()), old(queue), clock.Now());
              View() == turn.buckets && queue == turn.queue && executed == old(executed) + turn.ran
    {
      if queue == [] {
        return;
      }
      hide TryTake, View;
      var q := queue[0];
      queue := queue[1..];
      Attempt(q);
    }

    /** The request in the worker's hand runs, or goes back to the front of the queue. */
    method Attempt(q: Request)
      requires Valid()
      modifies this`queue, this`executed, buckets.Values
      ensures Valid() && View() == TryTake(old(View()), q, clock.Now()).0
      ensures if TryTake(old(View()), q, clock.Now()).1
              then executed == old(executed) + [q] && queue == old(queue)
              else executed == old(executed) && queue == [q] + old(queue)
    {
      var ok := TryBucket(q);
      hide TryTake, View, Valid;
      if ok {
        executed := executed + [q];
      } else {
        queue := [q] + queue;
      }
    }

    /** The worker's loop, woken at the given times while the client is running. */
    method WorkerLoop(times: seq<real>)
      requires Valid() && running
      modifies this`queue, this`executed, buckets.Values, clock
      ensures Valid()
      ensures var turn := Polls(old(View()), old(queue), times);
              View() == turn.buckets && queue == turn.queue && executed == old(executed) + turn.ran
    {
      hide WorkerTurn, View, Valid;
      var i := 0;
      while running && i < |times|
        invariant i <= |times| && Valid() && buckets == old(buckets)
        invariant var turn := Polls(old(View()), old(queue), times[..i]);
                  View() == turn.buckets && queue == turn.queue && executed == old(executed) + turn.ran
      {
        clock.SetTime(times[i]);
        WorkerIteration();
        assert times[..i + 1][..i] == times[..i];
        i := i + 1;
      }
      assert times[..|times|] == times;
    }

    method UpdateTokenBuckets(allocations: map<int, real>)
      requires Valid()
      modifies this`buckets, buckets.Values
      ensures Valid() && View() == Reconcile(old(View()), allocations, clock.Now())
      ensures fresh(buckets.Values - old(buckets.Values))
    {
      UpdateOrCreateAll(allocations);
      label visited:
      assert buckets.Keys == View().Keys;
      RemoveUnallocated(allocations.Keys);
      assert forall r | r in buckets :: View()[r] == old@visited(View())[r];
      VisitAll(old(View()), allocations, View(), clock.Now());
    }

    /** The loop over the allocations. */
    method UpdateOrCreateAll(allocations: map<int, real>)
      requires Valid()
      modifies this`buckets, buckets.Values
      ensures Valid() && View() == Visited(old(View()), allocations, allocations.Keys, clock.Now())
      ensures fresh(buckets.Values - old(buckets.Values))
    {
      var todo := allocations.Keys;
      ghost var before, owned, done: set<int> := View(), buckets.Values, {};
      VisitNone(before, allocations, clock.Now());
      hide Visited, Rerated, View, Valid;
      while todo != {}
        invariant Valid() && todo !! done && todo + done == allocations.Keys
        invariant fresh(buckets.Values - owned)
        invariant View() == Visited(before, allocations, done, clock.Now())
      {
        var r := Pick(todo);
        VisitOne(before, allocations, done, r, clock.Now());
        UpdateOrCreate(r, allocations[r]);
        todo, done := todo - {r}, done + {r};
      }
      assert done == allocations.Keys;
    }

    method UpdateOrCreate(r: int, rate: real)
      requires Valid()
      modifies this`buckets, buckets.Values
      ensures Valid() && View() == old(View())[r := Rerated(old(View()), r, rate, clock.Now())]
      ensures fresh(buckets.Values - old(buckets.Values))
    {
      hide Buckets.SetRate, Buckets.Fresh, Buckets.Sound;
      if r in buckets {
        buckets[r].SetRate(rate);
        assert forall q | q in buckets && q != r :: buckets[q].State() == old(buckets[q].State());
        assert View() == old(View())[r := buckets[r].State()];
      } else {
        var bucket := new TokenBucket(rate, -1.0, clock);
        assert forall q | q in buckets :: buckets[q].State() == old(buckets[q].State());
        buckets := buckets[r := bucket];
        assert View() == old(View())[r := bucket.State()];
      }
    }

    /** The erase-while-iterating loop. */
    method RemoveUnallocated(granted: set<int>)
      requires Valid() && granted <= buckets.Keys
      modifies this`buckets
      ensures Valid() && buckets.Keys == granted
      ensures forall r | r in buckets :: buckets[r] == old(buckets)[r]
      ensures buckets.Values <= old(buckets.Values)
    {
      var ahead := buckets.Keys;
      while ahead != {}
        invariant ahead <= buckets.Keys == granted + ahead
        invariant buckets.Keys <= old(buckets).Keys
        invariant forall r | r in buckets :: buckets[r] == old(buckets)[r]
        invariant buckets.Values <= old(buckets.Values)
      {
        var r := Pick(ahead);
        if r !in granted {
          buckets := buckets - {r};
        }
        ahead := ahead - {r};
      }
    }

    /** `reply` is what the remote call returned. A failure changes no bucket. */
    method SendHeartbeat(reply: Reply) returns (ok: bool)
      requires Valid()
      modifies this`buckets, this`sent, buckets.Values
      ensures Valid() && ok == reply.Allocated?
      ensures sent == old(sent) + [Heartbeat(clientId, interests)]
      ensures running ==> Line(running, sent) == Speak(old(Line(running, sent)), Beating, clientId, interests)
      ensures View() == if ok then Reconcile(old(View()), reply.allocations, clock.Now()) else old(View())
    {
      sent := sent + [Heartbeat(clientId, interests)];
      if reply.Failed? {
        return false;
      }
      UpdateTokenBuckets(reply.allocations);
      return true;
    }

    /** `registered` is what the registration call returned, `reply` what the initial heartbeat does. */
    method Start(registered: bool, reply: Reply) returns (ok: bool)
      requires Valid()
      modifies this`running, this`buckets, this`sent, buckets.Values
      ensures Valid() && ok == (old(running) || registered) && running == ok
      ensures Line(running, sent) == Speak(old(Line(running, sent)), Starting(registered), clientId, interests)
      ensures old(running) ==> sent == old(sent)
      ensures !old(running) && !registered ==> sent == old(sent) + [RegisterClient(clientId)]
      ensures !old(running) && registered ==>
                sent == old(sent) + [RegisterClient(clientId)] + [Heartbeat(clientId, interests)]
      ensures View() == if !old(running) && registered && reply.Allocated?
                        then Reconcile(old(View()), reply.allocations, clock.Now()) else old(View())
    {
      if running {
        return true;
      }
      sent := sent + [RegisterClient(clientId)];
      if !registered {
        return false;
      }
      hide View, Valid, Reconcile;
      running := true;
      var _ := SendHeartbeat(reply);
      return true;
    }

    /** With the threads joined: the buckets and the queue are cleared, nothing else runs. */
    method Stop()
      requires Valid()
      modifies this`running, this`buckets, this`queue, this`sent
      ensures Valid() && !running
      ensures Line(running, sent) == Speak(old(Line(running, sent)), Stopping, clientId, interests)
      ensures if old(running) then View() == map[] && queue == [] && sent == old(sent) + [UnregisterClient(clientId)]
              else buckets == old(buckets) && queue == old(queue) && sent == old(sent)
    {
      if !running {
        return;
      }
      running := false;
      sent := sent + [UnregisterClient(clientId)];
      buckets := map[];
      queue := [];
    }
  }
}
