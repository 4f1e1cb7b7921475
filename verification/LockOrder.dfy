/**
 * The locks of the server: the manager's, the registry's and the clock's. Each operation is the sequence of lock
 * actions its code performs; the listener's callbacks are those of the resource manager, which take no lock.
 */
module LockOrder {
  datatype Lock = Manager | Registry | Clock

  datatype Act = Take(lock: Lock) | Release(lock: Lock)

  function Rank(lock: Lock): nat {
    match lock
    case Manager => 0
    case Registry => 1
    case Clock => 2
  }

  // What the operations do.

  /** Reading the clock n times. */
  function Reads(n: nat): seq<Act> {
    if n == 0 then [] else Reads(n - 1) + [Take(Clock), Release(Clock)]
  }

  /** A critical section of the registry with n clock looks. */
  function Section(n: nat): seq<Act> {
    [Take(Registry)] + Reads(n) + [Release(Registry)]
  }

  /** Expiry looks the clock once per client; a body looks it at most once. */
  function Query(clients: nat, looks: nat): seq<Act> {
    Section(clients) + Section(looks)
  }

  /** One computation of a share: how many clients the expiry visits, or nothing if the resource has no limit. */
  datatype Share = Unconfigured | Configured(clients: nat)

  function Allocation(share: Share): seq<Act> {
    [Take(Manager)] + (if share.Configured? then Query(share.clients, 0) else []) + [Release(Manager)]
  }

  function Allocations(shares: seq<Share>): seq<Act> {
    if shares == [] then [] else Allocations(shares[..|shares| - 1]) + Allocation(shares[|shares| - 1])
  }

  /** The numbers are the clients visited by each expiry, which no order of locks depends on. */
  datatype Op =
    | SetListener
    | Register(clients: nat)
    | Heartbeat(clients: nat, registered: bool)
    | UnregisterOrAsk(clients: nat)
    | ChangeLimit
    | GetAllocation(share: Share)
    | HandleHeartbeat(clients: nat, registered: bool, listing: nat, shares: seq<Share>)

  function Program(op: Op): seq<Act> {
    match op
    case SetListener => Section(0)
    case Register(n) => Query(n, 1)
    case Heartbeat(n, registered) => Query(n, if registered then 1 else 0)
    case UnregisterOrAsk(n) => Query(n, 0)
    case ChangeLimit => [Take(Manager), Release(Manager)]
    case GetAllocation(share) => Allocation(share)
    case HandleHeartbeat(n, registered, m, shares) =>
      if !registered then Query(n, 0) else Query(n, 1) + Query(m, 0) + Allocations(shares)
  }

  // The lock order.

  ghost predicate Above(lock: Lock, held: set<Lock>) {
    forall l | l in held :: Rank(l) < Rank(lock)
  }

  /**
   * From `held`, the actions lead to `end`; every lock taken ranks above all locks held, so none is taken twice, and
   * the clock is only looked at under the registry's lock.
   */
  ghost predicate Ordered(held: set<Lock>, todo: seq<Act>, end: set<Lock>)
    decreases |todo|
  {
    if todo == [] then held == end else
      match todo[0]
      case Take(lock) =>
        && Above(lock, held) && (lock == Clock ==> Registry in held)
        && Ordered(held + {lock}, todo[1..], end)
      case Release(lock) => lock in held && Ordered(held - {lock}, todo[1..], end)
  }

  lemma {:induction false} OrderedJoin(a: set<Lock>, p: seq<Act>, b: set<Lock>, q: seq<Act>, c: set<Lock>)
    requires Ordered(a, p, b) && Ordered(b, q, c)
    ensures Ordered(a, p + q, c)
    decreases |p|
  {
    if p == [] {
      assert p + q == q;
    } else {
      assert (p + q)[1..] == p[1..] + q;
      match p[0] {
        case Take(lock) => OrderedJoin(a + {lock}, p[1..], b, q, c);
        case Release(lock) => OrderedJoin(a - {lock}, p[1..], b, q, c);
      }
    }
  }

  lemma Around(held: set<Lock>, lock: Lock, p: seq<Act>)
    requires Above(lock, held) && (lock == Clock ==> Registry in held)
    requires Ordered(held + {lock}, p, held + {lock})
    ensures Ordered(held, [Take(lock)] + p + [Release(lock)], held)
  {
    assert lock !in held;
    assert held + {lock} - {lock} == held;
    assert [Release(lock)][1..] == [];
    assert Ordered(held + {lock}, [Release(lock)], held);
    OrderedJoin(held + {lock}, p, held + {lock}, [Release(lock)], held);
    assert ([Take(lock)] + (p + [Release(lock)]))[1..] == p + [Release(lock)];
    assert [Take(lock)] + p + [Release(lock)] == [Take(lock)] + (p + [Release(lock)]);
  }

  lemma {:induction false} ReadsOrdered(held: set<Lock>, n: nat)
    requires Above(Clock, held) && Registry in held
    ensures Ordered(held, Reads(n), held)
  {
    if n > 0 {
      ReadsOrdered(held, n - 1);
      Around(held, Clock, []);
      assert [Take(Clock)] + [] + [Release(Clock)] == [Take(Clock), Release(Clock)];
      OrderedJoin(held, Reads(n - 1), held, [Take(Clock), Release(Clock)], held);
    }
  }

  lemma SectionOrdered(held: set<Lock>, n: nat)
    requires Above(Registry, held)
    ensures Ordered(held, Section(n), held)
  {
    ReadsOrdered(held + {Registry}, n);
    Around(held, Registry, Reads(n));
  }

  lemma QueryOrdered(held: set<Lock>, n: nat, looks: nat)
    requires Above(Registry, held)
    ensures Ordered(held, Query(n, looks), held)
  {
    SectionOrdered(held, n);
    SectionOrdered(held, looks);
    OrderedJoin(held, Section(n), held, Section(looks), held);
  }

  lemma AllocationOrdered(share: Share)
    ensures Ordered({}, Allocation(share), {})
  {
    if share.Configured? {
      QueryOrdered({} + {Manager}, share.clients, 0);
      Around({}, Manager, Query(share.clients, 0));
    } else {
      Around({}, Manager, []);
    }
  }

  lemma {:induction false} AllocationsOrdered(shares: seq<Share>)
    ensures Ordered({}, Allocations(shares), {})
  {
    if shares != [] {
      AllocationsOrdered(shares[..|shares| - 1]);
      AllocationOrdered(shares[|shares| - 1]);
      OrderedJoin({}, Allocations(shares[..|shares| - 1]), {}, Allocation(shares[|shares| - 1]), {});
    }
  }

  /** Every operation takes locks only in the order manager, registry, clock, and ends holding none. */
  lemma ProgramsOrdered(op: Op)
    ensures Ordered({}, Program(op), {})
  {
    hide Ordered;
    match op {
      case SetListener => SectionOrdered({}, 0);
      case Register(n) => QueryOrdered({}, n, 1);
      case Heartbeat(n, registered) => QueryOrdered({}, n, if registered then 1 else 0);
      case UnregisterOrAsk(n) => QueryOrdered({}, n, 0);
      case ChangeLimit =>
        AllocationOrdered(Unconfigured);
        assert Allocation(Unconfigured) == [Take(Manager), Release(Manager)];
      case GetAllocation(share) => AllocationOrdered(share);
      case HandleHeartbeat(n, registered, m, shares) =>
        QueryOrdered({}, n, if registered then 1 else 0);
        QueryOrdered({}, m, 0);
        AllocationsOrdered(shares);
        if registered {
          OrderedJoin({}, Query(n, 1), {}, Query(m, 0), {});
          OrderedJoin({}, Query(n, 1) + Query(m, 0), {}, Allocations(shares), {});
        }
    }
  }

  // What each operation takes, and how often.

  function Takes(todo: seq<Act>, lock: Lock): nat {
    if todo == [] then 0 else
      Takes(todo[..|todo| - 1], lock) + if todo[|todo| - 1] == Take(lock) then 1 else 0
  }

  lemma {:induction false} TakesJoin(p: seq<Act>, q: seq<Act>, lock: Lock)
    ensures Takes(p + q, lock) == Takes(p, lock) + Takes(q, lock)
  {
    if q == [] {
      assert p + q == p;
    } else {
      assert (p + q)[..|p + q| - 1] == p + q[..|q| - 1];
      TakesJoin(p, q[..|q| - 1], lock);
    }
  }

  /** k if it is the lock in question. */
  function Of(x: Lock, k: nat, lock: Lock): nat {
    if lock == x then k else 0
  }

  lemma TakesAround(p: seq<Act>, x: Lock, lock: Lock)
    ensures Takes([Take(x)] + p + [Release(x)], lock) == Takes(p, lock) + Of(x, 1, lock)
  {
    var first, last := [Take(x)], [Release(x)];
    assert first[..0] == [] && last[..0] == [] && first[0] == Take(x) && last[0] == Release(x);
    assert Takes(first, lock) == Takes([], lock) + Of(x, 1, lock) && Takes(last, lock) == Takes([], lock);
    TakesJoin([Take(x)] + p, [Release(x)], lock);
    TakesJoin([Take(x)], p, lock);
  }

  lemma {:induction false} ReadsTake(n: nat, lock: Lock)
    ensures Takes(Reads(n), lock) == Of(Clock, n, lock)
  {
    if n > 0 {
      ReadsTake(n - 1, lock);
      TakesAround([], Clock, lock);
      assert [Take(Clock)] + [] + [Release(Clock)] == [Take(Clock), Release(Clock)];
      TakesJoin(Reads(n - 1), [Take(Clock), Release(Clock)], lock);
    }
  }

  lemma SectionTakes(n: nat, lock: Lock)
    ensures Takes(Section(n), lock) == Of(Registry, 1, lock) + Of(Clock, n, lock)
  {
    ReadsTake(n, lock);
    TakesAround(Reads(n), Registry, lock);
  }

  lemma QueryTakes(n: nat, looks: nat, lock: Lock)
    ensures Takes(Query(n, looks), lock) == Of(Registry, 2, lock) + Of(Clock, n + looks, lock)
  {
    SectionTakes(n, lock);
    SectionTakes(looks, lock);
    TakesJoin(Section(n), Section(looks), lock);
  }

  /** Locks taken for one share: the manager's once, the registry's twice if the resource has a limit. */
  function ShareTakes(share: Share, lock: Lock): nat {
    match lock
    case Manager => 1
    case Registry => if share.Configured? then 2 else 0
    case Clock => if share.Configured? then share.clients else 0
  }

  function SharesTake(shares: seq<Share>, lock: Lock): nat {
    if shares == [] then 0 else SharesTake(shares[..|shares| - 1], lock) + ShareTakes(shares[|shares| - 1], lock)
  }

  /** The manager's lock is taken first, once, and released last: it is held over both sections of the query. */
  lemma AllocationHolds(share: Share, lock: Lock)
    ensures var a := Allocation(share);
            && Takes(a, lock) == ShareTakes(share, lock)
            && a[0] == Take(Manager) && a[|a| - 1] == Release(Manager)
  {
    if share.Configured? {
      QueryTakes(share.clients, 0, lock);
      TakesAround(Query(share.clients, 0), Manager, lock);
    } else {
      TakesAround([], Manager, lock);
    }
  }

  lemma {:induction false} AllocationsTake(shares: seq<Share>, lock: Lock)
    ensures Takes(Allocations(shares), lock) == SharesTake(shares, lock)
  {
    if shares != [] {
      var n := |shares| - 1;
      AllocationsTake(shares[..n], lock);
      AllocationHolds(shares[n], lock);
      TakesJoin(Allocations(shares[..n]), Allocation(shares[n]), lock);
    }
  }

  /** How often an operation takes each lock: the registry's once to expire and once for the body. */
  function OpTakes(op: Op, lock: Lock): nat {
    match op
    case SetListener => Of(Registry, 1, lock)
    case Register(n) => Of(Registry, 2, lock) + Of(Clock, n + 1, lock)
    case Heartbeat(n, registered) => Of(Registry, 2, lock) + Of(Clock, if registered then n + 1 else n, lock)
    case UnregisterOrAsk(n) => Of(Registry, 2, lock) + Of(Clock, n, lock)
    case ChangeLimit => Of(Manager, 1, lock)
    case GetAllocation(share) => ShareTakes(share, lock)
    case HandleHeartbeat(n, registered, m, shares) =>
      if !registered then Of(Registry, 2, lock) + Of(Clock, n, lock)
      else Of(Registry, 4, lock) + Of(Clock, n + 1 + m, lock) + SharesTake(shares, lock)
  }

  lemma HandlerTakes(n: nat, m: nat, shares: seq<Share>, lock: Lock)
    ensures Takes(Query(n, 1) + Query(m, 0) + Allocations(shares), lock) ==
            Of(Registry, 4, lock) + Of(Clock, n + 1 + m, lock) + SharesTake(shares, lock)
  {
    hide Takes, Query, Allocations;
    QueryTakes(n, 1, lock);
    QueryTakes(m, 0, lock);
    AllocationsTake(shares, lock);
    TakesJoin(Query(n, 1) + Query(m, 0), Allocations(shares), lock);
    TakesJoin(Query(n, 1), Query(m, 0), lock);
  }

  lemma ProgramsTake(op: Op, lock: Lock)
    ensures Takes(Program(op), lock) == OpTakes(op, lock)
  {
    hide Takes, Section, Query;
    match op {
      case SetListener => SectionTakes(0, lock);
      case Register(n) => QueryTakes(n, 1, lock);
      case Heartbeat(n, registered) => QueryTakes(n, if registered then 1 else 0, lock);
      case UnregisterOrAsk(n) => QueryTakes(n, 0, lock);
      case ChangeLimit =>
        AllocationHolds(Unconfigured, lock);
        assert Allocation(Unconfigured) == [Take(Manager), Release(Manager)];
      case GetAllocation(share) => AllocationHolds(share, lock);
      case HandleHeartbeat(n, registered, m, shares) =>
        QueryTakes(n, 0, lock);
        HandlerTakes(n, m, shares, lock);
    }
  }

  // All interleavings.

  datatype Thread = Thread(held: set<Lock>, todo: seq<Act>)

  type Threads = map<nat, Thread>

  datatype Step = Spawn(t: nat, op: Op) | Go(t: nat)

  ghost predicate Free(ts: Threads, lock: Lock) {
    forall t | t in ts :: lock !in ts[t].held
  }

  /** A thread can go on if it has something left to do and is not waiting for a lock that is held, even by itself. */
  ghost predicate CanStep(ts: Threads, t: nat) {
    t in ts && ts[t].todo != [] && (ts[t].todo[0].Take? ==> Free(ts, ts[t].todo[0].lock))
  }

  ghost predicate Enabled(ts: Threads, step: Step) {
    match step
    case Spawn(t, _) => t !in ts
    case Go(t) => CanStep(ts, t)
  }

  ghost function Next(ts: Threads, step: Step): Threads
    requires Enabled(ts, step)
  {
    match step
    case Spawn(t, op) => ts[t := Thread({}, Program(op))]
    case Go(t) =>
      var act, rest := ts[t].todo[0], ts[t].todo[1..];
      ts[t := Thread(if act.Take? then ts[t].held + {act.lock} else ts[t].held - {act.lock}, rest)]
  }

  ghost predicate Legal(steps: seq<Step>)
    decreases |steps|, 0
  {
    steps == [] || (Legal(steps[..|steps| - 1]) && Enabled(After(steps[..|steps| - 1]), steps[|steps| - 1]))
  }

  ghost function After(steps: seq<Step>): Threads
    requires Legal(steps)
    decreases |steps|, 1
  {
    if steps == [] then map[] else Next(After(steps[..|steps| - 1]), steps[|steps| - 1])
  }

  ghost predicate AllOrdered(ts: Threads) {
    forall t | t in ts :: Ordered(ts[t].held, ts[t].todo, {})
  }

  /** A lock is held by one thread at most. */
  ghost predicate Exclusive(ts: Threads) {
    forall t, u, lock | t in ts && u in ts && t != u && lock in ts[t].held :: lock !in ts[u].held
  }

  lemma StepKeepsOrder(ts: Threads, step: Step)
    requires Enabled(ts, step) && AllOrdered(ts) && Exclusive(ts)
    ensures AllOrdered(Next(ts, step)) && Exclusive(Next(ts, step))
  {
    hide Above;
    match step {
      case Spawn(t, op) => ProgramsOrdered(op);
      case Go(t) => assert Ordered(ts[t].held, ts[t].todo, {});
    }
  }

  lemma {:induction false} RunsKeepOrder(steps: seq<Step>)
    requires Legal(steps)
    ensures AllOrdered(After(steps)) && Exclusive(After(steps))
  {
    if steps != [] {
      hide AllOrdered, Exclusive, Enabled, Next;
      RunsKeepOrder(steps[..|steps| - 1]);
      StepKeepsOrder(After(steps[..|steps| - 1]), steps[|steps| - 1]);
    }
  }

  /** A thread that holds the highest lock in use is not waiting. */
  lemma HighestCanStep(ts: Threads, t: nat, lock: Lock)
    requires AllOrdered(ts) && t in ts && lock in ts[t].held
    requires forall l: Lock | Rank(l) > Rank(lock) :: Free(ts, l)
    ensures CanStep(ts, t)
  {
    assert Ordered(ts[t].held, ts[t].todo, {});
  }

  /**
   * Deadlock freedom: in every reachable interleaving of server operations with an unfinished thread, some thread can
   * take a step.
   */
  lemma DeadlockFree(steps: seq<Step>, t: nat)
    requires Legal(steps) && t in After(steps) && After(steps)[t].todo != []
    ensures exists u :: CanStep(After(steps), u)
  {
    RunsKeepOrder(steps);
    SomeoneCanStep(After(steps), t);
  }

  lemma SomeoneCanStep(ts: Threads, t: nat)
    requires AllOrdered(ts) && t in ts && ts[t].todo != []
    ensures exists u :: CanStep(ts, u)
  {
    hide AllOrdered, CanStep, Ordered;
    if !Free(ts, Clock) {
      var u := Holder(ts, Clock);
      HighestCanStep(ts, u, Clock);
    } else if !Free(ts, Registry) {
      var u := Holder(ts, Registry);
      HighestCanStep(ts, u, Registry);
    } else if !Free(ts, Manager) {
      var u := Holder(ts, Manager);
      HighestCanStep(ts, u, Manager);
    } else {
      UnfinishedCanStep(ts, t);
    }
  }

  lemma Holder(ts: Threads, lock: Lock) returns (u: nat)
    requires !Free(ts, lock)
    ensures u in ts && lock in ts[u].held
  {
    u :| u in ts && lock in ts[u].held;
  }

  /** If no lock is held at all, every unfinished thread can go on. */
  lemma UnfinishedCanStep(ts: Threads, t: nat)
    requires AllOrdered(ts) && t in ts && ts[t].todo != []
    requires Free(ts, Manager) && Free(ts, Registry) && Free(ts, Clock)
    ensures CanStep(ts, t)
  {
    assert Ordered(ts[t].held, ts[t].todo, {});
    var lock := ts[t].todo[0].lock;
    assert Free(ts, lock) by { assert lock == Manager || lock == Registry || lock == Clock; }
  }

  /** No thread ever takes a lock it already holds. */
  lemma NeverRetaken(steps: seq<Step>, t: nat)
    requires Legal(steps) && t in After(steps) && After(steps)[t].todo != [] && After(steps)[t].todo[0].Take?
    ensures After(steps)[t].todo[0].lock !in After(steps)[t].held
  {
    RunsKeepOrder(steps);
    assert Ordered(After(steps)[t].held, After(steps)[t].todo, {});
  }

  // The no-op callbacks matter: what a listener that takes the manager's lock would do.

  /** An expiry that finds a stale client, with such a callback. */
  function LoudExpiry(clients: nat): seq<Act> {
    [Take(Registry)] + (Reads(clients) + ([Take(Manager), Release(Manager)] + [Release(Registry)]))
  }

  /** The computation of a share whose expiry finds a stale client. */
  function LoudAllocation(clients: nat): seq<Act> {
    [Take(Manager)] + (LoudExpiry(clients) + (Section(0) + [Release(Manager)]))
  }

  /** Thread t can take k steps, and they lead from ts to us. */
  ghost predicate Leads(ts: Threads, t: nat, k: nat, us: Threads) {
    if k == 0 then ts == us else CanStep(ts, t) && Leads(Next(ts, Go(t)), t, k - 1, us)
  }

  lemma {:induction false} LeadsOn(ts: Threads, t: nat, k: nat, us: Threads, m: nat, vs: Threads)
    requires Leads(ts, t, k, us) && Leads(us, t, m, vs)
    ensures Leads(ts, t, k + m, vs)
    decreases k
  {
    if k > 0 {
      LeadsOn(Next(ts, Go(t)), t, k - 1, us, m, vs);
    }
  }

  function Only(t: nat, held: set<Lock>, todo: seq<Act>): Threads {
    map[t := Thread(held, todo)]
  }

  lemma TakeLeads(t: nat, held: set<Lock>, lock: Lock, rest: seq<Act>)
    requires lock !in held
    ensures Leads(Only(t, held, [Take(lock)] + rest), t, 1, Only(t, held + {lock}, rest))
  {
    var ts := Only(t, held, [Take(lock)] + rest);
    assert ts[t].todo[0] == Take(lock) && ts[t].todo[1..] == rest;
    assert Next(ts, Go(t)) == Only(t, held + {lock}, rest);
    assert Leads(Next(ts, Go(t)), t, 0, Only(t, held + {lock}, rest));
  }

  lemma ReleaseLeads(t: nat, held: set<Lock>, lock: Lock, rest: seq<Act>)
    requires lock !in held
    ensures Leads(Only(t, held + {lock}, [Release(lock)] + rest), t, 1, Only(t, held, rest))
  {
    var ts := Only(t, held + {lock}, [Release(lock)] + rest);
    assert ts[t].todo[0] == Release(lock) && ts[t].todo[1..] == rest && held + {lock} - {lock} == held;
    assert Next(ts, Go(t)) == Only(t, held, rest);
    assert Leads(Next(ts, Go(t)), t, 0, Only(t, held, rest));
  }

  lemma {:induction false} ReadsLead(t: nat, held: set<Lock>, n: nat, rest: seq<Act>)
    requires Clock !in held
    ensures Leads(Only(t, held, Reads(n) + rest), t, 2 * n, Only(t, held, rest))
  {
    if n == 0 {
      assert Reads(n) + rest == rest;
    } else {
      hide Leads;
      var once := [Take(Clock)] + ([Release(Clock)] + rest);
      assert Reads(n) + rest == Reads(n - 1) + once;
      ReadsLead(t, held, n - 1, once);
      TakeLeads(t, held, Clock, [Release(Clock)] + rest);
      ReleaseLeads(t, held, Clock, rest);
      var start, mid := Only(t, held, Reads(n) + rest), Only(t, held, once);
      LeadsOn(start, t, 2 * (n - 1), mid, 1, Only(t, held + {Clock}, [Release(Clock)] + rest));
      LeadsOn(start, t, 2 * (n - 1) + 1, Only(t, held + {Clock}, [Release(Clock)] + rest), 1, Only(t, held, rest));
    }
  }

  /**
   * A listener that took the manager's lock would stop the thread that computes a share for good: whenever the expiry
   * on its way finds a stale client among any number, the thread comes to wait for the lock it holds itself.
   */
  lemma LockingListenerWouldStick(t: nat, clients: nat) returns (stuck: Threads)
    ensures Leads(Only(t, {}, LoudAllocation(clients)), t, 2 + 2 * clients, stuck)
    ensures t in stuck && stuck[t].todo != [] && !exists u :: CanStep(stuck, u)
  {
    var tail := [Take(Manager), Release(Manager)] + [Release(Registry)] + (Section(0) + [Release(Manager)]);
    var expiry := Reads(clients) + tail;
    assert LoudAllocation(clients) == [Take(Manager)] + ([Take(Registry)] + expiry);
    TakeLeads(t, {}, Manager, [Take(Registry)] + expiry);
    TakeLeads(t, {} + {Manager}, Registry, expiry);
    ReadsLead(t, {} + {Manager} + {Registry}, clients, tail);
    stuck := Only(t, {} + {Manager} + {Registry}, tail);
    assert tail[0] == Take(Manager) && !Free(stuck, Manager) by { assert Manager in stuck[t].held; }
    assert !exists u :: CanStep(stuck, u);
    hide Leads, LoudAllocation, Section, Reads, Only, CanStep;
    var start := Only(t, {}, LoudAllocation(clients));
    var inner := Only(t, {} + {Manager} + {Registry}, expiry);
    LeadsOn(start, t, 1, Only(t, {} + {Manager}, [Take(Registry)] + expiry), 1, inner);
    LeadsOn(start, t, 2, inner, 2 * clients, stuck);
  }
}
