/**
 * The client registry (src/client_registry/client_registry.cc) as a value: its maps, its listener's record of
 * events, and what each critical section makes of them.
 */
module Registry {
  import opened Ids

  datatype Info = Info(last: real, interests: set<int>)

  datatype Event =
    | Joined(id: string)
    | Left(id: string, interests: set<int>)
    | Changed(id: string, added: set<int>, removed: set<int>)

  type Clients = map<string, Info>
  type Index = map<int, set<string>>

  /** `log` is what the listener has been told, oldest first; `listening` says whether one is set. */
  datatype State = State(timeout: real, clients: Clients, index: Index, listening: bool, log: seq<Event>)

  function Empty(timeout: real): State {
    State(timeout, map[], map[], false, [])
  }

  function Listed(index: Index, r: int): set<string> {
    if r in index then index[r] else {}
  }

  function AddTo(index: Index, rs: set<int>, id: string): Index {
    map r | r in index.Keys + rs :: if r in rs then Listed(index, r) + {id} else index[r]
  }

  /** An entry that becomes empty is erased. */
  function DropFrom(index: Index, rs: set<int>, id: string): Index {
    map r | r in index && !(r in rs && index[r] - {id} == {}) :: if r in rs then index[r] - {id} else index[r]
  }

  function Notify(s: State, e: Event): State {
    if s.listening then s.(log := s.log + [e]) else s
  }

  /** Silence has to exceed the timeout: equality is not stale. */
  predicate IsStale(info: Info, timeout: real, now: real) {
    now - info.last > timeout
  }

  function StaleIds(s: State, now: real): set<string> {
    set id | id in s.clients && IsStale(s.clients[id], s.timeout, now)
  }

  function NotStale(clients: Clients, timeout: real, now: real): Clients {
    map id | id in clients && !IsStale(clients[id], timeout, now) :: clients[id]
  }

  /** The stale clients among `todo`, in map order. */
  ghost function StaleList(s: State, now: real, todo: set<string>): seq<string>
    requires todo <= s.clients.Keys
  {
    if todo == {} then [] else
      var id := First(todo);
      (if IsStale(s.clients[id], s.timeout, now) then [id] else []) + StaleList(s, now, todo - {id})
  }

  lemma StaleListNext(s: State, now: real, todo: set<string>, before: seq<string>)
    requires todo != {} && todo <= s.clients.Keys
    ensures var id := First(todo);
            before + StaleList(s, now, todo) ==
            (if IsStale(s.clients[id], s.timeout, now) then before + [id] else before) + StaleList(s, now, todo - {id})
  {
  }

  lemma {:induction false} StaleListElements(s: State, now: real, todo: set<string>)
    requires todo <= s.clients.Keys
    ensures Elements(StaleList(s, now, todo)) == todo * StaleIds(s, now)
  {
    if todo != {} {
      var id := First(todo);
      StaleListElements(s, now, todo - {id});
      var head := if IsStale(s.clients[id], s.timeout, now) then [id] else [];
      assert Elements(head) == {id} * StaleIds(s, now);
      ElementsOfJoin(head, StaleList(s, now, todo - {id}));
    }
  }

  function Remove(s: State, id: string): State {
    if id !in s.clients then s else
      var gone := s.clients[id].interests;
      Notify(s.(clients := s.clients - {id}, index := DropFrom(s.index, gone, id)), Left(id, gone))
  }

  function RemoveAll(s: State, ids: seq<string>): State {
    if ids == [] then s else Remove(RemoveAll(s, ids[..|ids| - 1]), ids[|ids| - 1])
  }

  lemma {:induction false} RemoveAllClients(s: State, ids: seq<string>)
    ensures RemoveAll(s, ids).timeout == s.timeout && RemoveAll(s, ids).listening == s.listening
    ensures RemoveAll(s, ids).clients == s.clients - Elements(ids)
  {
    if ids != [] {
      RemoveAllClients(s, ids[..|ids| - 1]);
    }
  }

  /** The first critical section of every public operation that expires. */
  ghost function Expire(s: State, now: real): State {
    RemoveAll(s, StaleList(s, now, s.clients.Keys))
  }

  lemma ExpireClients(s: State, now: real)
    ensures Expire(s, now).timeout == s.timeout && Expire(s, now).listening == s.listening
    ensures Expire(s, now).clients == s.clients - StaleIds(s, now) == NotStale(s.clients, s.timeout, now)
  {
    StaleListElements(s, now, s.clients.Keys);
    RemoveAllClients(s, StaleList(s, now, s.clients.Keys));
  }

  lemma {:induction false} NothingStale(s: State, now: real, todo: set<string>)
    requires todo <= s.clients.Keys && StaleIds(s, now) == {}
    ensures StaleList(s, now, todo) == []
  {
    if todo != {} {
      NothingStale(s, now, todo - {First(todo)});
      assert First(todo) !in StaleIds(s, now);
    }
  }

  /** Expiring a second time at the same instant changes nothing, and tells the listener nothing. */
  lemma ExpireTwice(s: State, now: real)
    ensures Expire(Expire(s, now), now) == Expire(s, now)
  {
    ExpireClients(s, now);
    NothingStale(Expire(s, now), now, Expire(s, now).clients.Keys);
  }

  // The second critical sections.

  function Join(s: State, id: string, now: real): State {
    if id in s.clients then
      s.(clients := s.clients[id := s.clients[id].(last := now)])
    else
      Notify(s.(clients := s.clients[id := Info(now, {})]), Joined(id))
  }

  function Beat(s: State, id: string, rs: set<int>, now: real): (State, bool) {
    if id !in s.clients then (s, false) else
      var added := rs - s.clients[id].interests;
      var removed := s.clients[id].interests - rs;
      var t := s.(clients := s.clients[id := Info(now, rs)],
                  index := DropFrom(AddTo(s.index, added, id), removed, id));
      (if added != {} || removed != {} then Notify(t, Changed(id, added, removed)) else t, true)
  }

  function InterestsOf(s: State, id: string): set<int> {
    if id in s.clients then s.clients[id].interests else {}
  }

  // The public operations, run without interleaving at one instant.

  ghost function RegisterClient(s: State, id: string, now: real): (State, bool) {
    if id == "" then (s, false) else (Join(Expire(s, now), id, now), true)
  }

  ghost function Heartbeat(s: State, id: string, rs: set<int>, now: real): (State, bool) {
    Beat(Expire(s, now), id, rs, now)
  }

  ghost function UnregisterClient(s: State, id: string, now: real): State {
    Remove(Expire(s, now), id)
  }
}

/** The registry object, with its loops and its in-place updates. */
module ClientRegistries {
  import opened Clocks
  import opened Ids
  import opened Sets
  import opened R = Registry

  lemma AddOne(index: Index, done: set<int>, r: int, id: string)
    requires r !in done
    ensures var part := AddTo(index, done, id);
            AddTo(index, done + {r}, id) == part[r := Listed(part, r) + {id}]
  {
  }

  lemma DropOne(index: Index, done: set<int>, r: int, id: string)
    requires r !in done
    ensures var part := DropFrom(index, done, id);
            var rest := Listed(part, r) - {id};
            DropFrom(index, done + {r}, id) == if rest == {} then part[r := rest] - {r} else part[r := rest]
  {
  }

  class ClientRegistry {
    const heartbeatTimeout: real
    const clock: FakeClock
    var clients: Clients
    var resourceToClients: Index
    var listening: bool
    var log: seq<Event>

    ghost function State(): R.State
      reads this
    {
      R.State(heartbeatTimeout, clients, resourceToClients, listening, log)
    }

    constructor (timeout: real, clock: FakeClock)
      ensures this.clock == clock && State() == R.Empty(timeout)
    {
      this.heartbeatTimeout := timeout;
      this.clock := clock;
      this.clients := map[];
      this.resourceToClients := map[];
      this.listening := false;
      this.log := [];
    }

    method SetListener(present: bool)
      modifies this
      ensures State() == old(State()).(listening := present)
    {
      listening := present;
    }

    method RegisterClient(id: string) returns (ok: bool)
      modifies this
      ensures (State(), ok) == R.RegisterClient(old(State()), id, clock.Now())
    {
      if id == "" {
        return false;
      }
      ExpireStaleClients();
      if id in clients {
        clients := clients[id := clients[id].(last := clock.Now())];
        return true;
      }
      clients := clients[id := Info(clock.Now(), {})];
      Tell(Joined(id));
      return true;
    }

    method Heartbeat(id: string, resourceIds: set<int>) returns (ok: bool)
      modifies this
      ensures (State(), ok) == R.Heartbeat(old(State()), id, resourceIds, clock.Now())
    {
      ExpireStaleClients();
      if id !in clients {
        return false;
      }
      hide AddTo, DropFrom, RemoveAll;
      ghost var start := clients;
      var before := clients[id].interests;
      clients := clients[id := clients[id].(last := clock.Now())];
      var added := resourceIds - before;
      var removed := before - resourceIds;
      IndexAdd(added, id);
      IndexDrop(removed, id);
      clients := clients[id := clients[id].(interests := resourceIds)];
      assert clients == start[id := Info(clock.Now(), resourceIds)];
      if added != {} || removed != {} {
        Tell(Changed(id, added, removed));
      }
      return true;
    }

    method UnregisterClient(id: string) returns (ok: bool)
      modifies this
      ensures ok && State() == R.UnregisterClient(old(State()), id, clock.Now())
    {
      ExpireStaleClients();
      RemoveClient(id);
      return true;
    }

    method GetClientsForResource(r: int) returns (ids: set<string>)
      modifies this
      ensures State() == Expire(old(State()), clock.Now()) && ids == Listed(State().index, r)
    {
      ExpireStaleClients();
      ids := if r in resourceToClients then resourceToClients[r] else {};
    }

    method GetInterestedResources(id: string) returns (rs: set<int>)
      modifies this
      ensures State() == Expire(old(State()), clock.Now()) && rs == InterestsOf(State(), id)
    {
      ExpireStaleClients();
      rs := if id in clients then clients[id].interests else {};
    }

    method GetClientCount() returns (n: nat)
      modifies this
      ensures State() == Expire(old(State()), clock.Now()) && n == |State().clients|
    {
      ExpireStaleClients();
      n := |clients|;
    }

    method IsClientRegistered(id: string) returns (b: bool)
      modifies this
      ensures State() == Expire(old(State()), clock.Now()) && b == (id in State().clients)
    {
      ExpireStaleClients();
      b := id in clients;
    }

    method ExpireStaleClients()
      modifies this
      ensures State() == Expire(old(State()), clock.Now())
    {
      hide Remove, StaleList;
      var stale := CollectStale();
      for i := 0 to |stale|
        invariant State() == RemoveAll(old(State()), stale[..i])
      {
        RemoveClient(stale[i]);
        assert stale[..i + 1][..i] == stale[..i];
      }
      assert stale[..|stale|] == stale;
    }

    /** The stale clients in map order; they cannot be erased while the map is visited. */
    method CollectStale() returns (stale: seq<string>)
      ensures stale == StaleList(State(), clock.Now(), clients.Keys)
    {
      var todo := clients.Keys;
      stale := [];
      ghost var s, now := State(), clock.Now();
      assert StaleList(s, now, {}) == [];
      hide StaleList, IsFirst;
      while todo != {}
        invariant todo <= clients.Keys
        invariant stale + StaleList(s, now, todo) == StaleList(s, now, clients.Keys)
      {
        StaleListNext(s, now, todo, stale);
        var id := Earliest(todo);
        if IsClientStale(clients[id]) {
          stale := stale + [id];
        }
        todo := todo - {id};
      }
    }

    predicate IsClientStale(info: Info)
      reads clock
    {
      var elapsed := clock.Now() - info.last;
      elapsed > heartbeatTimeout
    }

    method RemoveClient(id: string)
      modifies this
      ensures State() == Remove(old(State()), id)
    {
      if id !in clients {
        return;
      }
      var interests := clients[id].interests;
      IndexDrop(interests, id);
      clients := clients - {id};
      Tell(Left(id, interests));
    }

    method IndexAdd(rs: set<int>, id: string)
      modifies this`resourceToClients
      ensures resourceToClients == AddTo(old(resourceToClients), rs, id)
    {
      var todo: set<int>, done: set<int> := rs, {};
      assert AddTo(resourceToClients, done, id) == resourceToClients;
      hide AddTo;
      while todo != {}
        invariant todo + done == rs && todo !! done
        invariant resourceToClients == AddTo(old(resourceToClients), done, id)
      {
        var r := Pick(todo);
        AddOne(old(resourceToClients), done, r, id);
        resourceToClients := resourceToClients[r := Listed(resourceToClients, r) + {id}];
        todo, done := todo - {r}, done + {r};
      }
      assert done == rs;
    }

    /** A missing entry is created by the access, and erased again as empty. */
    method IndexDrop(rs: set<int>, id: string)
      modifies this`resourceToClients
      ensures resourceToClients == DropFrom(old(resourceToClients), rs, id)
    {
      var todo: set<int>, done: set<int> := rs, {};
      assert DropFrom(resourceToClients, done, id) == resourceToClients;
      hide DropFrom;
      while todo != {}
        invariant todo + done == rs && todo !! done
        invariant resourceToClients == DropFrom(old(resourceToClients), done, id)
      {
        var r := Pick(todo);
        DropOne(old(resourceToClients), done, r, id);
        resourceToClients := resourceToClients[r := Listed(resourceToClients, r) - {id}];
        if resourceToClients[r] == {} {
          resourceToClients := resourceToClients - {r};
        }
        todo, done := todo - {r}, done + {r};
      }
      assert done == rs;
    }

    method Tell(e: Event)
      modifies this`log
      ensures State() == Notify(old(State()), e)
    {
      if listening {
        log := log + [e];
      }
    }
  }
}
