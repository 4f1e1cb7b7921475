/** What every critical section of the registry keeps. */
module RegistryLaws {
  import opened Ids
  import opened Registry

  ghost predicate Wants(clients: Clients, id: string, r: int) {
    id in clients && r in clients[id].interests
  }

  ghost function Interested(clients: Clients, r: int): set<string> {
    set id | id in clients && r in clients[id].interests
  }

  /** The reverse index lists exactly the interested clients and stores no empty set. */
  ghost predicate IndexAgrees(clients: Clients, index: Index) {
    && (forall r | r in index :: index[r] != {})
    && (forall r, id :: id in Listed(index, r) <==> Wants(clients, id, r))
  }

  /** The index computed from scratch. */
  ghost function Rebuild(clients: Clients): Index {
    map r | r in (set id, x | id in clients && x in clients[id].interests :: x) :: Interested(clients, r)
  }

  lemma AgreesIsRebuilt(clients: Clients, index: Index)
    ensures IndexAgrees(clients, index) <==> index == Rebuild(clients)
  {
    var rebuilt := Rebuild(clients);
    forall r, id
      ensures id in Listed(rebuilt, r) <==> Wants(clients, id, r)
    {
    }
    forall r | r in rebuilt
      ensures rebuilt[r] != {}
    {
      var id :| id in clients && r in clients[id].interests;
      assert id in rebuilt[r];
    }
    if IndexAgrees(clients, index) {
      forall r
        ensures Listed(index, r) == Listed(rebuilt, r)
        ensures r in index <==> r in rebuilt
      {
        assert forall id :: id in Listed(index, r) <==> id in Listed(rebuilt, r);
        assert r in index <==> Listed(index, r) != {};
        assert r in rebuilt <==> Listed(rebuilt, r) != {};
      }
      forall r | r in index
        ensures index[r] == rebuilt[r]
      {
        assert index[r] == Listed(index, r);
      }
    }
  }

  lemma ListedIsInterested(s: State, r: int)
    requires IndexAgrees(s.clients, s.index)
    ensures Listed(s.index, r) == Interested(s.clients, r)
  {
    forall id
      ensures id in Listed(s.index, r) <==> id in Interested(s.clients, r)
    {
      assert id in Listed(s.index, r) <==> Wants(s.clients, id, r);
    }
  }

  lemma ListedAfterAdd(index: Index, rs: set<int>, id: string, r: int)
    ensures Listed(AddTo(index, rs, id), r) == Listed(index, r) + if r in rs then {id} else {}
  {
  }

  lemma ListedAfterDrop(index: Index, rs: set<int>, id: string, r: int)
    ensures Listed(DropFrom(index, rs, id), r) == Listed(index, r) - if r in rs then {id} else {}
  {
  }

  // The critical sections, one by one.

  lemma RemoveKeepsIndex(s: State, id: string)
    requires IndexAgrees(s.clients, s.index)
    ensures IndexAgrees(Remove(s, id).clients, Remove(s, id).index)
  {
    if id in s.clients {
      var gone, t := s.clients[id].interests, Remove(s, id);
      forall r, x
        ensures x in Listed(t.index, r) <==> Wants(t.clients, x, r)
      {
        ListedAfterDrop(s.index, gone, id, r);
        assert x in Listed(s.index, r) <==> Wants(s.clients, x, r);
      }
    }
  }

  lemma BeatKeepsIndex(s: State, id: string, rs: set<int>, now: real)
    requires IndexAgrees(s.clients, s.index)
    ensures IndexAgrees(Beat(s, id, rs, now).0.clients, Beat(s, id, rs, now).0.index)
  {
    if id in s.clients {
      var was := s.clients[id].interests;
      var t := Beat(s, id, rs, now).0;
      forall r, x
        ensures x in Listed(t.index, r) <==> Wants(t.clients, x, r)
      {
        ListedAfterAdd(s.index, rs - was, id, r);
        ListedAfterDrop(AddTo(s.index, rs - was, id), was - rs, id, r);
        assert x in Listed(s.index, r) <==> Wants(s.clients, x, r);
      }
    }
  }

  lemma JoinKeepsIndex(s: State, id: string, now: real)
    requires IndexAgrees(s.clients, s.index)
    ensures IndexAgrees(Join(s, id, now).clients, Join(s, id, now).index)
  {
    var t := Join(s, id, now);
    forall r, x
      ensures x in Listed(t.index, r) <==> Wants(t.clients, x, r)
    {
      assert x in Listed(s.index, r) <==> Wants(s.clients, x, r);
    }
  }

  // The event log.

  /** The registered clients and their interests, as a listener can know them. */
  function Roster(clients: Clients): map<string, set<int>> {
    map id | id in clients :: clients[id].interests
  }

  function Apply(roster: map<string, set<int>>, e: Event): map<string, set<int>> {
    match e
    case Joined(id) => roster[id := {}]
    case Left(id, _) => roster - {id}
    case Changed(id, added, removed) =>
      roster[id := (if id in roster then roster[id] else {}) + added - removed]
  }

  function Replay(log: seq<Event>): map<string, set<int>> {
    if log == [] then map[] else Apply(Replay(log[..|log| - 1]), log[|log| - 1])
  }

  /** The event says only what is news to a listener holding this roster. */
  ghost predicate Apt(roster: map<string, set<int>>, e: Event) {
    match e
    case Joined(id) => id !in roster
    case Left(id, interests) => id in roster && interests == roster[id]
    case Changed(id, added, removed) =>
      id in roster && added !! roster[id] && removed <= roster[id] && added + removed != {}
  }

  ghost predicate Coherent(log: seq<Event>) {
    log == [] || (Coherent(log[..|log| - 1]) && Apt(Replay(log[..|log| - 1]), log[|log| - 1]))
  }

  /** A listener set from the start has been told everything, and nothing that was not news. */
  ghost predicate LogComplete(s: State) {
    s.listening && Coherent(s.log) && Replay(s.log) == Roster(s.clients)
  }

  lemma NotifyKeepsLog(s: State, t: State, e: Event)
    requires LogComplete(s) && t.listening && t.log == s.log + [e]
    requires Apt(Roster(s.clients), e) && Apply(Roster(s.clients), e) == Roster(t.clients)
    ensures LogComplete(t)
  {
    assert t.log[..|s.log|] == s.log;
  }

  lemma RemoveKeepsLog(s: State, id: string)
    requires LogComplete(s)
    ensures LogComplete(Remove(s, id))
  {
    if id in s.clients {
      assert Roster(s.clients) - {id} == Roster(s.clients - {id});
      NotifyKeepsLog(s, Remove(s, id), Left(id, s.clients[id].interests));
    }
  }

  lemma JoinKeepsLog(s: State, id: string, now: real)
    requires LogComplete(s)
    ensures LogComplete(Join(s, id, now))
  {
    if id in s.clients {
      assert Roster(Join(s, id, now).clients) == Roster(s.clients);
    } else {
      assert Roster(s.clients)[id := {}] == Roster(s.clients[id := Info(now, {})]);
      NotifyKeepsLog(s, Join(s, id, now), Joined(id));
    }
  }

  lemma BeatKeepsLog(s: State, id: string, rs: set<int>, now: real)
    requires LogComplete(s)
    ensures LogComplete(Beat(s, id, rs, now).0)
  {
    if id in s.clients {
      var was, t := s.clients[id].interests, Beat(s, id, rs, now).0;
      assert was + (rs - was) - (was - rs) == rs;
      assert Roster(s.clients)[id := rs] == Roster(t.clients);
      if rs == was {
        assert Roster(s.clients) == Roster(t.clients);
      } else {
        NotifyKeepsLog(s, t, Changed(id, rs - was, was - rs));
      }
    }
  }

  lemma {:induction false} RemoveAllKeeps(s: State, ids: seq<string>)
    ensures IndexAgrees(s.clients, s.index) ==> IndexAgrees(RemoveAll(s, ids).clients, RemoveAll(s, ids).index)
    ensures LogComplete(s) ==> LogComplete(RemoveAll(s, ids))
  {
    if ids != [] {
      hide Remove, IndexAgrees, LogComplete;
      var front := RemoveAll(s, ids[..|ids| - 1]);
      RemoveAllKeeps(s, ids[..|ids| - 1]);
      if IndexAgrees(s.clients, s.index) {
        RemoveKeepsIndex(front, ids[|ids| - 1]);
      }
      if LogComplete(s) {
        RemoveKeepsLog(front, ids[|ids| - 1]);
      }
    }
  }

  lemma ExpireKeeps(s: State, now: real)
    ensures IndexAgrees(s.clients, s.index) ==> IndexAgrees(Expire(s, now).clients, Expire(s, now).index)
    ensures LogComplete(s) ==> LogComplete(Expire(s, now))
  {
    RemoveAllKeeps(s, StaleList(s, now, s.clients.Keys));
  }

  // What the whole operations tell the listener.

  /** The events of clients leaving with the interests they have. */
  function Leaving(clients: Clients, ids: seq<string>): seq<Event>
    requires forall id | id in ids :: id in clients
  {
    if ids == [] then [] else
      var n := |ids| - 1;
      assert forall id | id in ids[..n] :: id in ids;
      Leaving(clients, ids[..n]) + [Left(ids[n], clients[ids[n]].interests)]
  }

  lemma {:induction false} StaleListAscends(s: State, now: real, todo: set<string>)
    requires todo <= s.clients.Keys
    ensures Ascending(StaleList(s, now, todo))
  {
    if todo != {} {
      var id := First(todo);
      var rest := StaleList(s, now, todo - {id});
      StaleListAscends(s, now, todo - {id});
      StaleListElements(s, now, todo - {id});
      forall x | x in rest
        ensures Before(id, x)
      {
        ElementsAre(rest, x);
      }
    }
  }

  lemma AscendingIsDistinct(ids: seq<string>)
    requires Ascending(ids) && ids != []
    ensures ids[|ids| - 1] !in ids[..|ids| - 1] && Ascending(ids[..|ids| - 1])
  {
    var n := |ids| - 1;
    forall i | 0 <= i < n
      ensures ids[i] != ids[n]
    {
      BeforeIsStrict(ids[i], ids[n]);
    }
  }

  lemma {:induction false} RemoveAllTells(s: State, ids: seq<string>)
    requires Ascending(ids) && forall id | id in ids :: id in s.clients
    ensures RemoveAll(s, ids).log == s.log + if s.listening then Leaving(s.clients, ids) else []
  {
    if ids != [] {
      var n := |ids| - 1;
      assert forall id | id in ids[..n] :: id in ids;
      assert ids[n] in ids;
      AscendingIsDistinct(ids);
      RemoveAllTells(s, ids[..n]);
      RemoveAllClients(s, ids[..n]);
      ElementsAre(ids[..n], ids[n]);
      hide DropFrom, Elements, Ascending;
    }
  }

  /** An expiry tells of exactly the stale clients, in the order of their ids, each with the interests it had. */
  lemma ExpiryTells(s: State, now: real) returns (ids: seq<string>)
    ensures Ascending(ids) && forall id :: id in ids <==> id in s.clients && now - s.clients[id].last > s.timeout
    ensures Expire(s, now).log == s.log + if s.listening then Leaving(s.clients, ids) else []
  {
    ids := StaleList(s, now, s.clients.Keys);
    StaleListAscends(s, now, s.clients.Keys);
    StaleListElements(s, now, s.clients.Keys);
    forall id
      ensures id in ids <==> id in StaleIds(s, now)
    {
      ElementsAre(ids, id);
    }
    hide StaleList;
    RemoveAllTells(s, ids);
  }

  /** After the expiry, each operation tells of what it changed, and of nothing else. */
  lemma OperationsTell(s: State, id: string, rs: set<int>, now: real)
    ensures var e := Expire(s, now);
            var was := if id in e.clients then e.clients[id].interests else {};
            && RegisterClient(s, id, now).0.log ==
               (if id == "" then s.log
                else e.log + if s.listening && id !in e.clients then [Joined(id)] else [])
            && Heartbeat(s, id, rs, now).0.log ==
               e.log + (if s.listening && id in e.clients && rs != was then [Changed(id, rs - was, was - rs)] else [])
            && UnregisterClient(s, id, now).log ==
               e.log + if s.listening && id in e.clients then [Left(id, was)] else []
  {
    ExpireClients(s, now);
    hide Expire, AddTo, DropFrom;
  }

  /** Whole operations keep the log complete. */
  lemma OperationsKeepLog(s: State, id: string, rs: set<int>, now: real)
    requires LogComplete(s)
    ensures LogComplete(RegisterClient(s, id, now).0)
    ensures LogComplete(Heartbeat(s, id, rs, now).0)
    ensures LogComplete(UnregisterClient(s, id, now))
  {
    hide Expire, LogComplete, Join, Beat, Remove;
    ExpireKeeps(s, now);
    var e := Expire(s, now);
    JoinKeepsLog(e, id, now);
    BeatKeepsLog(e, id, rs, now);
    RemoveKeepsLog(e, id);
  }

  /** After an unregistration the client is in no map; everybody else is as the expiry left them. */
  lemma UnregisterMeans(s: State, id: string, now: real, r: int)
    requires IndexAgrees(s.clients, s.index)
    ensures var t := UnregisterClient(s, id, now);
            && t.clients == Expire(s, now).clients - {id} && t.timeout == s.timeout && t.listening == s.listening
            && id !in Listed(t.index, r) && Listed(t.index, r) == Listed(Expire(s, now).index, r) - {id}
            && IndexAgrees(t.clients, t.index)
  {
    ExpireKeeps(s, now);
    ExpireClients(s, now);
    var e := Expire(s, now);
    RemoveKeepsIndex(e, id);
    ListedIsInterested(e, r);
    ListedIsInterested(UnregisterClient(s, id, now), r);
    hide Expire, IndexAgrees, Listed, DropFrom;
  }

  /** After a registration the client is there, heard now, with the interests it had or none. */
  lemma RegisterMeans(s: State, id: string, now: real, r: int)
    requires IndexAgrees(s.clients, s.index) && id != ""
    ensures var (e, t) := (Expire(s, now), RegisterClient(s, id, now).0);
            && t.clients == e.clients[id := Info(now, if id in e.clients then e.clients[id].interests else {})]
            && t.timeout == s.timeout && t.listening == s.listening && Listed(t.index, r) == Listed(e.index, r)
            && IndexAgrees(t.clients, t.index)
  {
    ExpireKeeps(s, now);
    ExpireClients(s, now);
    JoinKeepsIndex(Expire(s, now), id, now);
    hide Expire, IndexAgrees;
  }
}
