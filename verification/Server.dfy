/** The heartbeat handler (src/server/throttling_server.cc), the glue between registry and manager. */
module HeartbeatHandler {
  import opened Registry
  import opened RegistryLaws
  import opened Shares

  datatype Response = Granted(allocations: map<int, real>) | InvalidArgument | NotFound

  /** The repeated field of the request, de-duplicated. */
  function Requested(resourceIds: seq<int>): set<int> {
    set r | r in resourceIds
  }

  /** The handler run without interleaving at one instant. */
  ghost function Handle(limits: Limits, reg: State, id: string, resourceIds: seq<int>, now: real): (State, Response) {
    if id == "" then (reg, InvalidArgument) else
      var (beaten, ok) := Heartbeat(reg, id, Requested(resourceIds), now);
      if !ok then (beaten, NotFound) else
        var (done, shares) := GetAllAllocations(limits, beaten, id, now);
        (done, Granted(shares))
  }

  /** The same with a manager that asks a registry of its own, with its own clock. */
  ghost function HandleApart(
    limits: Limits, reg: State, asked: State, id: string, resourceIds: seq<int>, now: real, askedAt: real
  ): (State, State, Response) {
    if id == "" then (reg, asked, InvalidArgument) else
      var (beaten, ok) := Heartbeat(reg, id, Requested(resourceIds), now);
      if !ok then (beaten, asked, NotFound) else
        var (done, shares) := GetAllAllocations(limits, asked, id, askedAt);
        (beaten, done, Granted(shares))
  }

  /** The clients a resource is divided among once this caller's heartbeat is recorded. */
  ghost function Sharers(reg: State, id: string, r: int, now: real): set<string> {
    {id} + Interested(NotStale(reg.clients, reg.timeout, now), r)
  }

  lemma BeatLeavesNobodyElseStale(reg: State, id: string, rs: set<int>, now: real)
    requires id in Expire(reg, now).clients && reg.timeout >= 0.0
    ensures var beaten := Heartbeat(reg, id, rs, now).0;
            && Expire(beaten, now) == beaten
            && beaten.clients == NotStale(reg.clients, reg.timeout, now)[id := Info(now, rs)]
  {
    ExpireClients(reg, now);
    var beaten := Heartbeat(reg, id, rs, now).0;
    assert beaten.clients == NotStale(reg.clients, reg.timeout, now)[id := Info(now, rs)];
    assert StaleIds(beaten, now) == {};
    NothingStale(beaten, now, beaten.clients.Keys);
  }

  /** With a negative timeout the caller is stale again at once. */
  lemma BeatIsStaleAtOnce(reg: State, id: string, rs: set<int>, now: real)
    requires id in Expire(reg, now).clients && reg.timeout < 0.0
    ensures id !in Expire(Heartbeat(reg, id, rs, now).0, now).clients
  {
    var beaten := Heartbeat(reg, id, rs, now).0;
    ExpireClients(reg, now);
    ExpireClients(beaten, now);
    assert id in StaleIds(beaten, now);
  }

  lemma BeatenIndex(reg: State, id: string, rs: set<int>, now: real)
    requires IndexAgrees(reg.clients, reg.index)
    ensures IndexAgrees(Heartbeat(reg, id, rs, now).0.clients, Heartbeat(reg, id, rs, now).0.index)
  {
    hide IndexAgrees, Beat;
    ExpireKeeps(reg, now);
    BeatKeepsIndex(Expire(reg, now), id, rs, now);
  }

  /** The limit of each requested resource divided by the number of its sharers, or zero if it has no limit. */
  ghost function FairGrant(limits: Limits, reg: State, id: string, rs: set<int>, now: real): map<int, real> {
    map r | r in rs :: if r in limits then Portion(limits[r], |Sharers(reg, id, r, now)|) else 0.0
  }

  lemma BeatenSharers(reg: State, beaten: State, id: string, rs: set<int>, r: int, now: real)
    requires beaten.clients == NotStale(reg.clients, reg.timeout, now)[id := Info(now, rs)] && r in rs
    requires IndexAgrees(beaten.clients, beaten.index)
    ensures Listed(beaten.index, r) == Sharers(reg, id, r, now)
  {
    ListedIsInterested(beaten, r);
    hide IndexAgrees, NotStale, Listed;
  }

  lemma GrantedAllocations(limits: Limits, reg: State, id: string, rs: set<int>, now: real)
    requires IndexAgrees(reg.clients, reg.index) && id in NotStale(reg.clients, reg.timeout, now)
    requires reg.timeout >= 0.0
    ensures GetAllAllocations(limits, Heartbeat(reg, id, rs, now).0, id, now).1 == FairGrant(limits, reg, id, rs, now)
  {
    var beaten := Heartbeat(reg, id, rs, now).0;
    ExpireClients(reg, now);
    BeatLeavesNobodyElseStale(reg, id, rs, now);
    BeatenIndex(reg, id, rs, now);
    hide Expire, Heartbeat, IndexAgrees, NotStale, Portion, Sharers, Listed;
    forall r | r in rs
      ensures ShareOf(limits, beaten, id, r) ==
              if r in limits then Portion(limits[r], |Sharers(reg, id, r, now)|) else 0.0
    {
      BeatenSharers(reg, beaten, id, rs, r, now);
      assert id in Sharers(reg, id, r, now) by { CallerShares(reg, id, r, now); }
    }
  }

  lemma CallerShares(reg: State, id: string, r: int, now: real)
    ensures id in Sharers(reg, id, r, now)
  {
  }

  lemma RequestedMeans(resourceIds: seq<int>)
    ensures Requested(resourceIds) == (set r | r in resourceIds)
  {
  }

  /**
   * The handler end to end: it fails exactly for the empty id and for clients that are unknown or stale; a success
   * carries exactly the requested resources if and only if the timeout is not negative (or nothing was requested),
   * and then grants each configured one the limit divided by the number of live sharers, the caller included.
   */
  lemma HeartbeatEndToEnd(limits: Limits, reg: State, id: string, resourceIds: seq<int>, now: real)
    requires IndexAgrees(reg.clients, reg.index)
    ensures var rs, response := (set r | r in resourceIds), Handle(limits, reg, id, resourceIds, now).1;
            && (response == InvalidArgument <==> id == "")
            && (response == NotFound <==> id != "" && id !in NotStale(reg.clients, reg.timeout, now))
            && (response.Granted? ==>
                  && (response.allocations.Keys == rs <==> reg.timeout >= 0.0 || rs == {})
                  && (reg.timeout >= 0.0 ==> response.allocations == FairGrant(limits, reg, id, rs, now)))
  {
    var rs := Requested(resourceIds);
    RequestedMeans(resourceIds);
    ExpireClients(reg, now);
    if id != "" && id in Expire(reg, now).clients {
      if reg.timeout >= 0.0 {
        GrantedAllocations(limits, reg, id, rs, now);
        hide Expire, Beat, Sharers, GetAllAllocations, Requested;
        var shares := GetAllAllocations(limits, Heartbeat(reg, id, rs, now).0, id, now).1;
        assert shares.Keys == rs;
      } else {
        BeatIsStaleAtOnce(reg, id, rs, now);
        hide Expire, Beat, Requested;
        assert GetAllAllocations(limits, Heartbeat(reg, id, rs, now).0, id, now).1 == map[];
      }
    }
  }

  /**
   * What the handler leaves in the registry. A refused call changes nothing, or has only expired the stale; a success
   * records the time and exactly the requested resources for the caller, and leaves the other live clients alone.
   */
  lemma HeartbeatRecords(limits: Limits, reg: State, id: string, resourceIds: seq<int>, r: int, now: real)
    requires IndexAgrees(reg.clients, reg.index)
    ensures var (after, response) := Handle(limits, reg, id, resourceIds, now);
            var live := NotStale(reg.clients, reg.timeout, now);
            && IndexAgrees(after.clients, after.index)
            && (response == InvalidArgument ==> after == reg)
            && (response == NotFound ==> after == Expire(reg, now))
            && (response.Granted? ==> after.clients - {id} == live - {id})
            && (response.Granted? && reg.timeout >= 0.0 ==>
                  && (r in response.allocations <==> r in resourceIds)
                  && id in after.clients && after.clients[id].last == now
                  && (r in after.clients[id].interests <==> r in resourceIds))
  {
    var rs := Requested(resourceIds);
    HeartbeatEndToEnd(limits, reg, id, resourceIds, now);
    RequestedMeans(resourceIds);
    ExpireClients(reg, now);
    ExpireKeeps(reg, now);
    var beaten := Heartbeat(reg, id, rs, now).0;
    BeatenIndex(reg, id, rs, now);
    ExpireKeeps(beaten, now);
    if id != "" && id in Expire(reg, now).clients {
      BeatenClients(reg, id, rs, now);
      if reg.timeout >= 0.0 {
        BeatLeavesNobodyElseStale(reg, id, rs, now);
      }
    }
    hide Expire, Beat, Requested, IndexAgrees, NotStale, FairGrant, Sharers;
  }

  /** Whether the caller stays or is stale at once, the others are the live ones. */
  lemma BeatenClients(reg: State, id: string, rs: set<int>, now: real)
    requires id in Expire(reg, now).clients
    ensures var beaten := Heartbeat(reg, id, rs, now).0;
            Expire(beaten, now).clients - {id} == NotStale(reg.clients, reg.timeout, now) - {id}
  {
    ExpireClients(reg, now);
    var beaten := Heartbeat(reg, id, rs, now).0;
    assert beaten.clients == NotStale(reg.clients, reg.timeout, now)[id := Info(now, rs)];
    ExpireClients(beaten, now);
  }

  /** A manager on a registry of its own: the heartbeat is recorded here, the shares are computed there. */
  lemma ApartMeans(
    limits: Limits, reg: State, asked: State, id: string, resourceIds: seq<int>, r: int, now: real, askedAt: real)
    requires IndexAgrees(asked.clients, asked.index)
    ensures var (after, there, response) := HandleApart(limits, reg, asked, id, resourceIds, now, askedAt);
            && (response == InvalidArgument <==> id == "")
            && (response == NotFound <==> id != "" && id !in NotStale(reg.clients, reg.timeout, now))
            && (response == InvalidArgument ==> after == reg)
            && (response == NotFound ==> after == Expire(reg, now))
            && (!response.Granted? ==> there == asked)
            && (response.Granted? ==>
                  && after.clients ==
                     NotStale(reg.clients, reg.timeout, now)[id := Info(now, (set x | x in resourceIds))]
                  && there == Expire(asked, askedAt)
                  && (r in response.allocations <==> id in Takers(asked, r, askedAt))
                  && (r in response.allocations ==>
                        response.allocations[r] ==
                        if r in limits then limits[r] / |Takers(asked, r, askedAt)| as real else 0.0))
  {
    RequestedMeans(resourceIds);
    ExpireClients(reg, now);
    AllAllocationsMean(limits, asked, id, r, askedAt);
    hide Expire, IndexAgrees, Takers, GetAllAllocations, Requested, NotStale;
  }

  /** No heartbeat on record lies in the future: the clock has not gone backwards since. */
  ghost predicate PastOnly(reg: State, now: real) {
    forall id | id in reg.clients :: reg.clients[id].last <= now
  }

  /** Then every success carries exactly the requested resources with their fair grants, whatever the timeout is. */
  lemma SuccessIsComplete(limits: Limits, reg: State, id: string, resourceIds: seq<int>, now: real)
    requires IndexAgrees(reg.clients, reg.index) && PastOnly(reg, now)
    requires Handle(limits, reg, id, resourceIds, now).1.Granted?
    ensures Handle(limits, reg, id, resourceIds, now).1 ==
            Granted(FairGrant(limits, reg, id, (set r | r in resourceIds), now))
  {
    HeartbeatEndToEnd(limits, reg, id, resourceIds, now);
    hide Handle, IndexAgrees, FairGrant;
  }

  /**
   * It takes a negative timeout and a clock gone backwards together to lose grants: the caller is still live when its
   * heartbeat is recorded, and stale when its resources are listed.
   */
  lemma BackwardClockLosesGrants(
    limits: Limits, timeout: real, id: string, resourceIds: seq<int>, registered: real, now: real)
    requires id != "" && timeout < 0.0 && now - registered <= timeout
    ensures var reg := RegisterClient(Empty(timeout), id, registered).0;
            IndexAgrees(reg.clients, reg.index) && Handle(limits, reg, id, resourceIds, now).1 == Granted(map[])
  {
    var reg, rs := RegisterClient(Empty(timeout), id, registered).0, Requested(resourceIds);
    ExpireClients(Empty(timeout), registered);
    NothingStale(Empty(timeout), registered, {});
    JoinKeepsIndex(Empty(timeout), id, registered);
    assert Expire(Empty(timeout), registered) == Empty(timeout);
    assert reg.clients == map[id := Info(registered, {})];
    ExpireClients(reg, now);
    assert id in Expire(reg, now).clients;
    BeatIsStaleAtOnce(reg, id, rs, now);
    hide Expire, Beat, Requested, IndexAgrees, RegisterClient;
    assert GetAllAllocations(limits, Heartbeat(reg, id, rs, now).0, id, now).1 == map[];
  }
}

module ThrottlingServices {
  import opened R = Registry
  import opened ClientRegistries
  import opened Shares
  import opened ResourceManagers
  import opened HeartbeatHandler

  class ThrottlingService {
    const registry: ClientRegistry
    const manager: ResourceManager

    constructor (registry: ClientRegistry, manager: ResourceManager)
      ensures this.registry == registry && this.manager == manager
    {
      this.registry := registry;
      this.manager := manager;
    }

    /** Nothing makes the manager ask the registry that records the heartbeat, so both cases are described. */
    method Heartbeat(id: string, resourceIds: seq<int>) returns (response: Response)
      modifies registry, manager.registry
      ensures manager.registry == registry ==>
                (registry.State(), response) ==
                Handle(manager.limits, old(registry.State()), id, resourceIds, registry.clock.Now())
      ensures manager.registry != registry ==>
                (registry.State(), manager.registry.State(), response) ==
                HandleApart(manager.limits, old(registry.State()), old(manager.registry.State()), id, resourceIds,
                            registry.clock.Now(), manager.registry.clock.Now())
    {
      hide R.Heartbeat, GetAllAllocations;
      if id == "" {
        return InvalidArgument;
      }
      var resources: set<int> := {};
      for i := 0 to |resourceIds|
        invariant resources == Requested(resourceIds[..i])
      {
        resources := resources + {resourceIds[i]};
      }
      assert resourceIds[..|resourceIds|] == resourceIds;
      var ok := registry.Heartbeat(id, resources);
      if !ok {
        return NotFound;
      }
      var allocations := manager.GetAllAllocations(id);
      return Granted(allocations);
    }
  }
}
