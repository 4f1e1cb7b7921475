/** Fair shares (src/resource_manager/resource_manager.cc) as functions of the limits and the registry. */
module Shares {
  import opened Numbers
  import opened Registry
  import opened RegistryLaws

  type Limits = map<int, real>

  /** A negative limit is refused. */
  function SetLimit(limits: Limits, r: int, limit: real): (Limits, bool) {
    if limit < 0.0 then (limits, false) else (limits[r := limit], true)
  }

  function DropLimit(limits: Limits, r: int): Limits {
    limits - {r}
  }

  /** What a limit becomes: the latest non-negative one given, whether there was one before or not. */
  lemma LimitsMean(limits: Limits, r: int, limit: real, x: int)
    ensures SetLimit(limits, r, limit).1 <==> limit >= 0.0
    ensures var after := SetLimit(limits, r, limit).0;
            if x == r && limit >= 0.0 then x in after && after[x] == limit
            else (x in after <==> x in limits) && (x in limits ==> after[x] == limits[x])
    ensures var after := DropLimit(limits, r);
            && (x in after <==> x in limits && x != r) && (x in after ==> after[x] == limits[x])
  {
  }

  function Portion(limit: real, n: nat): real
    requires n > 0
  {
    limit / n as real
  }

  /** The share the registry's index gives a client as it stands. */
  function ShareOf(limits: Limits, reg: State, id: string, r: int): real {
    if r !in limits || id !in Listed(reg.index, r) then 0.0
    else Portion(limits[r], |Listed(reg.index, r)|)
  }

  /** An unconfigured resource is answered without asking the registry, so nobody expires. */
  ghost function GetAllocation(limits: Limits, reg: State, id: string, r: int, now: real): (State, real) {
    if r !in limits then (reg, 0.0)
    else (Expire(reg, now), ShareOf(limits, Expire(reg, now), id, r))
  }

  ghost function GetAllAllocations(limits: Limits, reg: State, id: string, now: real): (State, map<int, real>) {
    var t := Expire(reg, now);
    (t, map r | r in InterestsOf(t, id) :: ShareOf(limits, t, id, r))
  }

  /** The live clients that want a resource: stale ones do not count, whether they have been expired yet or not. */
  ghost function Takers(reg: State, r: int, now: real): set<string> {
    set id | id in reg.clients && now - reg.clients[id].last <= reg.timeout && r in reg.clients[id].interests
  }

  lemma TakersAreListed(reg: State, r: int, now: real)
    requires IndexAgrees(reg.clients, reg.index)
    ensures Listed(Expire(reg, now).index, r) == Takers(reg, r, now)
    ensures Expire(reg, now).clients ==
            map id | id in reg.clients && now - reg.clients[id].last <= reg.timeout :: reg.clients[id]
  {
    ExpireKeeps(reg, now);
    ExpireClients(reg, now);
    ListedIsInterested(Expire(reg, now), r);
    hide Expire, IndexAgrees, Listed;
  }

  /**
   * One share: an unconfigured resource gives nothing and expires nobody; a configured one is divided among the live
   * clients that want it, after the others have been expired.
   */
  lemma AllocationMeans(limits: Limits, reg: State, id: string, r: int, now: real)
    requires IndexAgrees(reg.clients, reg.index)
    ensures var (after, share) := GetAllocation(limits, reg, id, r, now);
            if r !in limits then after == reg && share == 0.0
            else
              && after == Expire(reg, now) && after.clients ==
                 (map x | x in reg.clients && now - reg.clients[x].last <= reg.timeout :: reg.clients[x])
              && share == if id in Takers(reg, r, now) then limits[r] / |Takers(reg, r, now)| as real else 0.0
  {
    TakersAreListed(reg, r, now);
    hide Expire, Takers, IndexAgrees, Listed;
  }

  /** All shares of a client: those of its interests if it is live, and none at all if it is not. */
  lemma AllAllocationsMean(limits: Limits, reg: State, id: string, r: int, now: real)
    requires IndexAgrees(reg.clients, reg.index)
    ensures var (after, shares) := GetAllAllocations(limits, reg, id, now);
            && after == Expire(reg, now) && after.clients ==
               (map x | x in reg.clients && now - reg.clients[x].last <= reg.timeout :: reg.clients[x])
            && (r in shares <==> id in Takers(reg, r, now))
            && (r in shares ==>
                  shares[r] == if r in limits then limits[r] / |Takers(reg, r, now)| as real else 0.0)
  {
    TakersAreListed(reg, r, now);
    var after := Expire(reg, now);
    assert r in InterestsOf(after, id) <==> id in Takers(reg, r, now);
    hide Expire, Takers, IndexAgrees, Listed;
  }

  /** The first share asked for after a limit is set divides that limit. */
  lemma NextShareDivides(limits: Limits, reg: State, id: string, r: int, limit: real, now: real)
    requires IndexAgrees(reg.clients, reg.index) && limit >= 0.0 && id in Takers(reg, r, now)
    ensures GetAllocation(SetLimit(limits, r, limit).0, reg, id, r, now).1 == limit / |Takers(reg, r, now)| as real
    ensures GetAllocation(DropLimit(limits, r), reg, id, r, now).1 == 0.0
  {
    LimitsMean(limits, r, limit, r);
    AllocationMeans(SetLimit(limits, r, limit).0, reg, id, r, now);
    AllocationMeans(DropLimit(limits, r), reg, id, r, now);
    hide GetAllocation, SetLimit, DropLimit, Takers, IndexAgrees;
  }

  function ShareBy(limits: Limits, reg: State, r: int): string -> real {
    (id: string) => ShareOf(limits, reg, id, r)
  }

  /** The shares of a configured resource, summed over any set of clients that includes the interested ones. */
  lemma SharesSumToLimit(limits: Limits, reg: State, r: int, ids: set<string>)
    requires IndexAgrees(reg.clients, reg.index) && r in limits && Interested(reg.clients, r) <= ids
    ensures Total(ids, ShareBy(limits, reg, r)) == if Interested(reg.clients, r) == {} then 0.0 else limits[r]
  {
    var who := Interested(reg.clients, r);
    ListedIsInterested(reg, r);
    if who == {} {
      TotalUniform(ids, {}, ShareBy(limits, reg, r), 0.0);
    } else {
      TotalUniform(ids, who, ShareBy(limits, reg, r), Portion(limits[r], |who|));
      SharesAddUp(|who|, limits[r]);
    }
  }

  lemma ShareBounds(limits: Limits, reg: State, id: string, r: int)
    requires IndexAgrees(reg.clients, reg.index) && r in limits && limits[r] >= 0.0
    ensures 0.0 <= ShareOf(limits, reg, id, r) <= limits[r]
    ensures id !in Interested(reg.clients, r) ==> ShareOf(limits, reg, id, r) == 0.0
    ensures forall other | {id, other} <= Interested(reg.clients, r) ::
              ShareOf(limits, reg, id, r) == ShareOf(limits, reg, other, r)
  {
    ListedIsInterested(reg, r);
    if id in Interested(reg.clients, r) {
      QuotientBounds(limits[r], |Interested(reg.clients, r)|);
    }
  }

  lemma QuotientBounds(x: real, n: nat)
    requires x >= 0.0 && n > 0
    ensures 0.0 <= Portion(x, n) <= x
  {
    var q := Portion(x, n);
    assert q * n as real == x;
    if q < 0.0 {
      ProductSign(-q, n as real);
    } else {
      ProductSign(q, (n - 1) as real);
      Distribute(q, (n - 1) as real, 1.0);
    }
  }
}

/** The resource manager object. It holds no cache: every answer asks the registry again. */
module ResourceManagers {
  import opened Options
  import opened Sets
  import opened R = Registry
  import opened ClientRegistries
  import opened S = Shares

  datatype ResourceInfo = ResourceInfo(rateLimit: real, activeClients: nat)

  class ResourceManager {
    const registry: ClientRegistry
    var limits: Limits

    constructor (registry: ClientRegistry)
      ensures this.registry == registry && limits == map[]
    {
      this.registry := registry;
      this.limits := map[];
    }

    method SetResourceLimit(r: int, limit: real) returns (ok: bool)
      modifies this
      ensures (limits, ok) == SetLimit(old(limits), r, limit)
      ensures ok == (limit >= 0.0) && limits == if ok then old(limits)[r := limit] else old(limits)
    {
      if limit < 0.0 {
        return false;
      }
      limits := limits[r := limit];
      return true;
    }

    method RemoveResource(r: int) returns (removed: bool)
      modifies this
      ensures removed == (r in old(limits)) && limits == DropLimit(old(limits), r)
    {
      removed := r in limits;
      limits := limits - {r};
    }

    method GetResourceInfo(r: int) returns (info: Option<ResourceInfo>)
      modifies registry
      ensures r !in limits ==> info == None && registry.State() == old(registry.State())
      ensures r in limits ==>
        && registry.State() == Expire(old(registry.State()), registry.clock.Now())
        && info == Some(ResourceInfo(limits[r], |Listed(registry.State().index, r)|))
    {
      if r !in limits {
        return None;
      }
      var ids := registry.GetClientsForResource(r);
      return Some(ResourceInfo(limits[r], |ids|));
    }

    method GetAllocation(id: string, r: int) returns (share: real)
      modifies registry
      ensures (registry.State(), share) ==
              S.GetAllocation(limits, old(registry.State()), id, r, registry.clock.Now())
    {
      if r !in limits {
        return 0.0;
      }
      var rateLimit := limits[r];
      var interested := registry.GetClientsForResource(r);
      if id !in interested {
        return 0.0;
      }
      var n := |interested|;
      if n == 0 {
        return 0.0;
      }
      return rateLimit / n as real;
    }

    /** Each share is computed by a new call, which expires again. */
    method GetAllAllocations(id: string) returns (shares: map<int, real>)
      modifies registry
      ensures (registry.State(), shares) ==
              S.GetAllAllocations(limits, old(registry.State()), id, registry.clock.Now())
    {
      ghost var t := Expire(registry.State(), registry.clock.Now());
      ExpireTwice(registry.State(), registry.clock.Now());
      hide Expire;
      shares := map[];
      var todo := registry.GetInterestedResources(id);
      ghost var all := todo;
      while todo != {}
        invariant todo <= all && registry.State() == t
        invariant shares == map r | r in all - todo :: ShareOf(limits, t, id, r)
      {
        var r := Pick(todo);
        var share := GetAllocation(id, r);
        shares := shares[r := share];
        todo := todo - {r};
      }
      assert all - todo == all;
    }
  }
}
