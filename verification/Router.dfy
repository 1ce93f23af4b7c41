/** Route selection and the warmup cap as the worker computes them: with loops, a map and a running cap. */
module Router {
  import opened Base
  import opened Routing

  /** Rows of the shared pools by id; of two rows with one id the later would win. */
  method IndexById(pools: seq<Pool>) returns (byId: map<int, Pool>)
    ensures forall id :: id in byId <==> exists p :: p in pools && p.id == id
    ensures forall id :: id in byId ==> byId[id] in pools && byId[id].id == id
  {
    byId := map[];
    for i := 0 to |pools|
      invariant forall id :: id in byId <==> exists p :: p in pools[..i] && p.id == id
      invariant forall id :: id in byId ==> byId[id] in pools[..i] && byId[id].id == id
    {
      assert pools[..i + 1] == pools[..i] + [pools[i]];
      byId := byId[pools[i].id := pools[i]];
    }
    assert pools[..|pools|] == pools;
  }

  /** An id stands for one row. */
  predicate IdsIdentify(pools: seq<Pool>) {
    forall p, q :: p in pools && q in pools && p.id == q.id ==> p == q
  }

  /** With distinct ids the map finds the row a scan would. */
  lemma LookupIsScan(pools: seq<Pool>, byId: map<int, Pool>, id: int)
    requires IdsIdentify(pools)
    requires forall k :: k in byId <==> exists p :: p in pools && p.id == k
    requires forall k :: k in byId ==> byId[k] in pools && byId[k].id == k
    ensures PoolWithId(pools, id) == if id in byId then Some(byId[id]) else None
  {
    PoolWithIdFinds(pools, id);
  }

  /** The first route whose pool is among the given ones, by a scan over the routes. */
  method FindRoute(routes: seq<Route>, pools: seq<Pool>) returns (found: Option<Decision>)
    requires IdsIdentify(pools)
    ensures found == FirstRoute(routes, pools)
  {
    var byId := IndexById(pools);
    for i := 0 to |routes|
      invariant FirstRoute(routes, pools) == FirstRoute(routes[i..], pools)
    {
      if routes[i].pool.Some? {
        LookupIsScan(pools, byId, routes[i].pool.value);
        if routes[i].pool.value in byId {
          return Some(Decision(routes[i], byId[routes[i].pool.value]));
        }
      }
      assert routes[i..][1..] == routes[i + 1..];
    }
    return None;
  }

  lemma SharedIdsIdentify(t: Tables)
    requires UniquePools(t)
    ensures IdsIdentify(SharedPools(t.pools))
  {
    forall p, q | p in SharedPools(t.pools) && q in SharedPools(t.pools) && p.id == q.id ensures p == q {
      SharedPoolsExactly(t.pools, p);
      SharedPoolsExactly(t.pools, q);
    }
  }

  /** The choice the worker makes: a route pinned to the customer's own pool first, then any on a shared pool. */
  method Select(t: Tables, provider: Provider, customer: CustomerId) returns (found: Option<Decision>)
    requires UniquePools(t)
    ensures found == Routing.Select(t, provider, customer)
  {
    var wanted := provider;
    if wanted == "" { wanted := "other"; }
    var routes := RoutesFor(t.routes, wanted);
    if |routes| == 0 { return None; }
    var dedicated := DedicatedPool(t.pools, customer);
    if dedicated.Some? {
      found := FindRoute(routes, [dedicated.value]);
      if found.Some? { return; }
    }
    SharedIdsIdentify(t);
    found := FindRoute(routes, SharedPools(t.pools));
  }

  /** The cap, narrowed step by step. */
  method WarmupCap(p: Pool, now: Time) returns (cap: int)
    ensures cap == Routing.WarmupCap(p, now)
  {
    cap := UNLIMITED;
    if p.warmupStartedAt.Some? {
      var day := DaysElapsed(p.warmupStartedAt.value, now) + 1;
      if day >= 1 && day <= |WARMUP_SCHEDULE| { cap := WARMUP_SCHEDULE[day - 1]; }
    }
    if p.dailyLimit.Some? {
      var limit := p.dailyLimit.value;
      if cap == UNLIMITED || limit < cap { cap := limit; }
    }
  }
}
