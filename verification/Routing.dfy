/** Route and IP-pool selection, and the warmup / daily cap of a pool. */
module Routing {
  import opened Base

  datatype PoolKind = Shared | Dedicated
  datatype Pool = Pool(id: int, kind: PoolKind, customer: Option<CustomerId>,
                       warmupStartedAt: Option<Time>, dailyLimit: Option<int>)
  datatype Route = Route(id: int, provider: Provider, pool: Option<int>, enabled: bool)
  datatype Decision = Decision(route: Route, pool: Pool)

  /** The routes and ip_pools tables, in the order a query returns their rows. */
  datatype Tables = Tables(routes: seq<Route>, pools: seq<Pool>)

  /** pools.id is a primary key. */
  predicate UniquePools(t: Tables) {
    forall i, j :: 0 <= i < j < |t.pools| ==> t.pools[i].id != t.pools[j].id
  }

  function EffectiveProvider(p: Provider): Provider { if p == "" then "other" else p }

  // The queries.

  function RoutesFor(routes: seq<Route>, provider: Provider): seq<Route> {
    if routes == [] then []
    else (if routes[0].provider == provider && routes[0].enabled then [routes[0]] else [])
         + RoutesFor(routes[1..], provider)
  }

  function DedicatedPool(pools: seq<Pool>, customer: CustomerId): Option<Pool> {
    if pools == [] then None
    else if pools[0].kind == Dedicated && pools[0].customer == Some(customer) then Some(pools[0])
    else DedicatedPool(pools[1..], customer)
  }

  function SharedPools(pools: seq<Pool>): seq<Pool> {
    if pools == [] then []
    else (if pools[0].kind == Shared then [pools[0]] else []) + SharedPools(pools[1..])
  }

  // The selection rule.

  /** r may carry the customer's mail for the provider through pool p. */
  predicate Serves(t: Tables, provider: Provider, r: Route, p: Pool) {
    && r in t.routes && r.enabled && r.provider == (if provider == "" then "other" else provider)
    && p in t.pools && r.pool == Some(p.id)
  }

  predicate OwnPool(p: Pool, customer: CustomerId) { p.kind == Dedicated && p.customer == Some(customer) }

  /** The first row of pools that is dedicated to the customer. */
  ghost predicate FirstOwn(pools: seq<Pool>, customer: CustomerId, p: Pool) {
    exists k: nat :: FirstOwnAt(pools, customer, p, k)
  }

  predicate FirstOwnAt(pools: seq<Pool>, customer: CustomerId, p: Pool, k: nat) {
    k < |pools| && pools[k] == p && OwnPool(p, customer) && forall i :: 0 <= i < k ==> !OwnPool(pools[i], customer)
  }

  ghost predicate ServesDedicated(t: Tables, provider: Provider, customer: CustomerId, r: Route, p: Pool) {
    Serves(t, provider, r, p) && FirstOwn(t.pools, customer, p)
  }

  predicate ServesShared(t: Tables, provider: Provider, r: Route, p: Pool) {
    Serves(t, provider, r, p) && p.kind == Shared
  }

  function PoolWithId(pools: seq<Pool>, id: int): Option<Pool> {
    if pools == [] then None
    else if pools[0].id == id then Some(pools[0])
    else PoolWithId(pools[1..], id)
  }

  /** The first route whose pool is found among the given pools. */
  function FirstRoute(routes: seq<Route>, pools: seq<Pool>): Option<Decision> {
    if routes == [] then None
    else if routes[0].pool.Some? && PoolWithId(pools, routes[0].pool.value).Some?
    then Some(Decision(routes[0], PoolWithId(pools, routes[0].pool.value).value))
    else FirstRoute(routes[1..], pools)
  }

  /** First route on the customer's dedicated pool, else first route on a shared pool. */
  function Select(t: Tables, provider: Provider, customer: CustomerId): Option<Decision> {
    var routes := RoutesFor(t.routes, EffectiveProvider(provider));
    var own := match DedicatedPool(t.pools, customer)
      case Some(p) => FirstRoute(routes, [p])
      case None => None;
    if own.Some? then own else FirstRoute(routes, SharedPools(t.pools))
  }

  lemma {:induction false} RoutesForExactly(routes: seq<Route>, provider: Provider, r: Route)
    ensures r in RoutesFor(routes, provider) <==> r in routes && r.enabled && r.provider == provider
  {
    if routes != [] { RoutesForExactly(routes[1..], provider, r); }
  }

  lemma {:induction false} SharedPoolsExactly(pools: seq<Pool>, p: Pool)
    ensures p in SharedPools(pools) <==> p in pools && p.kind == Shared
  {
    if pools != [] { SharedPoolsExactly(pools[1..], p); }
  }

  /** The lookup finds the first pool dedicated to the customer, and none exactly when there is none. */
  lemma {:induction false} DedicatedPoolExactly(pools: seq<Pool>, customer: CustomerId)
    ensures match DedicatedPool(pools, customer)
            case Some(p) => FirstOwn(pools, customer, p)
            case None => forall i :: 0 <= i < |pools| ==> !OwnPool(pools[i], customer)
  {
    if pools != [] && !OwnPool(pools[0], customer) {
      var rest := pools[1..];
      DedicatedPoolExactly(rest, customer);
      match DedicatedPool(rest, customer)
      case Some(p) =>
        var k: nat :| FirstOwnAt(rest, customer, p, k);
        assert forall i :: 0 < i < |pools| ==> pools[i] == rest[i - 1];
        assert FirstOwnAt(pools, customer, p, k + 1);
      case None =>
        assert forall i :: 0 < i < |pools| ==> pools[i] == rest[i - 1];
    } else if pools != [] {
      assert FirstOwnAt(pools, customer, pools[0], 0);
    }
  }

  lemma FirstOwnIsOne(pools: seq<Pool>, customer: CustomerId, p: Pool, q: Pool)
    requires FirstOwn(pools, customer, p) && FirstOwn(pools, customer, q)
    ensures p == q && p in pools && OwnPool(p, customer)
  {
    var i: nat :| FirstOwnAt(pools, customer, p, i);
    var j: nat :| FirstOwnAt(pools, customer, q, j);
  }

  lemma {:induction false} PoolWithIdFinds(pools: seq<Pool>, id: int)
    ensures var f := PoolWithId(pools, id);
            (f.Some? ==> f.value in pools && f.value.id == id)
            && (f.None? ==> forall p :: p in pools ==> p.id != id)
  {
    if pools != [] { PoolWithIdFinds(pools[1..], id); }
  }

  predicate LeadsTo(routes: seq<Route>, pools: seq<Pool>, d: Decision) {
    d.route in routes && d.pool in pools && d.route.pool == Some(d.pool.id)
  }

  /** What FirstRoute finds is a route onto one of the pools, and it fails only if there is none. */
  lemma {:induction false} FirstRouteExactly(routes: seq<Route>, pools: seq<Pool>)
    ensures var f := FirstRoute(routes, pools);
            (f.Some? ==> LeadsTo(routes, pools, f.value))
            && (f.None? ==> forall r, p :: r in routes && p in pools ==> r.pool != Some(p.id))
  {
    if routes != [] {
      FirstRouteExactly(routes[1..], pools);
      if routes[0].pool.Some? { PoolWithIdFinds(pools, routes[0].pool.value); }
    }
  }

  /** No route before the chosen one leads to any of the pools. */
  lemma {:induction false} FirstRouteIsFirst(routes: seq<Route>, pools: seq<Pool>) returns (k: nat)
    requires FirstRoute(routes, pools).Some?
    ensures k < |routes| && routes[k] == FirstRoute(routes, pools).value.route
    ensures forall i, p :: 0 <= i < k && p in pools ==> routes[i].pool != Some(p.id)
  {
    if routes[0].pool.Some? { PoolWithIdFinds(pools, routes[0].pool.value); }
    if routes[0].pool.Some? && PoolWithId(pools, routes[0].pool.value).Some? {
      k := 0;
    } else {
      var j := FirstRouteIsFirst(routes[1..], pools);
      k := j + 1;
      forall i, p | 0 <= i < k && p in pools ensures routes[i].pool != Some(p.id) {
        if i > 0 { assert routes[i] == routes[1..][i - 1]; }
      }
    }
  }

  /** Of the eligible routes no earlier one leads to any of the pools. */
  lemma {:induction false} FirstEligible(routes: seq<Route>, provider: Provider, pools: seq<Pool>) returns (k: nat)
    requires FirstRoute(RoutesFor(routes, provider), pools).Some?
    ensures k < |routes| && routes[k] == FirstRoute(RoutesFor(routes, provider), pools).value.route
    ensures forall i, p :: 0 <= i < k && p in pools && routes[i].enabled && routes[i].provider == provider ==>
              routes[i].pool != Some(p.id)
  {
    var eligible := RoutesFor(routes, provider);
    if routes[0].pool.Some? { PoolWithIdFinds(pools, routes[0].pool.value); }
    if routes[0].provider == provider && routes[0].enabled {
      assert eligible[0] == routes[0] && eligible[1..] == RoutesFor(routes[1..], provider);
      if routes[0].pool.Some? && PoolWithId(pools, routes[0].pool.value).Some? { return 0; }
    } else {
      assert eligible == RoutesFor(routes[1..], provider);
    }
    var j := FirstEligible(routes[1..], provider, pools);
    k := j + 1;
    forall i, p | 0 <= i < k && p in pools && routes[i].enabled && routes[i].provider == provider
      ensures routes[i].pool != Some(p.id) {
      if i > 0 { assert routes[i] == routes[1..][i - 1]; }
    }
  }

  ghost predicate HasDedicated(t: Tables, provider: Provider, customer: CustomerId) {
    exists r, p :: ServesDedicated(t, provider, customer, r, p)
  }

  /** Row k of the routes table is d's and is the first of its kind to serve. */
  ghost predicate FirstToServe(t: Tables, provider: Provider, customer: CustomerId, d: Decision, k: nat) {
    && k < |t.routes| && t.routes[k] == d.route
    && if HasDedicated(t, provider, customer)
       then
         && ServesDedicated(t, provider, customer, d.route, d.pool)
         && forall i, p :: 0 <= i < k ==> !ServesDedicated(t, provider, customer, t.routes[i], p)
       else
         && ServesShared(t, provider, d.route, d.pool)
         && forall i, p :: 0 <= i < k ==> !ServesShared(t, provider, t.routes[i], p)
  }

  /**
   A dedicated route wins whenever there is one, otherwise a shared one, and of several the first in query
   order; failure means neither exists.
   */
  lemma SelectExactly(t: Tables, provider: Provider, customer: CustomerId)
    ensures match Select(t, provider, customer)
            case Some(d) => exists k :: FirstToServe(t, provider, customer, d, k)
            case None =>
              forall r, p :: !ServesDedicated(t, provider, customer, r, p) && !ServesShared(t, provider, r, p)
  {
    var eligible := EffectiveProvider(provider);
    var routes, shared := RoutesFor(t.routes, eligible), SharedPools(t.pools);
    var own := DedicatedPool(t.pools, customer);
    DedicatedPoolExactly(t.pools, customer);
    forall r { RoutesForExactly(t.routes, eligible, r); }
    forall p { SharedPoolsExactly(t.pools, p); }
    FirstRouteExactly(routes, shared);
    forall p | FirstOwn(t.pools, customer, p) ensures own == Some(p) {
      var k: nat :| FirstOwnAt(t.pools, customer, p, k);
      FirstOwnIsOne(t.pools, customer, p, own.value);
    }
    if own.Some? {
      FirstOwnIsOne(t.pools, customer, own.value, own.value);
      FirstRouteExactly(routes, [own.value]);
    }
    if own.Some? && FirstRoute(routes, [own.value]).Some? {
      var d := FirstRoute(routes, [own.value]).value;
      var k := FirstEligible(t.routes, eligible, [own.value]);
      assert ServesDedicated(t, provider, customer, d.route, d.pool);
      assert FirstToServe(t, provider, customer, d, k);
    } else if FirstRoute(routes, shared).Some? {
      var k := FirstEligible(t.routes, eligible, shared);
      assert FirstToServe(t, provider, customer, FirstRoute(routes, shared).value, k);
    }
  }

  /** A pool a customer's mail may use: shared, or the customer's own. */
  predicate MayUse(customer: CustomerId, p: Pool) {
    p.kind == Shared || (p.kind == Dedicated && p.customer == Some(customer))
  }

  lemma SelectIsLegal(t: Tables, provider: Provider, customer: CustomerId)
    requires Select(t, provider, customer).Some?
    ensures var d := Select(t, provider, customer).value;
            Serves(t, provider, d.route, d.pool) && MayUse(customer, d.pool)
  {
    SelectExactly(t, provider, customer);
    var d := Select(t, provider, customer).value;
    if ServesDedicated(t, provider, customer, d.route, d.pool) {
      FirstOwnIsOne(t.pools, customer, d.pool, d.pool);
    }
  }

  // Warmup.

  const WARMUP_SCHEDULE: seq<int> := [50, 100, 250, 500, 1000]
  const UNLIMITED: int := -1

  /** Go's conversion of elapsed hours over 24 to int: truncation toward zero. */
  function DaysElapsed(start: Time, now: Time): int {
    if now >= start then (now - start) / DAY else -((start - now) / DAY)
  }

  function WarmupDay(p: Pool, now: Time): int {
    if p.warmupStartedAt.None? then 0 else DaysElapsed(p.warmupStartedAt.value, now) + 1
  }

  function WarmupCap(p: Pool, now: Time): int {
    var day := WarmupDay(p, now);
    var cap := if p.warmupStartedAt.Some? && 1 <= day <= |WARMUP_SCHEDULE| then WARMUP_SCHEDULE[day - 1] else UNLIMITED;
    if p.dailyLimit.Some? && (cap == UNLIMITED || p.dailyLimit.value < cap) then p.dailyLimit.value else cap
  }

  /** a permits no more than b, where a negative cap permits everything. */
  predicate Stricter(a: int, b: int) { b < 0 || 0 <= a <= b }

  /** The warmup has begun or begins within a day, or the limit is at most the first day's cap anyway. */
  predicate CapOnlyLoosens(p: Pool, now: Time) {
    || p.warmupStartedAt.None? || p.warmupStartedAt.value - DAY < now
    || (p.dailyLimit.Some? && p.dailyLimit.value <= WARMUP_SCHEDULE[0])
  }

  lemma WarmupCapLoosens(p: Pool, t: Time, u: Time)
    requires CapOnlyLoosens(p, t) && t <= u
    ensures Stricter(WarmupCap(p, t), WarmupCap(p, u)) && CapOnlyLoosens(p, u)
  {
    if p.warmupStartedAt.Some? && p.warmupStartedAt.value - DAY < t {
      DaysElapsedMonotone(p.warmupStartedAt.value, t, u);
    }
  }

  lemma DaysElapsedMonotone(start: Time, t: Time, u: Time)
    requires start - DAY < t <= u
    ensures 0 <= DaysElapsed(start, t) <= DaysElapsed(start, u)
  {
  }

  const DAY_IN_NANOSECONDS := 86_400_000_000_000

  /**
   How long a day of the warmup lasts. Day n, from the second on, is the n-th span of 24 hours from the
   start; day 1 also holds the 24 hours before it, as the conversion truncates toward zero.
   */
  lemma WarmupDayExactly(p: Pool, now: Time, n: int)
    requires p.warmupStartedAt.Some? && n >= 1
    ensures var since := now - p.warmupStartedAt.value;
            WarmupDay(p, now) == n
            <==> (n == 1 || (n - 1) * DAY_IN_NANOSECONDS <= since)
                 && (n == 1 ==> -DAY_IN_NANOSECONDS < since) && since < n * DAY_IN_NANOSECONDS
  {
  }

  /** The caps of those days. */
  lemma WarmupScheduleIs(p: Pool, now: Time)
    requires p.warmupStartedAt.Some? && p.dailyLimit.None?
    ensures var since := now - p.warmupStartedAt.value;
            WarmupCap(p, now)
            == if -DAY_IN_NANOSECONDS < since < DAY_IN_NANOSECONDS then 50
               else if DAY_IN_NANOSECONDS <= since < 2 * DAY_IN_NANOSECONDS then 100
               else if 2 * DAY_IN_NANOSECONDS <= since < 3 * DAY_IN_NANOSECONDS then 250
               else if 3 * DAY_IN_NANOSECONDS <= since < 4 * DAY_IN_NANOSECONDS then 500
               else if 4 * DAY_IN_NANOSECONDS <= since < 5 * DAY_IN_NANOSECONDS then 1000
               else -1
  {
    forall n | 1 <= n <= 5 { WarmupDayExactly(p, now, n); }
  }

  /**
   Exactly when a cap never tightens again: a warmup a day or more ahead reads as unlimited until it
   begins, and then its first day tightens the cap unless the daily limit is no higher than that day's.
   */
  lemma CapLoosensExactly(p: Pool, t: Time)
    ensures (forall u: Time :: t <= u ==> Stricter(WarmupCap(p, t), WarmupCap(p, u))) <==> CapOnlyLoosens(p, t)
  {
    if CapOnlyLoosens(p, t) {
      forall u: Time | t <= u ensures Stricter(WarmupCap(p, t), WarmupCap(p, u)) { WarmupCapLoosens(p, t, u); }
    } else {
      var begin := p.warmupStartedAt.value;
      assert DaysElapsed(begin, t) < 0 && WarmupDay(p, begin) == 1;
      assert !Stricter(WarmupCap(p, t), WarmupCap(p, begin));
    }
  }

  predicate OnSchedule(p: Pool, now: Time) {
    p.warmupStartedAt.Some? && 1 <= WarmupDay(p, now) <= |WARMUP_SCHEDULE|
  }

  /**
   The cap is the stricter of the schedule's day and the daily limit and unlimited without either, save
   that a negative daily limit lifts the schedule too.
   */
  lemma WarmupCapIsTheStricter(p: Pool, now: Time)
    ensures var cap := WarmupCap(p, now);
            if p.dailyLimit.Some? && p.dailyLimit.value < 0 then cap < 0
            else
              && (OnSchedule(p, now) ==> Stricter(cap, WARMUP_SCHEDULE[WarmupDay(p, now) - 1]))
              && (p.dailyLimit.Some? ==> Stricter(cap, p.dailyLimit.value))
              && (cap < 0 <==> p.dailyLimit.None? && !OnSchedule(p, now))
              && (cap >= 0 ==> p.dailyLimit == Some(cap)
                               || (OnSchedule(p, now) && cap == WARMUP_SCHEDULE[WarmupDay(p, now) - 1]))
  {
  }
}
