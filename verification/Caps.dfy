/** Pool and customer caps under any number of concurrent workers. */
module Caps {
  import opened Base
  import opened Counting
  import opened Tables
  import opened Engine
  import opened Shapes
  import Knowledge
  import Routing

  /** What a cap applies to: one row of ip_pools, or one customer's daily_send_cap. */
  datatype Scope = OfPool(pool: Routing.Pool) | OfCustomer(customer: CustomerId)

  predicate Charged(scope: Scope, a: Attempt) {
    match scope
    case OfPool(p) => a.pool == p.id
    case OfCustomer(k) => a.customer == k
  }

  function OnDate(scope: Scope, date: int): Attempt -> bool {
    (a: Attempt) => Charged(scope, a) && DateOf(a.startedAt) == date
  }

  /** Attempts recorded against the scope on a calendar date. */
  function Recorded(attempts: seq<Attempt>, scope: Scope, date: int): nat { Count(attempts, OnDate(scope, date)) }

  /** A run that has passed the scope's check and has not recorded its attempt yet. */
  function Permit(scope: Scope): Worker -> bool {
    (x: Worker) => x.run.Some? && HasPermit(scope, x.run.value)
  }

  predicate HasPermit(scope: Scope, r: Run) {
    match scope
    case OfPool(q) =>
      !r.pc.AtCustomerCap? && !r.pc.AtPoolCap? && PlanOf(r.pc).Some? && PlanOf(r.pc).value.decision.pool.id == q.id
    case OfCustomer(k) => !r.pc.AtCustomerCap? && PlanOf(r.pc).Some? && r.mail.customer == k
  }

  function Permits(s: State, scope: Scope): nat { Count(s.workers, Permit(scope)) }

  /** The cap in force; negative means there is none. */
  function CapNow(c: Config, scope: Scope, now: Time): int {
    match scope
    case OfPool(p) => Routing.WarmupCap(p, now)
    case OfCustomer(k) => if CapOf(c, k) > 0 then CapOf(c, k) else -1
  }

  predicate SoundScope(c: Config, scope: Scope, since: Time) {
    scope.OfPool? ==>
      scope.pool in c.routing.pools && Routing.UniquePools(c.routing) && Routing.CapOnlyLoosens(scope.pool, since)
  }

  lemma CapLoosens(c: Config, scope: Scope, t: Time, u: Time)
    requires SoundScope(c, scope, t) && t <= u
    ensures Routing.Stricter(CapNow(c, scope, t), CapNow(c, scope, u)) || CapNow(c, scope, t) == CapNow(c, scope, u)
    ensures SoundScope(c, scope, u)
  {
    if scope.OfPool? { Routing.WarmupCapLoosens(scope.pool, t, u); }
  }

  /** The invariant: permits count against today's cap as if already spent. */
  ghost predicate Within(c: Config, s: State, scope: Scope) {
    var cap := CapNow(c, scope, s.now);
    cap >= 0 ==>
      && (Permits(s, scope) > 0 ==> cap >= 1)
      && Recorded(s.db.attempts, scope, DateOf(s.now)) + Permits(s, scope) <= cap + |s.workers| - 1
      && forall date :: Recorded(s.db.attempts, scope, date) <= cap + |s.workers| - 1
  }

  ghost predicate Capped(c: Config, s: State, scope: Scope, since: Time) {
    && |s.workers| >= 1 && since <= s.now && SoundScope(c, scope, since) && Within(c, s, scope)
    && (forall w: nat :: Running(s, w) ==> AsOfSince(s.workers[w].run.value, since))
  }

  predicate AsOfSince(r: Run, since: Time) { PlanOf(r.pc).Some? ==> since <= PlanOf(r.pc).value.asOf }

  lemma NothingTomorrow(c: Config, s: State, scope: Scope, date: int)
    requires Knowledge.Known(c, s) && date > DateOf(s.now)
    ensures Recorded(s.db.attempts, scope, date) == 0
  {
    forall i | 0 <= i < |s.db.attempts| ensures !OnDate(scope, date)(s.db.attempts[i]) {
      assert Knowledge.AttemptKnows(c, s, s.db.attempts[i]);
      DateIsMonotone(s.db.attempts[i].startedAt, s.now);
    }
    CountNone(s.db.attempts, OnDate(scope, date));
  }

  /** Time passes: the cap can only loosen, and a new date starts with nothing recorded. */
  lemma WithinTick(c: Config, s: State, t: State, scope: Scope, since: Time)
    requires Knowledge.Known(c, s) && Capped(c, s, scope, since) && WorldOnly(s, t)
    ensures Within(c, t, scope)
  {
    CapLoosens(c, scope, since, s.now);
    CapLoosens(c, scope, s.now, t.now);
    CountAtMostLength(s.workers, Permit(scope));
    var today := DateOf(t.now);
    DateIsMonotone(s.now, t.now);
    if DateOf(s.now) < today { NothingTomorrow(c, s, scope, today); }
  }

  /** Worker w's run changes without gaining a permit. */
  lemma WithinNoGain(c: Config, s: State, w: nat, t: State, scope: Scope)
    requires Within(c, s, scope) && SameOthers(s, w, t) && t.now == s.now && t.db.attempts == s.db.attempts
    requires Permit(scope)(t.workers[w]) ==> Permit(scope)(s.workers[w])
    ensures Within(c, t, scope)
  {
    CountUpdate(s.workers, w, t.workers[w], Permit(scope));
    assert t.workers == s.workers[w := t.workers[w]];
  }

  /** A check that saw today's attempts below some earlier reading of the cap hands out a permit. */
  lemma WithinGrant(c: Config, s: State, w: nat, t: State, scope: Scope, checked: Time, since: Time)
    requires Capped(c, s, scope, since) && SameOthers(s, w, t) && t.now == s.now && t.db.attempts == s.db.attempts
    requires since <= checked <= s.now && !Permit(scope)(s.workers[w])
    requires CapNow(c, scope, checked) < 0 || Recorded(s.db.attempts, scope, DateOf(s.now)) < CapNow(c, scope, checked)
    ensures Within(c, t, scope)
  {
    CapLoosens(c, scope, since, checked);
    CapLoosens(c, scope, checked, s.now);
    CountUpdate(s.workers, w, t.workers[w], Permit(scope));
    assert t.workers == s.workers[w := t.workers[w]];
    CountBelowLength(s.workers, w, Permit(scope));
  }

  /** Recording the attempt spends the permit. */
  lemma WithinSpend(c: Config, s: State, w: nat, t: State, scope: Scope, a: Attempt)
    requires Within(c, s, scope) && SameOthers(s, w, t) && t.now == s.now
    requires t.db.attempts == s.db.attempts + [a] && a.startedAt == s.now
    requires !Permit(scope)(t.workers[w])
    requires Charged(scope, a) ==> Permit(scope)(s.workers[w])
    ensures Within(c, t, scope)
  {
    CountUpdate(s.workers, w, t.workers[w], Permit(scope));
    assert t.workers == s.workers[w := t.workers[w]];
    forall date
      ensures Recorded(t.db.attempts, scope, date)
              == Recorded(s.db.attempts, scope, date) + (if OnDate(scope, date)(a) then 1 else 0) {
      CountAppend(s.db.attempts, a, OnDate(scope, date));
    }
  }

  lemma WithinSameRuns(c: Config, s: State, t: State, scope: Scope)
    requires Within(c, s, scope) && t.now == s.now && t.db.attempts == s.db.attempts && |t.workers| == |s.workers|
    requires forall v :: 0 <= v < |s.workers| ==> t.workers[v].run == s.workers[v].run
    ensures Within(c, t, scope)
  {
    CountAgree(s.workers, t.workers, Permit(scope));
  }

  /** The count a check reads covers at least the attempts of that very date. */
  lemma CheckCovers(s: State, scope: Scope)
    ensures var recorded := Recorded(s.db.attempts, scope, DateOf(s.now));
            match scope
            case OfPool(p) => recorded <= CountSendsToday(s.db, p.id, s.now)
            case OfCustomer(k) => recorded <= CountCustomerSendsToday(s.db, k, s.now)
  {
    var today := DateOf(s.now);
    if scope.OfPool? { CountImplies(s.db.attempts, OnDate(scope, today), PoolSince(scope.pool.id, today)); }
    if scope.OfCustomer? { CountImplies(s.db.attempts, OnDate(scope, today), CustomerSince(scope.customer, today)); }
  }

  /** A plan for a pool with this id is a plan for this pool. */
  lemma PlanPool(c: Config, s: State, r: Run, p: Plan, q: Routing.Pool)
    requires Knowledge.PlanIsSelected(c, s.now, r, p) && Routing.UniquePools(c.routing)
    requires q in c.routing.pools && p.decision.pool.id == q.id
    ensures p.decision.pool == q
  {
    Routing.SelectIsLegal(c.routing, r.mail.provider, r.mail.customer);
  }

  lemma CappedLook(c: Config, s: State, w: nat, i: Input, t: State, scope: Scope, since: Time)
    requires Knowledge.Known(c, s) && Capped(c, s, scope, since) && Looks(c, s, w, i, t)
    ensures Within(c, t, scope)
  {
    var r := s.workers[w].run.value;
    assert Knowledge.RunKnows(c, s, r) && AsOfSince(r, since);
    if Permit(scope)(s.workers[w]) || !Permit(scope)(t.workers[w]) {
      WithinNoGain(c, s, w, t, scope);
    } else {
      CheckCovers(s, scope);
      var p := PlanOf(r.pc).value;
      if scope.OfPool? { PlanPool(c, s, r, p, scope.pool); }
      WithinGrant(c, s, w, t, scope, p.asOf, since);
    }
  }

  lemma CappedWrite(c: Config, s: State, w: nat, i: Input, t: State, scope: Scope)
    requires Within(c, s, scope) && Writes(c, s, w, i, t)
    ensures Within(c, t, scope)
  {
    var r := s.workers[w].run.value;
    if r.pc.AtRecord? {
      WithinSpend(c, s, w, t, scope, t.db.attempts[|s.db.attempts|]);
    } else {
      WithinNoGain(c, s, w, t, scope);
    }
  }

  lemma CappedWork(c: Config, s: State, w: nat, i: Input, t: State, scope: Scope, since: Time)
    requires Knowledge.Known(c, s) && Capped(c, s, scope, since) && WorkStep(c, s, w, i) == Some(t)
    ensures Within(c, t, scope)
  {
    WorkShape(c, s, w, i, t);
    if Looks(c, s, w, i, t) { CappedLook(c, s, w, i, t, scope, since); }
    else if Writes(c, s, w, i, t) { CappedWrite(c, s, w, i, t, scope); }
    else { WithinNoGain(c, s, w, t, scope); }
  }

  lemma AsOfStep(c: Config, s: State, w: nat, i: Input, t: State, since: Time)
    requires Running(s, w) && AsOfSince(s.workers[w].run.value, since) && since <= s.now
            && WorkStep(c, s, w, i) == Some(t)
    ensures SameOthers(s, w, t) && t.now == s.now
    ensures t.workers[w].run.Some? ==> AsOfSince(t.workers[w].run.value, since)
  {
    WorkShape(c, s, w, i, t);
  }

  lemma CappedStep(c: Config, s: State, a: Action, t: State, scope: Scope, since: Time)
    requires Knowledge.Known(c, s) && Capped(c, s, scope, since) && Step(c, s, a) == Some(t)
    ensures Capped(c, t, scope, since)
  {
    match a
    case World(e) =>
      WorldShape(s, e, t);
      WithinTick(c, s, t, scope, since);
    case Poll(w, k) =>
      PollerShape(s, w, k, t);
      WithinSameRuns(c, s, t, scope);
    case Consume(w, d) =>
      if d.Work? {
        CappedWork(c, s, w, d.input, t, scope, since);
        AsOfStep(c, s, w, d.input, t, since);
      } else {
        QuietShape(c, s, w, d, t);
        WithinNoGain(c, s, w, t, scope);
      }
  }

  lemma {:induction false} CappedAlways(c: Config, s: State, acts: seq<Action>, t: State, scope: Scope)
    requires Reaches(c, s, acts, t) && |s.workers| >= 1 && SoundScope(c, scope, s.now)
    ensures Capped(c, t, scope, s.now) && |t.workers| == |s.workers|
    decreases |acts|
  {
    if acts == [] {
      CountNone(s.workers, Permit(scope));
    } else {
      var u := Exec(c, s, acts[..|acts| - 1]).value;
      CappedAlways(c, s, acts[..|acts| - 1], u, scope);
      Knowledge.KnownAlways(c, s, acts[..|acts| - 1], u);
      CappedStep(c, u, acts[|acts| - 1], t, scope, s.now);
      SameWorkerCount(c, u, acts[|acts| - 1], t);
    }
  }

  // Between checks.

  /** No run passes the scope's check. */
  ghost predicate NoGrant(c: Config, u: State, after: seq<Action>, scope: Scope) {
    after == [] ||
    (var before := after[..|after| - 1];
     && NoGrant(c, u, before, scope)
     && match (Exec(c, u, before), Exec(c, u, after))
        case (Some(x), Some(y)) =>
          forall w :: 0 <= w < |x.workers| && w < |y.workers| && Permit(scope)(y.workers[w]) ==>
            Permit(scope)(x.workers[w])
        case _ => true)
  }

  /** At most k attempts on any date, even if every permit is still spent. */
  ghost predicate Ceiling(s: State, scope: Scope, k: int) {
    && (forall date :: Recorded(s.db.attempts, scope, date) <= k)
    && (forall date :: date >= DateOf(s.now) ==> Recorded(s.db.attempts, scope, date) + Permits(s, scope) <= k)
  }

  lemma CeilingAtCheck(c: Config, s: State, scope: Scope)
    requires Knowledge.Known(c, s) && |s.workers| >= 1 && Within(c, s, scope) && CapNow(c, scope, s.now) >= 0
    ensures Ceiling(s, scope, CapNow(c, scope, s.now) + |s.workers| - 1)
  {
    CountAtMostLength(s.workers, Permit(scope));
    forall date | date > DateOf(s.now) ensures Recorded(s.db.attempts, scope, date) == 0 {
      NothingTomorrow(c, s, scope, date);
    }
  }

  lemma PermitsNotGained(s: State, t: State, scope: Scope)
    requires |s.workers| == |t.workers|
    requires forall w :: 0 <= w < |s.workers| && Permit(scope)(t.workers[w]) ==> Permit(scope)(s.workers[w])
    ensures Permits(t, scope) <= Permits(s, scope)
  {
    PermitsBelow(s.workers, t.workers, Permit(scope));
  }

  lemma {:induction false} PermitsBelow(xs: seq<Worker>, ys: seq<Worker>, p: Worker -> bool)
    requires |xs| == |ys| && forall w :: 0 <= w < |xs| && p(ys[w]) ==> p(xs[w])
    ensures Count(ys, p) <= Count(xs, p)
  {
    if xs != [] { PermitsBelow(xs[..|xs| - 1], ys[..|ys| - 1], p); }
  }

  /** An attempt is recorded today and spends a permit. */
  lemma CeilingSpend(s: State, w: nat, t: State, scope: Scope, a: Attempt, k: int)
    requires Ceiling(s, scope, k) && SameOthers(s, w, t) && t.now == s.now
    requires t.db.attempts == s.db.attempts + [a] && a.startedAt == s.now && !Permit(scope)(t.workers[w])
    requires Charged(scope, a) ==> Permit(scope)(s.workers[w])
    ensures Ceiling(t, scope, k)
  {
    CountUpdate(s.workers, w, t.workers[w], Permit(scope));
    assert t.workers == s.workers[w := t.workers[w]];
    forall date
      ensures Recorded(t.db.attempts, scope, date)
              == Recorded(s.db.attempts, scope, date) + (if OnDate(scope, date)(a) then 1 else 0) {
      CountAppend(s.db.attempts, a, OnDate(scope, date));
    }
  }

  /** Every other step records nothing. */
  lemma StepRecords(c: Config, s: State, a: Action, t: State)
    requires Step(c, s, a) == Some(t)
    ensures |t.workers| == |s.workers| && s.now <= t.now
    ensures t.db.attempts == s.db.attempts
            || (a.Consume? && a.d.Work? && Writes(c, s, a.w, a.d.input, t) && s.workers[a.w].run.value.pc.AtRecord?)
  {
    match a
    case World(e) => WorldShape(s, e, t);
    case Poll(w, k) => PollerShape(s, w, k, t);
    case Consume(w, d) =>
      if d.Work? {
        WorkShape(c, s, w, d.input, t);
        if Writes(c, s, w, d.input, t) && !s.workers[w].run.value.pc.AtRecord? { PlainShape(c, s, w, d.input, t); }
      } else { QuietShape(c, s, w, d, t); }
  }

  lemma CeilingStep(c: Config, s: State, a: Action, t: State, scope: Scope, k: int)
    requires Ceiling(s, scope, k) && Step(c, s, a) == Some(t)
    requires forall w :: 0 <= w < |s.workers| && w < |t.workers| && Permit(scope)(t.workers[w]) ==>
               Permit(scope)(s.workers[w])
    ensures Ceiling(t, scope, k)
  {
    StepRecords(c, s, a, t);
    if t.db.attempts == s.db.attempts {
      PermitsNotGained(s, t, scope);
      DateIsMonotone(s.now, t.now);
    } else {
      RecordShape(c, s, a.w, a.d.input, t);
      CeilingSpend(s, a.w, t, scope, AttemptOf(s, s.workers[a.w].run.value), k);
    }
  }

  lemma {:induction false} CeilingHolds(c: Config, u: State, after: seq<Action>, t: State, scope: Scope, k: int)
    requires Exec(c, u, after) == Some(t) && NoGrant(c, u, after, scope) && Ceiling(u, scope, k)
    ensures Ceiling(t, scope, k)
    decreases |after|
  {
    if after != [] {
      var x := Exec(c, u, after[..|after| - 1]).value;
      CeilingHolds(c, u, after[..|after| - 1], x, scope, k);
      StepRecords(c, x, after[|after| - 1], t);
      CeilingStep(c, x, after[|after| - 1], t, scope, k);
    }
  }

  /**
   Let u be any moment after which no run passes the scope's check, such as the latest check itself.
   Then no date ever has more attempts than the cap in force at u plus W - 1, however checks and inserts
   interleaved, straddled midnight or met a warmup day that changed in between.
   */
  lemma CapHolds(c: Config, s: State, acts: seq<Action>, u: State, after: seq<Action>, t: State, scope: Scope,
                 date: int)
    requires Reaches(c, s, acts, u) && |s.workers| >= 1 && SoundScope(c, scope, s.now)
    requires Exec(c, u, after) == Some(t) && NoGrant(c, u, after, scope) && CapNow(c, scope, u.now) >= 0
    ensures Recorded(t.db.attempts, scope, date) <= CapNow(c, scope, u.now) + |s.workers| - 1
  {
    CappedAlways(c, s, acts, u, scope);
    Knowledge.KnownAlways(c, s, acts, u);
    CeilingAtCheck(c, u, scope);
    CeilingHolds(c, u, after, t, scope, CapNow(c, scope, u.now) + |s.workers| - 1);
  }

  /**
   With W workers a pool never has more attempts recorded on any one date than its cap at the latest
   check plus W - 1, if its warmup has begun or begins within a day of the start, or its limit is no
   higher than the first day's cap.
   */
  lemma PoolCapHolds(c: Config, s: State, acts: seq<Action>, u: State, after: seq<Action>, t: State,
                     pool: Routing.Pool, date: int)
    requires Reaches(c, s, acts, u) && |s.workers| >= 1
    requires pool in c.routing.pools && Routing.UniquePools(c.routing) && Routing.CapOnlyLoosens(pool, s.now)
    requires Exec(c, u, after) == Some(t) && NoGrant(c, u, after, OfPool(pool))
    ensures var cap := Routing.WarmupCap(pool, u.now);
            cap >= 0 ==> Recorded(t.db.attempts, OfPool(pool), date) <= cap + |s.workers| - 1
  {
    if Routing.WarmupCap(pool, u.now) >= 0 { CapHolds(c, s, acts, u, after, t, OfPool(pool), date); }
  }

  /** The same bound for a customer's positive daily_send_cap, which does not change. */
  lemma CustomerCapHolds(c: Config, s: State, acts: seq<Action>, t: State, customer: CustomerId, date: int)
    requires Reaches(c, s, acts, t) && |s.workers| >= 1 && customer in c.customers && c.customers[customer] > 0
    ensures Recorded(t.db.attempts, OfCustomer(customer), date) <= c.customers[customer] + |s.workers| - 1
  {
    assert Exec(c, t, []) == Some(t);
    CapHolds(c, s, acts, t, [], t, OfCustomer(customer), date);
  }

  /** A date that is over gains no attempts: what bounded it at its last check bounds it for good. */
  lemma {:induction false} PastDatesAreClosed(c: Config, s: State, more: seq<Action>, t: State, scope: Scope, date: int)
    requires Exec(c, s, more) == Some(t) && date < DateOf(s.now)
    ensures Recorded(t.db.attempts, scope, date) == Recorded(s.db.attempts, scope, date) && s.now <= t.now
    decreases |more|
  {
    if more != [] {
      var u := Exec(c, s, more[..|more| - 1]).value;
      PastDatesAreClosed(c, s, more[..|more| - 1], u, scope, date);
      StepRecords(c, u, more[|more| - 1], t);
      if t.db.attempts != u.db.attempts {
        var a := more[|more| - 1];
        RecordShape(c, u, a.w, a.d.input, t);
        DateIsMonotone(s.now, u.now);
        CountAppend(u.db.attempts, AttemptOf(u, u.workers[a.w].run.value), OnDate(scope, date));
      }
    }
  }

  /** So each date keeps the bound of its own latest check, though later dates are checked against looser caps. */
  lemma EachDateKeepsItsCap(c: Config, s: State, acts: seq<Action>, u: State, after: seq<Action>, x: State,
                            more: seq<Action>, t: State, scope: Scope, date: int)
    requires Reaches(c, s, acts, u) && |s.workers| >= 1 && SoundScope(c, scope, s.now)
    requires Exec(c, u, after) == Some(x) && NoGrant(c, u, after, scope) && CapNow(c, scope, u.now) >= 0
    requires date < DateOf(x.now) && Exec(c, x, more) == Some(t)
    ensures Recorded(t.db.attempts, scope, date) <= CapNow(c, scope, u.now) + |s.workers| - 1
  {
    CapHolds(c, s, acts, u, after, x, scope, date);
    PastDatesAreClosed(c, x, more, t, scope, date);
  }

  // What the two counting queries count.

  /** The attempt is of a message of this customer and was started on this date. */
  function SentBy(db: Db, customer: CustomerId, date: int): Attempt -> bool {
    (a: Attempt) => a.msg < |db.messages| && db.messages[a.msg].mail.customer == customer && DateOf(a.startedAt) == date
  }

  lemma CustomerCountExactly(c: Config, s: State, customer: CustomerId)
    requires Knowledge.Known(c, s)
    ensures CountCustomerSendsToday(s.db, customer, s.now)
            == Recorded(s.db.attempts, OfCustomer(customer), DateOf(s.now))
            == Count(s.db.attempts, SentBy(s.db, customer, DateOf(s.now)))
  {
    var today := DateOf(s.now);
    forall i | 0 <= i < |s.db.attempts|
      ensures CustomerSince(customer, today)(s.db.attempts[i]) == OnDate(OfCustomer(customer), today)(s.db.attempts[i])
      ensures OnDate(OfCustomer(customer), today)(s.db.attempts[i]) == SentBy(s.db, customer, today)(s.db.attempts[i]) {
      assert Knowledge.AttemptKnows(c, s, s.db.attempts[i]);
      DateIsMonotone(s.db.attempts[i].startedAt, s.now);
    }
    CountSame(s.db.attempts, CustomerSince(customer, today), OnDate(OfCustomer(customer), today));
    CountSame(s.db.attempts, OnDate(OfCustomer(customer), today), SentBy(s.db, customer, today));
  }

  lemma PoolCountExactly(c: Config, s: State, pool: Routing.Pool)
    requires Knowledge.Known(c, s)
    ensures CountSendsToday(s.db, pool.id, s.now) == Recorded(s.db.attempts, OfPool(pool), DateOf(s.now))
  {
    var today := DateOf(s.now);
    forall i | 0 <= i < |s.db.attempts|
      ensures PoolSince(pool.id, today)(s.db.attempts[i]) == OnDate(OfPool(pool), today)(s.db.attempts[i]) {
      assert Knowledge.AttemptKnows(c, s, s.db.attempts[i]);
      DateIsMonotone(s.db.attempts[i].startedAt, s.now);
    }
    CountSame(s.db.attempts, PoolSince(pool.id, today), OnDate(OfPool(pool), today));
  }

  /**
   Exactly when a run is held by its customer's cap: if there is one and the attempts recorded today for
   messages of that very customer have reached it. Otherwise it goes on to the pool's cap.
   */
  lemma CustomerHoldExactly(c: Config, s: State, acts: seq<Action>, t: State, w: nat, i: Input, u: State)
    requires Reaches(c, s, acts, t) && Running(t, w) && t.workers[w].run.value.pc.AtCustomerCap?
    requires WorkStep(c, t, w, i) == Some(u)
    ensures var r := t.workers[w].run.value;
            var k, next := r.mail.customer, u.workers[w].run.value.pc;
            var sent := Count(t.db.attempts, SentBy(t.db, k, DateOf(t.now)));
            && r.msg < |t.db.messages| && k == t.db.messages[r.msg].mail.customer
            && (k in c.customers && c.customers[k] > 0 && sent >= c.customers[k]
                <==> next == AtSettle(Held(DailySendCap, r.pc.p.asOf + HOUR), Some(LaneOf(r.pc.p)), r.seen.attempts))
            && (!(k in c.customers && c.customers[k] > 0 && sent >= c.customers[k]) ==> next == AtPoolCap(r.pc.p))
  {
    Knowledge.KnownAlways(c, s, acts, t);
    assert Knowledge.RunKnows(c, t, t.workers[w].run.value);
    CustomerCountExactly(c, t, t.workers[w].run.value.mail.customer);
  }

  /** The same for the pool of its route, whose cap is the one at the time the route was chosen. */
  lemma PoolHoldExactly(c: Config, s: State, acts: seq<Action>, t: State, w: nat, i: Input, u: State)
    requires Reaches(c, s, acts, t) && Running(t, w) && t.workers[w].run.value.pc.AtPoolCap?
    requires WorkStep(c, t, w, i) == Some(u)
    ensures var r := t.workers[w].run.value;
            var p, next := r.pc.p, u.workers[w].run.value.pc;
            var cap := Routing.WarmupCap(p.decision.pool, p.asOf);
            var sent := Recorded(t.db.attempts, OfPool(p.decision.pool), DateOf(t.now));
            && (0 <= cap <= sent
                <==> next == AtSettle(Held(WarmupLimit, p.asOf + HOUR), Some(LaneOf(p)), r.seen.attempts))
            && (!(0 <= cap <= sent) ==> next == AtThrottle(p))
  {
    Knowledge.KnownAlways(c, s, acts, t);
    assert Knowledge.RunKnows(c, t, t.workers[w].run.value);
    PoolCountExactly(c, t, t.workers[w].run.value.pc.p.decision.pool);
  }
}
