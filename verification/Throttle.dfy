/** The fixed-window limiter and the rule loop that calls it, for any number of concurrent callers. */
module Throttle {
  import opened Base
  import opened Counting
  import opened Decimal

  // Counters in Redis.

  const BUCKET_SECONDS := 60
  const TTL: Time := 120 * SECOND

  /** How late an INCR may arrive after its caller read the clock. */
  const MAX_LAG: Time := MINUTE

  /** throttle:<scope>:<scopeKey>:<bucket>; the bucket is all that follows the last colon. */
  datatype Key = Key(scope: string, scopeKey: string, bucket: int)

  datatype Counter = Counter(count: nat, expires: Option<Time>)

  predicate Expired(k: Counter, now: Time) { k.expires.Some? && k.expires.value <= now }

  function CountAt(counters: map<Key, Counter>, key: Key, now: Time): nat {
    if key in counters && !Expired(counters[key], now) then counters[key].count else 0
  }

  /** INCR: a key that is absent or expired starts from nothing, and without an expiry. */
  function Incr(counters: map<Key, Counter>, key: Key, now: Time): map<Key, Counter> {
    var expires := if key in counters && !Expired(counters[key], now) then counters[key].expires else None;
    counters[key := Counter(CountAt(counters, key, now) + 1, expires)]
  }

  /** EXPIRE: of a live key only. */
  function Expire(counters: map<Key, Counter>, key: Key, now: Time): map<Key, Counter> {
    if key in counters && !Expired(counters[key], now)
    then counters[key := counters[key].(expires := Some(now + TTL))] else counters
  }

  /** A counter that was given its expiry at now is forgotten two minutes later; the next call then counts from one. */
  lemma CounterLifetime(counters: map<Key, Counter>, key: Key, now: Time, later: Time)
    requires now <= later
    ensures var live := key in counters && !Expired(counters[key], now);
            var after := Expire(counters, key, now);
            if live then
              CountAt(after, key, later) == (if later < now + 120_000_000_000 then counters[key].count else 0)
            else
              after == counters && CountAt(after, key, later) == 0 && CountAt(Incr(after, key, later), key, later) == 1
  {
  }

  function UnixSecond(t: Time): int { t / SECOND }

  // Rules.

  datatype Rule = Rule(id: int, scope: string, scopeKey: string, perMinute: int)

  /** What of a message and its route the scopes look at. */
  datatype Subject = Subject(customer: CustomerId, provider: Provider, domain: string, pool: int)

  function ScopeKeyFor(scope: string, x: Subject): Option<string> {
    if scope == "customer" then Some(x.customer)
    else if scope == "provider" then Some(x.provider)
    else if scope == "domain" then Some(x.domain)
    else if scope == "ip_pool" then Some(Itoa(x.pool))
    else None
  }

  predicate Applies(r: Rule, x: Subject) { ScopeKeyFor(r.scope, x) == Some(r.scopeKey) }

  function Applicable(rules: seq<Rule>, x: Subject): seq<Rule> {
    if rules == [] then []
    else
      var last := rules[|rules| - 1];
      Applicable(rules[..|rules| - 1], x) + (if Applies(last, x) then [last] else [])
  }

  /** The rule is for this very customer, provider, recipient domain or pool. */
  predicate Governs(r: Rule, x: Subject) {
    || (r.scope == "customer" && r.scopeKey == x.customer)
    || (r.scope == "provider" && r.scopeKey == x.provider)
    || (r.scope == "domain" && r.scopeKey == x.domain)
    || (r.scope == "ip_pool" && IsDecimalOf(r.scopeKey, x.pool))
  }

  lemma AppliesExactly(r: Rule, x: Subject)
    ensures Applies(r, x) <==> Governs(r, x)
  {
    ItoaExactly(r.scopeKey, x.pool);
  }

  /** The rules that apply are the rules loaded that govern the mail, each as often as it was loaded. */
  lemma {:induction false} ApplicableExactly(rules: seq<Rule>, x: Subject, r: Rule)
    ensures multiset(Applicable(rules, x))[r] == if Governs(r, x) then multiset(rules)[r] else 0
  {
    if rules != [] {
      var last := |rules| - 1;
      ApplicableExactly(rules[..last], x, r);
      AppliesExactly(rules[last], x);
      assert rules == rules[..last] + [rules[last]];
    }
  }

  // The machine: callers check rules, each by an INCR and perhaps an EXPIRE.

  /** One call that reached the counter, and whether the counter was within the limit. */
  datatype Hit = Hit(scope: string, scopeKey: string, second: int, limit: int, allowed: bool)

  function KeyOf(h: Hit): Key { Key(h.scope, h.scopeKey, h.second / BUCKET_SECONDS) }

  /** A check that charged every rule that applied. */
  datatype Pass = Pass(rules: seq<Rule>, charged: seq<Hit>)

  /** A caller: charged[i] is the call that let rules[i] through. */
  datatype Check =
    | Idle
    | Charging(rules: seq<Rule>, charged: seq<Hit>)
    | Expiring(rules: seq<Rule>, charged: seq<Hit>, hit: Hit)

  function ChargedOf(x: Check): seq<Hit> {
    match x
    case Idle => []
    case Charging(_, charged) => charged
    case Expiring(_, charged, hit) => if hit.allowed then charged + [hit] else charged
  }

  datatype State = State(now: Time, counters: map<Key, Counter>, checks: seq<Check>, log: seq<Hit>, passes: seq<Pass>)

  /** A lost answer and a failed EXPIRE end the check with an error; Abort is any other error or crash. */
  datatype Action =
    | Tick(elapsed: nat)
    | Begin(w: nat, rules: seq<Rule>, subject: Subject)
    | Charge(w: nat, lag: nat, answered: bool)
    | SetTtl(w: nat, ok: bool)
    | Finish(w: nat)
    | Abort(w: nat)

  predicate Init(s: State) {
    s.now >= 0 && s.counters == map[] && s.log == [] && s.passes == []
    && forall w :: 0 <= w < |s.checks| ==> s.checks[w] == Idle
  }

  function SetCheck(s: State, w: nat, x: Check): State
    requires w < |s.checks|
  {
    s.(checks := s.checks[w := x])
  }

  predicate CanCharge(s: State, w: nat, lag: nat) {
    && w < |s.checks| && s.checks[w].Charging? && |s.checks[w].charged| < |s.checks[w].rules|
    && lag <= s.now && lag <= MAX_LAG
  }

  /** Where an answer leads: on to the next rule, or out as throttled. */
  function Answered(rules: seq<Rule>, charged: seq<Hit>, hit: Hit): Check {
    if hit.allowed then Charging(rules, charged + [hit]) else Idle
  }

  function HitOf(s: State, w: nat, lag: nat): Hit
    requires CanCharge(s, w, lag)
  {
    var x := s.checks[w];
    var rule := x.rules[|x.charged|];
    var second := UnixSecond(s.now - lag);
    var key := Key(rule.scope, rule.scopeKey, second / BUCKET_SECONDS);
    Hit(rule.scope, rule.scopeKey, second, rule.perMinute, CountAt(s.counters, key, s.now) + 1 <= rule.perMinute)
  }

  function ChargeStep(s: State, w: nat, lag: nat, answered: bool): Option<State> {
    if !CanCharge(s, w, lag) then None
    else
      var x := s.checks[w];
      var hit := HitOf(s, w, lag);
      var key := KeyOf(hit);
      var next :=
        if !answered then Idle
        else if CountAt(s.counters, key, s.now) == 0 then Expiring(x.rules, x.charged, hit)
        else Answered(x.rules, x.charged, hit);
      Some(SetCheck(s.(counters := Incr(s.counters, key, s.now), log := s.log + [hit]), w, next))
  }

  function SetTtlStep(s: State, w: nat, ok: bool): Option<State> {
    if w < |s.checks| && s.checks[w].Expiring? then
      var x := s.checks[w];
      if ok
      then Some(SetCheck(s.(counters := Expire(s.counters, KeyOf(x.hit), s.now)), w,
                         Answered(x.rules, x.charged, x.hit)))
      else Some(SetCheck(s, w, Idle))
    else None
  }

  function FinishStep(s: State, w: nat): Option<State> {
    if w < |s.checks| && s.checks[w].Charging? && |s.checks[w].charged| == |s.checks[w].rules|
    then Some(SetCheck(s.(passes := s.passes + [Pass(s.checks[w].rules, s.checks[w].charged)]), w, Idle))
    else None
  }

  function Step(s: State, a: Action): Option<State> {
    match a
    case Tick(elapsed) => Some(s.(now := s.now + elapsed))
    case Begin(w, rules, x) =>
      if w < |s.checks| && s.checks[w].Idle? then Some(SetCheck(s, w, Charging(Applicable(rules, x), []))) else None
    case Charge(w, lag, answered) => ChargeStep(s, w, lag, answered)
    case SetTtl(w, ok) => SetTtlStep(s, w, ok)
    case Finish(w) => FinishStep(s, w)
    case Abort(w) => if w < |s.checks| then Some(SetCheck(s, w, Idle)) else None
  }

  ghost function Exec(s: State, acts: seq<Action>): Option<State> {
    if acts == [] then Some(s)
    else
      match Exec(s, acts[..|acts| - 1])
      case None => None
      case Some(t) => Step(t, acts[|acts| - 1])
  }

  ghost predicate Reaches(s: State, acts: seq<Action>, t: State) { Init(s) && Exec(s, acts) == Some(t) }

  lemma ExecSnoc(s: State, acts: seq<Action>, t: State, a: Action, u: State)
    requires Exec(s, acts) == Some(t) && Step(t, a) == Some(u)
    ensures Exec(s, acts + [a]) == Some(u)
  {
    assert (acts + [a])[..|acts|] == acts;
  }

  // The counter is exact while its bucket can still be charged.

  function OnKey(key: Key): Hit -> bool { (h: Hit) => KeyOf(h) == key }

  function Granted(key: Key): Hit -> bool { (h: Hit) => h.allowed && KeyOf(h) == key }

  /** No call that read the clock within the bucket arrives from here on. */
  function ClosedAt(key: Key): Time { (key.bucket + 2) * MINUTE }

  ghost predicate CountersExact(s: State) {
    && (forall key :: key in s.counters && s.counters[key].expires.Some? ==>
          s.counters[key].expires.value >= ClosedAt(key))
    && (forall key: Key :: s.now < ClosedAt(key) ==> CountAt(s.counters, key, s.now) == Count(s.log, OnKey(key)))
    && (forall w :: 0 <= w < |s.checks| && s.checks[w].Expiring? ==> KeyOf(s.checks[w].hit).bucket * MINUTE <= s.now)
    && 0 <= s.now
  }

  /** Each call was allowed exactly when fewer calls than its limit had come before it in its bucket. */
  ghost predicate Fair(log: seq<Hit>) {
    forall i :: 0 <= i < |log| ==> (log[i].allowed <==> Count(log[..i], OnKey(KeyOf(log[i]))) < log[i].limit)
  }

  /** A clock reading at most MAX_LAG old belongs to a bucket that is not closed. */
  lemma BucketIsOpen(now: Time, lag: nat)
    requires lag <= now && lag <= MAX_LAG
    ensures var bucket := UnixSecond(now - lag) / BUCKET_SECONDS; bucket * MINUTE <= now < (bucket + 2) * MINUTE
  {
    var read := now - lag;
    assert read / SECOND / 60 == read / MINUTE;
    assert read / MINUTE * MINUTE <= read < (read / MINUTE + 1) * MINUTE;
  }

  lemma ExactCharge(s: State, w: nat, lag: nat, answered: bool, t: State)
    requires CountersExact(s) && Fair(s.log) && ChargeStep(s, w, lag, answered) == Some(t)
    ensures CountersExact(t) && Fair(t.log)
  {
    var hit := HitOf(s, w, lag);
    BucketIsOpen(s.now, lag);
    forall key: Key
      ensures Count(t.log, OnKey(key)) == Count(s.log, OnKey(key)) + (if KeyOf(hit) == key then 1 else 0) {
      CountAppend(s.log, hit, OnKey(key));
    }
    FairAppend(s.log, hit);
  }

  lemma FairAppend(log: seq<Hit>, hit: Hit)
    requires Fair(log) && (hit.allowed <==> Count(log, OnKey(KeyOf(hit))) < hit.limit)
    ensures Fair(log + [hit])
  {
    var longer := log + [hit];
    forall i | 0 <= i < |longer|
      ensures longer[i].allowed <==> Count(longer[..i], OnKey(KeyOf(longer[i]))) < longer[i].limit {
      if i < |log| { assert longer[..i] == log[..i]; } else { assert longer[..i] == log; }
    }
  }

  lemma ExactSetTtl(s: State, w: nat, ok: bool, t: State)
    requires CountersExact(s) && SetTtlStep(s, w, ok) == Some(t)
    ensures CountersExact(t) && t.log == s.log
  {
  }

  lemma {:induction false} ExactAlways(s: State, acts: seq<Action>, t: State)
    requires Reaches(s, acts, t)
    ensures CountersExact(t) && Fair(t.log)
    decreases |acts|
  {
    if acts != [] {
      var u := Exec(s, acts[..|acts| - 1]).value;
      ExactAlways(s, acts[..|acts| - 1], u);
      match acts[|acts| - 1]
      case Charge(w, lag, answered) => ExactCharge(u, w, lag, answered, t);
      case SetTtl(w, ok) => ExactSetTtl(u, w, ok, t);
      case _ =>
    }
  }

  // How many calls a bucket allows.

  predicate SameLimit(log: seq<Hit>, scope: string, scopeKey: string, limit: int) {
    forall i :: 0 <= i < |log| && log[i].scope == scope && log[i].scopeKey == scopeKey ==> log[i].limit == limit
  }

  function AtLeastZero(limit: int): nat { if limit < 0 then 0 else limit }

  lemma {:induction false} GrantsAreMin(log: seq<Hit>, key: Key, limit: int)
    requires Fair(log) && SameLimit(log, key.scope, key.scopeKey, limit)
    ensures var calls := Count(log, OnKey(key));
            Count(log, Granted(key)) == if calls <= AtLeastZero(limit) then calls else AtLeastZero(limit)
  {
    if log != [] {
      var before := log[..|log| - 1];
      forall i | 0 <= i < |before| ensures before[..i] == log[..i] {}
      GrantsAreMin(before, key, limit);
    }
  }

  /**
   Exactness: in any run of any number of callers, with EXPIREs delayed, failed or never sent, the
   calls for one key allowed in one minute bucket number min(calls, limit), and a call is allowed
   exactly when fewer than limit came before it in the bucket.
   */
  lemma LimiterIsExact(s: State, acts: seq<Action>, t: State, key: Key, limit: int, i: nat)
    requires Reaches(s, acts, t) && SameLimit(t.log, key.scope, key.scopeKey, limit)
    ensures var calls := Count(t.log, OnKey(key));
            Count(t.log, Granted(key)) == if calls <= AtLeastZero(limit) then calls else AtLeastZero(limit)
    ensures i < |t.log| && KeyOf(t.log[i]) == key ==>
              (t.log[i].allowed <==> Count(t.log[..i], OnKey(key)) < limit)
  {
    ExactAlways(s, acts, t);
    GrantsAreMin(t.log, key, limit);
  }

  /** Calls allowed for a key by a limit no higher than this one. */
  function GrantedWithin(key: Key, limit: int): Hit -> bool {
    (h: Hit) => h.allowed && h.limit <= limit && KeyOf(h) == key
  }

  lemma {:induction false} GrantsAreBounded(log: seq<Hit>, key: Key, limit: int)
    requires Fair(log)
    ensures Count(log, GrantedWithin(key, limit)) <= AtLeastZero(limit)
  {
    if log != [] {
      var before := log[..|log| - 1];
      forall i | 0 <= i < |before| ensures before[..i] == log[..i] {}
      GrantsAreBounded(before, key, limit);
      CountImplies(before, GrantedWithin(key, limit), OnKey(key));
    }
  }

  /** Allowed calls for a key whose clock reading fell in the given seconds. */
  function GrantedDuring(scope: string, scopeKey: string, limit: int, from: int, seconds: nat): Hit -> bool {
    (h: Hit) =>
      h.allowed && h.limit <= limit && h.scope == scope && h.scopeKey == scopeKey && from <= h.second < from + seconds
  }

  function GrantedInBuckets(scope: string, scopeKey: string, limit: int, lo: int, hi: int): Hit -> bool {
    (h: Hit) =>
      h.allowed && h.limit <= limit && h.scope == scope && h.scopeKey == scopeKey
      && lo <= h.second / BUCKET_SECONDS < hi
  }

  lemma {:induction false} BucketsAddUp(log: seq<Hit>, scope: string, scopeKey: string, limit: int, lo: int, hi: int)
    requires Fair(log) && lo <= hi
    ensures Count(log, GrantedInBuckets(scope, scopeKey, limit, lo, hi)) <= (hi - lo) * AtLeastZero(limit)
    decreases hi - lo
  {
    if lo == hi {
      CountNone(log, GrantedInBuckets(scope, scopeKey, limit, lo, hi));
    } else {
      var key := Key(scope, scopeKey, hi - 1);
      BucketsAddUp(log, scope, scopeKey, limit, lo, hi - 1);
      GrantsAreBounded(log, key, limit);
      CountEither(log, GrantedInBuckets(scope, scopeKey, limit, lo, hi - 1), GrantedWithin(key, limit),
                  GrantedInBuckets(scope, scopeKey, limit, lo, hi));
      assert (hi - lo) * AtLeastZero(limit) == (hi - 1 - lo) * AtLeastZero(limit) + AtLeastZero(limit);
    }
  }

  /** A window of so many seconds touches at most (seconds + 58) / 60 + 1 minutes. */
  lemma BucketsTouched(from: int, seconds: nat)
    requires seconds >= 1
    ensures (from + seconds - 1) / 60 - from / 60 <= (seconds + 58) / 60
  {
    var r := from % 60;
    assert from + seconds - 1 == 60 * (from / 60) + (r + seconds - 1);
    assert (from + seconds - 1) / 60 == from / 60 + (r + seconds - 1) / 60;
  }

  /**
   However a window lies, it lets through at most the limit for each minute it can touch: twice the
   limit in 60 seconds.
   */
  lemma WindowBound(s: State, acts: seq<Action>, t: State, scope: string, scopeKey: string, limit: int,
                    from: int, seconds: nat)
    requires Reaches(s, acts, t) && seconds >= 1
    ensures var granted := Count(t.log, GrantedDuring(scope, scopeKey, limit, from, seconds));
            && granted <= ((seconds + 58) / 60 + 1) * AtLeastZero(limit)
            && (seconds == 60 ==> granted <= 2 * AtLeastZero(limit))
  {
    ExactAlways(s, acts, t);
    var lo, hi := from / 60, (from + seconds - 1) / 60 + 1;
    BucketsAddUp(t.log, scope, scopeKey, limit, lo, hi);
    DuringImpliesBuckets(t.log, scope, scopeKey, limit, from, seconds);
    BucketsTouched(from, seconds);
    TimesMonotone(hi - lo, (seconds + 58) / 60 + 1, AtLeastZero(limit));
  }

  lemma DuringImpliesBuckets(log: seq<Hit>, scope: string, scopeKey: string, limit: int, from: int, seconds: nat)
    requires seconds >= 1
    ensures Count(log, GrantedDuring(scope, scopeKey, limit, from, seconds))
            <= Count(log, GrantedInBuckets(scope, scopeKey, limit, from / 60, (from + seconds - 1) / 60 + 1))
  {
    CountImplies(log, GrantedDuring(scope, scopeKey, limit, from, seconds),
                 GrantedInBuckets(scope, scopeKey, limit, from / 60, (from + seconds - 1) / 60 + 1));
  }

  lemma TimesMonotone(a: int, b: int, n: nat)
    requires a <= b
    ensures a * n <= b * n
  {
  }

  // The rule loop.

  function On(key: Key, limit: int): Hit -> bool { (h: Hit) => h.limit <= limit && KeyOf(h) == key }

  function PassCharges(key: Key, limit: int): Pass -> nat { (p: Pass) => Count(p.charged, On(key, limit)) }

  function CheckCharges(key: Key, limit: int): Check -> nat { (x: Check) => Count(ChargedOf(x), On(key, limit)) }

  /** The calls made are for the first rules of the list, in order. */
  predicate ChargesFit(rules: seq<Rule>, charged: seq<Hit>) {
    |charged| <= |rules|
    && forall i :: 0 <= i < |charged| ==>
         charged[i].scope == rules[i].scope && charged[i].scopeKey == rules[i].scopeKey
         && charged[i].limit == rules[i].perMinute && charged[i].allowed
  }

  predicate CheckFits(x: Check) {
    match x
    case Idle => true
    case Charging(rules, charged) => ChargesFit(rules, charged)
    case Expiring(rules, charged, hit) =>
      ChargesFit(rules, charged) && ChargesFit(rules, charged + [hit.(allowed := true)])
  }

  /** Every call a caller relies on was allowed, and is relied on once. */
  ghost predicate Backed(s: State) {
    && (forall key: Key, limit: int ::
          Total(s.passes, PassCharges(key, limit)) + Total(s.checks, CheckCharges(key, limit))
          <= Count(s.log, GrantedWithin(key, limit)))
    && (forall w :: 0 <= w < |s.checks| ==> CheckFits(s.checks[w]))
    && (forall i :: 0 <= i < |s.passes| ==>
          ChargesFit(s.passes[i].rules, s.passes[i].charged) && |s.passes[i].charged| == |s.passes[i].rules|)
  }

  lemma BackedCheck(s: State, w: nat, x: Check, key: Key, limit: int)
    requires w < |s.checks|
    ensures Total(s.checks[w := x], CheckCharges(key, limit))
            == Total(s.checks, CheckCharges(key, limit))
               - CheckCharges(key, limit)(s.checks[w]) + CheckCharges(key, limit)(x)
  {
    TotalUpdate(s.checks, w, x, CheckCharges(key, limit));
  }

  /** A call adds itself to the log, and its caller goes on with it, waits for the EXPIRE, or stops. */
  lemma ChargeShape(s: State, w: nat, lag: nat, answered: bool, t: State)
    requires ChargeStep(s, w, lag, answered) == Some(t)
    ensures w < |s.checks| && s.checks[w].Charging? && CanCharge(s, w, lag)
    ensures var x, hit := s.checks[w], HitOf(s, w, lag);
            && t.passes == s.passes && t.log == s.log + [hit] && |t.checks| == |s.checks|
            && t.checks == s.checks[w := t.checks[w]]
            && (t.checks[w] == Idle || t.checks[w] == Expiring(x.rules, x.charged, hit)
                || (hit.allowed && t.checks[w] == Charging(x.rules, x.charged + [hit])))
  {
  }

  lemma BackedCharge(s: State, w: nat, lag: nat, answered: bool, t: State)
    requires Backed(s) && ChargeStep(s, w, lag, answered) == Some(t)
    ensures Backed(t)
  {
    ChargeShape(s, w, lag, answered, t);
    ChargeFits(s, w, lag, answered, t);
    forall key: Key, limit: int
      ensures Total(t.passes, PassCharges(key, limit)) + Total(t.checks, CheckCharges(key, limit))
              <= Count(t.log, GrantedWithin(key, limit)) {
      BackedCheck(s, w, t.checks[w], key, limit);
      CountAppend(s.log, HitOf(s, w, lag), GrantedWithin(key, limit));
      CountAppend(s.checks[w].charged, HitOf(s, w, lag), On(key, limit));
    }
  }

  lemma ChargeFits(s: State, w: nat, lag: nat, answered: bool, t: State)
    requires ChargeStep(s, w, lag, answered) == Some(t) && w < |s.checks| && CheckFits(s.checks[w])
    ensures w < |t.checks| && CheckFits(t.checks[w])
  {
    ChargeShape(s, w, lag, answered, t);
  }

  /** A caller that relies on no more calls than before changes nothing. */
  lemma BackedLess(s: State, w: nat, x: Check, t: State)
    requires Backed(s) && w < |s.checks| && t.checks == s.checks[w := x] && t.log == s.log && t.passes == s.passes
    requires CheckFits(x) && (x == Idle || ChargedOf(x) == ChargedOf(s.checks[w]))
    ensures Backed(t)
  {
    forall key: Key, limit: int
      ensures Total(t.checks, CheckCharges(key, limit)) <= Total(s.checks, CheckCharges(key, limit)) {
      BackedCheck(s, w, x, key, limit);
    }
  }

  lemma BackedOther(s: State, a: Action, t: State)
    requires Backed(s) && Step(s, a) == Some(t) && !a.Charge? && !a.Finish?
    ensures Backed(t)
  {
    if !a.Tick? {
      assert CheckFits(s.checks[a.w]);
      assert CheckFits(t.checks[a.w]);
      BackedLess(s, a.w, t.checks[a.w], t);
    }
  }

  lemma BackedFinish(s: State, w: nat, t: State)
    requires Backed(s) && FinishStep(s, w) == Some(t)
    ensures Backed(t)
  {
    assert CheckFits(s.checks[w]);
    forall key: Key, limit: int
      ensures Total(t.passes, PassCharges(key, limit)) + Total(t.checks, CheckCharges(key, limit))
              == Total(s.passes, PassCharges(key, limit)) + Total(s.checks, CheckCharges(key, limit)) {
      BackedCheck(s, w, Idle, key, limit);
      TotalAppend(s.passes, Pass(s.checks[w].rules, s.checks[w].charged), PassCharges(key, limit));
    }
  }

  lemma {:induction false} BackedAlways(s: State, acts: seq<Action>, t: State)
    requires Reaches(s, acts, t)
    ensures Backed(t)
    decreases |acts|
  {
    if acts == [] {
      forall key: Key, limit: int ensures Total(t.checks, CheckCharges(key, limit)) == 0 {
        TotalZero(t.checks, CheckCharges(key, limit));
      }
    } else {
      var u := Exec(s, acts[..|acts| - 1]).value;
      BackedAlways(s, acts[..|acts| - 1], u);
      match acts[|acts| - 1]
      case Charge(w, lag, answered) => BackedCharge(u, w, lag, answered, t);
      case Finish(w) => BackedFinish(u, w, t);
      case a => BackedOther(u, a, t);
    }
  }

  /** A rule row for the key's scope that allows no more than limit. */
  function RowFor(key: Key, limit: int): Rule -> bool {
    (r: Rule) => r.scope == key.scope && r.scopeKey == key.scopeKey && r.perMinute <= limit
  }

  /** The check passed at least k rows for the key, all within the key's own minute. */
  function PassedWith(key: Key, limit: int, k: nat): Pass -> bool {
    (p: Pass) => Count(p.rules, RowFor(key, limit)) >= k && InOneBucket(p.charged, key)
  }

  predicate InOneBucket(charged: seq<Hit>, key: Key) {
    forall i :: 0 <= i < |charged| && charged[i].scope == key.scope && charged[i].scopeKey == key.scopeKey ==>
      KeyOf(charged[i]) == key
  }

  /** The check passed a row for the key that allows no more than limit, in the key's minute. */
  function PassedThrough(key: Key, limit: int): Pass -> bool { (p: Pass) => Count(p.charged, On(key, limit)) >= 1 }

  lemma {:induction false} RowsAreCharged(rules: seq<Rule>, charged: seq<Hit>, key: Key, limit: int)
    requires ChargesFit(rules, charged) && |charged| == |rules| && InOneBucket(charged, key)
    ensures Count(charged, On(key, limit)) == Count(rules, RowFor(key, limit))
  {
    if rules != [] {
      var last := |rules| - 1;
      forall i | 0 <= i < last ensures charged[..last][i] == charged[i] && rules[..last][i] == rules[i] {}
      RowsAreCharged(rules[..last], charged[..last], key, limit);
      assert charged[last].scope == rules[last].scope && charged[last].scopeKey == rules[last].scopeKey;
    }
  }

  /**
   The rule loop is safe for any rule lists and any number of workers. The checks that pass a rule in
   a given minute number at most that rule's limit; and when k rows share a key and a limit and no
   check straddles the minute, k times the passes stays within the limit.
   */
  lemma RuleLoopIsSafe(s: State, acts: seq<Action>, t: State, key: Key, limit: int, k: nat)
    requires Reaches(s, acts, t)
    ensures Count(t.passes, PassedThrough(key, limit)) <= AtLeastZero(limit)
    ensures k * Count(t.passes, PassedWith(key, limit, k)) <= AtLeastZero(limit)
  {
    ExactAlways(s, acts, t);
    GrantsAreBounded(t.log, key, limit);
    BackedAlways(s, acts, t);
    TotalCoversCount(t.passes, PassCharges(key, limit), PassedThrough(key, limit), 1);
    forall i | 0 <= i < |t.passes| && PassedWith(key, limit, k)(t.passes[i])
      ensures PassCharges(key, limit)(t.passes[i]) >= k {
      RowsAreCharged(t.passes[i].rules, t.passes[i].charged, key, limit);
    }
    TotalCoversCount(t.passes, PassCharges(key, limit), PassedWith(key, limit, k), k);
  }
}
