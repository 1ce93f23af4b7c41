/**
 The worker's pipeline as the code runs it, statement by statement. Its contracts say that it makes
 exactly the calls the engine's run makes, with the same arguments and in the same order.
 */
module Processors {
  import opened Base
  import opened Tables
  import opened Deeds
  import opened Engine
  import opened Stores
  import opened Limiters
  import Backoff
  import Classify
  import Counting
  import Knowledge
  import Router
  import Routing
  import Simulate
  import Throttle

  /** Rules applied so far are the first of all that apply, and the next one that applies comes next. */
  lemma {:induction false} ApplicableSoFar(rules: seq<Throttle.Rule>, x: Throttle.Subject, i: nat)
    requires i <= |rules|
    ensures Throttle.Applicable(rules[..i], x) <= Throttle.Applicable(rules, x)
    ensures i < |rules| && Throttle.Applies(rules[i], x) ==>
              var k := |Throttle.Applicable(rules[..i], x)|;
              k < |Throttle.Applicable(rules, x)| && Throttle.Applicable(rules, x)[k] == rules[i]
    ensures i < |rules| ==>
              (var next := if Throttle.Applies(rules[i], x) then [rules[i]] else [];
               Throttle.Applicable(rules[..i + 1], x) == Throttle.Applicable(rules[..i], x) + next)
    decreases |rules| - i
  {
    if i == |rules| {
      assert rules[..i] == rules;
    } else {
      assert rules[..i + 1][..i] == rules[..i];
      ApplicableSoFar(rules, x, i + 1);
    }
  }

  /** Of the rules loaded the pass has charged those that govern the mail and the pool, and no others. */
  ghost predicate Charges(pass: Throttle.Pass, loaded: seq<Throttle.Rule>, mail: Mail, pool: int) {
    var x := Throttle.Subject(mail.customer, mail.provider, mail.domain, pool);
    forall r :: multiset(pass.rules)[r] == if Throttle.Governs(r, x) then multiset(loaded)[r] else 0
  }

  class Processor {
    const st: Store
    const limiter: Limiter

    ghost predicate Valid()
      reads this, st, limiter
    {
      st.Valid() && limiter.Valid() && limiter.MyCheck().Idle? && Routing.UniquePools(st.config.routing)
    }

    constructor (st: Store, limiter: Limiter)
      requires st.Valid() && limiter.Valid() && limiter.MyCheck().Idle? && Routing.UniquePools(st.config.routing)
      ensures Valid() && this.st == st && this.limiter == limiter
    {
      this.st, this.limiter := st, limiter;
    }

    /** The run under way, right before the call pc. */
    predicate At(msg: MessageId, mail: Mail, seen: Row, pc: Point)
      requires st.me < |st.s.workers|
      reads this, st
    {
      var run := st.MyRun();
      run.Some? && run.value.msg == msg && run.value.mail == mail && run.value.seen == seen && run.value.pc == pc
    }

    /** The run is over: to be acked if ok, gone otherwise, and it has recorded the attempt sent, or none. */
    twostate predicate Ended(ok: bool, new sent: Option<Attempt>)
      requires old(st.me < |st.s.workers| && st.s.workers[st.me].run.Some?)
      reads this, st, limiter
    {
      && Valid() && st.Moved(if ok then Some(AtAck) else None) && st.asked == old(st.asked)
      && st.deeds == Note(Note(old(st.deeds), RecordOf(sent)), st.Ending(!ok, old(st.s.workers[st.me].run.value.entry)))
    }

    function RecordOf(sent: Option<Attempt>): Option<Deed> {
      if sent.Some? then Some(Recorded(sent.value)) else None
    }

    /** It has recorded none, nor heard anything new. */
    twostate predicate Closed(ok: bool)
      requires old(st.me < |st.s.workers| && st.s.workers[st.me].run.Some?)
      reads this, st, limiter
    {
      Ended(ok, None) && st.heard == old(st.heard)
    }

    /**
     The attempt is of this message, and its kind is that of the reply to this very recipient, given the
     reputation that the policy query answered and the roll.
     */
    ghost predicate Replied(row: Attempt, m: MessageId, mail: Mail, seen: Row, rolledLimit: bool)
      reads this, st
    {
      && row.msg == m && row.customer == mail.customer && row.provider == mail.provider
      && row.number == seen.attempts + 1
      && row.kind == Simulate.Simulate(mail.to, st.heard.reputation, rolledLimit).kind
    }

    /** So a recipient whose name hints at a bounce is recorded as bounced, however well the provider is doing. */
    lemma HintedRecipientBounces(row: Attempt, m: MessageId, mail: Mail, seen: Row, rolledLimit: bool)
      requires Replied(row, m, mail, seen, rolledLimit) && Simulate.Hints(mail.to, ["bounce", "unknown"])
      ensures row.kind == Classify.HardBounce
    {
      Simulate.OutcomeByRecipient(mail.to, st.heard.reputation, rolledLimit);
    }

    /** Since the method began a check has charged every loaded rule that governs the mail and the pool. */
    twostate predicate RatesPassed(new mail: Mail, pool: int)
      reads this, st, limiter
    {
      exists k: nat :: |old(limiter.s).passes| <= k < |limiter.s.passes|
                       && Charges(limiter.s.passes[k], st.heard.rules, mail, pool)
    }

    /** No attempt without a passed check and a reply to its recipient. */
    twostate predicate Sent(new sent: Option<Attempt>, m: MessageId, new mail: Mail, new seen: Row, rolledLimit: bool)
      reads this, st, limiter
    {
      sent.Some? ==> Replied(sent.value, m, mail, seen, rolledLimit) && RatesPassed(mail, sent.value.pool)
    }

    /** The rule is loaded and governs the mail, and its bucket has counted more calls than it allows. */
    ghost predicate Refused(rule: Throttle.Rule, call: Limiters.Moment, mail: Mail, pool: int,
                            before: seq<Throttle.Action>)
      reads this, st, limiter
    {
      && rule in st.heard.rules
      && Throttle.Governs(rule, Throttle.Subject(mail.customer, mail.provider, mail.domain, pool))
      && limiter.Reached(call, before)
      && var hit := Throttle.HitOf(call.s, limiter.me, call.lag);
         && hit.scope == rule.scope && hit.scopeKey == rule.scopeKey && hit.limit == rule.perMinute
         && Counting.Count(call.s.log, Throttle.OnKey(Throttle.KeyOf(hit))) + 1 > rule.perMinute
    }

    /** One rule that governs the mail. */
    method ChargeRule(r: Throttle.Rule, mail: Mail, pool: int)
      returns (ok: bool, allowed: bool, ghost call: Limiters.Moment)
      requires limiter.Valid() && limiter.MyCheck().Charging? && |limiter.MyCheck().charged| < |limiter.MyCheck().rules|
      requires limiter.MyCheck().rules[|limiter.MyCheck().charged|] == r && r in st.heard.rules
      requires Throttle.Applies(r, Throttle.Subject(mail.customer, mail.provider, mail.domain, pool))
      modifies limiter
      ensures limiter.Valid() && old(limiter.acts) <= limiter.acts
      ensures |old(limiter.s).passes| <= |limiter.s.passes|
      ensures ok && allowed ==>
                var was, check := old(limiter.MyCheck()), limiter.MyCheck();
                check.Charging? && check.rules == was.rules && |check.charged| == |was.charged| + 1
      ensures !(ok && allowed) ==> limiter.MyCheck().Idle?
      ensures ok && !allowed ==> forall before :: before <= old(limiter.acts) ==> Refused(r, call, mail, pool, before)
    {
      Throttle.AppliesExactly(r, Throttle.Subject(mail.customer, mail.provider, mail.domain, pool));
      var decision;
      ok, decision, call := limiter.Allow(r.scope, r.scopeKey, r.perMinute);
      allowed := decision.allowed;
    }

    /** All of them have let the mail through. */
    method Pass(ghost all: seq<Throttle.Rule>, mail: Mail, pool: int)
      requires limiter.Valid() && limiter.MyCheck().Charging? && all == st.heard.rules
      requires limiter.MyCheck().rules
               == Throttle.Applicable(all, Throttle.Subject(mail.customer, mail.provider, mail.domain, pool))
      requires |limiter.MyCheck().charged| == |limiter.MyCheck().rules|
      modifies limiter
      ensures limiter.Valid() && limiter.MyCheck().Idle? && old(limiter.acts) <= limiter.acts
      ensures |limiter.s.passes| == |old(limiter.s).passes| + 1
      ensures Charges(limiter.s.passes[|old(limiter.s).passes|], all, mail, pool)
    {
      limiter.Do(Throttle.Finish(limiter.me));
      var x := Throttle.Subject(mail.customer, mail.provider, mail.domain, pool);
      forall r { Throttle.ApplicableExactly(all, x, r); }
    }

    /** Rules are checked in order until one refuses; only the rules that govern the mail are charged. */
    method CheckThrottles(m: MessageId, mail: Mail, seen: Row, d: Routing.Decision, now: Time)
      returns (ok: bool, throttled: bool, ghost refused: Throttle.Rule, ghost call: Limiters.Moment)
      requires Valid() && At(m, mail, seen, AtThrottle(Plan(d, now)))
      modifies limiter, st`heard
      ensures Valid() && st.heard.reputation == old(st.heard.reputation)
      ensures ok && !throttled ==> RatesPassed(mail, d.pool.id)
      ensures ok && throttled ==> Refused(refused, call, mail, d.pool.id, old(limiter.acts))
    {
      var x := Throttle.Subject(mail.customer, mail.provider, mail.domain, d.pool.id);
      var all: seq<Throttle.Rule>;
      ok, all := st.GetThrottleRules();
      throttled, refused, call := false, Throttle.Rule(0, "", "", 0), Limiters.Moment([], limiter.s, 0);
      if !ok { return; }
      limiter.Do(Throttle.Begin(limiter.me, all, x));
      var i := 0;
      while i < |all|
        invariant 0 <= i <= |all| && limiter.Valid() && old(limiter.acts) <= limiter.acts
        invariant |old(limiter.s).passes| <= |limiter.s.passes|
        invariant limiter.MyCheck().Charging? && limiter.MyCheck().rules == Throttle.Applicable(all, x)
        invariant |limiter.MyCheck().charged| == |Throttle.Applicable(all[..i], x)|
        modifies limiter
      {
        ApplicableSoFar(all, x, i);
        var r := all[i];
        var key := Throttle.ScopeKeyFor(r.scope, x);
        if key.Some? && key.value == r.scopeKey {
          var answered, allowed, moment := ChargeRule(r, mail, d.pool.id);
          if !answered { return false, false, r, moment; }
          if !allowed { return true, true, r, moment; }
        }
        i := i + 1;
      }
      assert all[..i] == all;
      Pass(all, mail, d.pool.id);
    }

    /** Defers a message without consuming an attempt. */
    method Reschedule(m: MessageId, mail: Mail, seen: Row, d: Routing.Decision, next: Time, reason: HoldReason)
      returns (ok: bool)
      requires Valid()
      requires var lane := Lane(d.route.id, d.pool.id);
               At(m, mail, seen, AtSettle(Held(reason, next), Some(lane), seen.attempts))
      modifies st
      ensures Closed(ok)
    {
      var lane := Lane(d.route.id, d.pool.id);
      ok := st.UpdateMessageStatus(m, Row(Deferred, Some(lane), seen.attempts, Some(next)));
      if !ok { return; }
      ok := st.WriteEvent(m, EvThrottled(reason, next));
    }

    /** A terminal status and its event, without a route. */
    method TerminateEvent(m: MessageId, mail: Mail, seen: Row, status: Status, e: Event, ghost out: Outcome)
      returns (ok: bool)
      requires Valid() && At(m, mail, seen, AtSettle(out, None, seen.attempts))
      requires status == StatusOf(out) && e == EventOf(out) && NextOf(out) == None
      modifies st
      ensures Closed(ok)
    {
      ok := st.UpdateMessageStatus(m, Row(status, None, seen.attempts, None));
      if !ok { return; }
      ok := st.WriteEvent(m, e);
    }

    /** A terminal status and its event after a send. */
    method Conclude(m: MessageId, mail: Mail, seen: Row, lane: Lane, status: Status, e: Event, ghost out: Outcome)
      returns (ok: bool)
      requires Valid() && At(m, mail, seen, AtSettle(out, Some(lane), seen.attempts + 1))
      requires status == StatusOf(out) && e == EventOf(out) && NextOf(out) == None
      modifies st
      ensures Closed(ok)
    {
      ok := st.UpdateMessageStatus(m, Row(status, Some(lane), seen.attempts + 1, None));
      if !ok { return; }
      ok := st.WriteEvent(m, e);
    }

    method ApplyOutcome(m: MessageId, mail: Mail, seen: Row, d: Routing.Decision, now: Time, kind: Classify.Kind,
            draw: nat)
      returns (ok: bool)
      requires Valid()
      requires At(m, mail, seen, OutcomePoint(st.config, Plan(d, now), kind, seen.attempts + 1, draw))
      modifies st
      ensures Closed(ok)
    {
      var lane := Lane(d.route.id, d.pool.id);
      match kind
      case Delivered => ok := Conclude(m, mail, seen, lane, Delivered, EvDelivered, Accepted);
      case HardBounce => ok := Bounce(m, mail, seen, Plan(d, now));
      case PolicyRejection =>
        ok := Conclude(m, mail, seen, lane, Failed, EvBounced(Some(Classify.PolicyRejection)), PolicyRefused);
      case _ => ok := RetryOrGiveUp(m, mail, seen, d, now, kind, draw);
    }

    /** A hard bounce suppresses the recipient before the row says bounced. */
    method Bounce(m: MessageId, mail: Mail, seen: Row, p: Plan) returns (ok: bool)
      requires Valid() && At(m, mail, seen, AtSuppress(p))
      modifies st
      ensures Closed(ok)
    {
      ok := st.AddSuppression(mail.customer, mail.to);
      if !ok { return; }
      var lane := LaneOf(p);
      ok := Conclude(m, mail, seen, lane, Bounced, EvBounced(Some(Classify.HardBounce)), HardBounced);
    }

    method RetryOrGiveUp(m: MessageId, mail: Mail, seen: Row, d: Routing.Decision, now: Time, kind: Classify.Kind,
                         draw: nat)
      returns (ok: bool)
      requires Valid() && Classify.TakesDefaultBranch(kind)
      requires At(m, mail, seen, OutcomePoint(st.config, Plan(d, now), kind, seen.attempts + 1, draw))
      modifies st
      ensures Closed(ok)
    {
      var lane := Lane(d.route.id, d.pool.id);
      match Backoff.NextDelay(seen.attempts + 1, st.config.maxAttempts, draw)
      case Exhausted => ok := Conclude(m, mail, seen, lane, DeadLettered, EvDeadLettered(kind), Exhausted(kind));
      case RetryAfter(delay) => ok := ScheduleRetry(m, mail, seen, lane, kind, now + delay);
    }

    method ScheduleRetry(m: MessageId, mail: Mail, seen: Row, lane: Lane, kind: Classify.Kind, next: Time)
      returns (ok: bool)
      requires Valid() && At(m, mail, seen, AtSettle(Retry(kind, next), Some(lane), seen.attempts + 1))
      modifies st
      ensures Closed(ok)
    {
      ok := st.UpdateMessageStatus(m, Row(Deferred, Some(lane), seen.attempts + 1, Some(next)));
      if !ok { return; }
      ok := st.WriteEvent(m, EvDeferred(kind));
      if !ok { return; }
      ok := st.WriteEvent(m, EvRetryScheduled(seen.attempts + 1, kind, next));
    }

    /** From the mark to the outcome. */
    method Send(m: MessageId, mail: Mail, seen: Row, d: Routing.Decision, now: Time, rolledLimit: bool, draw: nat)
      returns (ok: bool, ghost sent: Option<Attempt>)
      requires Valid() && At(m, mail, seen, AtMarkSending(Plan(d, now)))
      modifies st
      ensures Ended(ok, sent) && st.heard.rules == old(st.heard.rules)
      ensures sent.Some? ==> Replied(sent.value, m, mail, seen, rolledLimit) && sent.value.pool == d.pool.id
    {
      var lane := Lane(d.route.id, d.pool.id);
      var attempt := seen.attempts + 1;
      sent := None;
      ok := st.UpdateMessageStatus(m, Row(Sending, Some(lane), attempt, None));
      if !ok { return; }
      ok := st.WriteEvent(m, EvSendingAttempted(attempt, lane));
      if !ok { return; }
      ok, sent := Deliver(m, mail, seen, d, now, rolledLimit, draw);
    }

    method Deliver(m: MessageId, mail: Mail, seen: Row, d: Routing.Decision, now: Time, rolledLimit: bool, draw: nat)
      returns (ok: bool, ghost sent: Option<Attempt>)
      requires Valid() && At(m, mail, seen, AtPolicy(Plan(d, now)))
      modifies st
      ensures Ended(ok, sent) && st.heard.rules == old(st.heard.rules)
      ensures sent.Some? ==> Replied(sent.value, m, mail, seen, rolledLimit) && sent.value.pool == d.pool.id
    {
      sent := None;
      var reputation;
      ok, reputation := st.GetProviderPolicy(mail.provider);
      if !ok { return; }
      var result := Simulate.Simulate(mail.to, reputation, rolledLimit);
      ok := st.WriteDeliveryAttempt(m, seen.attempts + 1, mail.provider, d.pool.id, result.kind, draw);
      if !ok { return; }
      sent := Some(Attempt(m, mail.customer, seen.attempts + 1, mail.provider, d.pool.id, result.kind, st.eve.now));
      ok := ApplyOutcome(m, mail, seen, d, now, result.kind, draw);
    }

    /** The capacity checks, in order: customer cap, pool cap, rate limits; then the send. */
    method Admit(m: MessageId, mail: Mail, seen: Row, dailySendCap: int, d: Routing.Decision, now: Time,
                 rolledLimit: bool, draw: nat)
      returns (ok: bool, ghost sent: Option<Attempt>)
      requires Valid() && At(m, mail, seen, AtCustomerCap(Plan(d, now)))
              && dailySendCap == CapOf(st.config, mail.customer)
      modifies st, limiter
      ensures Ended(ok, sent) && Sent(sent, m, mail, seen, rolledLimit)
    {
      sent := None;
      if dailySendCap > 0 {
        var sentToday;
        ok, sentToday := st.CountCustomerSendsToday(mail.customer);
        if !ok { return; }
        if sentToday >= dailySendCap {
          ok := Reschedule(m, mail, seen, d, now + HOUR, DailySendCap);
          return;
        }
      } else {
        st.NoCap();
      }
      ok, sent := AdmitToPool(m, mail, seen, d, now, rolledLimit, draw);
    }

    method AdmitToPool(m: MessageId, mail: Mail, seen: Row, d: Routing.Decision, now: Time, rolledLimit: bool,
                       draw: nat)
      returns (ok: bool, ghost sent: Option<Attempt>)
      requires Valid() && At(m, mail, seen, AtPoolCap(Plan(d, now)))
      modifies st, limiter
      ensures Ended(ok, sent) && Sent(sent, m, mail, seen, rolledLimit)
    {
      sent := None;
      var cap := Router.WarmupCap(d.pool, now);
      if cap >= 0 {
        var sentToday;
        ok, sentToday := st.CountSendsToday(d.pool.id);
        if !ok { return; }
        if sentToday >= cap {
          ok := Reschedule(m, mail, seen, d, now + HOUR, WarmupLimit);
          return;
        }
      } else {
        st.NoCap();
      }
      ok, sent := AdmitByRate(m, mail, seen, d, now, rolledLimit, draw);
    }

    /** The rate limits, as a call of the pipeline. */
    method CheckRates(m: MessageId, mail: Mail, seen: Row, d: Routing.Decision, now: Time)
      returns (ok: bool, throttled: bool)
      requires Valid() && At(m, mail, seen, AtThrottle(Plan(d, now)))
      modifies st, limiter
      ensures Valid() && st.asked == old(st.asked)
      ensures var lane := Lane(d.route.id, d.pool.id);
              st.Moved(if !ok then None
                       else if throttled then Some(AtSettle(Held(RateLimited, now + MINUTE), Some(lane), seen.attempts))
                       else Some(AtMarkSending(Plan(d, now))))
      ensures st.deeds == Note(old(st.deeds), st.Ending(!ok, old(st.MyRun()).value.entry))
      ensures ok && !throttled ==> RatesPassed(mail, d.pool.id)
    {
      ghost var refused, call;
      ok, throttled, refused, call := CheckThrottles(m, mail, seen, d, now);
      st.Limited(ok, throttled);
    }

    method AdmitByRate(m: MessageId, mail: Mail, seen: Row, d: Routing.Decision, now: Time, rolledLimit: bool,
                       draw: nat)
      returns (ok: bool, ghost sent: Option<Attempt>)
      requires Valid() && At(m, mail, seen, AtThrottle(Plan(d, now)))
      modifies st, limiter
      ensures Ended(ok, sent) && Sent(sent, m, mail, seen, rolledLimit)
    {
      sent := None;
      var throttled;
      ok, throttled := CheckRates(m, mail, seen, d, now);
      if !ok { return; }
      if throttled {
        ok := Reschedule(m, mail, seen, d, now + MINUTE, RateLimited);
        return;
      }
      ok, sent := Send(m, mail, seen, d, now, rolledLimit, draw);
    }

    method Handle(m: MessageId, mail: Mail, seen: Row, rolledLimit: bool, draw: nat)
      returns (ok: bool, ghost sent: Option<Attempt>)
      requires Valid() && At(m, mail, seen, AtCustomer)
      modifies st, limiter
      ensures Ended(ok, sent) && Sent(sent, m, mail, seen, rolledLimit)
    {
      sent := None;
      var customer;
      ok, customer := st.GetCustomer(mail.customer);
      if !ok { return; }
      if customer.None? {
        ok := TerminateEvent(m, mail, seen, Failed, EvBounced(None), SetupFailed);
        return;
      }
      var state := customer.value.sendingState;
      if state == BlockedFromSending || (state == BlockedFromMarketing && mail.marketing) {
        ok := TerminateEvent(m, mail, seen, Blocked, EvBlockedByAbuseControl, AbuseBlocked);
        return;
      }
      ok, sent := HandleUnblocked(m, mail, seen, customer.value.dailySendCap, rolledLimit, draw);
    }

    method HandleUnblocked(m: MessageId, mail: Mail, seen: Row, dailySendCap: int, rolledLimit: bool, draw: nat)
      returns (ok: bool, ghost sent: Option<Attempt>)
      requires Valid() && At(m, mail, seen, AtSuppression) && dailySendCap == CapOf(st.config, mail.customer)
      modifies st, limiter
      ensures Ended(ok, sent) && Sent(sent, m, mail, seen, rolledLimit)
    {
      sent := None;
      var suppressed;
      ok, suppressed := st.IsSuppressed(mail.customer, mail.to);
      if !ok { return; }
      if suppressed {
        ok := TerminateEvent(m, mail, seen, Suppressed, EvSuppressed, OnSuppressionList);
        return;
      }
      ok, sent := RouteAndAdmit(m, mail, seen, dailySendCap, rolledLimit, draw);
    }

    /** Route selection, with the clock read that the run goes by; None after any error. */
    method SelectRoute(m: MessageId, mail: Mail, seen: Row) returns (found: Option<Routing.Decision>, now: Time)
      requires Valid() && At(m, mail, seen, AtRoute)
      modifies st
      ensures Valid()
      ensures st.Went(Some(if found.None? then AtSettle(SetupFailed, None, seen.attempts)
                           else AtCustomerCap(Plan(found.value, now))))
      ensures found.Some? ==> found == Routing.Select(st.config.routing, mail.provider, mail.customer)
    {
      found, now := None, 0;
      var read := st.ReadRoutes();
      if !read { return; }
      found := Router.Select(st.config.routing, mail.provider, mail.customer);
      now := st.Chosen(found);
    }

    method RouteAndAdmit(m: MessageId, mail: Mail, seen: Row, dailySendCap: int, rolledLimit: bool, draw: nat)
      returns (ok: bool, ghost sent: Option<Attempt>)
      requires Valid() && At(m, mail, seen, AtRoute) && dailySendCap == CapOf(st.config, mail.customer)
      modifies st, limiter
      ensures Ended(ok, sent) && Sent(sent, m, mail, seen, rolledLimit)
    {
      sent := None;
      var decision, now := SelectRoute(m, mail, seen);
      if decision.None? {
        ok := TerminateEvent(m, mail, seen, Failed, EvBounced(None), SetupFailed);
        return;
      }
      ok, sent := Admit(m, mail, seen, dailySendCap, decision.value, now, rolledLimit, draw);
    }

    /**
     The whole pipeline for one entry. An error means the entry is not to be acked. Whatever the code
     did, and whatever others did meanwhile, is a schedule of the engine, at whose end the run is due
     its ack, or has failed; and an attempt it recorded is of this message's mail.
     */
    method Process(m: MessageId, rolledLimit: bool, draw: nat)
      returns (ok: bool, ghost sent: Option<Attempt>, ghost seen: Row)
      requires Valid() && st.MyRun().Some? && st.MyRun().value.pc.AtLoad? && st.MyRun().value.msg == m
      modifies st, limiter
      ensures Valid() && old(st.acts) <= st.acts && st.s.workers[st.me].batch == old(st.s).workers[st.me].batch
      ensures !ok ==> st.MyRun().None?
      ensures ok ==> st.MyRun().Some? && st.MyRun().value.pc.AtAck? && st.MyRun().value.msg == m
                     && st.MyRun().value.entry == old(st.MyRun()).value.entry
      ensures st.asked == old(st.asked)
      ensures st.deeds == Note(Note(old(st.deeds), RecordOf(sent)), st.Ending(!ok, old(st.MyRun()).value.entry))
      ensures sent.Some? ==> m < |st.s.db.messages| && Sent(sent, m, st.s.db.messages[m].mail, seen, rolledLimit)
    {
      sent, seen := None, NO_ROW;
      var found;
      ok, found := st.GetMessageForProcessing(m);
      if !ok || found.None? || Terminal(found.value.1.status) { return; }
      seen := found.value.1;
      ghost var loaded, so := st.s, st.acts;
      MailIsLoaded();
      ok, sent := Handle(m, found.value.0, found.value.1, rolledLimit, draw);
      MailStays(loaded, so);
    }

    /** The mail a run has loaded is its message's. */
    lemma MailIsLoaded()
      requires Valid() && st.MyRun().Some? && st.MyRun().value.pc.AtCustomer?
      ensures var r := st.MyRun().value; r.msg < |st.s.db.messages| && r.mail == st.s.db.messages[r.msg].mail
      ensures Exec(st.config, st.origin, st.acts) == Some(st.s)
    {
      st.Tells();
      Knowledge.KnownAlways(st.config, st.origin, st.acts, st.s);
      assert Running(st.s, st.me) && Knowledge.RunKnows(st.config, st.s, st.MyRun().value);
    }

    /** And stays it, however the schedule goes on. */
    lemma MailStays(u: State, before: seq<Action>)
      requires st.Valid() && before <= st.acts && Exec(st.config, st.origin, before) == Some(u)
      ensures Knowledge.Later(u, st.s)
    {
      st.Tells();
      Knowledge.LaterAlways(st.config, st.origin, before, u, st.acts, st.s);
    }
  }
}
