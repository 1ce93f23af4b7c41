/** The limiter as one caller uses it: INCR, then perhaps EXPIRE, with all other callers in between. */
module Limiters {
  import opened Base
  import opened Throttle

  predicate Own(me: nat, a: Action) { !a.Tick? && a.w == me }

  ghost predicate Standing(s: State, t: State, me: nat) {
    me < |s.checks| == |t.checks| && t.checks[me] == s.checks[me] && s.now <= t.now && |s.passes| <= |t.passes|
  }

  lemma OthersKeepStanding(s: State, a: Action, t: State, me: nat)
    requires Throttle.Step(s, a) == Some(t) && me < |s.checks| && !Own(me, a)
    ensures Standing(s, t, me)
  {
  }

  lemma StepKeepsCallers(s: State, a: Action, t: State)
    requires Throttle.Step(s, a) == Some(t)
    ensures |t.checks| == |s.checks|
  {
  }

  datatype Decision = Decision(allowed: bool, count: nat, limit: int)

  /** When a call reached the counter: what had happened by then, and how old its clock reading was. */
  datatype Moment = Moment(acts: seq<Action>, s: State, lag: nat)

  class Limiter {
    const me: nat
    var s: State
    ghost const origin: State
    ghost var acts: seq<Action>

    ghost predicate Valid() reads this { Reaches(origin, acts, s) && me < |s.checks| }

    constructor (me: nat, s: State)
      requires Init(s) && me < |s.checks|
      ensures Valid() && this.me == me && this.s == s && acts == []
    {
      this.me, this.s, this.origin, this.acts := me, s, s, [];
    }

    function MyCheck(): Check
      requires me < |s.checks|
      reads this
    {
      s.checks[me]
    }

    method Do(a: Action)
      requires Valid() && Throttle.Step(s, a).Some?
      modifies this
      ensures Valid() && Some(s) == Throttle.Step(old(s), a) && acts == old(acts) + [a]
    {
      ghost var was := s;
      s := Throttle.Step(s, a).value;
      ExecSnoc(origin, acts, was, a, s);
      StepKeepsCallers(was, a, s);
      acts := acts + [a];
    }

    method Others()
      requires Valid()
      modifies this
      ensures Valid() && Standing(old(s), s, me) && old(acts) <= acts
    {
      var n: nat := *;
      while n > 0
        invariant Valid() && Standing(old(s), s, me) && old(acts) <= acts
      {
        var a: Action := *;
        if !Own(me, a) && Throttle.Step(s, a).Some? {
          OthersKeepStanding(s, a, Throttle.Step(s, a).value, me);
          Do(a);
        }
        n := n - 1;
      }
    }

    /** This caller now stands at x, and calls it did not see may have come and gone. */
    twostate predicate Went(x: Check)
      requires old(me < |s.checks|)
      reads this
    {
      Valid() && old(acts) <= acts && s.checks[me] == x && |old(s).passes| <= |s.passes|
    }

    /** The call of this caller that reached the counter at the given moment. */
    ghost predicate Reached(call: Moment, before: seq<Action>)
      reads this
    {
      && before <= call.acts && |call.acts| < |acts| && call.acts == acts[..|call.acts|]
      && acts[|call.acts|] == Charge(me, call.lag, true)
      && Exec(origin, call.acts) == Some(call.s) && CanCharge(call.s, me, call.lag)
    }

    /** INCR counts the calls of its bucket so far, and itself. */
    lemma CountIsExact(call: Moment)
      requires Init(origin) && Exec(origin, call.acts) == Some(call.s) && CanCharge(call.s, me, call.lag)
      ensures var key := KeyOf(HitOf(call.s, me, call.lag));
              CountAt(call.s.counters, key, call.s.now) == Counting.Count(call.s.log, OnKey(key))
    {
      ExactAlways(origin, call.acts, call.s);
      BucketIsOpen(call.s.now, call.lag);
    }

    /**
     One call for one rule. The decision is the counter's: its count is the number of calls of the bucket
     up to this one, and it allows exactly when that is within the limit. Errors report nothing, though
     the call may have counted.
     */
    method Allow(scope: string, scopeKey: string, perMinute: int)
      returns (ok: bool, decision: Decision, ghost call: Moment)
      requires Valid() && MyCheck().Charging? && |MyCheck().charged| < |MyCheck().rules|
      requires var rule := MyCheck().rules[|MyCheck().charged|];
               rule.scope == scope && rule.scopeKey == scopeKey && rule.perMinute == perMinute
      modifies this
      ensures !ok ==> Went(Idle)
      ensures ok ==> Reached(call, old(acts))
      ensures ok ==>
                var hit := HitOf(call.s, me, call.lag);
                && hit.scope == scope && hit.scopeKey == scopeKey && hit.limit == perMinute
                && decision.count == Counting.Count(call.s.log, OnKey(KeyOf(hit))) + 1
                && decision.limit == perMinute && decision.allowed == (decision.count <= perMinute)
      ensures ok && !decision.allowed ==> Went(Idle)
      ensures ok && decision.allowed ==>
                && Valid() && s.checks[me].Charging? && s.checks[me].rules == old(MyCheck()).rules
                && Went(Charging(old(MyCheck()).rules, s.checks[me].charged))
                && |s.checks[me].charged| == |old(MyCheck()).charged| + 1
    {
      var lag: nat := *;
      Others();
      ok, decision := false, Decision(false, 0, perMinute);
      call := Moment(acts, s, lag);
      var reached, answered := *, *;
      if !reached || lag > MAX_LAG || lag > s.now {
        Do(Abort(me));
        return;
      }
      CountIsExact(call);
      var count := CountAt(s.counters, KeyOf(HitOf(s, me, lag)), s.now) + 1;
      Do(Charge(me, lag, answered));
      if !answered { return; }
      ghost var charged := acts;
      if count == 1 {
        Others();
        var expired := *;
        Do(SetTtl(me, expired));
        if !expired { return; }
      }
      assert charged <= acts && charged == call.acts + [Charge(me, lag, true)];
      ok, decision := true, Decision(count <= perMinute, count, perMinute);
    }
  }

  /** Whatever the callers' code does, the limiter is exact and the rule loop is safe. */
  lemma LimiterKeepsItsBounds(limiter: Limiter, key: Key, limit: int, k: nat)
    requires limiter.Valid()
    ensures Counting.Count(limiter.s.log, GrantedWithin(key, limit)) <= AtLeastZero(limit)
    ensures k * Counting.Count(limiter.s.passes, PassedWith(key, limit, k)) <= AtLeastZero(limit)
  {
    ExactAlways(limiter.origin, limiter.acts, limiter.s);
    GrantsAreBounded(limiter.s.log, key, limit);
    RuleLoopIsSafe(limiter.origin, limiter.acts, limiter.s, key, limit, k);
  }
}
