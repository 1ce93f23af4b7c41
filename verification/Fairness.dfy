/** One worker, runs without end: a message that keeps being acted on comes to rest, unless it is disturbed for ever. */
module Fairness {
  import opened Base
  import opened Tables
  import opened Engine
  import opened Shapes
  import opened Focus
  import opened NoLoss
  import Finality
  import Ownership
  import Stranded
  import opened Termination
  import opened Progress

  /** A run without end: its states and the action taken in each. */
  type States = nat -> State
  type Actions = nat -> Action

  predicate Takes(c: Config, g: States, f: Actions, i: nat) { Step(c, g(i), f(i)) == Some(g(i + 1)) }

  ghost predicate IsRun(c: Config, g: States, f: Actions) { Init(c, g(0)) && forall i: nat :: Takes(c, g, f, i) }

  /** Finished, or out of everybody's sight. */
  ghost predicate AtEnd(s: State, m: MessageId) { Done(s, m, false) }

  ghost predicate EndsAt(g: States, m: MessageId, k: nat) { forall j: nat :: k <= j ==> AtEnd(g(j), m) }

  ghost predicate Acts(g: States, f: Actions, m: MessageId, j: nat) { AtEnd(g(j), m) || ActsOn(g(j), f(j), m) }

  ghost predicate ActsFrom(g: States, f: Actions, m: MessageId, k: nat) { exists j: nat :: k <= j && Acts(g, f, m, j) }

  /** The scheduler never neglects m for good: while it is not at its end, a step on it is yet to come. */
  ghost predicate Fair(g: States, f: Actions, m: MessageId) { forall k: nat :: ActsFrom(g, f, m, k) }

  /** A fault hits m, or a cap or rate limit holds it back. */
  predicate Disturbs(s: State, a: Action, m: MessageId) { FaultHits(s, a, m) || HoldsBack(s, a, m) }

  ghost predicate Disturbed(g: States, f: Actions, m: MessageId, j: nat) { Disturbs(g(j), f(j), m) }

  ghost predicate DisturbedFrom(g: States, f: Actions, m: MessageId, k: nat) {
    exists j: nat :: k <= j && Disturbed(g, f, m, j)
  }

  ghost predicate DisturbedForever(g: States, f: Actions, m: MessageId) {
    forall k: nat :: DisturbedFrom(g, f, m, k)
  }

  lemma {:induction false} OrderlyInRun(c: Config, g: States, f: Actions, i: nat)
    requires IsRun(c, g, f) && |g(0).workers| == 1
    ensures Ownership.Orderly(c, g(i))
  {
    if i == 0 {
      Ownership.OrderlyAlways(c, g(0), [], g(0));
    } else {
      OrderlyInRun(c, g, f, i - 1);
      assert Takes(c, g, f, i - 1);
      Ownership.OrderlyStep(c, g(i - 1), f(i - 1), g(i));
    }
  }

  // What each step costs.

  /** A fault of others takes nothing from m and gives it nothing. */
  lemma FaultElsewhere(c: Config, s: State, a: Action, t: State, m: MessageId)
    requires Ownership.Orderly(c, s) && Step(c, s, a) == Some(t) && IsFault(a) && !ActsOn(s, a, m)
    ensures |t.workers| == 1 && Budget(c, t, m) == Budget(c, s, m)
  {
    if m >= |s.db.messages| { NothingYet(c, s, m); }
    if a.Poll? && a.k.MarkFail? { AfterHead(s.workers[0].poller.ready, m); }
    FaultKeepsTables(c, s, a, t, m);
  }

  lemma FaultKeepsTables(c: Config, s: State, a: Action, t: State, m: MessageId)
    requires Ownership.Orderly(c, s) && Step(c, s, a) == Some(t) && IsFault(a) && !ActsOn(s, a, m)
    ensures |t.workers| == 1 && t.db == s.db && t.q == s.q && (m in t.adding <==> m in s.adding)
    ensures RunLoad(t.workers[0], m) == RunLoad(s.workers[0], m) && Aborted(t.hist, m) == Aborted(s.hist, m)
    ensures Owes(t.workers[0].poller, m) == Owes(s.workers[0].poller, m)
    ensures OnList(t.workers[0].poller, m) == OnList(s.workers[0].poller, m)
  {
    if a.Poll? && a.k.MarkFail? { AfterHead(s.workers[0].poller.ready, m); }
  }

  lemma UndisturbedPays(c: Config, s: State, a: Action, t: State, m: MessageId)
    requires Ownership.Orderly(c, s) && Step(c, s, a) == Some(t) && !Disturbs(s, a, m)
    ensures |t.workers| == 1 && Budget(c, t, m) + (if ActsOn(s, a, m) then 1 else 0) <= Budget(c, s, m)
  {
    if IsFault(a) {
      FaultElsewhere(c, s, a, t, m);
    } else {
      NoFaultNoted(c, s, a, t);
      PaysStep(c, s, a, t, m, s.hist.faults);
    }
  }

  lemma BudgetNeverEmpty(c: Config, s: State, m: MessageId)
    requires Ownership.Orderly(c, s)
    ensures Budget(c, s, m) >= 0
  {
    if m < |s.db.messages| { BudgetIsThere(c, s, m); }
  }

  ghost predicate Undisturbed(g: States, f: Actions, m: MessageId, i: nat) {
    forall j: nat :: i <= j ==> !Disturbed(g, f, m, j)
  }

  lemma BudgetFallsAt(c: Config, g: States, f: Actions, m: MessageId, j: nat)
    requires IsRun(c, g, f) && |g(0).workers| == 1 && !Disturbed(g, f, m, j)
    ensures |g(j).workers| == |g(j + 1).workers| == 1
    ensures Budget(c, g(j + 1), m) + (if ActsOn(g(j), f(j), m) then 1 else 0) <= Budget(c, g(j), m)
  {
    OrderlyInRun(c, g, f, j);
    assert Takes(c, g, f, j);
    UndisturbedPays(c, g(j), f(j), g(j + 1), m);
  }

  lemma {:induction false} BudgetFalls(c: Config, g: States, f: Actions, m: MessageId, i: nat, j: nat)
    requires IsRun(c, g, f) && |g(0).workers| == 1 && Undisturbed(g, f, m, i) && i <= j
    ensures |g(i).workers| == |g(j).workers| == 1 && Budget(c, g(j), m) <= Budget(c, g(i), m)
    decreases j
  {
    if i == j {
      OrderlyInRun(c, g, f, i);
    } else {
      BudgetFalls(c, g, f, m, i, j - 1);
      BudgetFallsAt(c, g, f, m, j - 1);
    }
  }

  /** The next step on m spends some of a budget that nothing refills any more. */
  lemma NextStepSpends(c: Config, g: States, f: Actions, m: MessageId, i: nat) returns (j: nat)
    requires IsRun(c, g, f) && |g(0).workers| == 1 && ActsFrom(g, f, m, i) && Undisturbed(g, f, m, i)
    ensures |g(i).workers| == |g(j + 1).workers| == 1 && i <= j
    ensures AtEnd(g(j), m) || 0 <= Budget(c, g(j + 1), m) < Budget(c, g(i), m)
  {
    j :| i <= j && Acts(g, f, m, j);
    BudgetFalls(c, g, f, m, i, j);
    BudgetFallsAt(c, g, f, m, j);
    OrderlyInRun(c, g, f, j + 1);
    BudgetNeverEmpty(c, g(j + 1), m);
  }

  lemma {:induction false} ReachesEnd(c: Config, g: States, f: Actions, m: MessageId, i: nat) returns (k: nat)
    requires IsRun(c, g, f) && |g(0).workers| == 1 && Fair(g, f, m) && Undisturbed(g, f, m, i)
    requires |g(i).workers| == 1
    ensures AtEnd(g(k), m)
    decreases Budget(c, g(i), m)
  {
    var j := NextStepSpends(c, g, f, m, i);
    if AtEnd(g(j), m) { k := j; } else { k := ReachesEnd(c, g, f, m, j + 1); }
  }

  // An end is an end.

  lemma EndStays(c: Config, s: State, a: Action, t: State, m: MessageId)
    requires Ownership.Orderly(c, s) && Step(c, s, a) == Some(t) && AtEnd(s, m)
    ensures AtEnd(t, m)
  {
    if Terminal(s.db.messages[m].row.status) {
      Finality.OneWorkerIsAtRest(c, s, m);
      Finality.RestStep(c, s, a, t, m);
    } else {
      ExecOne(c, s, a);
      Stranded.StrandedForGood(c, s, [a], t, m);
    }
  }

  lemma {:induction false} EndStaysInRun(c: Config, g: States, f: Actions, m: MessageId, k: nat, j: nat)
    requires IsRun(c, g, f) && |g(0).workers| == 1 && AtEnd(g(k), m) && k <= j
    ensures AtEnd(g(j), m)
    decreases j
  {
    if k < j {
      EndStaysInRun(c, g, f, m, k, j - 1);
      OrderlyInRun(c, g, f, j - 1);
      assert Takes(c, g, f, j - 1);
      EndStays(c, g(j - 1), f(j - 1), g(j), m);
    }
  }

  /**
   Every message comes to its end. In every run without end whose schedule does not neglect it, a message
   is at some moment finished, or stranded by a lost XADD, and stays so; unless faults hit it, or caps and
   rate limits hold it back, again and again without end.
   */
  lemma EveryFairRunFinishes(c: Config, g: States, f: Actions, m: MessageId)
    requires IsRun(c, g, f) && |g(0).workers| == 1 && Fair(g, f, m)
    ensures (exists k: nat :: EndsAt(g, m, k)) || DisturbedForever(g, f, m)
  {
    if !DisturbedForever(g, f, m) {
      var i: nat :| !DisturbedFrom(g, f, m, i);
      OrderlyInRun(c, g, f, i);
      var k := ReachesEnd(c, g, f, m, i);
      forall j: nat | k <= j ensures AtEnd(g(j), m) { EndStaysInRun(c, g, f, m, k, j); }
      assert EndsAt(g, m, k);
    }
  }

  // Where no fault ever hits m, its end is a terminal status.

  ghost predicate NeverHit(g: States, f: Actions, m: MessageId) { forall j: nat :: !FaultHits(g(j), f(j), m) }

  lemma {:induction false} CleanInRun(c: Config, g: States, f: Actions, m: MessageId, i: nat)
    requires IsRun(c, g, f) && |g(0).workers| == 1 && NeverHit(g, f, m)
    ensures Ownership.Clean(c, g(i), m)
  {
    if i == 0 {
      Ownership.CleanAlways(c, g(0), [], g(0), m);
    } else {
      CleanInRun(c, g, f, m, i - 1);
      assert Takes(c, g, f, i - 1);
      Ownership.CleanStep(c, g(i - 1), f(i - 1), g(i), m);
    }
  }

  ghost predicate FinishedFrom(g: States, m: MessageId, k: nat) {
    forall j: nat :: k <= j ==> m < |g(j).db.messages| && Terminal(g(j).db.messages[m].row.status)
  }

  ghost predicate HeldAt(g: States, f: Actions, m: MessageId, j: nat) { HoldsBack(g(j), f(j), m) }

  ghost predicate HeldFrom(g: States, f: Actions, m: MessageId, k: nat) {
    exists j: nat :: k <= j && HeldAt(g, f, m, j)
  }

  /** A message that is not neglected and that no fault hits reaches a terminal status, or is held back without end. */
  lemma EveryUntroubledMessageFinishes(c: Config, g: States, f: Actions, m: MessageId)
    requires IsRun(c, g, f) && |g(0).workers| == 1 && Fair(g, f, m) && NeverHit(g, f, m)
    ensures (exists k: nat :: FinishedFrom(g, m, k)) || forall k: nat :: HeldFrom(g, f, m, k)
  {
    EveryFairRunFinishes(c, g, f, m);
    if k: nat :| EndsAt(g, m, k) {
      forall j: nat | k <= j ensures m < |g(j).db.messages| && Terminal(g(j).db.messages[m].row.status) {
        assert AtEnd(g(j), m);
        CleanInRun(c, g, f, m, j);
        if Stranded.OutOfSight(g(j), m) && !Terminal(g(j).db.messages[m].row.status) {
          Stranded.OutOfSightIsOutOfHand(g(j), m);
        }
      }
      assert FinishedFrom(g, m, k);
    } else {
      forall k: nat ensures HeldFrom(g, f, m, k) {
        assert DisturbedFrom(g, f, m, k);
        var j: nat :| k <= j && Disturbed(g, f, m, j);
        assert HeldAt(g, f, m, j);
      }
    }
  }
}
