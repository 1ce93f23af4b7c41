/** Runs that show which assumptions the other results cannot do without, and that their bounds are met. */
module Witness {
  import opened Base
  import opened Counting
  import opened Tables
  import opened Engine
  import opened Shapes
  import opened Scenarios
  import Caps
  import Classify
  import Intake
  import NoLoss
  import Routing
  import Stranded

  /** Accepted, not finished, and in nobody's hands for good. */
  predicate Lost(s: State, m: MessageId) {
    Stranded.OutOfSight(s, m) && !Terminal(s.db.messages[m].row.status)
  }

  /** A lost XADD loses the message, with one worker. */
  lemma LostAddStrands()
    ensures exists c, origin, s :: Reachable(c, origin, s) && |s.workers| == 1 && Lost(s, 0)
  {
    var c, origin := Small(1, None), Empty([FRESH_WORKER]);
    assert Exec(c, origin, []) == Some(origin);
    assert Reaches(c, origin, [], origin);
    IsAccepted(c, origin, origin, MAIL);
    var s := AcceptStep(origin, MAIL);
    var t := s.(adding := s.adding - {0}, hist := NoteFault(s.hist));
    Then(c, origin, s, World(HandlerDrop(0)), t);
    assert t.adding == {};
  }

  /** A send cut off by a crash right after its mark. */
  lemma CutOff(c: Config, origin: State) returns (t: State)
    requires c == Small(1, None) && origin == Empty(ONE)
    ensures Reachable(c, origin, t) && t.workers == ONE && t.now == 0
    ensures |t.db.messages| == 1 && t.db.messages[0].mail == MAIL
    ensures t.db.messages[0].row.status == Sending && t.db.messages[0].row.attempts == 1
    ensures t.db.sendingState == map["c" := Trusted] && t.db.suppressed == {}
    ensures Aborted(t.hist, 0) == 1 && t.q == Read(Added(ONE, 1).q, 1, 0)
  {
    AddsReach(c, ONE, 1);
    var s1 := MarksNext(1, None, origin, Added(ONE, 1), 0);
    var s2 := Calls(c, origin, s1, 0);
    t := CrashStep(s2, 0).value;
    Then(c, origin, s2, Consume(0, Crash), t);
  }

  /** The retry bound is met: a crash right after the mark costs one attempt beyond maxAttempts. */
  lemma CrashBuysAnAttempt()
    ensures exists c, origin, s ::
              Reachable(c, origin, s) && |s.workers| == 1 && |s.db.messages| == 1
              && s.db.messages[0].row.attempts == c.maxAttempts + Aborted(s.hist, 0) && Aborted(s.hist, 0) == 1
  {
    var c, origin := Small(1, None), Empty(ONE);
    var s1 := CutOff(c, origin);
    var s2 := TakesOver(c, origin, s1, 0, 0);
    RunsToMark(1, None, origin, s2, 0, FreshRun(0, 0));
    var s3 := On(s2, 0, Run(0, 0, AtMarkSending(PlanAt(None, s2.now)), MAIL, s2.db.messages[0].row));
    var s4 := Calls(c, origin, s3, 0);
    assert s4.db.messages[0].row.attempts == 2;
  }

  /** The cap bound is met: two workers that both check before either records send one more than the cap. */
  lemma TwoWorkersOvershootByOne()
    ensures exists c, origin, s, pool ::
              && Reachable(c, origin, s) && |s.workers| == 2
              && pool in c.routing.pools && Routing.CapOnlyLoosens(pool, origin.now)
              && Routing.WarmupCap(pool, s.now) == 1
              && Caps.Recorded(s.db.attempts, Caps.OfPool(pool), 0) == 1 + |s.workers| - 1
  {
    var limit := Some(1);
    var c, origin := Small(1, limit), Empty(TWO);
    AddsReach(c, TWO, 2);
    var s1 := MarksNext(1, limit, origin, Added(TWO, 2), 0);
    var s2 := MarksNext(1, limit, origin, s1, 1);
    var s3 := Sends(c, origin, s2, 0, Classify.Delivered);
    var s4 := Sends(c, origin, s3, 1, Classify.Delivered);
    var a, b := s4.db.attempts[0], s4.db.attempts[1];
    assert s4.db.attempts == [a, b];
    CountTwo(a, b, Caps.OnDate(Caps.OfPool(PoolOf(limit)), 0));
  }

  lemma CountTwo<T>(a: T, b: T, p: T -> bool)
    requires p(a) && p(b)
    ensures Count([a, b], p) == 2
  {
    assert [a, b][..1] == [a];
    assert [a][..0] == [];
    assert Count([a], p) == Count([a][..0], p) + 1;
  }

  /** Worker 0 has come to its mark and stalls; worker 1, a minute later, has taken its entry over and come as far. */
  lemma BothAtTheMark(c: Config, origin: State) returns (t: State)
    requires c == Small(1, None) && origin == Empty(TWO)
    ensures Reachable(c, origin, t) && |t.workers| == 2 && |t.db.messages| == 1
    ensures RunningOn(t, 0, 0) && t.workers[0].run.value.pc.AtMarkSending?
    ensures RunningOn(t, 1, 0) && t.workers[1].run.value.pc.AtMarkSending? && t.workers[1].run.value.entry == 0
    ensures t.adding == {} && |t.q.entries| == 1 && t.q.cursor == 1 && t.hist.faults == 0
    ensures forall w :: 0 <= w < 2 ==> t.workers[w].batch == {} && t.workers[w].poller == Resting
  {
    AddsReach(c, TWO, 1);
    var s1 := MarksNext(1, None, origin, Added(TWO, 1), 0);
    var s2 := TakesOver(c, origin, s1, 1, 0);
    RunsToMark(1, None, origin, s2, 1, FreshRun(0, 0));
    t := On(s2, 1, Run(0, 0, AtMarkSending(PlanAt(None, s2.now)), MAIL, s2.db.messages[0].row));
  }

  /** Terminal is final only for one worker: a slow worker robbed of its entry overwrites what the robber finished. */
  lemma TwoWorkersReopenTheFinished()
    ensures exists c, origin, s, a, t ::
              && Reachable(c, origin, s) && Step(c, s, a) == Some(t) && |s.workers| == 2
              && |s.db.messages| == |t.db.messages| == 1
              && s.db.messages[0].row.status == Delivered && t.db.messages[0].row.status == Sending
  {
    var c, origin := Small(1, None), Empty(TWO);
    var s1 := BothAtTheMark(c, origin);
    var s2 := Delivers(c, origin, s1, 1);
    var t := Calls(c, origin, s2, 0);
  }

  /** Worker 0 has marked the only message, whose only entry is acked, and nobody else is on it. */
  predicate Exposed(s: State) {
    && |s.workers| == 2 && RunningOn(s, 0, 0) && s.workers[0].run.value.pc.AtLogSending?
    && s.workers[0].poller == Resting
    && s.workers[1].run == None && s.workers[1].batch == {} && s.workers[1].poller == Resting
    && |s.db.messages| == 1 && s.db.messages[0].row.status == Sending && s.adding == {}
    && |s.q.entries| == 1 == s.q.cursor && s.q.entries[0].acked
  }

  lemma EndingDrops(s: State)
    requires Exposed(s)
    ensures NoLoss.CutsOff(s, Consume(0, Crash), 0) && NoLoss.Drops(s, Consume(0, Crash), 0)
  {
    assert NoLoss.OpenOn(s, 0, 0);
    forall w: nat ensures !NoLoss.PollerOwes(s, w, 0) && (w > 0 ==> !NoLoss.OpenOn(s, w, 0)) {}
  }

  lemma DeadIsLost(s: State, t: State)
    requires Exposed(s) && CrashStep(s, 0) == Some(t)
    ensures Lost(t, 0)
  {
    assert t.workers == [FRESH_WORKER, s.workers[1]];
    assert !Stranded.Touches(t, t.workers[0], 0) && !Stranded.Touches(t, t.workers[1], 0);
  }

  /** Worker 1 has delivered and acked the only message while worker 0 still stands at its mark. */
  lemma RobberFinishes(c: Config, origin: State) returns (t: State)
    requires c == Small(1, None) && origin == Empty(TWO)
    ensures Reachable(c, origin, t) && |t.workers| == 2 && |t.db.messages| == 1 && t.adding == {} && t.hist.faults == 0
    ensures RunningOn(t, 0, 0) && t.workers[0].run.value.pc.AtMarkSending? && t.workers[0].poller == Resting
    ensures t.workers[1].run == None && t.workers[1].batch == {} && t.workers[1].poller == Resting
    ensures |t.q.entries| == 1 == t.q.cursor && t.q.entries[0].acked
  {
    var s1 := BothAtTheMark(c, origin);
    var s2 := Delivers(c, origin, s1, 1);
    t := FinishesDelivered(c, origin, s2, 1);
  }

  lemma ComesToBeExposed(c: Config, origin: State) returns (t: State)
    requires c == Small(1, None) && origin == Empty(TWO)
    ensures Reachable(c, origin, t) && Exposed(t) && t.hist.faults == 0
  {
    var s := RobberFinishes(c, origin);
    t := Calls(c, origin, s, 0);
  }

  /**
   A reclaim from a live process can lose the message, but only with a failure later on: the slow worker
   marks what the other delivered and acked, and then dies. The row says sending and no entry is left.
   */
  lemma TheftLosesMessage()
    ensures exists c, origin, s, a, t ::
              && Reachable(c, origin, s) && |s.workers| == 2 && s.hist.faults == 0 && Step(c, s, a) == Some(t)
              && |s.db.messages| == 1 && NoLoss.CutsOff(s, a, 0) && NoLoss.Drops(s, a, 0) && Lost(t, 0)
  {
    var c, origin := Small(1, None), Empty(TWO);
    var s := ComesToBeExposed(c, origin);
    var a, t := Consume(0, Crash), CrashStep(s, 0).value;
    EndingDrops(s);
    DeadIsLost(s, t);
    assert Step(c, s, a) == Some(t);
  }

  /** Worker 0 has sent the only message and is to retry it after fifteen seconds. */
  lemma ChoosesDelay(c: Config, origin: State) returns (t: State)
    requires c == Small(2, None) && origin == Empty(TWO)
    ensures Reachable(c, origin, t) && |t.workers| == 2 && |t.db.messages| == 1 && t.adding == {} && t.hist.faults == 0
    ensures RunningOn(t, 0, 0) && t.workers[0].run.value.entry == 0 && t.now == 0
    ensures var pc := t.workers[0].run.value.pc;
            pc.AtSettle? && pc.out == Outcome.Retry(Classify.SoftBounce, 15 * SECOND)
    ensures t.workers[1] == FRESH_WORKER && t.workers[0].batch == {} && t.workers[0].poller == Resting
    ensures |t.q.entries| == 1 == t.q.cursor && t.q.entries[0].msg == 0
  {
    AddsReach(c, TWO, 1);
    var s1 := MarksNext(2, None, origin, Added(TWO, 1), 0);
    t := Sends(c, origin, s1, 0, Classify.SoftBounce);
  }

  /** Worker 0 has deferred the only message, a minute after choosing its delay, and has its log still to write. */
  lemma DefersLate(c: Config, origin: State) returns (t: State)
    requires c == Small(2, None) && origin == Empty(TWO)
    ensures Reachable(c, origin, t) && |t.workers| == 2 && |t.db.messages| == 1 && t.adding == {} && t.hist.faults == 0
    ensures RunningOn(t, 0, 0) && t.workers[0].run.value.entry == 0
    ensures t.workers[0].run.value.pc.AtLog? && t.workers[0].run.value.pc.out.Retry?
    ensures t.workers[1] == FRESH_WORKER && t.workers[0].batch == {} && t.workers[0].poller == Resting
    ensures Ready(t.db, t.now, 0) && |t.q.entries| == 1 == t.q.cursor && t.q.entries[0].msg == 0
  {
    var s1 := ChoosesDelay(c, origin);
    var s2 := s1.(now := s1.now + MINUTE);
    Then(c, origin, s1, World(Tick(MINUTE)), s2);
    t := Calls(c, origin, s2, 0);
  }

  /** The poller of worker 1 puts the message back. */
  lemma Requeues(c: Config, origin: State, s: State) returns (t: State)
    requires Reachable(c, origin, s) && |s.workers| == 2 && s.workers[1] == FRESH_WORKER
    requires |s.db.messages| == 1 && Ready(s.db, s.now, 0)
    ensures Reachable(c, origin, t) && t.workers == s.workers && t.q == Enqueue(s.q, 0, Poller)
    ensures t.adding == s.adding && t.hist == s.hist && |t.db.messages| == 1 && t.db.messages[0].row.status == Queued
  {
    var s1 := SetPoller(s, 1, Marking([0]));
    assert ReadyList(s.db, s.now, [0]);
    Then(c, origin, s, Poll(1, List([0])), s1);
    var s2 := MarkStep(s1, 1).value;
    Then(c, origin, s1, Poll(1, Mark), s2);
    t := AddStep(s2, 1).value;
    Then(c, origin, s2, Poll(1, Add), t);
    assert t.workers[1] == FRESH_WORKER;
  }

  /** Worker 1 reads the new entry and finds the row locked by worker 0's log. */
  lemma SkipsLocked(c: Config, origin: State, s: State) returns (u: State, t: State)
    requires Reachable(c, origin, s) && |s.workers| == 2 && s.workers[1] == FRESH_WORKER && s.adding == {}
    requires |s.db.messages| == 1 && s.db.messages[0].row.status == Queued && s.workers[0].poller == Resting
    requires RunningOn(s, 0, 0) && s.workers[0].run.value.pc.AtLog? && s.workers[0].run.value.entry == 0
    requires |s.q.entries| == 2 && s.q.cursor == 1 && s.q.entries[0].msg == s.q.entries[1].msg == 0
    ensures Reachable(c, origin, u) && |u.workers| == 2 && u.hist == s.hist && |u.db.messages| == 1
    ensures Step(c, u, Consume(1, LoadLocked)) == Some(t) && Reachable(c, origin, t)
    ensures NoLoss.Skips(u, Consume(1, LoadLocked), 0) && NoLoss.Drops(u, Consume(1, LoadLocked), 0)
    ensures t.workers == s.workers[1 := t.workers[1]] && t.db == s.db && t.adding == s.adding && t.hist == s.hist
    ensures t.workers[1] == FRESH_WORKER.(run := Some(FreshRun(1, 0).(pc := AtAck)))
    ensures |t.q.entries| == 2 == t.q.cursor && t.q.entries[0].msg == 0
  {
    TakesNext(c, origin, s, 1);
    u := On(s.(q := Read(s.q, 1, s.now)), 1, FreshRun(1, 0));
    assert LockedByRun(u, 1, 0, 0);
    t := LoadLockedStep(u, 1).value;
    Then(c, origin, u, Consume(1, LoadLocked), t);
    SkipDrops(u);
  }

  lemma SkipDrops(s: State)
    requires |s.workers| == 2 && |s.db.messages| == 1 && s.db.messages[0].row.status == Queued && s.adding == {}
    requires RunningOn(s, 0, 0) && s.workers[0].run.value.pc.AtLog? && s.workers[0].run.value.entry == 0
    requires RunningOn(s, 1, 0) && s.workers[1].run.value == FreshRun(1, 0) && |s.q.entries| == 2
    requires s.workers[0].poller == s.workers[1].poller == Resting
    ensures NoLoss.Skips(s, Consume(1, LoadLocked), 0) && NoLoss.Drops(s, Consume(1, LoadLocked), 0)
  {
    assert RunningOn(s, 1, 0) && NoLoss.ClosingOn(s, 0, 0);
    forall w: nat ensures !NoLoss.PollerOwes(s, w, 0) && (NoLoss.OpenOn(s, w, 0) ==> w == 1) {}
  }

  lemma AllAckedIsLost(s: State)
    requires |s.workers| == 2 && |s.db.messages| == 1 && s.adding == {} && s.db.messages[0].row.status == Queued
    requires s.workers[0].run == None && s.workers[0].batch == {} && s.workers[0].poller == Resting
    requires s.workers[1] == FRESH_WORKER
    requires |s.q.entries| == 2 == s.q.cursor && s.q.entries[0].acked && s.q.entries[1].acked
    ensures Lost(s, 0)
  {
    assert !Stranded.Touches(s, s.workers[0], 0) && !Stranded.Touches(s, s.workers[1], 0);
  }

  /**
   A skip can lose the message without any fault: the holder of the lock has only its log left to write,
   and acks its own entry next. The row says queued and no entry is left.
   */
  lemma SkipLosesMessage()
    ensures exists c, origin, s, a, t, u ::
              && Reachable(c, origin, s) && |s.workers| == 2 && Step(c, s, a) == Some(t) && |s.db.messages| == 1
              && NoLoss.Skips(s, a, 0) && NoLoss.Drops(s, a, 0)
              && Reachable(c, origin, u) && |u.workers| == 2 && u.hist.faults == 0 && Lost(u, 0)
  {
    var c, origin := Small(2, None), Empty(TWO);
    var s1 := DefersLate(c, origin);
    var s2 := Requeues(c, origin, s1);
    var s3, s4 := SkipsLocked(c, origin, s2);
    var s5 := AcksDue(c, origin, s4, 1);
    var s6 := FinishesRetried(c, origin, s5, 0);
    AllAckedIsLost(s6);
  }

  // An early send.

  /** A run's next call fails. */
  lemma Fails(c: Config, origin: State, s: State) returns (t: State)
    requires Reachable(c, origin, s) && |s.workers| == 1 && Running(s, 0) && !s.workers[0].run.value.pc.AtRoute?
    ensures Reachable(c, origin, t) && t.workers == [s.workers[0].(run := None)]
    ensures t.db == s.db && t.q == s.q && t.now == s.now && t.adding == s.adding
  {
    t := FailStep(s, 0).value;
    Then(c, origin, s, Consume(0, Fail), t);
  }

  /** A minute before midnight the pool's only send of the day is used, and its run fails. */
  lemma UsesTheCap(c: Config, origin: State) returns (t: State)
    requires c == Small(1, Some(1)) && origin == Empty(ONE)
    ensures Reachable(c, origin, t) && t.workers == ONE && t.now == DAY - MINUTE && Calm(t, 1)
    ensures |t.q.entries| == 2 && t.q.cursor == 1 && t.q.entries[1] == Entry(1, Handler, false, 0)
    ensures |t.db.attempts| == 1 && t.db.attempts[0].pool == 1 && t.db.attempts[0].startedAt == t.now
  {
    AddsReach(c, ONE, 2);
    var s1 := Added(ONE, 2).(now := DAY - MINUTE);
    Then(c, origin, Added(ONE, 2), World(Tick(DAY - MINUTE)), s1);
    var s2 := MarksNext(1, Some(1), origin, s1, 0);
    var s3 := Sends(c, origin, s2, 0, Classify.Delivered);
    t := Fails(c, origin, s3);
  }

  lemma OneSendToday(db: Db, now: Time)
    requires |db.attempts| == 1 && db.attempts[0].pool == 1
    ensures CountSendsToday(db, 1, now) == if DateOf(db.attempts[0].startedAt) >= DateOf(now) then 1 else 0
  {
    assert db.attempts == [] + [db.attempts[0]];
    CountAppend([], db.attempts[0], PoolSince(1, DateOf(now)));
  }

  /** The next message finds the cap used up. */
  lemma IsHeld(c: Config, origin: State, s: State) returns (t: State)
    requires c == Small(1, Some(1)) && Reachable(c, origin, s) && s.workers == ONE && Calm(s, 1)
    requires |s.q.entries| == 2 && s.q.cursor == 1 && s.q.entries[1] == Entry(1, Handler, false, 0)
    requires |s.db.attempts| == 1 && s.db.attempts[0].pool == 1 && s.db.attempts[0].startedAt == s.now
    ensures Reachable(c, origin, t) && t.now == s.now && t.q == Read(s.q, 1, s.now) && t.db == s.db
    ensures |t.workers| == 1 && t.workers[0].batch == {} && t.workers[0].poller == Resting && RunningOn(t, 0, 1)
    ensures var pc := t.workers[0].run.value.pc; pc.AtSettle? && pc.out == Outcome.Held(WarmupLimit, s.now + HOUR)
  {
    TakesNext(c, origin, s, 0);
    var u := s.(q := Read(s.q, 1, s.now));
    RunsToPoolCap(1, Some(1), origin, u, 0, FreshRun(1, 1));
    var q := Run(1, 1, AtPoolCap(PlanAt(Some(1), u.now)), MAIL, u.db.messages[1].row);
    OneSendToday(u.db, u.now);
    ComesToHold(c, 1, origin, u, 0, q);
    t := On(u, 0, q.(pc := HeldPoint(q, u.now)));
  }

  lemma Settles(c: Config, origin: State, s: State) returns (t: State)
    requires Reachable(c, origin, s) && |s.workers| == 1 && RunningOn(s, 0, 1) && |s.db.messages| > 1
    requires s.workers[0].run.value.pc.AtSettle? && s.workers[0].run.value.pc.out.Held?
    ensures Reachable(c, origin, t) && Framed(s, 0, t) && t.db.attempts == s.db.attempts
    ensures t.db.sendingState == s.db.sendingState && t.db.suppressed == s.db.suppressed
    ensures var out := s.workers[0].run.value.pc.out;
            && t.db.messages[1].mail == s.db.messages[1].mail && t.db.messages[1].row.status == Deferred
            && t.db.messages[1].row.next == Some(out.until)
    ensures RunningOn(t, 0, 1) && t.workers[0].run.value.pc.AtLog?
  {
    t := Calls(c, origin, s, 0);
  }

  /** It is deferred for an hour, and the run fails before its event: the entry stays. */
  lemma HeldAndFailed(c: Config, origin: State, s: State) returns (t: State)
    requires c == Small(1, Some(1)) && Reachable(c, origin, s) && s.workers == ONE && Calm(s, 1)
    requires |s.q.entries| == 2 && s.q.cursor == 1 && s.q.entries[1] == Entry(1, Handler, false, 0)
    requires |s.db.attempts| == 1 && s.db.attempts[0].pool == 1 && s.db.attempts[0].startedAt == s.now
    ensures Reachable(c, origin, t) && t.workers == ONE && t.now == s.now && Calm(t, 1)
    ensures t.db.attempts == s.db.attempts
    ensures t.q == Read(s.q, 1, s.now) && t.db.messages[1].row.next == Some(s.now + HOUR)
  {
    var u := IsHeld(c, origin, s);
    var v := Settles(c, origin, u);
    t := Fails(c, origin, v);
  }

  lemma NoSendYet(db: Db)
    requires |db.attempts| == 1 && db.attempts[0].pool == 1 && db.attempts[0].startedAt == DAY - MINUTE
    ensures CountSendsToday(db, 1, DAY) == 0
  {
    OneSendToday(db, DAY);
  }

  /** A minute later the entry comes back: it is past midnight, and far from the end of the hour. */
  lemma ComesBackEarly(c: Config, origin: State, s: State) returns (t: State)
    requires c == Small(1, Some(1)) && Reachable(c, origin, s) && s.workers == ONE && Calm(s, 1)
    requires s.now == DAY - MINUTE
    requires |s.q.entries| == 2 == s.q.cursor && s.q.entries[1] == Entry(1, Handler, false, s.now)
    requires |s.db.attempts| == 1 && s.db.attempts[0].pool == 1 && s.db.attempts[0].startedAt == s.now
    ensures Reachable(c, origin, t) && |t.workers| == 1 && t.db == s.db && t.now == DAY
    ensures RunningOn(t, 0, 1) && t.workers[0].run.value.pc.AtMarkSending?
  {
    var u := TakesOver(c, origin, s, 0, 1);
    NoSendYet(u.db);
    RunsToMark(1, Some(1), origin, u, 0, FreshRun(1, 1));
    t := On(u, 0, Run(1, 1, AtMarkSending(PlanAt(Some(1), u.now)), MAIL, u.db.messages[1].row));
  }

  /** With a fault a send may start before the time its row was deferred to. */
  lemma FaultAllowsEarlySend()
    ensures exists c, origin, s ::
              && Reachable(c, origin, s) && |s.workers| == 1 && |s.db.messages| > 1
              && RunningOn(s, 0, 1) && s.workers[0].run.value.pc.AtMarkSending?
              && s.db.messages[1].row.next.Some? && s.now < s.db.messages[1].row.next.value
  {
    var c, origin := Small(1, Some(1)), Empty(ONE);
    var s1 := UsesTheCap(c, origin);
    var s2 := HeldAndFailed(c, origin, s1);
    var s3 := ComesBackEarly(c, origin, s2);
  }

  // Requests.

  ghost predicate Served(c: Config, origin: Intake.State, s: Intake.State) {
    exists acts :: Intake.Reaches(c, origin, acts, s)
  }

  lemma Next(c: Config, origin: Intake.State, s: Intake.State, a: Intake.Action) returns (t: Intake.State)
    requires Served(c, origin, s) && Intake.Step(c, s, a).Some?
    ensures Served(c, origin, t) && Intake.Step(c, s, a) == Some(t)
  {
    t := Intake.Step(c, s, a).value;
    var acts :| Intake.Reaches(c, origin, acts, s);
    assert (acts + [a])[..|acts|] == acts;
    assert Intake.Reaches(c, origin, acts + [a], t);
  }

  /** A request of key k that has looked for its key and not found it. */
  lemma Looked(c: Config, origin: Intake.State, s: Intake.State, k: string) returns (t: Intake.State)
    requires Served(c, origin, s) && k !in s.keys && MAIL.customer in s.engine.db.sendingState
    requires s.engine.db.sendingState[MAIL.customer] == Trusted
    ensures Served(c, origin, t) && t.engine == s.engine && t.keys == s.keys
    ensures t.posts == s.posts + [Intake.Post(k, MAIL, Intake.AtInsertKey, false, [])]
  {
    var p := |s.posts|;
    var t1 := Next(c, origin, s, Intake.Arrive(k, MAIL));
    var t2 := Next(c, origin, t1, Intake.Advance(p, Intake.Ok));
    var t3 := Next(c, origin, t2, Intake.Advance(p, Intake.Ok));
    t := Next(c, origin, t3, Intake.Advance(p, Intake.Ok));
  }

  /** The first request inserts its key and its events. */
  lemma Inserts(c: Config, origin: Intake.State, s: Intake.State, k: string) returns (t: Intake.State)
    requires Served(c, origin, s) && |s.posts| == 2 && k !in s.keys
    requires s.posts[0] == Intake.Post(k, MAIL, Intake.AtInsertKey, false, []) && !s.posts[1].keyed
    ensures Served(c, origin, t) && |t.posts| == 2 && t.posts[1] == s.posts[1]
    ensures t.posts[0].key == k && t.posts[0].pc == Intake.AtCommit
  {
    var t1 := Next(c, origin, s, Intake.Advance(0, Intake.Ok));
    var t2 := Next(c, origin, t1, Intake.Advance(0, Intake.Ok));
    t := Next(c, origin, t2, Intake.Advance(0, Intake.Ok));
  }

  /** And it commits. */
  lemma Commits(c: Config, origin: Intake.State, s: Intake.State, k: string) returns (t: Intake.State)
    requires Served(c, origin, s) && |s.posts| == 2 && s.posts[0].key == k && s.posts[0].pc == Intake.AtCommit
    ensures Served(c, origin, t) && |t.posts| == 2 && t.posts[1] == s.posts[1] && k in t.keys
    ensures t.posts[0].key == k && t.posts[0].pc == Intake.AtEnqueue(t.keys[k])
  {
    t := Next(c, origin, s, Intake.Advance(0, Intake.Ok));
  }

  /** A replay is not promised to a concurrent request: the one that loses the race for the key is answered 500. */
  lemma ConcurrentLoserGets500()
    ensures exists c, origin, s, k ::
              && Served(c, origin, s) && |s.posts| == 2 && s.posts[0].key == s.posts[1].key == k && k in s.keys
              && s.posts[0].pc == Intake.AtEnqueue(s.keys[k]) && s.posts[1].pc == Intake.Answered(Intake.InternalError)
  {
    var c, origin := Small(1, None), Intake.State(Empty(ONE), map[], []);
    assert Intake.Reaches(c, origin, [], origin);
    var s1 := Looked(c, origin, origin, "k");
    var s2 := Looked(c, origin, s1, "k");
    var s3 := Inserts(c, origin, s2, "k");
    var s4 := Commits(c, origin, s3, "k");
    var s5 := Next(c, origin, s4, Intake.Advance(1, Intake.Ok));
  }
}
