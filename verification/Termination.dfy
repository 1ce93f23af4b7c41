/** One worker, with faults: only so many steps can ever be spent on one message. */
module Termination {
  import opened Base
  import opened Counting
  import opened Tables
  import opened Engine
  import opened Shapes
  import opened Focus
  import opened NoLoss
  import Ownership
  import Stranded
  import opened Single

  // The measure.

  /** How far a run is from its ack. A run past its mark has a higher number: the mark pays for it. */
  function Stage(pc: Point): (n: nat)
    ensures 1 <= n <= 54
  {
    match pc
    case AtLoad => 38
    case AtCustomer => 37
    case AtSuppression => 36
    case AtRoute => 35
    case AtCustomerCap(_) => 34
    case AtPoolCap(_) => 33
    case AtThrottle(_) => 32
    case AtMarkSending(_) => 31
    case AtLogSending(_) => 54
    case AtPolicy(_) => 53
    case AtRecord(_, _) => 52
    case AtSuppress(_) => 51
    case AtSettle(out, _, _) => if AfterSend(out) then 50 else 30
    case AtLog(_, _) => 3
    case AtLogRetry(_, _) => 2
    case AtAck => 1
  }

  function Live(m: MessageId): Entry -> bool { (e: Entry) => e.msg == m && !e.acked }

  /** What the poller, or the deferred row itself, still means to do for m. */
  function PollerLoad(p: PollerState, m: MessageId, st: Status): nat {
    (if Owes(p, m) then 41 else 0) + (if OnList(p, m) then 42 else if st == Deferred then 43 else 0)
  }

  function RunLoad(x: Worker, m: MessageId): int {
    if x.run.Some? && x.run.value.msg == m then Stage(x.run.value.pc) - 40 else 0
  }

  /** The work in sight for m: its pending XADDs, live entries, run and appointment. */
  function Load(s: State, m: MessageId): int
    requires |s.workers| == 1
  {
    if m >= |s.db.messages| then 42
    else
      (if m in s.adding then 41 else 0) + 40 * Count(s.q.entries, Live(m)) + RunLoad(s.workers[0], m)
      + PollerLoad(s.workers[0].poller, m, s.db.messages[m].row.status)
  }

  /** Attempts still allowed, where each fault still to come may buy one more. */
  function Allowance(c: Config, s: State, m: MessageId, faults: nat): int {
    2 * (faults - s.hist.faults) + c.maxAttempts + Aborted(s.hist, m)
    - (if m < |s.db.messages| then s.db.messages[m].row.attempts else 0)
  }

  function Potential(c: Config, s: State, m: MessageId, faults: nat): int
    requires |s.workers| == 1
  {
    50 * Allowance(c, s, m, faults) + Load(s, m)
  }

  // Which steps count.

  /** The step defers m because a cap or a rate limit is used up. */
  predicate HoldsBack(s: State, a: Action, m: MessageId) {
    a.Consume? && a.d.Work? && RunningOn(s, a.w, m)
    && s.workers[a.w].run.value.pc.AtSettle? && s.workers[a.w].run.value.pc.out.Held?
  }

  ghost function StepsOn(c: Config, s: State, acts: seq<Action>, m: MessageId): nat {
    if acts == [] then 0
    else
      var before := acts[..|acts| - 1];
      StepsOn(c, s, before, m)
      + match Exec(c, s, before)
        case None => 0
        case Some(u) => if ActsOn(u, acts[|acts| - 1], m) then 1 else 0
  }

  ghost function HoldsOn(c: Config, s: State, acts: seq<Action>, m: MessageId): nat {
    if acts == [] then 0
    else
      var before := acts[..|acts| - 1];
      HoldsOn(c, s, before, m)
      + match Exec(c, s, before)
        case None => 0
        case Some(u) => if HoldsBack(u, acts[|acts| - 1], m) then 1 else 0
  }

  /** The step lowers the potential by what it spends on m; only holding m back may raise it. */
  predicate Pays(c: Config, s: State, a: Action, t: State, m: MessageId, faults: nat) {
    && |s.workers| == |t.workers| == 1
    && Potential(c, t, m, faults) + (if ActsOn(s, a, m) then 1 else 0)
       <= Potential(c, s, m, faults) + (if HoldsBack(s, a, m) then 17 else 0)
  }

  // What each step pays.

  /** A message that does not exist yet has nothing. */
  lemma NothingYet(c: Config, s: State, m: MessageId)
    requires Ownership.Orderly(c, s) && m >= |s.db.messages|
    ensures m !in s.adding && Count(s.q.entries, Live(m)) == 0 && RunLoad(s.workers[0], m) == 0
    ensures !Owes(s.workers[0].poller, m) && !OnList(s.workers[0].poller, m)
  {
    forall e | 0 <= e < |s.q.entries| ensures !Live(m)(s.q.entries[e]) {}
    CountNone(s.q.entries, Live(m));
    if Running(s, 0) { assert RunIsSound(s, s.workers[0]); }
    assert PollerIsSound(s, s.workers[0].poller);
  }

  lemma PaysWorld(c: Config, s: State, e: WorldAction, t: State, m: MessageId, faults: nat)
    requires Ownership.Orderly(c, s) && WorldStep(s, e) == Some(t)
    ensures Pays(c, s, World(e), t, m, faults)
  {
    match e
    case Accept(_) => if m == |s.db.messages| { NothingYet(c, s, m); }
    case HandlerAdd(n) => CountAppend(s.q.entries, Entry(n, Handler, false, 0), Live(m));
    case _ =>
  }

  lemma PaysPoller(c: Config, s: State, w: nat, k: PollerAction, t: State, m: MessageId, faults: nat)
    requires Ownership.Orderly(c, s) && PollerStep(s, w, k) == Some(t)
    ensures Pays(c, s, Poll(w, k), t, m, faults)
  {
    if m >= |s.db.messages| { NothingYet(c, s, m); }
    match k
    case List(ready) => PaysList(c, s, w, ready, t, m, faults);
    case Mark => PaysMark(c, s, t, m, faults);
    case MarkFail => PaysMarkFail(c, s, w, t, m, faults);
    case Add => PaysAdd(c, s, w, t, m, faults);
    case AddFail => PaysAddFail(c, s, w, t, m, faults);
  }

  lemma PaysList(c: Config, s: State, w: nat, ready: seq<MessageId>, t: State, m: MessageId, faults: nat)
    requires |s.workers| == 1 && ListStep(s, w, ready) == Some(t)
    ensures Pays(c, s, Poll(w, List(ready)), t, m, faults)
  {
    if m in ready {
      var i :| 0 <= i < |ready| && ready[i] == m;
      assert Ready(s.db, s.now, ready[i]);
    }
  }

  lemma PaysMarkFail(c: Config, s: State, w: nat, t: State, m: MessageId, faults: nat)
    requires |s.workers| == 1 && TidyPoller(s.workers[0].poller) && MarkFailStep(s, w) == Some(t)
    ensures Pays(c, s, Poll(w, MarkFail), t, m, faults)
  {
    AfterHead(s.workers[0].poller.ready, m);
  }

  lemma PaysAdd(c: Config, s: State, w: nat, t: State, m: MessageId, faults: nat)
    requires |s.workers| == 1 && AddStep(s, w) == Some(t) && (Owes(s.workers[0].poller, m) ==> m < |s.db.messages|)
    ensures Pays(c, s, Poll(w, Add), t, m, faults)
  {
    var p := s.workers[0].poller;
    CountAppend(s.q.entries, Entry(p.msg, Poller, false, 0), Live(m));
    assert !Owes(Resume(p.rest), m) && OnList(Resume(p.rest), m) == OnList(p, m);
    assert t.workers == [s.workers[0].(poller := Resume(p.rest))];
  }

  lemma PaysAddFail(c: Config, s: State, w: nat, t: State, m: MessageId, faults: nat)
    requires |s.workers| == 1 && AddFailStep(s, w) == Some(t)
    ensures Pays(c, s, Poll(w, AddFail), t, m, faults)
  {
  }

  lemma PaysMark(c: Config, s: State, t: State, m: MessageId, faults: nat)
    requires |s.workers| == 1 && TidyPoller(s.workers[0].poller) && MarkStep(s, 0) == Some(t)
    requires OnList(s.workers[0].poller, m) ==> m < |s.db.messages|
    ensures Pays(c, s, Poll(0, Mark), t, m, faults)
  {
    AfterHead(s.workers[0].poller.ready, m);
  }

  /** A run's entry is live, so ending the run without an ack leaves the entry's load. */
  lemma RunIsLive(c: Config, s: State, m: MessageId)
    requires Ownership.Orderly(c, s) && RunningOn(s, 0, m)
    ensures m < |s.db.messages| && Count(s.q.entries, Live(m)) >= 1 && Load(s, m) >= 1
    ensures var e := s.workers[0].run.value.entry; e < |s.q.entries| && Live(m)(s.q.entries[e])
  {
    assert RunIsSound(s, s.workers[0]);
    var e := s.workers[0].run.value.entry;
    assert Holds(s, 0, e);
    CountPositive(s.q.entries, e, Live(m));
  }

  /** Each check brings the run closer to its end. */
  lemma LookAdvances(c: Config, s: State, r: Run, i: Input)
    requires ReadsOnly(r.pc)
    ensures Stage(AfterRead(c, s, r, i)) < Stage(r.pc)
  {
  }

  lemma PaysLook(c: Config, s: State, w: nat, i: Input, t: State, m: MessageId, faults: nat)
    requires Ownership.Orderly(c, s) && Looks(c, s, w, i, t)
    ensures Pays(c, s, Consume(w, Work(i)), t, m, faults)
  {
    LookAdvances(c, s, s.workers[w].run.value, i);
  }

  lemma PaysRecord(c: Config, s: State, w: nat, i: Input, t: State, m: MessageId, faults: nat)
    requires Ownership.Orderly(c, s) && Writes(c, s, w, i, t) && s.workers[w].run.value.pc.AtRecord?
    ensures Pays(c, s, Consume(w, Work(i)), t, m, faults)
  {
    RecordShape(c, s, w, i, t);
    assert Stage(t.workers[0].run.value.pc) < Stage(s.workers[0].run.value.pc);
  }

  lemma PaysPlain(c: Config, s: State, w: nat, i: Input, t: State, m: MessageId, faults: nat)
    requires Ownership.Orderly(c, s) && Plain(s, w, t)
    ensures Pays(c, s, Consume(w, Work(i)), t, m, faults)
  {
    assert Agrees(c, s, s.workers[w].run.value);
  }

  lemma PaysAck(c: Config, s: State, w: nat, i: Input, t: State, m: MessageId, faults: nat)
    requires Ownership.Orderly(c, s) && Acks(s, w, t)
    ensures Pays(c, s, Consume(w, Work(i)), t, m, faults)
  {
    var r := s.workers[w].run.value;
    RunIsLive(c, s, r.msg);
    CountUpdate(s.q.entries, r.entry, s.q.entries[r.entry].(acked := true), Live(m));
  }

  lemma PaysWork(c: Config, s: State, w: nat, i: Input, t: State, m: MessageId, faults: nat)
    requires Ownership.Orderly(c, s) && WorkStep(c, s, w, i) == Some(t)
    ensures Pays(c, s, Consume(w, Work(i)), t, m, faults)
  {
    WorkShape(c, s, w, i, t);
    if Looks(c, s, w, i, t) { PaysLook(c, s, w, i, t, m, faults); }
    else if Acks(s, w, t) { PaysAck(c, s, w, i, t, m, faults); }
    else if Writes(c, s, w, i, t) {
      if s.workers[w].run.value.pc.AtRecord? { PaysRecord(c, s, w, i, t, m, faults); }
      else { PlainShape(c, s, w, i, t); PaysPlain(c, s, w, i, t, m, faults); }
    }
  }

  lemma PaysReading(c: Config, s: State, w: nat, d: ConsumerAction, t: State, m: MessageId, faults: nat)
    requires |s.workers| == 1 && ConsumerStep(c, s, w, d) == Some(t) && (d.ReadStream? || d.ReclaimIdle?)
    ensures Pays(c, s, Consume(w, d), t, m, faults)
  {
    ReadingShape(c, s, w, d, t);
    CountAgree(s.q.entries, t.q.entries, Live(m));
  }

  lemma ReadingShape(c: Config, s: State, w: nat, d: ConsumerAction, t: State)
    requires |s.workers| == 1 && ConsumerStep(c, s, w, d) == Some(t) && (d.ReadStream? || d.ReclaimIdle?)
    ensures |t.workers| == 1 && t.db == s.db && t.adding == s.adding && |t.q.entries| == |s.q.entries|
    ensures s.workers[0].run.None? && t.workers[0].run.None? && t.workers[0].poller == s.workers[0].poller
    ensures t.hist.faults == s.hist.faults && t.hist.aborted == s.hist.aborted
    ensures forall e :: 0 <= e < |s.q.entries| ==>
              t.q.entries[e].msg == s.q.entries[e].msg && t.q.entries[e].acked == s.q.entries[e].acked
  {
  }

  lemma PaysStart(c: Config, s: State, w: nat, e: EntryId, t: State, m: MessageId, faults: nat)
    requires Ownership.Orderly(c, s) && StartStep(s, w, e) == Some(t)
    ensures Pays(c, s, Consume(w, Start(e)), t, m, faults)
  {
    assert Holds(s, 0, e);
  }

  lemma PaysLoadLocked(c: Config, s: State, w: nat, t: State, m: MessageId, faults: nat)
    requires |s.workers| == 1 && LoadLockedStep(s, w) == Some(t) && (RunningOn(s, 0, m) ==> m < |s.db.messages|)
    ensures Pays(c, s, Consume(w, LoadLocked), t, m, faults)
  {
  }

  // A fault pays for whatever it brings back into sight.

  lemma PaysFail(c: Config, s: State, w: nat, t: State, m: MessageId, faults: nat)
    requires |s.workers| == 1 && FailStep(s, w) == Some(t)
    ensures Pays(c, s, Consume(w, Fail), t, m, faults)
  {
  }

  lemma PaysRouteError(c: Config, s: State, w: nat, t: State, m: MessageId, faults: nat)
    requires |s.workers| == 1 && RouteErrorStep(s, w) == Some(t)
    ensures Pays(c, s, Consume(w, RouteError), t, m, faults)
  {
  }

  lemma PaysCrash(c: Config, s: State, w: nat, t: State, m: MessageId, faults: nat)
    requires |s.workers| == 1 && CrashStep(s, w) == Some(t)
    ensures Pays(c, s, Consume(w, Crash), t, m, faults)
  {
    CrashCosts(s, w, t, m);
    assert Load(t, m) <= Load(s, m) + 40;
  }

  lemma CrashCosts(s: State, w: nat, t: State, m: MessageId)
    requires |s.workers| == 1 && CrashStep(s, w) == Some(t)
    ensures t.workers == [FRESH_WORKER] && t.db == s.db && t.q == s.q && t.adding == s.adding
    ensures t.hist.faults == s.hist.faults + 1 && Aborted(t.hist, m) <= Aborted(s.hist, m) + 1
  {
  }

  lemma PaysStep(c: Config, s: State, a: Action, t: State, m: MessageId, faults: nat)
    requires Ownership.Orderly(c, s) && Step(c, s, a) == Some(t)
    ensures Pays(c, s, a, t, m, faults)
  {
    match a
    case World(e) => PaysWorld(c, s, e, t, m, faults);
    case Poll(w, k) => PaysPoller(c, s, w, k, t, m, faults);
    case Consume(w, d) =>
      match d
      case Work(i) => PaysWork(c, s, w, i, t, m, faults);
      case ReadStream(count) => PaysReading(c, s, w, d, t, m, faults);
      case ReclaimIdle(ids) => PaysReading(c, s, w, d, t, m, faults);
      case Start(e) => PaysStart(c, s, w, e, t, m, faults);
      case LoadLocked =>
        if RunningOn(s, 0, m) { RunIsLive(c, s, m); }
        PaysLoadLocked(c, s, w, t, m, faults);
      case Fail => PaysFail(c, s, w, t, m, faults);
      case RouteError => PaysRouteError(c, s, w, t, m, faults);
      case Crash => PaysCrash(c, s, w, t, m, faults);
  }

  /** Over a whole schedule m costs what its potential loses, and holds alone give any of it back. */
  lemma {:induction false} PaysAlong(c: Config, s: State, acts: seq<Action>, t: State, m: MessageId, faults: nat)
    requires Ownership.Orderly(c, s) && Exec(c, s, acts) == Some(t)
    ensures Ownership.Orderly(c, t)
    ensures Potential(c, t, m, faults) + StepsOn(c, s, acts, m)
            <= Potential(c, s, m, faults) + 17 * HoldsOn(c, s, acts, m)
    decreases |acts|
  {
    if acts != [] {
      var u := Exec(c, s, acts[..|acts| - 1]).value;
      PaysAlong(c, s, acts[..|acts| - 1], u, m, faults);
      PaysStep(c, u, acts[|acts| - 1], t, m, faults);
      Ownership.OrderlyStep(c, u, acts[|acts| - 1], t);
    }
  }

  /** A message that is neither finished nor stranded has work in sight. */
  lemma WorkRemains(c: Config, s: State, m: MessageId)
    requires Ownership.Orderly(c, s) && m < |s.db.messages|
    ensures Load(s, m) >= 0
    ensures !Terminal(s.db.messages[m].row.status) && !Stranded.OutOfSight(s, m) ==> Load(s, m) >= 1
  {
    if RunningOn(s, 0, m) {
      RunIsLive(c, s, m);
    } else if e: EntryId :| Unacked(s, e, m) {
      CountPositive(s.q.entries, e, Live(m));
    } else {
      NothingHeld(s, m);
    }
  }

  /** Where all entries of m are acked, no worker holds one. */
  lemma NothingHeld(s: State, m: MessageId)
    requires |s.workers| == 1 && Structure(s) && Exclusive(s) && forall e: EntryId :: !Unacked(s, e, m)
    ensures !Stranded.HoldsEntryOf(s, s.workers[0], m)
    ensures forall e :: 0 <= e < |s.q.entries| && s.q.entries[e].msg == m ==> s.q.entries[e].acked && e < s.q.cursor
  {
    forall e | e in s.workers[0].batch && e < |s.q.entries| ensures s.q.entries[e].msg != m {
      assert Holds(s, 0, e) && !Unacked(s, e, m);
    }
    forall e | 0 <= e < |s.q.entries| && s.q.entries[e].msg == m ensures s.q.entries[e].acked && e < s.q.cursor {
      assert !Unacked(s, e, m);
    }
  }

  /**
   Only so many steps can be spent on one message. Whatever the schedule, they are bounded by the
   attempts allowed, the faults that occur and the times a cap or rate limit holds it back.
   */
  lemma StepsAreBounded(c: Config, s: State, acts: seq<Action>, t: State, m: MessageId)
    requires Reaches(c, s, acts, t) && |s.workers| == 1 && m < |t.db.messages|
    ensures StepsOn(c, s, acts, m)
            <= 50 * (2 * t.hist.faults + c.maxAttempts) + 42 + 17 * HoldsOn(c, s, acts, m)
  {
    Ownership.OrderlyAlways(c, s, [], s);
    PaysAlong(c, s, acts, t, m, t.hist.faults);
    assert Allowed(c, t, m);
    WorkRemains(c, t, m);
  }

  /** Being held back costs no attempt: the row is deferred with its attempt_count as it was. */
  lemma HoldsCostNothing(c: Config, s: State, acts: seq<Action>, t: State, a: Action, u: State, m: MessageId)
    requires Reaches(c, s, acts, t) && |s.workers| == 1 && Step(c, t, a) == Some(u) && HoldsBack(t, a, m)
    ensures m < |t.db.messages| == |u.db.messages|
    ensures u.db.messages[m].row.attempts == t.db.messages[m].row.attempts && u.db.messages[m].row.status == Deferred
  {
    SoundAlways(c, s, acts, t);
    HoldKeepsAttempts(c, t, a, u, m);
  }

  lemma HoldKeepsAttempts(c: Config, s: State, a: Action, t: State, m: MessageId)
    requires Sound(c, s) && Step(c, s, a) == Some(t) && HoldsBack(s, a, m)
    ensures m < |s.db.messages| == |t.db.messages|
    ensures t.db.messages[m].row.attempts == s.db.messages[m].row.attempts && t.db.messages[m].row.status == Deferred
  {
    assert Agrees(c, s, s.workers[0].run.value);
    HoldSettles(c, s, a.d.input, t);
  }

  lemma HoldSettles(c: Config, s: State, i: Input, t: State)
    requires WorkStep(c, s, 0, i) == Some(t) && s.workers[0].run.value.pc.AtSettle?
    ensures var r := s.workers[0].run.value;
            r.msg < |s.db.messages| == |t.db.messages|
            && t.db.messages[r.msg].row == Row(StatusOf(r.pc.out), r.pc.lane, r.pc.attempts, NextOf(r.pc.out))
  {
  }
}
