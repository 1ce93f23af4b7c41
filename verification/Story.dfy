/** One worker: what a whole message that no fault hits costs in sends, rows and waiting time. */
module Story {
  import opened Base
  import opened Counting
  import opened Tables
  import opened Engine
  import opened Shapes
  import opened Focus
  import Backoff
  import Classify
  import Knowledge
  import opened Single
  import Chronicle
  import NoLoss
  import Ownership

  predicate Numbered(rows: seq<Attempt>) { forall i :: 0 <= i < |rows| ==> rows[i].number == i + 1 }

  /** The first n attempts met replies the worker retries. */
  predicate RetriedUpTo(rows: seq<Attempt>, n: nat)
    requires n <= |rows|
  {
    forall i :: 0 <= i < n ==> Classify.TakesDefaultBranch(rows[i].kind)
  }

  /** The attempt of the current run has no row yet. */
  predicate Unrecorded(pc: Point) { pc.AtLogSending? || pc.AtPolicy? || pc.AtRecord? }

  /**
   Every attempt but the last was retried after a scheduled wait, and the last one was unless it ended
   the message.
   */
  predicate Timed(row: Row, rows: seq<Attempt>, waits: seq<Time>, here: Option<Point>) {
    var unrecorded := here.Some? && Unrecorded(here.value);
    var deciding := here.Some? && (here.value.AtSuppress? || (here.value.AtSettle? && AfterSend(here.value.out)));
    && |rows| == row.attempts - (if unrecorded then 1 else 0)
    && Numbered(rows) && Backoff.Schedule(waits)
    && |waits| <= |rows| && RetriedUpTo(rows, |waits|)
    && (unrecorded ==> |waits| == |rows|)
    && (deciding ==>
          |rows| > 0 && |waits| == (if here.value.AtSettle? && here.value.out.Retry? then |rows| else |rows| - 1))
    && (!unrecorded && !deciding && !Terminal(row.status) ==> |waits| == |rows|)
    && (row.status == Delivered || row.status == Bounced || row.status == DeadLettered ==>
          |rows| > 0 && |waits| == |rows| - 1)
  }

  /** Nothing has happened to a message that is yet to come. */
  predicate Unstarted(s: State, m: MessageId) {
    AttemptsOf(s.db.attempts, m) == [] && Waits(s.hist, m) == [] && Aborted(s.hist, m) == 0
  }

  predicate TimedFor(s: State, m: MessageId)
    requires |s.workers| == 1
  {
    if m < |s.db.messages|
    then
      && Timed(s.db.messages[m].row, AttemptsOf(s.db.attempts, m), Waits(s.hist, m), Here(s, m))
      && Aborted(s.hist, m) == 0
    else Unstarted(s, m)
  }

  lemma TimedWorld(c: Config, s: State, t: State, m: MessageId)
    requires Ownership.Orderly(c, s) && TimedFor(s, m) && WorldOnly(s, t)
    ensures |t.workers| == 1 && TimedFor(t, m)
  {
    if Running(s, 0) { assert NoLoss.RunIsSound(s, s.workers[0]); }
  }

  lemma TimedPoller(s: State, w: nat, t: State, m: MessageId)
    requires |s.workers| == 1 && TimedFor(s, m) && PollerOnly(s, w, t)
    ensures |t.workers| == 1 && TimedFor(t, m)
  {
  }

  /** What a worker does quietly while it is not on m, other than take m up. */
  lemma TimedQuiet(s: State, w: nat, t: State, m: MessageId)
    requires |s.workers| == 1 && TimedFor(s, m) && Quiet(s, w, t) && !RunningOn(s, 0, m)
    ensures |t.workers| == 1 && TimedFor(t, m)
  {
    assert Aborted(t.hist, m) == Aborted(s.hist, m);
  }

  /** Skipping a message costs it nothing. */
  lemma TimedSkip(s: State, t: State, m: MessageId)
    requires |s.workers| == 1 && TimedFor(s, m) && RunningOn(s, 0, m) && s.workers[0].run.value.pc.AtLoad?
    requires t == Goto(s, 0, AtAck)
    ensures |t.workers| == 1 && TimedFor(t, m)
  {
  }

  /** The new row takes the next number, and if it is retried its wait lies in the window. */
  lemma TimedNewRow(c: Config, row: Row, rows: seq<Attempt>, waits: seq<Time>, p: Plan, a: Attempt, draw: nat)
    requires Timed(row, rows, waits, Some(AtRecord(p, a.kind))) && !Terminal(row.status) && a.number == row.attempts
    ensures var pc := OutcomePoint(c, p, a.kind, a.number, draw);
            var longer := if pc.AtSettle? && pc.out.Retry? then waits + [pc.out.at - p.asOf] else waits;
            Timed(row, rows + [a], longer, Some(pc))
  {
    var pc := OutcomePoint(c, p, a.kind, a.number, draw);
    if pc.AtSettle? && pc.out.Retry? {
      Backoff.NextDelayExactly(a.number, c.maxAttempts, pc.out.at - p.asOf);
      assert Backoff.InWindow(|rows| + 1, pc.out.at - p.asOf);
    }
  }

  /** The attempt of another message changes nothing for m. */
  lemma TimedRecordElsewhere(c: Config, s: State, w: nat, i: Input, t: State, m: MessageId)
    requires |s.workers| == 1 && TimedFor(s, m) && Writes(c, s, w, i, t) && s.workers[w].run.value.pc.AtRecord?
    requires m != s.workers[w].run.value.msg
    ensures |t.workers| == 1 && TimedFor(t, m)
  {
    RecordShape(c, s, w, i, t);
    RecordWaits(c, s, w, i, t, m);
    AttemptsOfAppend(s.db.attempts, AttemptOf(s, s.workers[w].run.value), m);
    assert Here(t, m) == Here(s, m);
  }

  lemma TimedWithRow(c: Config, s: State, t: State, m: MessageId, p: Plan, a: Attempt, draw: nat)
    requires |s.workers| == |t.workers| == 1 && TimedFor(s, m) && m < |s.db.messages| && a.msg == m
    requires t.db == WriteDeliveryAttempt(s.db, a) && t.hist.aborted == s.hist.aborted
    requires !Terminal(s.db.messages[m].row.status) && a.number == s.db.messages[m].row.attempts
    requires var pc := OutcomePoint(c, p, a.kind, a.number, draw);
             && Here(s, m) == Some(AtRecord(p, a.kind)) && Here(t, m) == Some(pc)
             && Waits(t.hist, m)
                == if pc.AtSettle? && pc.out.Retry? then Waits(s.hist, m) + [pc.out.at - p.asOf] else Waits(s.hist, m)
    ensures TimedFor(t, m)
  {
    AttemptsOfAppend(s.db.attempts, a, m);
    TimedNewRow(c, s.db.messages[m].row, AttemptsOf(s.db.attempts, m), Waits(s.hist, m), p, a, draw);
  }

  lemma TimedRecordHere(c: Config, s: State, w: nat, i: Input, t: State)
    requires Sound(c, s) && Writes(c, s, w, i, t) && s.workers[w].run.value.pc.AtRecord?
    requires TimedFor(s, s.workers[w].run.value.msg)
    ensures |t.workers| == 1 && TimedFor(t, s.workers[w].run.value.msg)
  {
    var r := s.workers[w].run.value;
    RecordShape(c, s, w, i, t);
    RecordWaits(c, s, w, i, t, r.msg);
    assert Agrees(c, s, r);
    TimedWithRow(c, s, t, r.msg, r.pc.p, AttemptOf(s, r), i.draw);
  }

  lemma RecordWaits(c: Config, s: State, w: nat, i: Input, t: State, m: MessageId)
    requires Writes(c, s, w, i, t) && s.workers[w].run.value.pc.AtRecord?
    ensures var r := s.workers[w].run.value;
            var pc := OutcomePoint(c, r.pc.p, r.pc.kind, r.seen.attempts + 1, i.draw);
            Waits(t.hist, m) ==
              if m == r.msg && pc.AtSettle? && pc.out.Retry? then Waits(s.hist, m) + [pc.out.at - r.pc.p.asOf]
              else Waits(s.hist, m)
    ensures t.hist.aborted == s.hist.aborted
  {
  }

  lemma TimedPlain(c: Config, s: State, w: nat, t: State, m: MessageId)
    requires Sound(c, s) && TimedFor(s, m) && Plain(s, w, t)
    ensures |t.workers| == 1 && TimedFor(t, m)
  {
    assert Agrees(c, s, s.workers[w].run.value);
  }

  lemma TimedLook(c: Config, s: State, w: nat, i: Input, t: State, m: MessageId)
    requires Sound(c, s) && TimedFor(s, m) && Looks(c, s, w, i, t)
    ensures |t.workers| == 1 && TimedFor(t, m)
  {
    assert Agrees(c, s, s.workers[w].run.value);
  }

  lemma TimedWork(c: Config, s: State, w: nat, i: Input, t: State, m: MessageId)
    requires Sound(c, s) && TimedFor(s, m) && WorkStep(c, s, w, i) == Some(t)
    ensures |t.workers| == 1 && TimedFor(t, m)
  {
    WorkShape(c, s, w, i, t);
    if Looks(c, s, w, i, t) { TimedLook(c, s, w, i, t, m); }
    else if Writes(c, s, w, i, t) {
      if !s.workers[w].run.value.pc.AtRecord? { PlainShape(c, s, w, i, t); TimedPlain(c, s, w, t, m); }
      else if m == s.workers[w].run.value.msg { TimedRecordHere(c, s, w, i, t); }
      else { TimedRecordElsewhere(c, s, w, i, t, m); }
    }
  }

  lemma TimedConsume(c: Config, s: State, w: nat, d: ConsumerAction, t: State, m: MessageId)
    requires Sound(c, s) && TimedFor(s, m) && ConsumerStep(c, s, w, d) == Some(t)
    requires !FaultHits(s, Consume(w, d), m)
    ensures |t.workers| == 1 && TimedFor(t, m)
  {
    if d.Work? {
      TimedWork(c, s, w, d.input, t, m);
    } else {
      QuietShape(c, s, w, d, t);
      if RunningOn(s, w, m) {
        OnlySkip(c, s, w, d, t, m);
        TimedSkip(s, t, m);
      } else {
        TimedQuiet(s, w, t, m);
      }
    }
  }

  lemma TimedStep(c: Config, s: State, a: Action, t: State, m: MessageId)
    requires Ownership.Orderly(c, s) && TimedFor(s, m) && Step(c, s, a) == Some(t) && !FaultHits(s, a, m)
    ensures |t.workers| == 1 && TimedFor(t, m)
  {
    match a
    case World(e) => WorldShape(s, e, t); TimedWorld(c, s, t, m);
    case Poll(w, k) => PollerShape(s, w, k, t); TimedPoller(s, w, t, m);
    case Consume(w, d) => TimedConsume(c, s, w, d, t, m);
  }

  lemma {:induction false} TimedAlways(c: Config, s: State, acts: seq<Action>, t: State, m: MessageId)
    requires Reaches(c, s, acts, t) && |s.workers| == 1 && Untroubled(c, s, acts, m)
    ensures |t.workers| == 1 && TimedFor(t, m)
    decreases |acts|
  {
    if acts != [] {
      var u := Exec(c, s, acts[..|acts| - 1]).value;
      Ownership.OrderlyAlways(c, s, acts[..|acts| - 1], u);
      TimedAlways(c, s, acts[..|acts| - 1], u, m);
      TimedStep(c, u, acts[|acts| - 1], t, m);
    }
  }

  /** What the delays of a schedule come to. */
  lemma WaitsComeTo(waits: seq<Time>)
    requires Backoff.Schedule(waits)
    ensures Backoff.BaseTotal(|waits|) <= 2 * Sum(waits) <= 2 * Backoff.BaseTotal(|waits|)
    ensures |waits| >= 2 ==> Backoff.BaseTotal(|waits|) == (30 + 120 + 600 * (|waits| - 2)) * SECOND
    ensures forall i :: 0 <= i < 2 && i + 1 < |waits| ==> waits[i] <= waits[i + 1]
  {
    Backoff.ScheduleTotal(waits);
    Backoff.BaseTotalClosedForm(|waits|);
    forall i | 0 <= i < 2 && i + 1 < |waits| ensures waits[i] <= waits[i + 1] {
      Backoff.ScheduleStartsNondecreasing(waits, i);
    }
  }

  /** The sends of a dead letter that no fault hit, and its waits. */
  lemma DeadLetterSends(c: Config, s: State, acts: seq<Action>, t: State, m: MessageId)
    requires Reaches(c, s, acts, t) && |s.workers| == 1 && Untroubled(c, s, acts, m)
    requires m < |t.db.messages| && t.db.messages[m].row.status == DeadLettered
    ensures var n := c.maxAttempts;
            var rows := AttemptsOf(t.db.attempts, m);
            && t.db.messages[m].row.attempts == n == |rows| == Chronicle.Sends(t.db.messages[m].log)
            && Numbered(rows) && RetriedUpTo(rows, n)
    ensures |Waits(t.hist, m)| == c.maxAttempts - 1 && Backoff.Schedule(Waits(t.hist, m))
  {
    TimedAlways(c, s, acts, t, m);
    RetriesAreBounded(c, s, acts, t, m);
    Chronicle.AttemptHistory(c, s, acts, t, m);
  }

  /**
   A message that was dead-lettered and that no fault hit was sent exactly maxAttempts times, numbered
   1 to maxAttempts, each send met a reply that is retried, and between sends it waited maxAttempts - 1
   scheduled delays whose sum is between half and all of the base schedule and of which the first
   three never decrease.
   */
  lemma DeadLetterStory(c: Config, s: State, acts: seq<Action>, t: State, m: MessageId)
    requires Reaches(c, s, acts, t) && |s.workers| == 1 && Untroubled(c, s, acts, m)
    requires m < |t.db.messages| && t.db.messages[m].row.status == DeadLettered
    ensures var n := c.maxAttempts;
            var rows := AttemptsOf(t.db.attempts, m);
            var waits := Waits(t.hist, m);
            && t.db.messages[m].row.attempts == n == |rows| == Chronicle.Sends(t.db.messages[m].log)
            && Numbered(rows) && RetriedUpTo(rows, n)
            && |waits| == n - 1 && Backoff.Schedule(waits)
            && Backoff.BaseTotal(n - 1) <= 2 * Sum(waits) <= 2 * Backoff.BaseTotal(n - 1)
            && (n >= 3 ==> Backoff.BaseTotal(n - 1) == (30 + 120 + 600 * (n - 3)) * SECOND)
            && forall i :: 0 <= i < 2 && i + 1 < |waits| ==> waits[i] <= waits[i + 1]
  {
    DeadLetterSends(c, s, acts, t, m);
    WaitsComeTo(Waits(t.hist, m));
  }

  // Counting attempts over all messages.

  function AttemptCounts(messages: seq<Message>): (out: seq<int>)
    ensures |out| == |messages| && forall m :: 0 <= m < |messages| ==> out[m] == messages[m].row.attempts
  {
    seq(|messages|, m requires 0 <= m < |messages| => messages[m].row.attempts)
  }

  function TotalAttempts(messages: seq<Message>): int { Sum(AttemptCounts(messages)) }

  lemma TotalAfterOne(was: seq<Message>, now: seq<Message>, m: MessageId)
    requires |was| == |now| && m < |was|
    requires forall n :: 0 <= n < |was| && n != m ==> now[n].row.attempts == was[n].row.attempts
    ensures TotalAttempts(now) == TotalAttempts(was) - was[m].row.attempts + now[m].row.attempts
  {
    assert AttemptCounts(now) == AttemptCounts(was)[m := now[m].row.attempts];
    SumUpdate(AttemptCounts(was), m, now[m].row.attempts);
  }

  lemma TotalAfterNone(was: seq<Message>, now: seq<Message>)
    requires |was| == |now| && forall n :: 0 <= n < |was| ==> now[n].row.attempts == was[n].row.attempts
    ensures TotalAttempts(now) == TotalAttempts(was)
  {
    assert AttemptCounts(now) == AttemptCounts(was);
  }

  /** The attempt the worker has marked and not yet counted. */
  function Pending(s: State): int
    requires |s.workers| == 1
  {
    if Running(s, 0) && s.workers[0].run.value.pc.AtLogSending? then 1 else 0
  }

  lemma TotalStep(c: Config, s: State, a: Action, t: State)
    requires Sound(c, s) && Step(c, s, a) == Some(t) && s.hist.faults == t.hist.faults
    requires s.tally.attempts + Pending(s) == TotalAttempts(s.db.messages)
    ensures |t.workers| == 1 && t.tally.attempts + Pending(t) == TotalAttempts(t.db.messages)
  {
    match a
    case World(e) => WorldShape(s, e, t); TotalWorld(s, e, t);
    case Poll(w, k) => PollerShape(s, w, k, t); TotalAfterNone(s.db.messages, t.db.messages);
    case Consume(w, d) =>
      if d.Work? { TotalWork(c, s, w, d.input, t); } else { QuietShape(c, s, w, d, t); }
  }

  lemma TotalWorld(s: State, e: WorldAction, t: State)
    requires |s.workers| == 1 && WorldStep(s, e) == Some(t) && WorldOnly(s, t)
    ensures TotalAttempts(t.db.messages) == TotalAttempts(s.db.messages)
  {
    if e.Accept? {
      assert AttemptCounts(t.db.messages) == AttemptCounts(s.db.messages) + [0];
      SumAppend(AttemptCounts(s.db.messages), 0);
    }
  }

  lemma TotalWork(c: Config, s: State, w: nat, i: Input, t: State)
    requires Sound(c, s) && WorkStep(c, s, w, i) == Some(t)
    requires s.tally.attempts + Pending(s) == TotalAttempts(s.db.messages)
    ensures |t.workers| == 1 && t.tally.attempts + Pending(t) == TotalAttempts(t.db.messages)
  {
    WorkShape(c, s, w, i, t);
    if Writes(c, s, w, i, t) {
      TotalAfterOne(s.db.messages, t.db.messages, s.workers[w].run.value.msg);
      TotalWrite(c, s, w, i, t);
    }
  }

  /** The mark counts an attempt on the row, the sending event counts it in the metric. */
  lemma TotalWrite(c: Config, s: State, w: nat, i: Input, t: State)
    requires Sound(c, s) && Writes(c, s, w, i, t)
    ensures var m := s.workers[w].run.value.msg;
            && |t.workers| == 1 && m < |s.db.messages| == |t.db.messages|
            && t.tally.attempts + Pending(t) - s.tally.attempts - Pending(s)
               == t.db.messages[m].row.attempts - s.db.messages[m].row.attempts
  {
    assert Agrees(c, s, s.workers[w].run.value);
  }

  lemma FaultsOnlyGrow(c: Config, s: State, a: Action, t: State)
    requires Step(c, s, a) == Some(t)
    ensures s.hist.faults <= t.hist.faults
  {
    match a
    case World(e) => WorldShape(s, e, t);
    case Poll(w, k) => PollerShape(s, w, k, t);
    case Consume(w, d) => if d.Work? { WorkShape(c, s, w, d.input, t); } else { QuietShape(c, s, w, d, t); }
  }

  /** Without faults delivery_attempts_total is the sum of attempt_count, but for a send just marked. */
  lemma {:induction false} AttemptsAddUp(c: Config, s: State, acts: seq<Action>, t: State)
    requires Reaches(c, s, acts, t) && |s.workers| == 1 && t.hist.faults == 0
    ensures |t.workers| == 1 && t.tally.attempts + Pending(t) == TotalAttempts(t.db.messages)
    decreases |acts|
  {
    if acts != [] {
      var u := Exec(c, s, acts[..|acts| - 1]).value;
      FaultsOnlyGrow(c, u, acts[|acts| - 1], t);
      AttemptsAddUp(c, s, acts[..|acts| - 1], u);
      SoundAlways(c, s, acts[..|acts| - 1], u);
      TotalStep(c, u, acts[|acts| - 1], t);
    }
  }
}
