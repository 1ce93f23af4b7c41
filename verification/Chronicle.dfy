/** One worker, with faults: attempt rows, sending events and attempt_count tell one story. */
module Chronicle {
  import opened Base
  import opened Counting
  import opened Tables
  import opened Engine
  import opened Shapes
  import Classify
  import Knowledge
  import opened Single

  function IsSend(): Event -> bool { (e: Event) => e.EvSendingAttempted? }

  function Sends(log: seq<Event>): nat { Count(log, IsSend()) }

  /** The kind of reply that leads to an outcome. */
  predicate Fits(out: Outcome, kind: Classify.Kind) {
    match out
    case Accepted => kind == Classify.Delivered
    case HardBounced => kind == Classify.HardBounce
    case PolicyRefused => kind == Classify.PolicyRejection
    case Exhausted(k) => kind == k && Classify.TakesDefaultBranch(kind)
    case Retry(k, _) => kind == k && Classify.TakesDefaultBranch(kind)
    case _ => false
  }

  /** The kind of reply that a finished status stands for. */
  predicate StandsBehind(kind: Classify.Kind, status: Status) {
    && (status == Delivered ==> kind == Classify.Delivered)
    && (status == Bounced ==> kind == Classify.HardBounce)
    && (status == DeadLettered ==> Classify.TakesDefaultBranch(kind))
  }

  predicate EndsWith(rows: seq<Attempt>, number: nat) { rows != [] && rows[|rows| - 1].number == number }

  predicate Increasing(rows: seq<Attempt>) { forall i, j :: 0 <= i < j < |rows| ==> rows[i].number < rows[j].number }

  predicate NumbersAtMost(rows: seq<Attempt>, n: int) { forall i :: 0 <= i < |rows| ==> rows[i].number <= n }

  predicate Told(msg: Message, rows: seq<Attempt>, here: Option<Point>) {
    var row := msg.row;
    var marked := here.Some? && here.value.AtLogSending?;
    var logged := here.Some? && (here.value.AtPolicy? || here.value.AtRecord?);
    && |rows| + (if logged then 1 else 0) <= Sends(msg.log)
    && Sends(msg.log) + (if marked then 1 else 0) <= row.attempts
    && Increasing(rows) && NumbersAtMost(rows, if marked || logged then row.attempts - 1 else row.attempts)
    && (row.status == Delivered || row.status == Bounced || row.status == DeadLettered ==>
          EndsWith(rows, row.attempts) && StandsBehind(rows[|rows| - 1].kind, row.status))
    && (here.Some? && here.value.AtSuppress? ==>
          EndsWith(rows, row.attempts) && rows[|rows| - 1].kind == Classify.HardBounce)
    && (here.Some? && here.value.AtSettle? && AfterSend(here.value.out) ==>
          EndsWith(rows, row.attempts) && Fits(here.value.out, rows[|rows| - 1].kind))
  }

  predicate ToldOf(s: State, m: MessageId)
    requires |s.workers| == 1 && m < |s.db.messages|
  {
    Told(s.db.messages[m], AttemptsOf(s.db.attempts, m), Here(s, m))
  }

  ghost predicate AllTold(s: State)
    requires |s.workers| == 1
  {
    && (forall m :: 0 <= m < |s.db.messages| ==> ToldOf(s, m))
    && (forall i :: 0 <= i < |s.db.attempts| ==> s.db.attempts[i].msg < |s.db.messages|)
  }

  lemma {:induction false} NoAttemptsYet(attempts: seq<Attempt>, m: MessageId)
    requires forall i :: 0 <= i < |attempts| ==> attempts[i].msg < m
    ensures AttemptsOf(attempts, m) == []
  {
    if attempts != [] { NoAttemptsYet(attempts[..|attempts| - 1], m); }
  }

  lemma ToldWorld(c: Config, s: State, t: State)
    requires |s.workers| == 1 && AllTold(s) && WorldOnly(s, t)
    requires var run := s.workers[0].run;
             run.Some? && Knowledge.Loaded(run.value.pc) ==> run.value.msg < |s.db.messages|
    ensures AllTold(t)
  {
    forall m | 0 <= m < |t.db.messages| ensures ToldOf(t, m) {
      if m < |s.db.messages| { assert ToldOf(s, m); }
      else {
        NoAttemptsYet(t.db.attempts, m);
        FreshLogHasNoSends();
      }
    }
  }

  lemma FreshLogHasNoSends()
    ensures Sends([EvAccepted, EvQueued]) == 0
  {
    CountNone([EvAccepted, EvQueued], IsSend());
  }

  lemma ToldLook(c: Config, s: State, w: nat, i: Input, t: State, m: MessageId)
    requires Sound(c, s) && AllTold(s) && Looks(c, s, w, i, t) && m < |s.db.messages|
    ensures |t.workers| == 1 && ToldOf(t, m)
  {
    assert ToldOf(s, m);
  }

  /** A recorded attempt takes the next number and carries the kind the outcome is drawn from. */
  lemma ToldNewRow(c: Config, msg: Message, rows: seq<Attempt>, p: Plan, a: Attempt, draw: nat)
    requires Told(msg, rows, Some(AtRecord(p, a.kind))) && !Terminal(msg.row.status) && a.number == msg.row.attempts
    ensures Told(msg, rows + [a], Some(OutcomePoint(c, p, a.kind, a.number, draw)))
  {
  }

  lemma ToldRecord(c: Config, s: State, w: nat, draw: nat, t: State, m: MessageId)
    requires Sound(c, s) && AllTold(s) && m < |s.db.messages| && Running(s, w)
    requires s.workers[w].run.value.pc.AtRecord?
            && t.db == WriteDeliveryAttempt(s.db, AttemptOf(s, s.workers[w].run.value))
    requires var r := s.workers[w].run.value;
             Moves(s, w, t, OutcomePoint(c, r.pc.p, r.pc.kind, r.seen.attempts + 1, draw))
    ensures |t.workers| == 1 && ToldOf(t, m)
  {
    var r := s.workers[w].run.value;
    assert ToldOf(s, m) && Agrees(c, s, r);
    var a := AttemptOf(s, r);
    AttemptsOfAppend(s.db.attempts, a, m);
    if m == r.msg { ToldNewRow(c, s.db.messages[m], AttemptsOf(s.db.attempts, m), r.pc.p, a, draw); }
  }

  /** Other writes add no attempt, and at most one event to the run's own message. */
  lemma ToldNext(r: Run, was: Message, now: Message, rows: seq<Attempt>, pc: Point)
    requires Told(was, rows, Some(r.pc)) && PlainNext(r, was, now, pc)
    requires BeforeSend(r.pc) ==> was.row.attempts == r.seen.attempts
    requires InFlight(r.pc) ==> was.row.attempts == r.seen.attempts + 1
    requires r.pc.AtSettle? ==> r.pc.attempts == was.row.attempts
    ensures Told(now, rows, Some(pc))
  {
    if r.pc.AtLogSending? || r.pc.AtLog? || r.pc.AtLogRetry? {
      var log := was.log;
      assert now.log == log + [now.log[|log|]];
      CountAppend(log, now.log[|log|], IsSend());
    }
  }

  lemma ToldPlain(c: Config, s: State, w: nat, t: State, m: MessageId)
    requires Sound(c, s) && AllTold(s) && Plain(s, w, t) && m < |s.db.messages|
    ensures |t.workers| == 1 && ToldOf(t, m)
  {
    var r := s.workers[w].run.value;
    assert ToldOf(s, m);
    if m == r.msg {
      assert Agrees(c, s, r);
      ToldNext(r, s.db.messages[m], t.db.messages[m], AttemptsOf(s.db.attempts, m), t.workers[w].run.value.pc);
    }
  }

  lemma ToldWork(c: Config, s: State, w: nat, i: Input, t: State)
    requires Sound(c, s) && AllTold(s) && WorkStep(c, s, w, i) == Some(t)
    ensures |t.workers| == 1 && AllTold(t)
  {
    WorkShape(c, s, w, i, t);
    forall m | 0 <= m < |t.db.messages| ensures ToldOf(t, m) {
      if Looks(c, s, w, i, t) { ToldLook(c, s, w, i, t, m); }
      else if Writes(c, s, w, i, t) {
        if s.workers[w].run.value.pc.AtRecord? {
          RecordShape(c, s, w, i, t);
          ToldRecord(c, s, w, i.draw, t, m);
        } else {
          PlainShape(c, s, w, i, t);
          ToldPlain(c, s, w, t, m);
        }
      }
      else { assert ToldOf(s, m); }
    }
    if Writes(c, s, w, i, t) { ToldAttempts(c, s, w, i, t); }
  }

  lemma ToldAttempts(c: Config, s: State, w: nat, i: Input, t: State)
    requires |s.workers| == 1 && AllTold(s) && Writes(c, s, w, i, t)
    ensures forall k :: 0 <= k < |t.db.attempts| ==> t.db.attempts[k].msg < |t.db.messages|
  {
  }

  lemma ToldPoller(s: State, w: nat, t: State)
    requires |s.workers| == 1 && AllTold(s) && PollerOnly(s, w, t)
    ensures |t.workers| == 1 && AllTold(t)
  {
    forall m | 0 <= m < |t.db.messages| ensures ToldOf(t, m) { assert ToldOf(s, m); }
  }

  lemma ToldQuiet(s: State, w: nat, t: State)
    requires |s.workers| == 1 && AllTold(s) && Quiet(s, w, t)
    ensures |t.workers| == 1 && AllTold(t)
  {
    forall m | 0 <= m < |t.db.messages| ensures ToldOf(t, m) { assert ToldOf(s, m); }
  }

  lemma ToldConsume(c: Config, s: State, w: nat, d: ConsumerAction, t: State)
    requires Sound(c, s) && AllTold(s) && ConsumerStep(c, s, w, d) == Some(t)
    ensures |t.workers| == 1 && AllTold(t)
  {
    if d.Work? { ToldWork(c, s, w, d.input, t); }
    else { QuietShape(c, s, w, d, t); ToldQuiet(s, w, t); }
  }

  lemma ToldStep(c: Config, s: State, a: Action, t: State)
    requires Sound(c, s) && AllTold(s) && Step(c, s, a) == Some(t)
    ensures |t.workers| == 1 && AllTold(t)
  {
    match a
    case World(e) => WorldShape(s, e, t); ToldWorld(c, s, t);
    case Poll(w, k) => PollerShape(s, w, k, t); ToldPoller(s, w, t);
    case Consume(w, d) => ToldConsume(c, s, w, d, t);
  }

  lemma {:induction false} ToldAlways(c: Config, s: State, acts: seq<Action>, t: State)
    requires Reaches(c, s, acts, t) && |s.workers| == 1
    ensures |t.workers| == 1 && AllTold(t)
    decreases |acts|
  {
    if acts != [] {
      var u := Exec(c, s, acts[..|acts| - 1]).value;
      SoundAlways(c, s, acts[..|acts| - 1], u);
      ToldAlways(c, s, acts[..|acts| - 1], u);
      ToldStep(c, u, acts[|acts| - 1], t);
    }
  }

  /**
   The attempt history under faults: a message has no more attempt rows than sending events and no
   more of those than attempt_count; its rows are numbered in increasing order; and a delivered,
   bounced or dead-lettered message has a last row numbered attempt_count whose kind says why.
   */
  lemma AttemptHistory(c: Config, s: State, acts: seq<Action>, t: State, m: MessageId)
    requires Reaches(c, s, acts, t) && |s.workers| == 1 && m < |t.db.messages|
    ensures var msg := t.db.messages[m];
            var rows := AttemptsOf(t.db.attempts, m);
            && |rows| <= Sends(msg.log) <= msg.row.attempts
            && Increasing(rows) && NumbersAtMost(rows, msg.row.attempts)
            && (msg.row.status == Delivered || msg.row.status == Bounced || msg.row.status == DeadLettered ==>
                  EndsWith(rows, msg.row.attempts) && StandsBehind(rows[|rows| - 1].kind, msg.row.status))
  {
    ToldAlways(c, s, acts, t);
    assert ToldOf(t, m);
  }
}
