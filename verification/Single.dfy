/** One worker process, whatever fails: its run and the row agree, and retries are bounded. */
module Single {
  import opened Base
  import opened Counting
  import opened Tables
  import opened Engine
  import opened Shapes
  import Backoff
  import Knowledge

  predicate BeforeSend(pc: Point) {
    pc.AtCustomer? || pc.AtSuppression? || pc.AtRoute? || pc.AtCustomerCap? || pc.AtPoolCap? || pc.AtThrottle?
    || pc.AtMarkSending? || (pc.AtSettle? && !AfterSend(pc.out))
  }

  /** How the row of the message being processed relates to what its run remembers. */
  predicate Agrees(c: Config, s: State, r: Run)
    requires r.msg < |s.db.messages|
  {
    var row := s.db.messages[r.msg].row;
    && (BeforeSend(r.pc) ==> !Terminal(row.status) && row.attempts == r.seen.attempts)
    && (InFlight(r.pc) ==> row.status == Sending && row.attempts == r.seen.attempts + 1)
    && (r.pc.AtSettle? ==> r.pc.attempts == row.attempts && SettlesFairly(c, r.pc.out, r.pc.attempts))
    && (r.pc.AtLog? || r.pc.AtLogRetry? ==>
          && row.attempts == r.pc.attempts
          && (row.status == StatusOf(r.pc.out) || (StatusOf(r.pc.out) == Deferred && row.status == Queued)))
    && (r.pc.AtLogRetry? ==> r.pc.out.Retry?)
  }

  /** Where the worker stands with message m, if it is on it. */
  function Here(s: State, m: MessageId): Option<Point>
    requires |s.workers| == 1
  {
    if RunningOn(s, 0, m) then Some(s.workers[0].run.value.pc) else None
  }

  /** A retry leaves attempts to spare, and giving up does not. */
  predicate SettlesFairly(c: Config, out: Outcome, attempts: nat) {
    (out.Retry? ==> attempts < c.maxAttempts) && (out.Exhausted? ==> attempts >= c.maxAttempts)
  }

  /** Attempts spent on m beyond the allowance are matched by runs cut off in flight. */
  predicate Allowed(c: Config, s: State, m: MessageId)
    requires m < |s.db.messages| && |s.workers| == 1
  {
    var row := s.db.messages[m].row;
    var spare := if Terminal(row.status) || FlyingOn(s, m) then 0 else 1;
    && row.attempts + spare <= c.maxAttempts + Aborted(s.hist, m)
    && (row.status == DeadLettered ==> row.attempts >= c.maxAttempts)
  }

  predicate FlyingOn(s: State, m: MessageId)
    requires |s.workers| == 1
  {
    RunningOn(s, 0, m) && InFlight(s.workers[0].run.value.pc)
  }

  ghost predicate Sound(c: Config, s: State) {
    && |s.workers| == 1 && c.maxAttempts >= 1
    && (s.workers[0].run.Some? && Knowledge.Loaded(s.workers[0].run.value.pc) ==>
          s.workers[0].run.value.msg < |s.db.messages| && Agrees(c, s, s.workers[0].run.value))
    && (forall m :: 0 <= m < |s.db.messages| ==> Allowed(c, s, m))
  }

  lemma SoundWorld(c: Config, s: State, t: State)
    requires Sound(c, s) && WorldOnly(s, t)
    ensures Sound(c, t)
  {
    forall m | 0 <= m < |t.db.messages| ensures Allowed(c, t, m) {
      if m < |s.db.messages| { assert Allowed(c, s, m); }
    }
  }

  lemma SoundPoller(c: Config, s: State, w: nat, t: State)
    requires Sound(c, s) && PollerOnly(s, w, t)
    ensures Sound(c, t)
  {
    forall m | 0 <= m < |t.db.messages| ensures Allowed(c, t, m) {
      assert Allowed(c, s, m);
    }
  }

  lemma SoundQuiet(c: Config, s: State, w: nat, t: State)
    requires Sound(c, s) && Quiet(s, w, t)
    ensures Sound(c, t)
  {
    forall m | 0 <= m < |t.db.messages| ensures Allowed(c, t, m) {
      assert Allowed(c, s, m);
    }
  }

  lemma SoundLook(c: Config, s: State, w: nat, i: Input, t: State)
    requires Sound(c, s) && Looks(c, s, w, i, t)
    ensures Sound(c, t)
  {
    forall m | 0 <= m < |t.db.messages| ensures Allowed(c, t, m) {
      assert Allowed(c, s, m);
    }
  }

  lemma SoundPlain(c: Config, s: State, w: nat, t: State)
    requires Sound(c, s) && Plain(s, w, t)
    ensures Sound(c, t)
  {
    assert Agrees(c, s, s.workers[w].run.value);
    forall m | 0 <= m < |t.db.messages| ensures Allowed(c, t, m) { assert Allowed(c, s, m); }
  }

  lemma SoundRecord(c: Config, s: State, w: nat, i: Input, t: State)
    requires Sound(c, s) && Writes(c, s, w, i, t) && s.workers[w].run.value.pc.AtRecord?
    ensures Sound(c, t)
  {
    RecordShape(c, s, w, i, t);
    assert Agrees(c, s, s.workers[w].run.value);
    forall m | 0 <= m < |t.db.messages| ensures Allowed(c, t, m) { assert Allowed(c, s, m); }
  }

  lemma SoundWork(c: Config, s: State, w: nat, i: Input, t: State)
    requires Sound(c, s) && WorkStep(c, s, w, i) == Some(t)
    ensures Sound(c, t)
  {
    WorkShape(c, s, w, i, t);
    if Looks(c, s, w, i, t) {
      SoundLook(c, s, w, i, t);
    } else if Writes(c, s, w, i, t) {
      if s.workers[w].run.value.pc.AtRecord? { SoundRecord(c, s, w, i, t); }
      else { PlainShape(c, s, w, i, t); SoundPlain(c, s, w, t); }
    } else {
      forall m | 0 <= m < |t.db.messages| ensures Allowed(c, t, m) { assert Allowed(c, s, m); }
    }
  }

  lemma SoundStep(c: Config, s: State, a: Action, t: State)
    requires Sound(c, s) && Step(c, s, a) == Some(t)
    ensures Sound(c, t)
  {
    match a
    case World(e) => WorldShape(s, e, t); SoundWorld(c, s, t);
    case Poll(w, k) => PollerShape(s, w, k, t); SoundPoller(c, s, w, t);
    case Consume(w, d) =>
      if d.Work? { SoundWork(c, s, w, d.input, t); }
      else { QuietShape(c, s, w, d, t); SoundQuiet(c, s, w, t); }
  }

  lemma {:induction false} SoundAlways(c: Config, s: State, acts: seq<Action>, t: State)
    requires Reaches(c, s, acts, t) && |s.workers| == 1
    ensures Sound(c, t)
    decreases |acts|
  {
    if acts != [] {
      var u := Exec(c, s, acts[..|acts| - 1]).value;
      SoundAlways(c, s, acts[..|acts| - 1], u);
      SoundStep(c, u, acts[|acts| - 1], t);
    }
  }

  /**
   Retries are bounded even with crashes: a message is never attempted more than maxAttempts times
   plus once for every run that marked it sending and was cut off, and it is dead-lettered only after
   at least maxAttempts attempts.
   */
  lemma RetriesAreBounded(c: Config, s: State, acts: seq<Action>, t: State, m: MessageId)
    requires Reaches(c, s, acts, t) && |s.workers| == 1 && m < |t.db.messages|
    ensures var row := t.db.messages[m].row;
            && row.attempts <= c.maxAttempts + Aborted(t.hist, m)
            && (row.status == DeadLettered ==> row.attempts >= c.maxAttempts)
  {
    SoundAlways(c, s, acts, t);
    assert Allowed(c, t, m);
  }

  // When a send is early.

  /** Only a deferred row, or one flipped back from deferred, carries an appointment. */
  predicate Dated(row: Row) { row.next.Some? ==> row.status == Deferred || row.status == Queued }

  /** Up to its mark a run has seen the appointment its row carries. */
  ghost predicate Remembers(s: State) {
    && |s.workers| == 1
    && (forall m :: 0 <= m < |s.db.messages| ==> Dated(s.db.messages[m].row))
    && (s.workers[0].run.Some? && BeforeSend(s.workers[0].run.value.pc) ==> SawDate(s, s.workers[0].run.value))
  }

  predicate SawDate(s: State, r: Run) {
    r.msg < |s.db.messages| && Dated(r.seen) && s.db.messages[r.msg].row.next == r.seen.next
  }

  lemma RemembersWork(c: Config, s: State, w: nat, i: Input, t: State)
    requires Remembers(s) && WorkStep(c, s, w, i) == Some(t)
    ensures Remembers(t)
  {
    WorkShape(c, s, w, i, t);
    if Loads(s, w, t) && s.workers[w].run.value.msg < |s.db.messages| {
      assert Dated(s.db.messages[s.workers[w].run.value.msg].row);
    }
    if Writes(c, s, w, i, t) { RemembersWrite(c, s, w, i, t); }
  }

  lemma RemembersWrite(c: Config, s: State, w: nat, i: Input, t: State)
    requires Remembers(s) && Writes(c, s, w, i, t)
    ensures Remembers(t)
  {
    if s.workers[w].run.value.pc.AtRecord? { RecordShape(c, s, w, i, t); } else { PlainShape(c, s, w, i, t); }
  }

  lemma RemembersStep(c: Config, s: State, a: Action, t: State)
    requires Remembers(s) && Step(c, s, a) == Some(t)
    ensures Remembers(t)
  {
    match a
    case World(e) => WorldShape(s, e, t);
    case Poll(w, k) => PollerShape(s, w, k, t); RemembersPoller(s, w, t);
    case Consume(w, d) => if d.Work? { RemembersWork(c, s, w, d.input, t); } else { QuietShape(c, s, w, d, t); }
  }

  lemma RemembersPoller(s: State, w: nat, t: State)
    requires Remembers(s) && PollerOnly(s, w, t)
    ensures Remembers(t)
  {
  }

  lemma {:induction false} RemembersAlways(c: Config, s: State, acts: seq<Action>, t: State)
    requires Reaches(c, s, acts, t) && |s.workers| == 1
    ensures Remembers(t)
    decreases |acts|
  {
    if acts != [] {
      var u := Exec(c, s, acts[..|acts| - 1]).value;
      RemembersAlways(c, s, acts[..|acts| - 1], u);
      RemembersStep(c, u, acts[|acts| - 1], t);
    }
  }

  predicate DueLater(row: Row, now: Time) { row.next.Some? && row.next.value > now }

  /**
   Exactly when a send is early, whatever fails: the run is at its mark before its row's appointment if
   and only if the row as it loaded it had that appointment still ahead; and such a row was deferred,
   its entry delivered again, or queued, flipped by a poller with a stale list.
   */
  lemma EarlySendExactly(c: Config, s: State, acts: seq<Action>, t: State, m: MessageId)
    requires Reaches(c, s, acts, t) && |s.workers| == 1
    requires RunningOn(t, 0, m) && t.workers[0].run.value.pc.AtMarkSending?
    ensures m < |t.db.messages|
    ensures var seen := t.workers[0].run.value.seen;
            && (DueLater(t.db.messages[m].row, t.now) <==> DueLater(seen, t.now))
            && (DueLater(seen, t.now) ==> seen.status == Deferred || seen.status == Queued)
  {
    RemembersAlways(c, s, acts, t);
    assert SawDate(t, t.workers[0].run.value);
  }

  /** The attempts recorded for one message, in order. */
  function AttemptsOf(attempts: seq<Attempt>, m: MessageId): seq<Attempt> {
    if attempts == [] then []
    else
      var last := attempts[|attempts| - 1];
      AttemptsOf(attempts[..|attempts| - 1], m) + (if last.msg == m then [last] else [])
  }

  lemma AttemptsOfAppend(attempts: seq<Attempt>, a: Attempt, m: MessageId)
    ensures AttemptsOf(attempts + [a], m) == AttemptsOf(attempts, m) + (if a.msg == m then [a] else [])
  {
    assert (attempts + [a])[..|attempts|] == attempts;
  }
}
