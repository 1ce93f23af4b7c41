/** How far each kind of action can reach. Every invariant is proved from these summaries. */
module Shapes {
  import opened Base
  import opened Tables
  import opened Engine

  predicate SameOthers(s: State, w: nat, t: State) {
    && w < |s.workers| == |t.workers|
    && forall v :: 0 <= v < |s.workers| && v != w ==> t.workers[v] == s.workers[v]
  }

  /** Handlers and the clock leave the workers and all existing messages alone. */
  ghost predicate WorldOnly(s: State, t: State) {
    && t.workers == s.workers && t.tally == s.tally && s.now <= t.now
    && t.db.attempts == s.db.attempts && t.db.suppressed == s.db.suppressed
    && |s.db.messages| <= |t.db.messages|
    && (forall m :: 0 <= m < |s.db.messages| ==> t.db.messages[m] == s.db.messages[m])
    && (forall m :: |s.db.messages| <= m < |t.db.messages| ==>
          t.db.messages[m].row == NO_ROW && t.db.messages[m].log == [EvAccepted, EvQueued])
    && t.hist.aborted == s.hist.aborted && t.hist.waits == s.hist.waits && t.hist.abandoned == s.hist.abandoned
    && s.hist.faults <= t.hist.faults
  }

  lemma WorldShape(s: State, e: WorldAction, t: State)
    requires WorldStep(s, e) == Some(t)
    ensures WorldOnly(s, t)
  {
  }

  /** A poller can do no more to a message than flip it from deferred to queued. */
  ghost predicate PollerOnly(s: State, w: nat, t: State) {
    && w < |s.workers| == |t.workers|
    && (forall v :: 0 <= v < |s.workers| ==>
          t.workers[v].run == s.workers[v].run && t.workers[v].batch == s.workers[v].batch)
    && (forall v :: 0 <= v < |s.workers| && v != w ==> t.workers[v] == s.workers[v])
    && t.now == s.now && t.tally == s.tally && t.adding == s.adding
    && t.db.attempts == s.db.attempts && t.db.suppressed == s.db.suppressed
    && |t.db.messages| == |s.db.messages|
    && (forall m :: 0 <= m < |s.db.messages| ==> t.db.messages[m] == s.db.messages[m] || Flipped(s, w, t, m))
    && t.hist.aborted == s.hist.aborted && t.hist.waits == s.hist.waits && t.hist.abandoned == s.hist.abandoned
    && s.hist.faults <= t.hist.faults
  }

  predicate Flipped(s: State, w: nat, t: State, m: MessageId)
    requires m < |s.db.messages| == |t.db.messages|
  {
    && s.db.messages[m].row.status == Deferred
    && t.db.messages[m] == s.db.messages[m].(row := s.db.messages[m].row.(status := Queued))
    && HasHead(s, w) && s.workers[w].poller.ready[0] == m
    && w < |t.workers| && t.workers[w].poller.Adding? && t.workers[w].poller.msg == m
  }

  lemma PollerShape(s: State, w: nat, k: PollerAction, t: State)
    requires PollerStep(s, w, k) == Some(t)
    ensures PollerOnly(s, w, t)
  {
  }

  /** What a consumer does besides making the next call of its run: begin, skip, fail, give up on a route. */
  ghost predicate Quiet(s: State, w: nat, t: State) {
    && SameOthers(s, w, t)
    && t.now == s.now && t.db == s.db && t.tally == s.tally && t.adding == s.adding
    && (t.workers[w].poller == s.workers[w].poller || t.workers[w].poller == Resting)
    && t.hist.waits == s.hist.waits
    && QuietRun(s, s.workers[w].run, t, t.workers[w].run)
  }

  predicate QuietRun(s: State, x: Option<Run>, t: State, y: Option<Run>) {
    match y
    case None =>
      t.hist.aborted == NoteAbort(s.hist, x).aborted && t.hist.abandoned == NoteAbort(s.hist, x).abandoned
      && (x.Some? ==> t.hist.faults > s.hist.faults) && t.hist.faults >= s.hist.faults
    case Some(r) =>
      && t.hist.aborted == s.hist.aborted && t.hist.abandoned == s.hist.abandoned
      && (|| (x.None? && r.pc.AtLoad? && t.hist.faults == s.hist.faults)
          || (x.Some? && x.value.pc.AtLoad? && r == x.value.(pc := AtAck) && t.hist.faults == s.hist.faults)
          || (x.Some? && x.value.pc.AtRoute? && r == x.value.(pc := AtSettle(SetupFailed, None, r.seen.attempts))
              && t.hist.faults > s.hist.faults))
  }

  lemma QuietShape(c: Config, s: State, w: nat, d: ConsumerAction, t: State)
    requires ConsumerStep(c, s, w, d) == Some(t) && !d.Work?
    ensures Quiet(s, w, t)
  {
    match d
    case ReadStream(count) =>
    case ReclaimIdle(ids) =>
    case Start(e) =>
    case LoadLocked =>
    case Fail =>
    case RouteError =>
    case Crash =>
  }

  /** The run of w makes a call and moves on to pc. */
  ghost predicate Moves(s: State, w: nat, t: State, pc: Point) {
    && SameOthers(s, w, t) && s.workers[w].run.Some?
    && t.workers[w] == s.workers[w].(run := Some(s.workers[w].run.value.(pc := pc)))
    && t.now == s.now && t.q == s.q && t.adding == s.adding
    && t.hist.aborted == s.hist.aborted && t.hist.abandoned == s.hist.abandoned && t.hist.faults == s.hist.faults
  }

  /** Of all messages only m changes, and it keeps its mail. */
  ghost predicate OnlyMessage(s: State, t: State, m: MessageId) {
    && |t.db.messages| == |s.db.messages|
    && (forall n :: 0 <= n < |s.db.messages| && n != m ==> t.db.messages[n] == s.db.messages[n])
    && (m < |s.db.messages| ==> t.db.messages[m].mail == s.db.messages[m].mail)
  }

  /** A reading call. */
  ghost predicate Looks(c: Config, s: State, w: nat, i: Input, t: State) {
    && Running(s, w)
    && var r := s.workers[w].run.value;
    && ReadsOnly(r.pc) && r.msg < |s.db.messages| && Moves(s, w, t, AfterRead(c, s, r, i))
    && t.db == s.db && t.tally == s.tally && t.hist == s.hist
  }

  /** A writing call. */
  ghost predicate Writes(c: Config, s: State, w: nat, i: Input, t: State) {
    && Running(s, w)
    && var r := s.workers[w].run.value;
    && !ReadsOnly(r.pc) && !r.pc.AtLoad? && !r.pc.AtAck? && r.msg < |s.db.messages|
    && WriteStep(c, s, w, r, i) == Some(t)
    && t.workers[w].run.Some? && Moves(s, w, t, t.workers[w].run.value.pc)
    && OnlyMessage(s, t, r.msg)
  }

  ghost predicate Loads(s: State, w: nat, t: State) {
    && Running(s, w) && s.workers[w].run.value.pc.AtLoad?
    && SameOthers(s, w, t) && t == s.(workers := t.workers)
    && t.workers[w].batch == s.workers[w].batch && t.workers[w].poller == s.workers[w].poller
    && t.workers[w].run.Some?
    && var r, y := s.workers[w].run.value, t.workers[w].run.value;
       || (y == r.(pc := AtAck) && (r.msg < |s.db.messages| ==> Terminal(s.db.messages[r.msg].row.status)))
       || (&& r.msg < |s.db.messages| && !Terminal(s.db.messages[r.msg].row.status)
           && y == r.(pc := AtCustomer, mail := s.db.messages[r.msg].mail, seen := s.db.messages[r.msg].row))
  }

  ghost predicate Acks(s: State, w: nat, t: State) {
    && Running(s, w) && s.workers[w].run.value.pc.AtAck?
    && SameOthers(s, w, t) && t == s.(workers := t.workers, q := Ack(s.q, s.workers[w].run.value.entry))
    && t.workers[w] == s.workers[w].(run := None)
  }

  lemma WorkShape(c: Config, s: State, w: nat, i: Input, t: State)
    requires WorkStep(c, s, w, i) == Some(t)
    ensures Loads(s, w, t) || Acks(s, w, t) || Looks(c, s, w, i, t) || Writes(c, s, w, i, t)
  {
    var r := s.workers[w].run.value;
    if r.pc.AtLoad? { assert Loads(s, w, t); }
    else if r.pc.AtAck? { assert Acks(s, w, t); }
    else if ReadsOnly(r.pc) { assert Looks(c, s, w, i, t); }
    else { WriteShape(c, s, w, i, t); }
  }

  lemma WriteShape(c: Config, s: State, w: nat, i: Input, t: State)
    requires WorkStep(c, s, w, i) == Some(t)
    requires var pc := s.workers[w].run.value.pc; !ReadsOnly(pc) && !pc.AtLoad? && !pc.AtAck?
    ensures Writes(c, s, w, i, t)
  {
  }

  /** The row a run's attempt is recorded in. */
  function AttemptOf(s: State, r: Run): Attempt
    requires r.pc.AtRecord?
  {
    Attempt(r.msg, r.mail.customer, r.seen.attempts + 1, r.mail.provider, r.pc.p.decision.pool.id, r.pc.kind, s.now)
  }

  lemma RecordShape(c: Config, s: State, w: nat, i: Input, t: State)
    requires Writes(c, s, w, i, t) && s.workers[w].run.value.pc.AtRecord?
    ensures var r := s.workers[w].run.value;
            && t.db == WriteDeliveryAttempt(s.db, AttemptOf(s, r))
            && Moves(s, w, t, OutcomePoint(c, r.pc.p, r.pc.kind, r.seen.attempts + 1, i.draw))
  {
  }

  /** Any other write: a row, an event or a suppression, and the point that follows. */
  ghost predicate Plain(s: State, w: nat, t: State) {
    && Running(s, w)
    && var r := s.workers[w].run.value;
    && r.msg < |s.db.messages| && OnlyMessage(s, t, r.msg)
    && t.workers != [] && SameOthers(s, w, t) && t.workers[w].run.Some? && Moves(s, w, t, t.workers[w].run.value.pc)
    && t.db.attempts == s.db.attempts && t.hist == s.hist
    && (!r.pc.AtSuppress? ==> t.db.suppressed == s.db.suppressed)
    && PlainNext(r, s.db.messages[r.msg], t.db.messages[r.msg], t.workers[w].run.value.pc)
  }

  predicate PlainNext(r: Run, was: Message, now: Message, pc: Point) {
    match r.pc
    case AtMarkSending(p) =>
      now == was.(row := Row(Sending, Some(LaneOf(p)), r.seen.attempts + 1, None)) && pc == AtLogSending(p)
    case AtLogSending(p) =>
      now == was.(log := was.log + [EvSendingAttempted(r.seen.attempts + 1, LaneOf(p))]) && pc == AtPolicy(p)
    case AtSuppress(p) => now == was && pc == AtSettle(HardBounced, Some(LaneOf(p)), r.seen.attempts + 1)
    case AtSettle(out, lane, n) => now == was.(row := Row(StatusOf(out), lane, n, NextOf(out))) && pc == AtLog(out, n)
    case AtLog(out, n) =>
      now == was.(log := was.log + [EventOf(out)]) && pc == if out.Retry? then AtLogRetry(out, n) else AtAck
    case AtLogRetry(out, n) =>
      out.Retry? && now == was.(log := was.log + [EvRetryScheduled(n, out.kind, out.at)]) && pc == AtAck
    case _ => false
  }

  lemma PlainShape(c: Config, s: State, w: nat, i: Input, t: State)
    requires Writes(c, s, w, i, t) && !s.workers[w].run.value.pc.AtRecord?
    ensures Plain(s, w, t)
  {
  }

  /** How many calls a run has left at most. */
  function CallsLeft(pc: Point): (n: nat)
    ensures 1 <= n <= 16
  {
    match pc
    case AtLoad => 16
    case AtCustomer => 15
    case AtSuppression => 14
    case AtRoute => 13
    case AtCustomerCap(_) => 12
    case AtPoolCap(_) => 11
    case AtThrottle(_) => 10
    case AtMarkSending(_) => 9
    case AtLogSending(_) => 8
    case AtPolicy(_) => 7
    case AtRecord(_, _) => 6
    case AtSuppress(_) => 5
    case AtSettle(_, _, _) => 4
    case AtLog(_, _) => 3
    case AtLogRetry(_, _) => 2
    case AtAck => 1
  }

  lemma LookShortens(c: Config, s: State, r: Run, i: Input)
    requires ReadsOnly(r.pc)
    ensures CallsLeft(AfterRead(c, s, r, i)) < CallsLeft(r.pc)
  {
  }

  lemma WriteShortens(c: Config, s: State, w: nat, i: Input, t: State)
    requires Writes(c, s, w, i, t)
    ensures CallsLeft(t.workers[w].run.value.pc) < CallsLeft(s.workers[w].run.value.pc)
  {
    if s.workers[w].run.value.pc.AtRecord? { RecordShape(c, s, w, i, t); } else { PlainShape(c, s, w, i, t); }
  }

  /** Every call brings a run closer to its end. */
  lemma WorkShortens(c: Config, s: State, w: nat, i: Input, t: State)
    requires WorkStep(c, s, w, i) == Some(t)
    ensures SameOthers(s, w, t) && Running(s, w)
    ensures t.workers[w].run.None? || CallsLeft(t.workers[w].run.value.pc) < CallsLeft(s.workers[w].run.value.pc)
  {
    WorkShape(c, s, w, i, t);
    if Looks(c, s, w, i, t) { LookShortens(c, s, s.workers[w].run.value, i); }
    else if Writes(c, s, w, i, t) { WriteShortens(c, s, w, i, t); }
  }

  lemma SameWorkerCount(c: Config, s: State, a: Action, t: State)
    requires Step(c, s, a) == Some(t)
    ensures |t.workers| == |s.workers|
  {
    match a
    case World(e) => WorldShape(s, e, t);
    case Poll(w, k) => PollerShape(s, w, k, t);
    case Consume(w, d) => if d.Work? { WorkShape(c, s, w, d.input, t); } else { QuietShape(c, s, w, d, t); }
  }
}
