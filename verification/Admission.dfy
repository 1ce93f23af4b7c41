/** Blocked customers: whose mail the pipeline stops, for any number of workers and any faults. */
module Admission {
  import opened Base
  import opened Counting
  import opened Tables
  import opened Engine
  import opened Shapes
  import Chronicle
  import Knowledge
  import Single

  /** A block on sending stops all mail of a customer, a block on marketing its marketing mail. */
  predicate Stops(state: SendingState, mail: Mail) {
    state == BlockedFromSending || (state == BlockedFromMarketing && mail.marketing)
  }

  predicate Stopped(s: State, mail: Mail) {
    mail.customer in s.db.sendingState && Stops(s.db.sendingState[mail.customer], mail)
  }

  /**
   Exactly what the check of the customer does: unknown customers fail the message, a block that stops
   this mail blocks it, and in every other state, trusted, new or limited, the run goes on.
   */
  lemma CustomerCheckExactly(c: Config, s: State, w: nat, i: Input, t: State)
    requires Running(s, w) && s.workers[w].run.value.pc.AtCustomer? && WorkStep(c, s, w, i) == Some(t)
    ensures t.workers[w].run.Some?
    ensures var r := s.workers[w].run.value;
            var next := t.workers[w].run.value.pc;
            var known := r.mail.customer in c.customers && r.mail.customer in s.db.sendingState;
            && (next == AtSettle(SetupFailed, None, r.seen.attempts) <==> !known)
            && (next == AtSettle(AbuseBlocked, None, r.seen.attempts) <==> known && Stopped(s, r.mail))
            && (next == AtSuppression <==> known && !Stopped(s, r.mail))
  {
  }

  /** The run has passed the check and has not recorded an attempt. */
  predicate Admitted(pc: Point) { pc.AtSuppression? || pc.AtRoute? || PlanOf(pc).Some? }

  ghost predicate NoneAdmitted(s: State, m: MessageId) {
    forall w: nat :: RunningOn(s, w, m) ==> !Admitted(s.workers[w].run.value.pc)
  }

  /** No send of m has begun between s and t. */
  predicate NoSend(s: State, t: State, m: MessageId) {
    && m < |s.db.messages| <= |t.db.messages| && t.db.messages[m].mail == s.db.messages[m].mail
    && Single.AttemptsOf(t.db.attempts, m) == Single.AttemptsOf(s.db.attempts, m)
    && Chronicle.Sends(t.db.messages[m].log) == Chronicle.Sends(s.db.messages[m].log)
    && (t.db.messages[m].row.status == Sending ==> s.db.messages[m].row.status == Sending)
  }

  lemma StoppedRecord(c: Config, s: State, w: nat, i: Input, t: State, m: MessageId)
    requires m < |s.db.messages| && NoneAdmitted(s, m) && Writes(c, s, w, i, t)
    requires s.workers[w].run.value.pc.AtRecord?
    ensures NoneAdmitted(t, m) && NoSend(s, t, m)
  {
    RecordShape(c, s, w, i, t);
    assert !RunningOn(s, w, m);
    Single.AttemptsOfAppend(s.db.attempts, AttemptOf(s, s.workers[w].run.value), m);
    forall v: nat | RunningOn(t, v, m) ensures RunningOn(s, v, m) && t.workers[v] == s.workers[v] {}
  }

  lemma StoppedPlain(s: State, w: nat, t: State, m: MessageId)
    requires m < |s.db.messages| && NoneAdmitted(s, m) && Plain(s, w, t)
    ensures NoneAdmitted(t, m) && NoSend(s, t, m)
  {
    var r := s.workers[w].run.value;
    if r.msg == m && (r.pc.AtLog? || r.pc.AtLogRetry?) {
      var log := s.db.messages[m].log;
      assert t.db.messages[m].log == log + [t.db.messages[m].log[|log|]];
      CountAppend(log, t.db.messages[m].log[|log|], Chronicle.IsSend());
    }
    forall v: nat | RunningOn(t, v, m) && v != w ensures RunningOn(s, v, m) && t.workers[v] == s.workers[v] {}
  }

  lemma StoppedLook(c: Config, s: State, w: nat, i: Input, t: State, m: MessageId)
    requires Knowledge.Known(c, s) && m < |s.db.messages| && NoneAdmitted(s, m) && Stopped(s, s.db.messages[m].mail)
    requires Looks(c, s, w, i, t)
    ensures NoneAdmitted(t, m) && NoSend(s, t, m)
  {
    assert Knowledge.RunKnows(c, s, s.workers[w].run.value);
    forall v: nat | RunningOn(t, v, m) && v != w ensures RunningOn(s, v, m) && t.workers[v] == s.workers[v] {}
  }

  lemma StoppedWork(c: Config, s: State, w: nat, i: Input, t: State, m: MessageId)
    requires Knowledge.Known(c, s) && m < |s.db.messages| && NoneAdmitted(s, m) && Stopped(s, s.db.messages[m].mail)
    requires WorkStep(c, s, w, i) == Some(t)
    ensures NoneAdmitted(t, m) && NoSend(s, t, m)
  {
    WorkShape(c, s, w, i, t);
    if Looks(c, s, w, i, t) { StoppedLook(c, s, w, i, t, m); }
    else if Writes(c, s, w, i, t) {
      if s.workers[w].run.value.pc.AtRecord? { StoppedRecord(c, s, w, i, t, m); }
      else { PlainShape(c, s, w, i, t); StoppedPlain(s, w, t, m); }
    } else {
      forall v: nat | RunningOn(t, v, m) && v != w ensures RunningOn(s, v, m) && t.workers[v] == s.workers[v] {}
    }
  }

  lemma StoppedQuiet(s: State, w: nat, t: State, m: MessageId)
    requires m < |s.db.messages| && NoneAdmitted(s, m) && Quiet(s, w, t)
    ensures NoneAdmitted(t, m) && NoSend(s, t, m)
  {
    forall v: nat | RunningOn(t, v, m) && v != w ensures RunningOn(s, v, m) && t.workers[v] == s.workers[v] {}
    if RunningOn(t, w, m) && t.workers[w].run.value.pc.AtSettle? { assert RunningOn(s, w, m); }
  }

  lemma StoppedStep(c: Config, s: State, a: Action, t: State, m: MessageId)
    requires Knowledge.Known(c, s) && m < |s.db.messages| && NoneAdmitted(s, m) && Stopped(s, s.db.messages[m].mail)
    requires Step(c, s, a) == Some(t)
    ensures NoneAdmitted(t, m) && NoSend(s, t, m)
  {
    match a
    case World(e) =>
      WorldShape(s, e, t);
      forall v: nat | RunningOn(t, v, m) ensures RunningOn(s, v, m) {}
    case Poll(w, k) =>
      PollerShape(s, w, k, t);
      forall v: nat | RunningOn(t, v, m) ensures RunningOn(s, v, m) {}
    case Consume(w, d) =>
      if d.Work? { StoppedWork(c, s, w, d.input, t, m); }
      else { QuietShape(c, s, w, d, t); StoppedQuiet(s, w, t, m); }
  }

  /** The customer's state stops the mail in every state the schedule passes before its end. */
  ghost predicate StoppedThroughout(c: Config, u: State, after: seq<Action>, mail: Mail) {
    after == [] ||
    (var before := after[..|after| - 1];
     StoppedThroughout(c, u, before, mail)
     && match Exec(c, u, before)
        case None => true
        case Some(x) => Stopped(x, mail))
  }

  /**
   While a customer is blocked from sending, or from marketing for a marketing mail, no send of such a
   message begins: no mark, no sending event, no attempt; unless a run had passed the check before.
   */
  lemma {:induction false} BlockedMailIsNeverSent(c: Config, s: State, acts: seq<Action>, u: State, after: seq<Action>,
                                                  t: State, m: MessageId)
    requires Reaches(c, s, acts, u) && m < |u.db.messages| && NoneAdmitted(u, m) && Exec(c, u, after) == Some(t)
    requires StoppedThroughout(c, u, after, u.db.messages[m].mail)
    ensures NoneAdmitted(t, m) && NoSend(u, t, m)
    decreases |after|
  {
    if after != [] {
      var before := after[..|after| - 1];
      var x := Exec(c, u, before).value;
      BlockedMailIsNeverSent(c, s, acts, u, before, x, m);
      ExecThen(c, s, acts, u, before);
      Knowledge.KnownAlways(c, s, acts + before, x);
      StoppedStep(c, x, after[|after| - 1], t, m);
    }
  }
}
