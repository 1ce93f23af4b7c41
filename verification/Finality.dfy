/** A finished message stays finished: exactly when, for any number of workers and any faults. */
module Finality {
  import opened Base
  import opened Tables
  import opened Engine
  import opened Shapes
  import Knowledge
  import opened Single

  /** The message is finished, and no run on it has loaded it without having settled it. */
  ghost predicate AtRest(s: State, m: MessageId) {
    && m < |s.db.messages| && Terminal(s.db.messages[m].row.status)
    && forall w: nat :: RunningOn(s, w, m) ==> Quiescent(s.workers[w].run.value.pc)
  }

  predicate Quiescent(pc: Point) { pc.AtLoad? || Closing(pc) }

  /** Its mail, row and attempts are as they were, and its log has only grown. */
  predicate Kept(s: State, t: State, m: MessageId) {
    && m < |s.db.messages| <= |t.db.messages|
    && t.db.messages[m].mail == s.db.messages[m].mail && t.db.messages[m].row == s.db.messages[m].row
    && AttemptsOf(t.db.attempts, m) == AttemptsOf(s.db.attempts, m)
    && s.db.messages[m].log <= t.db.messages[m].log
  }

  lemma RestWork(c: Config, s: State, w: nat, i: Input, t: State, m: MessageId)
    requires AtRest(s, m) && WorkStep(c, s, w, i) == Some(t)
    ensures AtRest(t, m) && Kept(s, t, m)
  {
    WorkShape(c, s, w, i, t);
    assert RunningOn(s, w, m) ==> Quiescent(s.workers[w].run.value.pc);
    if Writes(c, s, w, i, t) {
      if s.workers[w].run.value.pc.AtRecord? {
        RecordShape(c, s, w, i, t);
        AttemptsOfAppend(s.db.attempts, AttemptOf(s, s.workers[w].run.value), m);
      } else {
        PlainShape(c, s, w, i, t);
      }
    }
    forall v: nat | RunningOn(t, v, m) ensures Quiescent(t.workers[v].run.value.pc) {
      assert v != w ==> RunningOn(s, v, m);
    }
  }

  lemma RestQuiet(s: State, w: nat, t: State, m: MessageId)
    requires AtRest(s, m) && Quiet(s, w, t)
    ensures AtRest(t, m) && Kept(s, t, m)
  {
    assert RunningOn(s, w, m) ==> Quiescent(s.workers[w].run.value.pc);
    forall v: nat | RunningOn(t, v, m) ensures Quiescent(t.workers[v].run.value.pc) {
      assert v != w ==> RunningOn(s, v, m);
    }
  }

  lemma RestStep(c: Config, s: State, a: Action, t: State, m: MessageId)
    requires AtRest(s, m) && Step(c, s, a) == Some(t)
    ensures AtRest(t, m) && Kept(s, t, m)
  {
    match a
    case World(e) => WorldShape(s, e, t); assert forall v: nat :: RunningOn(t, v, m) ==> RunningOn(s, v, m);
    case Poll(w, k) => PollerShape(s, w, k, t); assert forall v: nat :: RunningOn(t, v, m) ==> RunningOn(s, v, m);
    case Consume(w, d) =>
      if d.Work? { RestWork(c, s, w, d.input, t, m); } else { QuietShape(c, s, w, d, t); RestQuiet(s, w, t, m); }
  }

  /**
   Finished is final for any number of workers: when no run that has loaded the message has still to
   settle it, its row and its attempts never change again, through redelivery, reclaim, crashes and
   pollers acting on stale lists.
   */
  lemma {:induction false} FinishedForGood(c: Config, s: State, after: seq<Action>, t: State, m: MessageId)
    requires AtRest(s, m) && Exec(c, s, after) == Some(t)
    ensures AtRest(t, m) && Kept(s, t, m)
    decreases |after|
  {
    if after != [] {
      var u := Exec(c, s, after[..|after| - 1]).value;
      FinishedForGood(c, s, after[..|after| - 1], u, m);
      RestStep(c, u, after[|after| - 1], t, m);
    }
  }

  // The converse.

  /** The call writes the row of m. */
  predicate Overwrites(s: State, a: Action, m: MessageId) {
    a.Consume? && a.d.Work? && RunningOn(s, a.w, m)
    && (s.workers[a.w].run.value.pc.AtMarkSending? || s.workers[a.w].run.value.pc.AtSettle?)
  }

  ghost predicate OverwrittenAfter(c: Config, s: State, more: seq<Action>, a: Action, m: MessageId) {
    var u := Exec(c, s, more);
    u.Some? && Step(c, u.value, a).Some? && Overwrites(u.value, a, m)
  }

  /** A run that has loaded m and not settled it writes its row in at most as many calls as it has left. */
  lemma {:induction false} OpenRunOverwrites(c: Config, s: State, w: nat, m: MessageId)
    returns (more: seq<Action>, a: Action)
    requires m < |s.db.messages| && RunningOn(s, w, m) && !Quiescent(s.workers[w].run.value.pc)
    ensures OverwrittenAfter(c, s, more, a, m) && |more| < CallsLeft(s.workers[w].run.value.pc)
    decreases CallsLeft(s.workers[w].run.value.pc)
  {
    a := Consume(w, Work(NO_INPUT));
    var t := Step(c, s, a).value;
    ExecOne(c, s, a);
    if Overwrites(s, a, m) {
      more := [];
    } else {
      OpenGoesOn(c, s, w, a.d.input, t, m);
      WorkShortens(c, s, w, a.d.input, t);
      var rest, last := OpenRunOverwrites(c, t, w, m);
      ExecFirst(c, s, a, t, rest);
      more, a := [a] + rest, last;
    }
  }

  lemma OpenGoesOn(c: Config, s: State, w: nat, i: Input, t: State, m: MessageId)
    requires m < |s.db.messages| && RunningOn(s, w, m) && !Quiescent(s.workers[w].run.value.pc)
    requires WorkStep(c, s, w, i) == Some(t) && !Overwrites(s, Consume(w, Work(i)), m)
    ensures m < |t.db.messages| && RunningOn(t, w, m) && !Quiescent(t.workers[w].run.value.pc)
  {
    WorkShape(c, s, w, i, t);
    if Writes(c, s, w, i, t) {
      if s.workers[w].run.value.pc.AtRecord? { RecordShape(c, s, w, i, t); } else { PlainShape(c, s, w, i, t); }
    }
  }

  /**
   Exactly when: the row of a finished message can be written again if and only if some run on it has
   loaded it and has yet to settle it.
   */
  lemma FinalExactly(c: Config, s: State, m: MessageId)
    requires m < |s.db.messages| && Terminal(s.db.messages[m].row.status)
    ensures AtRest(s, m) <==> !exists more, a :: OverwrittenAfter(c, s, more, a, m)
  {
    if AtRest(s, m) {
      forall more, a ensures !OverwrittenAfter(c, s, more, a, m) {
        var u := Exec(c, s, more);
        if u.Some? { FinishedForGood(c, s, more, u.value, m); }
      }
    } else {
      var w: nat :| RunningOn(s, w, m) && !Quiescent(s.workers[w].run.value.pc);
      var more, a := OpenRunOverwrites(c, s, w, m);
    }
  }

  /** A run at its mark takes a finished row back to sending in one call. */
  lemma MarkReopens(c: Config, s: State, w: nat, i: Input, t: State, m: MessageId)
    requires m < |s.db.messages| && RunningOn(s, w, m) && s.workers[w].run.value.pc.AtMarkSending?
    requires WorkStep(c, s, w, i) == Some(t)
    ensures m < |t.db.messages| && t.db.messages[m].row.status == Sending
  {
  }

  // One worker: its runs agree with the row, so a finished message is always at rest.

  /** The worker has settled m and is about to write its closing event. */
  predicate ClosingEventDue(s: State, m: MessageId)
    requires |s.workers| == 1
  {
    RunningOn(s, 0, m) && s.workers[0].run.value.pc.AtLog?
  }

  /** From s to t a finished m keeps row and attempts, and gains at most the closing event that was due. */
  predicate Frozen(s: State, t: State, m: MessageId)
    requires |s.workers| == |t.workers| == 1 && m < |s.db.messages| <= |t.db.messages|
  {
    var was, now := s.db.messages[m], t.db.messages[m];
    && now.mail == was.mail && now.row == was.row && AttemptsOf(t.db.attempts, m) == AttemptsOf(s.db.attempts, m)
    && (if ClosingEventDue(s, m)
        then (now.log == was.log && (ClosingEventDue(t, m) ==> t.workers[0].run.value.pc == s.workers[0].run.value.pc))
             || (now.log == was.log + [EventOf(s.workers[0].run.value.pc.out)] && !ClosingEventDue(t, m))
        else now.log == was.log && !ClosingEventDue(t, m))
  }

  lemma OneWorkerIsAtRest(c: Config, s: State, m: MessageId)
    requires Sound(c, s) && m < |s.db.messages| && Terminal(s.db.messages[m].row.status)
    ensures AtRest(s, m)
  {
    forall w: nat | RunningOn(s, w, m) ensures Quiescent(s.workers[w].run.value.pc) {
      assert Knowledge.Loaded(s.workers[0].run.value.pc) ==> Agrees(c, s, s.workers[0].run.value);
    }
  }

  /** What one step adds to the log of a finished message. */
  lemma FrozenStep(c: Config, s: State, a: Action, t: State, m: MessageId)
    requires Sound(c, s) && AtRest(s, m) && Step(c, s, a) == Some(t) && Kept(s, t, m)
    ensures |t.workers| == 1 && Frozen(s, t, m)
  {
    match a
    case World(e) => WorldShape(s, e, t);
    case Poll(w, k) => PollerShape(s, w, k, t);
    case Consume(w, d) =>
      if d.Work? { FrozenWork(c, s, d.input, t, m); } else { QuietShape(c, s, w, d, t); FrozenQuiet(s, w, t, m); }
  }

  lemma FrozenQuiet(s: State, w: nat, t: State, m: MessageId)
    requires |s.workers| == 1 && Quiet(s, w, t) && Kept(s, t, m)
    ensures |t.workers| == 1 && Frozen(s, t, m)
  {
  }

  lemma FrozenWork(c: Config, s: State, i: Input, t: State, m: MessageId)
    requires Sound(c, s) && AtRest(s, m) && WorkStep(c, s, 0, i) == Some(t) && Kept(s, t, m)
    ensures |t.workers| == 1 && Frozen(s, t, m)
  {
    WorkShape(c, s, 0, i, t);
    if Writes(c, s, 0, i, t) {
      if s.workers[0].run.value.pc.AtRecord? { RecordShape(c, s, 0, i, t); }
      else { PlainShape(c, s, 0, i, t); FrozenPlain(c, s, t, m); }
    }
  }

  lemma FrozenPlain(c: Config, s: State, t: State, m: MessageId)
    requires Sound(c, s) && AtRest(s, m) && Plain(s, 0, t) && Kept(s, t, m)
    ensures |t.workers| == 1 && Frozen(s, t, m)
  {
    assert Agrees(c, s, s.workers[0].run.value);
  }

  /**
   Terminal is absorbing across the consumer, redelivery, reclaim and pollers acting on stale lists: with
   one worker, whatever happens after a message is finished, its row and its attempts stay, and its log
   gains nothing but the closing event of the run that finished it.
   */
  lemma {:induction false} TerminalIsAbsorbing(c: Config, s0: State, before: seq<Action>, s: State,
                                               after: seq<Action>, t: State, m: MessageId)
    requires Reaches(c, s0, before, s) && |s0.workers| == 1 && Exec(c, s, after) == Some(t)
    requires m < |s.db.messages| && Terminal(s.db.messages[m].row.status)
    ensures |s.workers| == |t.workers| == 1 && |s.db.messages| <= |t.db.messages| && Frozen(s, t, m) && Sound(c, t)
    decreases |after|
  {
    SoundAlways(c, s0, before, s);
    OneWorkerIsAtRest(c, s, m);
    if after != [] {
      var u := Exec(c, s, after[..|after| - 1]).value;
      TerminalIsAbsorbing(c, s0, before, s, after[..|after| - 1], u, m);
      FinishedForGood(c, s, after[..|after| - 1], u, m);
      RestStep(c, u, after[|after| - 1], t, m);
      FrozenStep(c, u, after[|after| - 1], t, m);
      SoundStep(c, u, after[|after| - 1], t);
    }
  }
}
