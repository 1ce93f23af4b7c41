/** One worker: the event log of a message that no fault hits explains status, attempt_count and next_attempt_at. */
module Replay {
  import opened Base
  import opened Tables
  import opened Engine
  import opened Shapes
  import opened Focus
  import Chronicle
  import Classify
  import Single
  import Knowledge
  import NoLoss
  import Ownership

  /** What a reader of the log knows after each event. */
  datatype Phase =
    | Fresh
    | Arrived
    | Waiting(status: Status)
    | Trying
    | PutOff(kind: Classify.Kind)
    | Over(status: Status)

  datatype View = View(phase: Phase, attempts: nat, next: Option<Time>)

  const BLANK := View(Fresh, 0, None)

  /** The grammar of logs: how a view goes on, or None where no such event may follow. */
  function After(v: View, e: Event): Option<View> {
    match e
    case EvAccepted => if v.phase.Fresh? then Some(v.(phase := Arrived)) else None
    case EvQueued => if v.phase.Arrived? then Some(v.(phase := Waiting(Queued))) else None
    case EvThrottled(_, until) =>
      if v.phase.Waiting? then Some(v.(phase := Waiting(Deferred), next := Some(until))) else None
    case EvSendingAttempted(n, _) =>
      if v.phase.Waiting? && n == v.attempts + 1 then Some(View(Trying, n, None)) else None
    case EvDeferred(kind) =>
      if v.phase.Trying? && Classify.TakesDefaultBranch(kind) then Some(v.(phase := PutOff(kind))) else None
    case EvRetryScheduled(n, kind, at) =>
      if v.phase == PutOff(kind) && n == v.attempts then Some(View(Waiting(Deferred), n, Some(at))) else None
    case EvDelivered => if v.phase.Trying? then Some(v.(phase := Over(Delivered))) else None
    case EvBounced(None) => if v.phase.Waiting? then Some(View(Over(Failed), v.attempts, None)) else None
    case EvBounced(Some(kind)) =>
      if !v.phase.Trying? then None
      else if kind == Classify.HardBounce then Some(v.(phase := Over(Bounced)))
      else if kind == Classify.PolicyRejection then Some(v.(phase := Over(Failed)))
      else None
    case EvDeadLettered(kind) =>
      if v.phase.Trying? && Classify.TakesDefaultBranch(kind) then Some(v.(phase := Over(DeadLettered))) else None
    case EvSuppressed => if v.phase.Waiting? then Some(View(Over(Suppressed), v.attempts, None)) else None
    case EvBlockedByAbuseControl => if v.phase.Waiting? then Some(View(Over(Blocked), v.attempts, None)) else None
  }

  function Fold(log: seq<Event>): Option<View> {
    if log == [] then Some(BLANK)
    else
      match Fold(log[..|log| - 1])
      case None => None
      case Some(v) => After(v, log[|log| - 1])
  }

  lemma FoldAppend(log: seq<Event>, e: Event)
    ensures Fold(log + [e]) == match Fold(log) case None => None case Some(v) => After(v, e)
  {
    assert (log + [e])[..|log|] == log;
  }

  // The same grammar, written out.

  /** Any number of holds and failed attempts, each failed attempt three events long. */
  predicate Rounds(log: seq<Event>) {
    if log == [] then true
    else
      var n := |log|;
      match log[n - 1]
      case EvThrottled(_, _) => Rounds(log[..n - 1])
      case EvRetryScheduled(_, kind, _) =>
        n >= 3 && log[n - 2] == EvDeferred(kind) && log[n - 3].EvSendingAttempted? && Rounds(log[..n - 3])
      case _ => false
  }

  /** What may follow the rounds: an ending, or an attempt not finished being logged. */
  predicate Ending(tail: seq<Event>) {
    || tail == []
    || (|tail| == 1 && (tail[0].EvBlockedByAbuseControl? || tail[0].EvSuppressed? || tail[0] == EvBounced(None)
                        || tail[0].EvSendingAttempted?))
    || (|tail| == 2 && tail[0].EvSendingAttempted?
        && (tail[1].EvDelivered? || (tail[1].EvBounced? && tail[1].reply.Some?) || tail[1].EvDeadLettered?
            || tail[1].EvDeferred?))
  }

  predicate Opening(log: seq<Event>) { |log| >= 2 && log[..2] == [EvAccepted, EvQueued] }

  /** accepted queued, rounds, and the last k events as an ending. */
  predicate ShapedBy(log: seq<Event>, k: nat) {
    Opening(log) && k + 2 <= |log| && Rounds(log[2..|log| - k]) && Ending(log[|log| - k..])
  }

  predicate Shaped(log: seq<Event>) { log == [] || log == [EvAccepted] || exists k :: 0 <= k <= 2 && ShapedBy(log, k) }

  /** How much of the log each phase leaves after the rounds. */
  predicate ShapedIn(log: seq<Event>, phase: Phase) {
    match phase
    case Fresh => log == []
    case Arrived => log == [EvAccepted]
    case Waiting(_) => ShapedBy(log, 0)
    case Trying => ShapedBy(log, 1) && log[|log| - 1].EvSendingAttempted?
    case PutOff(kind) => ShapedBy(log, 2) && log[|log| - 1] == EvDeferred(kind)
    case Over(_) => ShapedBy(log, 1) || ShapedBy(log, 2)
  }

  lemma ShapedAfterWaiting(log: seq<Event>, v: View, e: Event, w: View)
    requires ShapedIn(log, v.phase) && After(v, e) == Some(w) && v.phase.Waiting?
    ensures ShapedIn(log + [e], w.phase)
  {
    var longer, n := log + [e], |log|;
    assert longer[2..n] == log[2..n - 0];
    assert longer[2..n + 1] == log[2..] + [e];
    assert (log[2..] + [e])[..n - 2] == log[2..];
  }

  lemma ShapedAfterTrying(log: seq<Event>, v: View, e: Event, w: View)
    requires ShapedIn(log, v.phase) && After(v, e) == Some(w) && v.phase.Trying?
    ensures ShapedIn(log + [e], w.phase)
  {
    assert (log + [e])[2..|log| - 1] == log[2..|log| - 1];
  }

  lemma ShapedAfterPutOff(log: seq<Event>, v: View, e: Event, w: View)
    requires ShapedIn(log, v.phase) && After(v, e) == Some(w) && v.phase.PutOff?
    ensures ShapedIn(log + [e], w.phase)
  {
    var rounds := (log + [e])[2..|log| + 1];
    assert rounds[..|rounds| - 3] == log[2..|log| - 2];
  }

  lemma ShapedAtFirst(log: seq<Event>, v: View, e: Event, w: View)
    requires ShapedIn(log, v.phase) && After(v, e) == Some(w) && (v.phase.Fresh? || v.phase.Arrived?)
    ensures ShapedIn(log + [e], w.phase)
  {
    var longer := log + [e];
    if v.phase.Fresh? {
      assert longer == [EvAccepted];
    } else {
      assert longer == [EvAccepted, EvQueued];
      assert longer[2..2] == [] && longer[2..] == [];
    }
  }

  lemma ShapedAfter(log: seq<Event>, v: View, e: Event, w: View)
    requires ShapedIn(log, v.phase) && After(v, e) == Some(w)
    ensures ShapedIn(log + [e], w.phase)
  {
    match v.phase
    case Waiting(_) => ShapedAfterWaiting(log, v, e, w);
    case Trying => ShapedAfterTrying(log, v, e, w);
    case PutOff(_) => ShapedAfterPutOff(log, v, e, w);
    case Over(_) =>
    case _ => ShapedAtFirst(log, v, e, w);
  }

  /** Folding accepts only logs of that shape, and counts their sends. */
  lemma {:induction false} FoldMeansShaped(log: seq<Event>)
    requires Fold(log).Some?
    ensures ShapedIn(log, Fold(log).value.phase) && Shaped(log) && Fold(log).value.attempts == Chronicle.Sends(log)
  {
    if log != [] {
      var before, e := log[..|log| - 1], log[|log| - 1];
      FoldMeansShaped(before);
      ShapedAfter(before, Fold(before).value, e, Fold(log).value);
      assert before + [e] == log;
    }
  }

  predicate StatusIs(row: Row, st: Status) { row.status == st || (st == Deferred && row.status == Queued) }

  /** The row says what the view says, but for the flip from deferred to queued that logs nothing. */
  predicate Matches(row: Row, v: View) {
    && (v.phase.Waiting? || v.phase.Over?)
    && StatusIs(row, v.phase.status) && row.attempts == v.attempts && row.next == v.next
  }

  /** How far the log may lag behind the row while the worker is at a given point. */
  predicate KeepsPace(row: Row, v: View, here: Option<Point>) {
    if here.None? || here.value.AtLoad? || here.value.AtAck? then Matches(row, v)
    else
      var pc := here.value;
      if Single.BeforeSend(pc) then Matches(row, v) && v.phase.Waiting?
      else if pc.AtLogSending? then v.phase.Waiting? && row.attempts == v.attempts + 1 && row.next == None
      else if InFlight(pc) then v.phase.Trying? && row.attempts == v.attempts && row.next == None && v.next == None
      else if pc.AtLog? then
        && (if AfterSend(pc.out) then v.phase.Trying? && v.next == None else v.phase.Waiting?)
        && row.attempts == v.attempts && StatusIs(row, StatusOf(pc.out)) && row.next == NextOf(pc.out)
      else
        pc.AtLogRetry? && pc.out.Retry? && v.phase == PutOff(pc.out.kind)
        && row.attempts == v.attempts && StatusIs(row, Deferred) && row.next == Some(pc.out.at)
  }

  /** The outcome a run carries can be logged in the grammar. */
  predicate Loggable(pc: Point) {
    pc.AtSettle? || pc.AtLog? || pc.AtLogRetry? ==>
      (pc.out.Exhausted? || pc.out.Retry? ==> Classify.TakesDefaultBranch(pc.out.kind))
  }

  predicate Explained(s: State, m: MessageId)
    requires |s.workers| == 1 && m < |s.db.messages|
  {
    var f := Fold(s.db.messages[m].log);
    f.Some? && KeepsPace(s.db.messages[m].row, f.value, Single.Here(s, m))
  }

  /** The log of m explains it, and whatever the worker is about to log fits the grammar. */
  predicate KeepsUp(s: State, m: MessageId)
    requires |s.workers| == 1
  {
    && (m < |s.db.messages| ==> Explained(s, m))
    && (s.workers[0].run.Some? ==> Loggable(s.workers[0].run.value.pc))
  }

  lemma FreshLog()
    ensures Fold([EvAccepted, EvQueued]) == Some(View(Waiting(Queued), 0, None))
  {
    FoldAppend([], EvAccepted);
    FoldAppend([EvAccepted], EvQueued);
    assert [] + [EvAccepted] == [EvAccepted] && [EvAccepted] + [EvQueued] == [EvAccepted, EvQueued];
  }

  lemma ExplainedWorld(c: Config, s: State, t: State, m: MessageId)
    requires Ownership.Orderly(c, s) && KeepsUp(s, m) && WorldOnly(s, t) && m < |t.db.messages|
    ensures Explained(t, m)
  {
    FreshLog();
    if Running(s, 0) { assert NoLoss.RunIsSound(s, s.workers[0]); }
  }

  lemma ExplainedPoller(c: Config, s: State, w: nat, t: State, m: MessageId)
    requires Ownership.Clean(c, s, m) && KeepsUp(s, m) && PollerOnly(s, w, t) && m < |s.db.messages|
    ensures |t.workers| == 1 && Explained(t, m)
  {
    if RunningOn(s, 0, m) && Knowledge.Loaded(s.workers[0].run.value.pc) {
      assert Single.Agrees(c, s, s.workers[0].run.value);
      if t.db.messages[m] != s.db.messages[m] { NotFlippedWhileOpen(c, s, w, t, m); }
    }
  }

  /** A message that is on its way to be sent has a live entry, so it is not deferred and cannot be flipped. */
  lemma NotFlippedWhileOpen(c: Config, s: State, w: nat, t: State, m: MessageId)
    requires Ownership.Clean(c, s, m) && m < |s.db.messages| == |t.db.messages| && Flipped(s, w, t, m)
    ensures RunningOn(s, 0, m) ==> Closing(s.workers[0].run.value.pc)
  {
    if RunningOn(s, 0, m) && !Closing(s.workers[0].run.value.pc) {
      NoLoss.OpenRunCovers(s, 0);
    }
  }

  /** Whatever does not act on m leaves its row, its log and the worker's place with it. */
  lemma ExplainedElsewhere(c: Config, s: State, w: nat, d: ConsumerAction, t: State, m: MessageId)
    requires Ownership.Orderly(c, s) && KeepsUp(s, m) && ConsumerStep(c, s, w, d) == Some(t) && m < |s.db.messages|
    requires !RunningOn(s, 0, m)
    ensures |t.workers| == 1 && m < |t.db.messages| && Explained(t, m)
  {
    if d.Work? { WorkShape(c, s, w, d.input, t); } else { QuietShape(c, s, w, d, t); }
  }

  lemma ExplainedLook(c: Config, s: State, i: Input, t: State, m: MessageId)
    requires Single.Sound(c, s) && KeepsUp(s, m) && Looks(c, s, 0, i, t) && m < |s.db.messages|
    ensures |t.workers| == 1 && Explained(t, m)
  {
    assert Explained(s, m) && Single.Agrees(c, s, s.workers[0].run.value);
  }

  lemma ExplainedLoad(c: Config, s: State, t: State, m: MessageId)
    requires Ownership.Clean(c, s, m) && KeepsUp(s, m) && Loads(s, 0, t) && m < |s.db.messages|
    ensures |t.workers| == 1 && Explained(t, m)
  {
    assert Explained(s, m);
    if RunningOn(s, 0, m) { Ownership.LoadGoesOn(c, s, m); }
  }

  /** Writes that log nothing: the row moves on, or the attempt is recorded. */
  lemma ExplainedUnlogged(c: Config, s: State, t: State, m: MessageId)
    requires Ownership.Clean(c, s, m) && KeepsUp(s, m) && Plain(s, 0, t) && m < |s.db.messages|
    requires var pc := s.workers[0].run.value.pc; pc.AtMarkSending? || pc.AtSettle? || pc.AtSuppress?
    ensures |t.workers| == 1 && Explained(t, m)
  {
    assert Explained(s, m) && Single.Agrees(c, s, s.workers[0].run.value);
  }

  lemma ExplainedRecord(c: Config, s: State, i: Input, t: State, m: MessageId)
    requires Ownership.Clean(c, s, m) && KeepsUp(s, m) && m < |s.db.messages| && Running(s, 0)
    requires s.workers[0].run.value.pc.AtRecord? && t.db.messages == s.db.messages
    requires var r := s.workers[0].run.value;
             Moves(s, 0, t, OutcomePoint(c, r.pc.p, r.pc.kind, r.seen.attempts + 1, i.draw))
    ensures |t.workers| == 1 && Explained(t, m)
  {
    assert Explained(s, m) && Single.Agrees(c, s, s.workers[0].run.value);
  }

  /** The sending event catches the log up with the row. */
  lemma SendingIsNext(row: Row, v: View, pc: Point)
    requires pc.AtLogSending? && KeepsPace(row, v, Some(pc))
    ensures var w := After(v, EvSendingAttempted(row.attempts, LaneOf(pc.p)));
            w.Some? && KeepsPace(row, w.value, Some(AtPolicy(pc.p)))
  {
  }

  /** So does the closing event of any outcome, but for the retry_scheduled that follows a deferral. */
  lemma ClosingIsNext(row: Row, v: View, pc: Point)
    requires pc.AtLog? && KeepsPace(row, v, Some(pc)) && Loggable(pc)
    ensures var w := After(v, EventOf(pc.out));
            w.Some? && KeepsPace(row, w.value, Some(if pc.out.Retry? then AtLogRetry(pc.out, pc.attempts) else AtAck))
  {
  }

  /** An event written for m shows in its log and leaves its row. */
  predicate Logged(s: State, t: State, m: MessageId, e: Event) {
    m < |s.db.messages| == |t.db.messages|
    && t.db.messages[m] == s.db.messages[m].(log := s.db.messages[m].log + [e])
  }

  lemma ExplainedSending(c: Config, s: State, t: State, m: MessageId)
    requires Single.Sound(c, s) && KeepsUp(s, m) && Plain(s, 0, t) && m < |s.db.messages|
    requires s.workers[0].run.value.pc.AtLogSending?
    ensures |t.workers| == 1 && Explained(t, m)
  {
    var r := s.workers[0].run.value;
    assert Explained(s, m);
    if m == r.msg {
      assert Single.Agrees(c, s, r);
      var row := s.db.messages[m].row;
      assert Logged(s, t, m, EvSendingAttempted(row.attempts, LaneOf(r.pc.p)));
      FoldAppend(s.db.messages[m].log, EvSendingAttempted(row.attempts, LaneOf(r.pc.p)));
      SendingIsNext(row, Fold(s.db.messages[m].log).value, r.pc);
    }
  }

  lemma ExplainedClosing(c: Config, s: State, t: State, m: MessageId)
    requires Single.Sound(c, s) && KeepsUp(s, m) && Plain(s, 0, t) && m < |s.db.messages|
    requires s.workers[0].run.value.pc.AtLog?
    ensures |t.workers| == 1 && Explained(t, m)
  {
    var r := s.workers[0].run.value;
    assert Explained(s, m);
    if m == r.msg {
      assert Logged(s, t, m, EventOf(r.pc.out));
      FoldAppend(s.db.messages[m].log, EventOf(r.pc.out));
      ClosingIsNext(s.db.messages[m].row, Fold(s.db.messages[m].log).value, r.pc);
    }
  }

  lemma ExplainedRetry(c: Config, s: State, t: State, m: MessageId)
    requires Single.Sound(c, s) && KeepsUp(s, m) && Plain(s, 0, t) && m < |s.db.messages|
    requires s.workers[0].run.value.pc.AtLogRetry?
    ensures |t.workers| == 1 && Explained(t, m)
  {
    var r := s.workers[0].run.value;
    assert Explained(s, m) && Single.Agrees(c, s, r);
    FoldAppend(s.db.messages[m].log, EvRetryScheduled(r.pc.attempts, r.pc.out.kind, r.pc.out.at));
  }

  lemma LoggableWork(c: Config, s: State, i: Input, t: State)
    requires Running(s, 0) && Loggable(s.workers[0].run.value.pc) && WorkStep(c, s, 0, i) == Some(t)
    ensures |t.workers| > 0 && (t.workers[0].run.Some? ==> Loggable(t.workers[0].run.value.pc))
  {
    WorkShape(c, s, 0, i, t);
    if Writes(c, s, 0, i, t) {
      if s.workers[0].run.value.pc.AtRecord? { RecordShape(c, s, 0, i, t); } else { PlainShape(c, s, 0, i, t); }
    }
  }

  lemma ExplainedWork(c: Config, s: State, i: Input, t: State, m: MessageId)
    requires Ownership.Clean(c, s, m) && KeepsUp(s, m) && WorkStep(c, s, 0, i) == Some(t) && RunningOn(s, 0, m)
    ensures |t.workers| == 1 && m < |t.db.messages| && Explained(t, m)
  {
    WorkShape(c, s, 0, i, t);
    assert NoLoss.RunIsSound(s, s.workers[0]);
    if Looks(c, s, 0, i, t) { ExplainedLook(c, s, i, t, m); }
    else if Loads(s, 0, t) { ExplainedLoad(c, s, t, m); }
    else if Writes(c, s, 0, i, t) { ExplainedWrite(c, s, i, t, m); }
  }

  lemma ExplainedWrite(c: Config, s: State, i: Input, t: State, m: MessageId)
    requires Ownership.Clean(c, s, m) && KeepsUp(s, m) && Writes(c, s, 0, i, t) && m < |s.db.messages|
    ensures |t.workers| == 1 && m < |t.db.messages| && Explained(t, m)
  {
    var pc := s.workers[0].run.value.pc;
    if pc.AtRecord? { RecordShape(c, s, 0, i, t); ExplainedRecord(c, s, i, t, m); }
    else {
      PlainShape(c, s, 0, i, t);
      if pc.AtLogSending? { ExplainedSending(c, s, t, m); }
      else if pc.AtLog? { ExplainedClosing(c, s, t, m); }
      else if pc.AtLogRetry? { ExplainedRetry(c, s, t, m); }
      else { ExplainedUnlogged(c, s, t, m); }
    }
  }

  lemma LoggableConsume(c: Config, s: State, w: nat, d: ConsumerAction, t: State)
    requires |s.workers| == 1 && (s.workers[0].run.Some? ==> Loggable(s.workers[0].run.value.pc))
    requires ConsumerStep(c, s, w, d) == Some(t)
    ensures |t.workers| == 1 && (t.workers[0].run.Some? ==> Loggable(t.workers[0].run.value.pc))
  {
    if d.Work? { LoggableWork(c, s, d.input, t); } else { QuietShape(c, s, w, d, t); }
  }

  lemma ExplainedSkip(s: State, t: State, m: MessageId)
    requires |s.workers| == 1 && KeepsUp(s, m) && m < |s.db.messages|
    requires RunningOn(s, 0, m) && s.workers[0].run.value.pc.AtLoad? && t == Goto(s, 0, AtAck)
    ensures |t.workers| == 1 && m < |t.db.messages| && Explained(t, m)
  {
  }

  lemma ExplainedConsume(c: Config, s: State, w: nat, d: ConsumerAction, t: State, m: MessageId)
    requires Ownership.Clean(c, s, m) && KeepsUp(s, m) && ConsumerStep(c, s, w, d) == Some(t)
    requires !FaultHits(s, Consume(w, d), m)
    ensures |t.workers| == 1 && KeepsUp(t, m)
  {
    Ownership.ConsumeAddsNone(c, s, w, d, t);
    LoggableConsume(c, s, w, d, t);
    if m < |s.db.messages| {
      if !RunningOn(s, 0, m) { ExplainedElsewhere(c, s, w, d, t, m); }
      else if d.Work? { ExplainedWork(c, s, d.input, t, m); }
      else { OnlySkip(c, s, w, d, t, m); ExplainedSkip(s, t, m); }
    }
  }

  lemma KeepsUpStep(c: Config, s: State, a: Action, t: State, m: MessageId)
    requires Ownership.Clean(c, s, m) && KeepsUp(s, m) && Step(c, s, a) == Some(t) && !FaultHits(s, a, m)
    ensures |t.workers| == 1 && KeepsUp(t, m)
  {
    match a
    case World(e) => WorldShape(s, e, t); if m < |t.db.messages| { ExplainedWorld(c, s, t, m); }
    case Poll(w, k) => PollerShape(s, w, k, t); if m < |s.db.messages| { ExplainedPoller(c, s, w, t, m); }
    case Consume(w, d) => ExplainedConsume(c, s, w, d, t, m);
  }

  lemma {:induction false} KeepsUpAlways(c: Config, s: State, acts: seq<Action>, t: State, m: MessageId)
    requires Reaches(c, s, acts, t) && |s.workers| == 1 && Untroubled(c, s, acts, m)
    ensures |t.workers| == 1 && KeepsUp(t, m)
    decreases |acts|
  {
    if acts != [] {
      var u := Exec(c, s, acts[..|acts| - 1]).value;
      Ownership.CleanAlways(c, s, acts[..|acts| - 1], u, m);
      KeepsUpAlways(c, s, acts[..|acts| - 1], u, m);
      KeepsUpStep(c, u, acts[|acts| - 1], t, m);
    }
  }

  /**
   The log explains the message. If no fault hits it, whatever faults hit others, its log is accepted,
   queued, rounds of holds and retried attempts, and at most one ending. While no run is working on it,
   folding its log gives its attempt_count, which is the number of its sends, its next_attempt_at and its
   status, save that a deferred message may already have been flipped back to queued.
   */
  lemma LogExplainsMessage(c: Config, s: State, acts: seq<Action>, t: State, m: MessageId)
    requires Reaches(c, s, acts, t) && |s.workers| == 1 && Untroubled(c, s, acts, m) && m < |t.db.messages|
    ensures var log := t.db.messages[m].log;
            && Shaped(log) && Fold(log).Some? && Fold(log).value.attempts == Chronicle.Sends(log)
            && ((forall w: nat :: !RunningOn(t, w, m)) ==> Matches(t.db.messages[m].row, Fold(log).value))
  {
    KeepsUpAlways(c, s, acts, t, m);
    assert Explained(t, m);
    FoldMeansShaped(t.db.messages[m].log);
  }
}
