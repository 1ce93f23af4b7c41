/** One worker, with faults: hard bounces suppress, and suppressed recipients are never sent to again. */
module Suppression {
  import opened Base
  import opened Tables
  import opened Engine
  import opened Shapes
  import Knowledge
  import Single

  /** The run has found the pair unsuppressed and has not itself suppressed it. */
  predicate Cleared(pc: Point) {
    pc.AtRoute? || PlanOf(pc).Some? || pc.AtSuppress?
  }

  predicate BouncedPair(s: State, m: MessageId, pair: (CustomerId, Email)) {
    m < |s.db.messages| && s.db.messages[m].row.status == Bounced && PairOf(s.db.messages[m].mail) == pair
  }

  predicate RunIsCautious(s: State, r: Run)
    requires r.msg < |s.db.messages|
  {
    var pair := PairOf(s.db.messages[r.msg].mail);
    && (Cleared(r.pc) ==> pair !in s.db.suppressed)
    && (r.pc.AtSettle? && r.pc.out.HardBounced? ==>
          pair in s.db.suppressed && forall m :: 0 <= m < |s.db.messages| ==> !BouncedPair(s, m, pair))
  }

  ghost predicate Guarded(s: State)
    requires |s.workers| == 1
  {
    && (s.workers[0].run.Some? && Knowledge.Loaded(s.workers[0].run.value.pc) ==>
          s.workers[0].run.value.msg < |s.db.messages| && RunIsCautious(s, s.workers[0].run.value))
    && (forall m :: 0 <= m < |s.db.messages| && s.db.messages[m].row.status == Bounced ==>
          PairOf(s.db.messages[m].mail) in s.db.suppressed)
    && (forall m, n ::
          0 <= m < n < |s.db.messages| && s.db.messages[m].row.status == s.db.messages[n].row.status == Bounced ==>
            PairOf(s.db.messages[m].mail) != PairOf(s.db.messages[n].mail))
  }

  lemma GuardedRecord(c: Config, s: State, w: nat, i: Input, t: State)
    requires |s.workers| == 1 && Guarded(s) && Writes(c, s, w, i, t) && s.workers[w].run.value.pc.AtRecord?
    ensures |t.workers| == 1 && Guarded(t)
  {
    RecordShape(c, s, w, i, t);
    assert RunIsCautious(s, s.workers[w].run.value);
  }

  lemma GuardedPlain(c: Config, s: State, w: nat, t: State)
    requires |s.workers| == 1 && Guarded(s) && Knowledge.Known(c, s) && Plain(s, w, t)
    requires s.db.suppressed <= t.db.suppressed
    requires var r := s.workers[w].run.value; r.pc.AtSuppress? ==> t.db.suppressed == s.db.suppressed + {PairOf(r.mail)}
    ensures |t.workers| == 1 && Guarded(t)
  {
    var r := s.workers[w].run.value;
    assert Knowledge.RunKnows(c, s, r) && RunIsCautious(s, r);
    var pair := PairOf(s.db.messages[r.msg].mail);
    if r.pc.AtSettle? && r.pc.out.HardBounced? {
      forall m | 0 <= m < |t.db.messages| && m != r.msg && t.db.messages[m].row.status == Bounced
        ensures PairOf(t.db.messages[m].mail) != pair {
        assert !BouncedPair(s, m, pair);
      }
    }
    forall m | 0 <= m < |s.db.messages| && BouncedPair(t, m, pair) && !r.pc.AtSettle? ensures BouncedPair(s, m, pair) {}
  }

  lemma GuardedWork(c: Config, s: State, w: nat, i: Input, t: State)
    requires |s.workers| == 1 && Guarded(s) && Knowledge.Known(c, s) && WorkStep(c, s, w, i) == Some(t)
    ensures |t.workers| == 1 && Guarded(t)
  {
    WorkShape(c, s, w, i, t);
    if Writes(c, s, w, i, t) {
      if s.workers[w].run.value.pc.AtRecord? { GuardedRecord(c, s, w, i, t); }
      else { PlainShape(c, s, w, i, t); GuardedPlain(c, s, w, t); }
    }
    else if Looks(c, s, w, i, t) {
      assert Knowledge.RunKnows(c, s, s.workers[w].run.value) && RunIsCautious(s, s.workers[w].run.value);
    }
  }

  lemma GuardedPoller(s: State, w: nat, t: State)
    requires |s.workers| == 1 && Guarded(s) && PollerOnly(s, w, t)
    ensures |t.workers| == 1 && Guarded(t)
  {
    forall m, pair | !BouncedPair(s, m, pair) ensures !BouncedPair(t, m, pair) {}
  }

  lemma GuardedWorld(s: State, t: State)
    requires |s.workers| == 1 && Guarded(s) && WorldOnly(s, t)
    ensures |t.workers| == 1 && Guarded(t)
  {
    forall m, pair | !BouncedPair(s, m, pair) ensures !BouncedPair(t, m, pair) {}
  }

  lemma GuardedStep(c: Config, s: State, a: Action, t: State)
    requires |s.workers| == 1 && Guarded(s) && Knowledge.Known(c, s) && Step(c, s, a) == Some(t)
    ensures |t.workers| == 1 && Guarded(t)
  {
    match a
    case World(e) => WorldShape(s, e, t); GuardedWorld(s, t);
    case Poll(w, k) => PollerShape(s, w, k, t); GuardedPoller(s, w, t);
    case Consume(w, d) =>
      if d.Work? { GuardedWork(c, s, w, d.input, t); } else { QuietShape(c, s, w, d, t); }
  }

  lemma {:induction false} GuardedAlways(c: Config, s: State, acts: seq<Action>, t: State)
    requires Reaches(c, s, acts, t) && |s.workers| == 1
    ensures |t.workers| == 1 && Guarded(t)
    decreases |acts|
  {
    if acts != [] {
      var u := Exec(c, s, acts[..|acts| - 1]).value;
      GuardedAlways(c, s, acts[..|acts| - 1], u);
      Knowledge.KnownAlways(c, s, acts[..|acts| - 1], u);
      GuardedStep(c, u, acts[|acts| - 1], t);
    }
  }

  /** A bounced message's recipient is suppressed for its customer, and at most one message per pair ever bounces. */
  lemma BounceSuppressesOnce(c: Config, s: State, acts: seq<Action>, t: State, m: MessageId, n: MessageId)
    requires Reaches(c, s, acts, t) && |s.workers| == 1 && m < |t.db.messages| && n < |t.db.messages|
    requires t.db.messages[m].row.status == Bounced
    ensures PairOf(t.db.messages[m].mail) in t.db.suppressed
    ensures var bounced := t.db.messages[n].row.status == Bounced;
            bounced && PairOf(t.db.messages[n].mail) == PairOf(t.db.messages[m].mail) ==> n == m
  {
    GuardedAlways(c, s, acts, t);
  }

  /** Once a pair is suppressed it stays so. */
  lemma {:induction false} SuppressionStays(c: Config, s: State, acts: seq<Action>, t: State)
    requires Exec(c, s, acts) == Some(t)
    ensures s.db.suppressed <= t.db.suppressed
    decreases |acts|
  {
    if acts != [] {
      var u := Exec(c, s, acts[..|acts| - 1]).value;
      SuppressionStays(c, s, acts[..|acts| - 1], u);
      SuppressionStaysStep(c, u, acts[|acts| - 1], t);
    }
  }

  lemma SuppressionStaysStep(c: Config, s: State, a: Action, t: State)
    requires Step(c, s, a) == Some(t)
    ensures s.db.suppressed <= t.db.suppressed
  {
    match a
    case World(e) => WorldShape(s, e, t);
    case Poll(w, k) => PollerShape(s, w, k, t);
    case Consume(w, d) => if d.Work? { WorkShape(c, s, w, d.input, t); } else { QuietShape(c, s, w, d, t); }
  }

  /** A step that logs a sending attempt for m. */
  predicate Attempts(s: State, t: State, m: MessageId) {
    m < |s.db.messages| && m < |t.db.messages| && |t.db.messages[m].log| > |s.db.messages[m].log|
    && t.db.messages[m].log[|t.db.messages[m].log| - 1].EvSendingAttempted?
  }

  /**
   Nothing is sent after suppression: from the moment a pair is on the list, however many crashes and
   redeliveries follow, no step logs a sending attempt for any message of that pair.
   */
  lemma NoSendAfterSuppression(c: Config, s0: State, before: seq<Action>, s: State, between: seq<Action>, u: State,
                               a: Action, t: State, m: MessageId)
    requires Reaches(c, s0, before, s) && |s0.workers| == 1
    requires Exec(c, s, between) == Some(u) && Step(c, u, a) == Some(t)
    requires m < |u.db.messages| && PairOf(u.db.messages[m].mail) in s.db.suppressed
    ensures !Attempts(u, t, m)
  {
    SuppressionStays(c, s, between, u);
    GuardedFrom(c, s0, before, s, between, u);
    match a
    case World(e) => WorldShape(u, e, t);
    case Poll(w, k) => PollerShape(u, w, k, t);
    case Consume(w, d) =>
      if d.Work? {
        WorkShape(c, u, w, d.input, t);
        if Writes(c, u, w, d.input, t) { assert RunIsCautious(u, u.workers[w].run.value); }
      } else { QuietShape(c, u, w, d, t); }
  }

  lemma {:induction false} GuardedFrom(c: Config, s0: State, before: seq<Action>, s: State, after: seq<Action>,
          t: State)
    requires Reaches(c, s0, before, s) && |s0.workers| == 1 && Exec(c, s, after) == Some(t)
    ensures |t.workers| == 1 && Guarded(t) && Knowledge.Known(c, t)
    decreases |after|
  {
    if after == [] {
      GuardedAlways(c, s0, before, s);
      Knowledge.KnownAlways(c, s0, before, s);
    } else {
      var u := Exec(c, s, after[..|after| - 1]).value;
      GuardedFrom(c, s0, before, s, after[..|after| - 1], u);
      GuardedStep(c, u, after[|after| - 1], t);
      Knowledge.KnownStep(c, u, after[|after| - 1], t);
    }
  }
}
