/** The metric counters balance after every step, for any number of workers. */
module Conservation {
  import opened Base
  import opened Counting
  import opened Tables
  import opened Engine
  import opened Shapes
  import Classify

  /** A run whose attempt has been counted and whose outcome has not. */
  function InDoubt(): Worker -> bool {
    (x: Worker) => x.run.Some? && Uncounted(x.run.value.pc)
  }

  ghost predicate Balanced(s: State) {
    && s.tally.attempts == s.tally.delivered + s.tally.bounced + s.tally.deadLettered + s.tally.deferred
                           + Count(s.workers, InDoubt()) + s.hist.abandoned
    && s.tally.deferred == s.tally.retryScheduled
  }

  lemma BalancedInit(c: Config, s: State)
    requires Init(c, s)
    ensures Balanced(s)
  {
    CountNone(s.workers, InDoubt());
  }

  /** What one worker's change does to the number of runs in doubt. */
  lemma InDoubtUpdate(s: State, w: nat, t: State)
    requires SameOthers(s, w, t)
    ensures Count(t.workers, InDoubt()) ==
            Count(s.workers, InDoubt())
            - (if InDoubt()(s.workers[w]) then 1 else 0) + (if InDoubt()(t.workers[w]) then 1 else 0)
  {
    CountUpdate(s.workers, w, t.workers[w], InDoubt());
    assert t.workers == s.workers[w := t.workers[w]];
  }

  lemma BalancedWrite(c: Config, s: State, w: nat, i: Input, t: State)
    requires Balanced(s) && Writes(c, s, w, i, t)
    ensures Balanced(t)
  {
    InDoubtUpdate(s, w, t);
  }

  lemma BalancedWork(c: Config, s: State, w: nat, i: Input, t: State)
    requires Balanced(s) && WorkStep(c, s, w, i) == Some(t)
    ensures Balanced(t)
  {
    WorkShape(c, s, w, i, t);
    if Writes(c, s, w, i, t) { BalancedWrite(c, s, w, i, t); }
    else { InDoubtUpdate(s, w, t); }
  }

  lemma BalancedStep(c: Config, s: State, a: Action, t: State)
    requires Balanced(s) && Step(c, s, a) == Some(t)
    ensures Balanced(t)
  {
    match a
    case World(e) => WorldShape(s, e, t);
    case Poll(w, k) => PollerShape(s, w, k, t); CountAgree(s.workers, t.workers, InDoubt());
    case Consume(w, d) =>
      if d.Work? {
        BalancedWork(c, s, w, d.input, t);
      } else {
        QuietShape(c, s, w, d, t);
        InDoubtUpdate(s, w, t);
      }
  }

  /**
   Every counted attempt is accounted for: it was counted as delivered, bounced, dead-lettered or
   deferred, or its run is between the send and the count, or its run was cut off there.
   */
  lemma {:induction false} AttemptsAreConserved(c: Config, s: State, acts: seq<Action>, t: State)
    requires Reaches(c, s, acts, t)
    ensures t.tally.attempts == t.tally.delivered + t.tally.bounced + t.tally.deadLettered + t.tally.deferred
                                + Count(t.workers, InDoubt()) + t.hist.abandoned
    ensures t.tally.deferred == t.tally.retryScheduled
    decreases |acts|
  {
    if acts == [] {
      BalancedInit(c, s);
    } else {
      var u := Exec(c, s, acts[..|acts| - 1]).value;
      AttemptsAreConserved(c, s, acts[..|acts| - 1], u);
      BalancedStep(c, u, acts[|acts| - 1], t);
    }
  }

  // Each outcome counter is the number of attempt rows of its kind.

  function Taken(): Attempt -> bool { (x: Attempt) => x.kind == Classify.Delivered }

  function Refused(): Attempt -> bool {
    (x: Attempt) => x.kind == Classify.HardBounce || x.kind == Classify.PolicyRejection
  }

  /** A reply that is retried, to an attempt that leaves others, or to the last one allowed. */
  function PutOff(maxAttempts: nat): Attempt -> bool {
    (x: Attempt) => !Taken()(x) && !Refused()(x) && x.number < maxAttempts
  }

  function GivenUp(maxAttempts: nat): Attempt -> bool {
    (x: Attempt) => !Taken()(x) && !Refused()(x) && x.number >= maxAttempts
  }

  ghost predicate Tallied(maxAttempts: nat, t: Tally, attempts: seq<Attempt>) {
    && t.delivered == Count(attempts, Taken()) && t.bounced == Count(attempts, Refused())
    && t.deferred == Count(attempts, PutOff(maxAttempts)) && t.deadLettered == Count(attempts, GivenUp(maxAttempts))
  }

  lemma TalliedAppend(c: Config, t: Tally, attempts: seq<Attempt>, x: Attempt)
    requires Tallied(c.maxAttempts, t, attempts)
    ensures Tallied(c.maxAttempts, Counted(c, t, x.kind, x.number), attempts + [x])
  {
    CountAppend(attempts, x, Taken());
    CountAppend(attempts, x, Refused());
    CountAppend(attempts, x, PutOff(c.maxAttempts));
    CountAppend(attempts, x, GivenUp(c.maxAttempts));
  }

  lemma TalliedWrite(c: Config, s: State, w: nat, i: Input, t: State)
    requires Tallied(c.maxAttempts, s.tally, s.db.attempts) && Writes(c, s, w, i, t)
    ensures Tallied(c.maxAttempts, t.tally, t.db.attempts)
  {
    var r := s.workers[w].run.value;
    if r.pc.AtRecord? { TalliedAppend(c, s.tally, s.db.attempts, AttemptOf(s, r)); }
  }

  lemma TalliedStep(c: Config, s: State, a: Action, t: State)
    requires Tallied(c.maxAttempts, s.tally, s.db.attempts) && Step(c, s, a) == Some(t)
    ensures Tallied(c.maxAttempts, t.tally, t.db.attempts)
  {
    match a
    case World(e) => WorldShape(s, e, t);
    case Poll(w, k) => PollerShape(s, w, k, t);
    case Consume(w, d) =>
      if !d.Work? { QuietShape(c, s, w, d, t); }
      else {
        WorkShape(c, s, w, d.input, t);
        if Writes(c, s, w, d.input, t) { TalliedWrite(c, s, w, d.input, t); }
      }
  }

  /**
   Each outcome counter is the number of the recorded attempts that met that outcome, whatever faults hit
   and however many processes ran.
   */
  lemma {:induction false} CountersAreTheAttempts(c: Config, s: State, acts: seq<Action>, t: State)
    requires Reaches(c, s, acts, t)
    ensures t.tally.delivered == Count(t.db.attempts, Taken()) && t.tally.bounced == Count(t.db.attempts, Refused())
    ensures t.tally.deferred == Count(t.db.attempts, PutOff(c.maxAttempts))
    ensures t.tally.deadLettered == Count(t.db.attempts, GivenUp(c.maxAttempts))
    decreases |acts|
  {
    if acts != [] {
      var u := Exec(c, s, acts[..|acts| - 1]).value;
      CountersAreTheAttempts(c, s, acts[..|acts| - 1], u);
      TalliedStep(c, u, acts[|acts| - 1], t);
    }
  }
}
