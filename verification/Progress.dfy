/** One worker: whatever is not finished or stranded can be moved along, and so every message can be finished. */
module Progress {
  import opened Base
  import opened Counting
  import opened Tables
  import opened Engine
  import opened Shapes
  import opened Focus
  import opened NoLoss
  import Ownership
  import Single
  import Stranded
  import opened Termination

  /** What the limiter, the provider and the jitter will answer to a call made in a given state. */
  type Answers = State -> Input

  /** The scheduler may take a now: a is no fault, it is possible, and its call is answered as the world answers. */
  ghost predicate Allows(c: Config, s: State, answers: Answers, a: Action) {
    && !IsFault(a) && Step(c, s, a).Some?
    && (a.Consume? && a.d.Work? ==> a.d.input == answers(s))
  }

  /** A schedule without faults whose last step moves m along. */
  ghost predicate Leads(c: Config, s: State, answers: Answers, more: seq<Action>, m: MessageId)
    decreases |more|
  {
    && more != [] && Allows(c, s, answers, more[0])
    && if |more| == 1 then ActsOn(s, more[0], m) else Leads(c, Step(c, s, more[0]).value, answers, more[1..], m)
  }

  ghost predicate CanAct(c: Config, s: State, answers: Answers, m: MessageId) {
    exists more :: Leads(c, s, answers, more, m)
  }

  lemma ActsNow(c: Config, s: State, answers: Answers, a: Action, m: MessageId)
    requires Allows(c, s, answers, a) && ActsOn(s, a, m)
    ensures CanAct(c, s, answers, m)
  {
    assert Leads(c, s, answers, [a], m);
  }

  lemma ActsLater(c: Config, s: State, answers: Answers, a: Action, m: MessageId)
    requires Allows(c, s, answers, a) && CanAct(c, Step(c, s, a).value, answers, m)
    ensures CanAct(c, s, answers, m)
  {
    var more :| Leads(c, Step(c, s, a).value, answers, more, m);
    assert ([a] + more)[1..] == more;
    assert Leads(c, s, answers, [a] + more, m);
  }

  // A run can always make its next call, and comes to its end.

  function Next(s: State, answers: Answers): Action { Consume(0, Work(answers(s))) }

  function RunLeft(x: Worker): nat { if x.run.None? then 0 else CallsLeft(x.run.value.pc) }

  lemma WorkGoesOn(c: Config, s: State, i: Input)
    requires Ownership.Orderly(c, s) && Running(s, 0)
    ensures WorkStep(c, s, 0, i).Some?
  {
    assert RunIsSound(s, s.workers[0]);
  }

  lemma WorkAdvances(c: Config, s: State, i: Input, t: State)
    requires |s.workers| == 1 && WorkStep(c, s, 0, i) == Some(t)
    ensures |t.workers| == 1 && RunLeft(t.workers[0]) < RunLeft(s.workers[0])
    ensures t.workers[0].batch == s.workers[0].batch && t.workers[0].poller == s.workers[0].poller
    ensures |t.q.entries| == |s.q.entries| && t.q.cursor == s.q.cursor
    ensures forall e :: 0 <= e < |s.q.entries| && e != s.workers[0].run.value.entry ==> t.q.entries[e] == s.q.entries[e]
  {
    WorkShape(c, s, 0, i, t);
    WorkShortens(c, s, 0, i, t);
  }

  lemma ByRun(c: Config, s: State, answers: Answers, m: MessageId)
    requires Ownership.Orderly(c, s) && RunningOn(s, 0, m)
    ensures CanAct(c, s, answers, m)
  {
    WorkGoesOn(c, s, answers(s));
    ActsNow(c, s, answers, Next(s, answers), m);
  }

  // A poller works its list off.

  function PollerNext(p: PollerState): Action
    requires !p.Resting?
  {
    Poll(0, if p.Adding? then Add else Mark)
  }

  lemma PollerGoesOn(c: Config, s: State)
    requires Ownership.Orderly(c, s) && !s.workers[0].poller.Resting?
    ensures Step(c, s, PollerNext(s.workers[0].poller)).Some?
    ensures var t := Step(c, s, PollerNext(s.workers[0].poller)).value;
            && Ownership.Orderly(c, t)
            && Stranded.ListLeft(t.workers[0].poller) < Stranded.ListLeft(s.workers[0].poller)
  {
    assert PollerIsSound(s, s.workers[0].poller);
    Ownership.OrderlyStep(c, s, PollerNext(s.workers[0].poller), Step(c, s, PollerNext(s.workers[0].poller)).value);
  }

  lemma {:induction false} ByPoller(c: Config, s: State, answers: Answers, m: MessageId)
    requires Ownership.Orderly(c, s) && Mentions(s.workers[0].poller, m)
    ensures CanAct(c, s, answers, m)
    decreases Stranded.ListLeft(s.workers[0].poller)
  {
    var a := PollerNext(s.workers[0].poller);
    PollerGoesOn(c, s);
    if ActsOn(s, a, m) {
      ActsNow(c, s, answers, a, m);
    } else {
      ByPoller(c, Step(c, s, a).value, answers, m);
      ActsLater(c, s, answers, a, m);
    }
  }

  // An un-acked entry is delivered, or delivered again.

  /** What the worker has in front of it before it can take up new entries. */
  function BatchLeft(x: Worker): nat { 17 * |x.batch| + RunLeft(x) }

  lemma StartTakes(s: State, e: EntryId, t: State)
    requires |s.workers| == 1 && StartStep(s, 0, e) == Some(t)
    ensures |t.workers| == 1 && BatchLeft(t.workers[0]) < BatchLeft(s.workers[0]) && t.q == s.q && t.db == s.db
  {
    var batch := s.workers[0].batch;
    assert batch == t.workers[0].batch + {e};
  }

  /** The entry the consumer reads is the next one, alone. */
  lemma ReadOne(s: State, t: State)
    requires |s.workers| == 1 && ReadStep(s, 0, 1) == Some(t)
    ensures |t.workers| == 1 && t.q.cursor == s.q.cursor + 1 && |t.q.entries| == |s.q.entries| && t.db == s.db
    ensures forall e :: 0 <= e < |s.q.entries| ==>
              t.q.entries[e].msg == s.q.entries[e].msg && t.q.entries[e].acked == s.q.entries[e].acked
    ensures s.q.cursor in t.workers[0].batch
  {
  }

  lemma {:induction false} ByEntry(c: Config, s: State, answers: Answers, e: EntryId, m: MessageId)
    requires Ownership.Orderly(c, s) && Unacked(s, e, m)
    ensures CanAct(c, s, answers, m)
    decreases |s.q.entries| - s.q.cursor, BatchLeft(s.workers[0])
  {
    var x := s.workers[0];
    if RunningOn(s, 0, m) {
      ByRun(c, s, answers, m);
    } else if x.run.Some? {
      ByEntryAfterRun(c, s, answers, e, m);
    } else if d: EntryId :| d in x.batch {
      assert Holds(s, 0, d);
      var a, t := Consume(0, Start(d)), StartStep(s, 0, d).value;
      if s.q.entries[d].msg == m {
        ActsNow(c, s, answers, a, m);
      } else {
        StartTakes(s, d, t);
        Ownership.OrderlyStep(c, s, a, t);
        ByEntry(c, t, answers, e, m);
        ActsLater(c, s, answers, a, m);
      }
    } else if e < s.q.cursor {
      ByReclaim(c, s, answers, e, m);
    } else {
      var a, t := Consume(0, ReadStream(1)), ReadStep(s, 0, 1).value;
      ReadOne(s, t);
      Ownership.OrderlyStep(c, s, a, t);
      ByEntry(c, t, answers, e, m);
      ActsLater(c, s, answers, a, m);
    }
  }

  /** The run before it is finished first. */
  lemma ByEntryAfterRun(c: Config, s: State, answers: Answers, e: EntryId, m: MessageId)
    requires Ownership.Orderly(c, s) && Unacked(s, e, m) && Running(s, 0) && !RunningOn(s, 0, m)
    ensures CanAct(c, s, answers, m)
    decreases |s.q.entries| - s.q.cursor, BatchLeft(s.workers[0]), 0
  {
    var a := Next(s, answers);
    WorkGoesOn(c, s, answers(s));
    var t := Step(c, s, a).value;
    assert RunIsSound(s, s.workers[0]);
    WorkAdvances(c, s, answers(s), t);
    Ownership.OrderlyStep(c, s, a, t);
    ByEntry(c, t, answers, e, m);
    ActsLater(c, s, answers, a, m);
  }

  /** A pending entry nobody holds is reclaimed once it has been idle for a minute. */
  lemma ByReclaim(c: Config, s: State, answers: Answers, e: EntryId, m: MessageId)
    requires Ownership.Orderly(c, s) && Unacked(s, e, m) && e < s.q.cursor && Unoccupied(s, 0)
    ensures CanAct(c, s, answers, m)
  {
    var idle := s.q.entries[e].since + RECLAIM_MIN_IDLE - s.now;
    var a := World(Tick(if idle > 0 then idle else 0));
    var t := Step(c, s, a).value;
    var b := Consume(0, ReclaimIdle({e}));
    assert Idle(t.q, e, t.now);
    var u := Step(c, t, b).value;
    ActsNow(c, u, answers, Consume(0, Start(e)), m);
    ActsLater(c, t, answers, b, m);
    ActsLater(c, s, answers, a, m);
  }

  // A deferred message is listed when its time has come.

  /** The first k messages that are ready and not yet picked: one of them is the earliest. */
  lemma {:induction false} Earliest(db: Db, now: Time, picked: seq<MessageId>, k: nat) returns (best: Option<MessageId>)
    requires k <= |db.messages|
    ensures best.None? ==> forall n: MessageId :: n < k && Ready(db, now, n) ==> n in picked
    ensures best.Some? ==>
              && Ready(db, now, best.value) && best.value !in picked
              && forall n: MessageId :: n < k && Ready(db, now, n) && n !in picked ==>
                   db.messages[best.value].row.next.value <= db.messages[n].row.next.value
  {
    if k == 0 { return None; }
    best := Earliest(db, now, picked, k - 1);
    if Ready(db, now, k - 1) && k - 1 !in picked
       && (best.None? || db.messages[k - 1].row.next.value < db.messages[best.value].row.next.value) {
      best := Some(k - 1);
    }
  }

  /** The earliest ready messages in order, none passed over: the start of a possible answer. */
  predicate Picked(db: Db, now: Time, ids: seq<MessageId>) {
    && (forall i :: 0 <= i < |ids| ==> Ready(db, now, ids[i]))
    && Distinct(ids)
    && (forall i, j :: 0 <= i < j < |ids| ==>
          db.messages[ids[i]].row.next.value <= db.messages[ids[j]].row.next.value)
    && (forall m: MessageId :: m < |db.messages| && Ready(db, now, m) && m !in ids ==>
          forall i :: 0 <= i < |ids| ==> db.messages[ids[i]].row.next.value <= db.messages[m].row.next.value)
  }

  /** The ready query has an answer in every state. */
  lemma {:induction false} ListExists(db: Db, now: Time, ids: seq<MessageId>) returns (ready: seq<MessageId>)
    requires Picked(db, now, ids) && |ids| <= DEFERRED_BATCH
    ensures ReadyList(db, now, ready)
    decreases DEFERRED_BATCH - |ids|
  {
    var best := Earliest(db, now, ids, |db.messages|);
    if |ids| == DEFERRED_BATCH || best.None? {
      ready := ids;
    } else {
      ready := ListExists(db, now, ids + [best.value]);
    }
  }

  function IsDeferred(): Message -> bool { (x: Message) => x.row.status == Deferred }

  function DeferredLeft(s: State): nat { Count(s.db.messages, IsDeferred()) }

  /** The poller first finishes the list it is on. */
  lemma {:induction false} ByDeferral(c: Config, s: State, answers: Answers, m: MessageId)
    requires Ownership.Orderly(c, s) && m < |s.db.messages| && s.db.messages[m].row.status == Deferred
    ensures CanAct(c, s, answers, m)
    decreases DeferredLeft(s), 1, Stranded.ListLeft(s.workers[0].poller)
  {
    if s.workers[0].poller.Resting? {
      ByListing(c, s, answers, m);
    } else {
      var a := PollerNext(s.workers[0].poller);
      PollerGoesOn(c, s);
      if ActsOn(s, a, m) {
        ActsNow(c, s, answers, a, m);
      } else {
        PollerDefersNone(c, s, a, Step(c, s, a).value);
        ByDeferral(c, Step(c, s, a).value, answers, m);
        ActsLater(c, s, answers, a, m);
      }
    }
  }

  /** Marking takes the head of the list out of the deferred messages; adding changes no row. */
  lemma PollerDefersNone(c: Config, s: State, a: Action, t: State)
    requires Step(c, s, a) == Some(t) && (a == Poll(0, Mark) || a == Poll(0, Add))
    ensures |t.db.messages| == |s.db.messages| && DeferredLeft(t) <= DeferredLeft(s)
    ensures forall m :: 0 <= m < |s.db.messages| && !ActsOn(s, a, m) ==> t.db.messages[m] == s.db.messages[m]
    ensures a.k.Mark? ==>
              var m := s.workers[0].poller.ready[0];
              m < |s.db.messages| && s.db.messages[m].row.status == Deferred ==> DeferredLeft(t) < DeferredLeft(s)
  {
    if a.k.Mark? {
      var m := s.workers[0].poller.ready[0];
      if m < |s.db.messages| { CountUpdate(s.db.messages, m, t.db.messages[m], IsDeferred()); }
    }
  }

  /** A rested poller lists m as soon as it is due, or a full batch of messages that are due before it. */
  lemma ByListing(c: Config, s: State, answers: Answers, m: MessageId)
    requires Ownership.Orderly(c, s) && m < |s.db.messages| && s.db.messages[m].row.status == Deferred
    requires s.workers[0].poller.Resting?
    ensures CanAct(c, s, answers, m)
    decreases DeferredLeft(s), 0, 1
  {
    assert RowIsSound(s.db.messages[m].row);
    var wait := s.db.messages[m].row.next.value - s.now;
    var tick := World(Tick(if wait > 0 then wait else 0));
    var t := Step(c, s, tick).value;
    Ownership.OrderlyStep(c, s, tick, t);
    var ready := ListExists(t.db, t.now, []);
    if m in ready {
      ActsNow(c, t, answers, Poll(0, List(ready)), m);
    } else {
      assert Ready(t.db, t.now, m);
      ByLaterList(c, t, answers, ready, m);
    }
    ActsLater(c, s, answers, tick, m);
  }

  /** A full batch is due before m: marking the first of it leaves fewer before m. */
  lemma ByLaterList(c: Config, s: State, answers: Answers, ready: seq<MessageId>, m: MessageId)
    requires Ownership.Orderly(c, s) && m < |s.db.messages| && s.db.messages[m].row.status == Deferred
    requires s.workers[0].poller.Resting? && ReadyList(s.db, s.now, ready) && m !in ready && ready != []
    ensures CanAct(c, s, answers, m)
    decreases DeferredLeft(s), 0, 0
  {
    assert Ready(s.db, s.now, ready[0]);
    var list, mark := Poll(0, List(ready)), Poll(0, Mark);
    var t := Step(c, s, list).value;
    Ownership.OrderlyStep(c, s, list, t);
    var u := Step(c, t, mark).value;
    Ownership.OrderlyStep(c, t, mark, u);
    PollerDefersNone(c, t, mark, u);
    ByDeferral(c, u, answers, m);
    ActsLater(c, t, answers, mark, m);
    ActsLater(c, s, answers, list, m);
  }

  /**
   Nothing gets stuck. In every reachable state a message that is neither finished nor stranded by a lost
   XADD can be moved along: there is a continuation without faults whose last step acts on it, whatever
   the limiter, the provider and the jitter answer on the way.
   */
  lemma ProgressIsPossible(c: Config, s: State, acts: seq<Action>, t: State, answers: Answers, m: MessageId)
    requires Reaches(c, s, acts, t) && |s.workers| == 1 && m < |t.db.messages|
    requires !Terminal(t.db.messages[m].row.status) && !Stranded.OutOfSight(t, m)
    ensures CanAct(c, t, answers, m)
  {
    Ownership.OrderlyAlways(c, s, acts, t);
    CanActFrom(c, t, answers, m);
  }

  lemma CanActFrom(c: Config, s: State, answers: Answers, m: MessageId)
    requires Ownership.Orderly(c, s) && m < |s.db.messages|
    requires !Terminal(s.db.messages[m].row.status) && !Stranded.OutOfSight(s, m)
    ensures CanAct(c, s, answers, m)
  {
    if s.db.messages[m].row.status == Deferred { ByDeferral(c, s, answers, m); }
    else if m in s.adding { ActsNow(c, s, answers, World(HandlerAdd(m)), m); }
    else if Mentions(s.workers[0].poller, m) { ByPoller(c, s, answers, m); }
    else if RunningOn(s, 0, m) { ByRun(c, s, answers, m); }
    else if e: EntryId :| Unacked(s, e, m) { ByEntry(c, s, answers, e, m); }
    else { NothingHeld(s, m); }
  }

  // From one step to the end.

  ghost predicate Done(s: State, m: MessageId, kept: bool) {
    m < |s.db.messages| && (Terminal(s.db.messages[m].row.status) || (!kept && Stranded.OutOfSight(s, m)))
  }

  /** A schedule without faults at whose end m is done, or whose last step holds m back. */
  ghost predicate Concludes(c: Config, s: State, answers: Answers, more: seq<Action>, m: MessageId, kept: bool)
    decreases |more|
  {
    if more == [] then Done(s, m, kept)
    else
      && Allows(c, s, answers, more[0])
      && (|| (|more| == 1 && HoldsBack(s, more[0], m))
          || Concludes(c, Step(c, s, more[0]).value, answers, more[1..], m, kept))
  }

  ghost predicate CanConclude(c: Config, s: State, answers: Answers, m: MessageId, kept: bool) {
    exists more :: Concludes(c, s, answers, more, m, kept)
  }

  lemma ConcludesLater(c: Config, s: State, answers: Answers, a: Action, m: MessageId, kept: bool)
    requires Allows(c, s, answers, a) && CanConclude(c, Step(c, s, a).value, answers, m, kept)
    ensures CanConclude(c, s, answers, m, kept)
  {
    var more :| Concludes(c, Step(c, s, a).value, answers, more, m, kept);
    assert ([a] + more)[1..] == more;
    assert Concludes(c, s, answers, [a] + more, m, kept);
  }

  lemma NoFaultNoted(c: Config, s: State, a: Action, t: State)
    requires Step(c, s, a) == Some(t) && !IsFault(a)
    ensures t.hist.faults == s.hist.faults
  {
  }

  /** Without faults a message stays in hand, and its potential falls with every step on it but a hold. */
  lemma StepTowardsEnd(c: Config, s: State, a: Action, m: MessageId)
    requires Ownership.Orderly(c, s) && m < |s.db.messages| && Step(c, s, a).Some? && !IsFault(a)
    ensures var t := Step(c, s, a).value;
            && Ownership.Orderly(c, t) && m < |t.db.messages| && t.hist.faults == s.hist.faults
            && (InHand(s, m) ==> InHand(t, m))
            && Pays(c, s, a, t, m, s.hist.faults)
  {
    var t := Step(c, s, a).value;
    Ownership.OrderlyStep(c, s, a, t);
    NoFaultNoted(c, s, a, t);
    PaysStep(c, s, a, t, m, s.hist.faults);
    if InHand(s, m) {
      DropsExactly(c, s, a, t, m);
      if Drops(s, a, m) { OneWorkerDropsOnlyLostAdds(c, s, a, t, m); }
    } else {
      MessagesStay(c, s, a, t);
    }
  }

  lemma MessagesStay(c: Config, s: State, a: Action, t: State)
    requires Step(c, s, a) == Some(t)
    ensures |s.db.messages| <= |t.db.messages|
  {
    match a
    case World(e) => WorldShape(s, e, t);
    case Poll(w, k) => PollerShape(s, w, k, t);
    case Consume(w, d) => Ownership.ConsumeAddsNone(c, s, w, d, t);
  }

  function Budget(c: Config, s: State, m: MessageId): int
    requires |s.workers| == 1
  {
    Potential(c, s, m, s.hist.faults)
  }

  lemma BudgetIsThere(c: Config, s: State, m: MessageId)
    requires Ownership.Orderly(c, s) && m < |s.db.messages|
    ensures Budget(c, s, m) >= 0
  {
    WorkRemains(c, s, m);
    assert Single.Allowed(c, s, m);
  }

  lemma {:induction false} ConcludeFrom(c: Config, s: State, answers: Answers, m: MessageId, kept: bool)
    requires Ownership.Orderly(c, s) && m < |s.db.messages| && (kept ==> InHand(s, m))
    ensures CanConclude(c, s, answers, m, kept)
    decreases Budget(c, s, m)
  {
    if Done(s, m, kept) {
      assert Concludes(c, s, answers, [], m, kept);
    } else {
      if Stranded.OutOfSight(s, m) { Stranded.OutOfSightIsOutOfHand(s, m); }
      CanActFrom(c, s, answers, m);
      var more :| Leads(c, s, answers, more, m);
      ConcludeAlong(c, s, answers, more, m, kept);
    }
  }

  lemma {:induction false} ConcludeAlong(c: Config, s: State, answers: Answers, more: seq<Action>, m: MessageId,
                                         kept: bool)
    requires Ownership.Orderly(c, s) && m < |s.db.messages| && (kept ==> InHand(s, m))
    requires Leads(c, s, answers, more, m)
    ensures CanConclude(c, s, answers, m, kept)
    decreases Budget(c, s, m), |more|
  {
    var a := more[0];
    if HoldsBack(s, a, m) {
      assert Concludes(c, s, answers, [a], m, kept);
    } else {
      var t := Step(c, s, a).value;
      StepTowardsEnd(c, s, a, m);
      BudgetIsThere(c, s, m);
      BudgetIsThere(c, t, m);
      if |more| == 1 { ConcludeFrom(c, t, answers, m, kept); }
      else { ConcludeAlong(c, t, answers, more[1..], m, kept); }
      ConcludesLater(c, s, answers, a, m, kept);
    }
  }

  /**
   Every message can be finished. From every reachable state there is a continuation without faults,
   whatever the limiter, the provider and the jitter answer on the way, at whose end the message is
   finished, unless a cap or rate limit holds it back; a message not in hand may turn out to be stranded.
   */
  lemma EveryMessageCanFinish(c: Config, s: State, acts: seq<Action>, t: State, answers: Answers, m: MessageId)
    requires Reaches(c, s, acts, t) && |s.workers| == 1 && m < |t.db.messages|
    ensures CanConclude(c, t, answers, m, InHand(t, m))
  {
    Ownership.OrderlyAlways(c, s, acts, t);
    ConcludeFrom(c, t, answers, m, InHand(t, m));
  }
}
