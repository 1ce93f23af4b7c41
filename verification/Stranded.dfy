/** Any number of workers: which messages nobody will ever see to again, and how they come to be so. */
module Stranded {
  import opened Base
  import opened Counting
  import opened Tables
  import opened Engine
  import opened Shapes
  import opened Focus
  import opened NoLoss

  predicate HoldsEntryOf(s: State, x: Worker, m: MessageId) {
    exists e :: e in x.batch && e < |s.q.entries| && s.q.entries[e].msg == m
  }

  predicate Touches(s: State, x: Worker, m: MessageId) {
    Mentions(x.poller, m) || OpenRun(x, m) || HoldsEntryOf(s, x, m)
  }

  /**
   No poller will list m, no XADD of it is to come, its entries are all acked, and no worker holds one,
   lists it or runs it, but for runs that have only their log and ack left.
   */
  predicate OutOfSight(s: State, m: MessageId) {
    && m < |s.db.messages| && s.db.messages[m].row.status != Deferred && m !in s.adding
    && (forall w :: 0 <= w < |s.workers| ==> !Touches(s, s.workers[w], m))
    && (forall e :: 0 <= e < |s.q.entries| && s.q.entries[e].msg == m ==> s.q.entries[e].acked && e < s.q.cursor)
  }

  predicate NoRunOn(s: State, m: MessageId) { forall w: nat :: w < |s.workers| ==> !RunningOn(s, w, m) }

  /** The row of m is as it was, and so is its log unless a run was finishing it. */
  predicate Untouched(s: State, t: State, m: MessageId) {
    && m < |s.db.messages| && m < |t.db.messages|
    && t.db.messages[m].mail == s.db.messages[m].mail && t.db.messages[m].row == s.db.messages[m].row
    && (NoRunOn(s, m) ==> NoRunOn(t, m) && t.db.messages[m].log == s.db.messages[m].log)
  }

  lemma StuckWorld(s: State, e: WorldAction, t: State, m: MessageId)
    requires OutOfSight(s, m) && WorldStep(s, e) == Some(t)
    ensures OutOfSight(t, m) && Untouched(s, t, m)
  {
    forall w | 0 <= w < |t.workers| ensures !Touches(t, t.workers[w], m) { assert !Touches(s, s.workers[w], m); }
    forall w: nat | RunningOn(t, w, m) ensures RunningOn(s, w, m) {}
  }

  lemma StuckPoller(s: State, w: nat, k: PollerAction, t: State, m: MessageId)
    requires OutOfSight(s, m) && PollerStep(s, w, k) == Some(t)
    ensures OutOfSight(t, m) && Untouched(s, t, m)
  {
    PollerShape(s, w, k, t);
    assert !Touches(s, s.workers[w], m);
    forall v | 0 <= v < |t.workers| ensures !Touches(t, t.workers[v], m) { assert !Touches(s, s.workers[v], m); }
    forall v: nat | RunningOn(t, v, m) ensures RunningOn(s, v, m) {}
  }

  lemma StuckWork(c: Config, s: State, w: nat, i: Input, t: State, m: MessageId)
    requires OutOfSight(s, m) && WorkStep(c, s, w, i) == Some(t)
    ensures OutOfSight(t, m) && Untouched(s, t, m)
  {
    WorkShape(c, s, w, i, t);
    assert !Touches(s, s.workers[w], m) && (NoRunOn(s, m) ==> !RunningOn(s, w, m));
    if Writes(c, s, w, i, t) {
      if s.workers[w].run.value.pc.AtRecord? { RecordShape(c, s, w, i, t); } else { PlainShape(c, s, w, i, t); }
    }
    forall v | 0 <= v < |t.workers| ensures !Touches(t, t.workers[v], m) { assert !Touches(s, s.workers[v], m); }
    forall v: nat | RunningOn(t, v, m) ensures RunningOn(s, v, m) {}
  }

  /** What is taken up is none of its entries: they are all delivered and acked. */
  lemma StuckTaking(c: Config, s: State, w: nat, d: ConsumerAction, t: State, m: MessageId)
    requires OutOfSight(s, m) && ConsumerStep(c, s, w, d) == Some(t) && (d.ReadStream? || d.ReclaimIdle? || d.Start?)
    ensures OutOfSight(t, m) && Untouched(s, t, m)
  {
    TakingShape(c, s, w, d, t);
    assert !Touches(s, s.workers[w], m);
    assert !HoldsEntryOf(s, t.workers[w], m);
    forall v | 0 <= v < |t.workers| ensures !Touches(t, t.workers[v], m) { assert !Touches(s, s.workers[v], m); }
    forall v: nat | RunningOn(t, v, m) ensures RunningOn(s, v, m) {}
  }

  lemma StuckQuiet(c: Config, s: State, w: nat, d: ConsumerAction, t: State, m: MessageId)
    requires OutOfSight(s, m) && ConsumerStep(c, s, w, d) == Some(t) && !d.Work?
    requires !d.ReadStream? && !d.ReclaimIdle? && !d.Start?
    ensures OutOfSight(t, m) && Untouched(s, t, m)
  {
    assert !Touches(s, s.workers[w], m);
    assert t.q == s.q && t.db == s.db && t.adding == s.adding && SameOthers(s, w, t);
    forall v | 0 <= v < |t.workers| ensures !Touches(t, t.workers[v], m) { assert !Touches(s, s.workers[v], m); }
    forall v: nat | RunningOn(t, v, m) ensures RunningOn(s, v, m) {}
  }

  lemma StuckConsume(c: Config, s: State, w: nat, d: ConsumerAction, t: State, m: MessageId)
    requires OutOfSight(s, m) && ConsumerStep(c, s, w, d) == Some(t)
    ensures OutOfSight(t, m) && Untouched(s, t, m)
  {
    if d.Work? { StuckWork(c, s, w, d.input, t, m); }
    else if d.ReadStream? || d.ReclaimIdle? || d.Start? { StuckTaking(c, s, w, d, t, m); }
    else { StuckQuiet(c, s, w, d, t, m); }
  }

  /**
   The poller does not save it: whatever happens next, however often workers restart and pollers poll,
   a message out of everybody's sight keeps its row, and its log once no run is finishing it.
   */
  lemma {:induction false} StrandedForGood(c: Config, s: State, acts: seq<Action>, t: State, m: MessageId)
    requires OutOfSight(s, m) && Exec(c, s, acts) == Some(t)
    ensures OutOfSight(t, m) && Untouched(s, t, m)
    decreases |acts|
  {
    if acts != [] {
      var u := Exec(c, s, acts[..|acts| - 1]).value;
      StrandedForGood(c, s, acts[..|acts| - 1], u, m);
      match acts[|acts| - 1]
      case World(e) => StuckWorld(u, e, t, m);
      case Poll(w, k) => StuckPoller(u, w, k, t, m);
      case Consume(w, d) => StuckConsume(c, u, w, d, t, m);
    }
  }

  lemma OutOfSightIsOutOfHand(s: State, m: MessageId)
    requires OutOfSight(s, m) && !Terminal(s.db.messages[m].row.status)
    ensures !InHand(s, m)
  {
    forall w: nat | w < |s.workers| ensures !PollerOwes(s, w, m) && !OpenOn(s, w, m) {
      assert !Touches(s, s.workers[w], m);
    }
  }

  // The converse: whatever is not out of sight can come to hand again.

  ghost predicate Recoverable(c: Config, s: State, m: MessageId) {
    exists more ::
      Exec(c, s, more).Some? && m < |Exec(c, s, more).value.db.messages| && InHand(Exec(c, s, more).value, m)
  }

  lemma RecoveredNow(c: Config, s: State, m: MessageId)
    requires m < |s.db.messages| && InHand(s, m)
    ensures Recoverable(c, s, m)
  {
    assert Exec(c, s, []) == Some(s);
  }

  lemma RecoveredLater(c: Config, s: State, a: Action, t: State, m: MessageId)
    requires Step(c, s, a) == Some(t) && Recoverable(c, t, m)
    ensures Recoverable(c, s, m)
  {
    var more :| Exec(c, t, more).Some? && m < |Exec(c, t, more).value.db.messages| && InHand(Exec(c, t, more).value, m);
    ExecFirst(c, s, a, t, more);
    assert Exec(c, s, [a] + more) == Exec(c, t, more);
  }

  /** How much a poller still has to do. */
  function ListLeft(p: PollerState): nat {
    match p
    case Resting => 0
    case Marking(ready) => 2 * |ready|
    case Adding(_, rest) => 2 * |rest| + 1
  }

  /** A poller with m on its list comes to owe it an XADD. */
  lemma {:induction false} RecoveredByPoller(c: Config, s: State, w: nat, m: MessageId)
    requires Structure(s) && w < |s.workers| && m < |s.db.messages| && Mentions(s.workers[w].poller, m)
    ensures Recoverable(c, s, m)
    decreases ListLeft(s.workers[w].poller)
  {
    var p := s.workers[w].poller;
    assert PollerIsSound(s, p);
    if p.Adding? && p.msg == m {
      assert PollerOwes(s, w, m);
      RecoveredNow(c, s, m);
    } else {
      var a := Poll(w, if p.Adding? then Add else Mark);
      var t := Step(c, s, a).value;
      StructureStep(c, s, a, t);
      RecoveredByPoller(c, t, w, m);
      RecoveredLater(c, s, a, t, m);
    }
  }

  /** A held entry is started once the run before it has ended. */
  lemma RecoveredByStart(c: Config, s: State, w: nat, e: EntryId, m: MessageId)
    requires w < |s.workers| && s.workers[w].run.None? && e in s.workers[w].batch
    requires e < |s.q.entries| && s.q.entries[e].msg == m < |s.db.messages|
    ensures Recoverable(c, s, m)
  {
    var t := StartStep(s, w, e).value;
    assert OpenOn(t, w, m);
    RecoveredNow(c, t, m);
    RecoveredLater(c, s, Consume(w, Start(e)), t, m);
  }

  lemma RecoveredByBatch(c: Config, s: State, w: nat, e: EntryId, m: MessageId)
    requires w < |s.workers| && e in s.workers[w].batch && e < |s.q.entries|
    requires s.q.entries[e].msg == m < |s.db.messages|
    ensures Recoverable(c, s, m)
    decreases if s.workers[w].run.None? then 0 else if s.workers[w].run.value.pc.AtRoute? then 2 else 1
  {
    if s.workers[w].run.None? {
      RecoveredByStart(c, s, w, e, m);
    } else {
      var a := Consume(w, if s.workers[w].run.value.pc.AtRoute? then RouteError else Fail);
      var t := Step(c, s, a).value;
      RecoveredByBatch(c, t, w, e, m);
      RecoveredLater(c, s, a, t, m);
    }
  }

  function Closer(e: EntryId): Worker -> bool {
    (x: Worker) => x.run.Some? && x.run.value.entry == e && Closing(x.run.value.pc)
  }

  /** An un-acked entry covers its message again once the runs closing on it have failed. */
  lemma {:induction false} RecoveredByEntry(c: Config, s: State, e: EntryId, m: MessageId)
    requires m < |s.db.messages| && Unacked(s, e, m)
    ensures Recoverable(c, s, m)
    decreases Count(s.workers, Closer(e))
  {
    if w: nat :| ClosingOn(s, w, e) {
      var t := FailStep(s, w).value;
      CountUpdate(s.workers, w, t.workers[w], Closer(e));
      RecoveredByEntry(c, t, e, m);
      RecoveredLater(c, s, Consume(w, Fail), t, m);
    } else {
      assert Covers(s, e, m);
      RecoveredNow(c, s, m);
    }
  }

  lemma RecoveredUnlessStranded(c: Config, s: State, m: MessageId)
    requires Structure(s) && m < |s.db.messages| && !OutOfSight(s, m)
    ensures Recoverable(c, s, m)
  {
    if InHand(s, m) {
      RecoveredNow(c, s, m);
    } else if w :| 0 <= w < |s.workers| && Touches(s, s.workers[w], m) {
      assert !OpenOn(s, w, m);
      if Mentions(s.workers[w].poller, m) {
        RecoveredByPoller(c, s, w, m);
      } else {
        var e :| e in s.workers[w].batch && e < |s.q.entries| && s.q.entries[e].msg == m;
        RecoveredByBatch(c, s, w, e, m);
      }
    } else {
      var e :| 0 <= e < |s.q.entries| && s.q.entries[e].msg == m && !(s.q.entries[e].acked && e < s.q.cursor);
      RecoveredByEntry(c, s, e, m);
    }
  }

  /**
   Exactly when an unfinished message is stranded: it is out of sight if and only if no continuation
   whatever, with failures and crashes or without, has it in hand again.
   */
  lemma StrandedExactly(c: Config, s: State, acts: seq<Action>, t: State, m: MessageId)
    requires Reaches(c, s, acts, t) && m < |t.db.messages| && !Terminal(t.db.messages[m].row.status)
    ensures OutOfSight(t, m) <==> !Recoverable(c, t, m)
  {
    StructureAlways(c, s, acts, t);
    if !OutOfSight(t, m) {
      RecoveredUnlessStranded(c, t, m);
    } else {
      forall more | Exec(c, t, more).Some?
        ensures m < |Exec(c, t, more).value.db.messages| && !InHand(Exec(c, t, more).value, m) {
        StrandedForGood(c, t, more, Exec(c, t, more).value, m);
        OutOfSightIsOutOfHand(Exec(c, t, more).value, m);
      }
    }
  }

  // Lost XADDs.

  /** While a handler has yet to add m, nobody else knows of it. */
  predicate Unheard(s: State, m: MessageId) {
    m in s.adding ==>
      && m < |s.db.messages| && s.db.messages[m].row == NO_ROW
      && (forall e :: 0 <= e < |s.q.entries| ==> s.q.entries[e].msg != m)
      && (forall w :: 0 <= w < |s.workers| ==>
            !Mentions(s.workers[w].poller, m) && (s.workers[w].run.Some? ==> s.workers[w].run.value.msg != m))
  }

  lemma UnheardAccept(c: Config, s: State, mail: Mail)
    requires Structure(s)
    ensures Unheard(AcceptStep(s, mail), |s.db.messages|)
  {
    forall w | 0 <= w < |s.workers|
      ensures !Mentions(s.workers[w].poller, |s.db.messages|)
      ensures s.workers[w].run.Some? ==> s.workers[w].run.value.msg != |s.db.messages| {
      assert PollerIsSound(s, s.workers[w].poller);
      if Running(s, w) { assert RunIsSound(s, s.workers[w]); }
    }
  }

  lemma UnheardPoller(s: State, w: nat, k: PollerAction, t: State, m: MessageId)
    requires Unheard(s, m) && PollerStep(s, w, k) == Some(t)
    ensures Unheard(t, m)
  {
    PollerShape(s, w, k, t);
    if m in s.adding && k.List? { assert !Ready(s.db, s.now, m); }
  }

  lemma UnheardQuiet(c: Config, s: State, w: nat, d: ConsumerAction, t: State, m: MessageId)
    requires Unheard(s, m) && ConsumerStep(c, s, w, d) == Some(t) && !d.Work?
    ensures Unheard(t, m)
  {
    QuietShape(c, s, w, d, t);
  }

  lemma UnheardStep(c: Config, s: State, a: Action, t: State, m: MessageId)
    requires Structure(s) && Unheard(s, m) && Step(c, s, a) == Some(t)
    ensures Unheard(t, m)
  {
    match a
    case World(e) => if e.Accept? && m == |s.db.messages| { UnheardAccept(c, s, e.mail); }
    case Poll(w, k) => UnheardPoller(s, w, k, t, m);
    case Consume(w, d) => if d.Work? { UnheardWork(c, s, w, d.input, t, m); } else { UnheardQuiet(c, s, w, d, t, m); }
  }

  lemma UnheardWork(c: Config, s: State, w: nat, i: Input, t: State, m: MessageId)
    requires Unheard(s, m) && WorkStep(c, s, w, i) == Some(t)
    ensures Unheard(t, m)
  {
    WorkShape(c, s, w, i, t);
    if Writes(c, s, w, i, t) {
      if s.workers[w].run.value.pc.AtRecord? { RecordShape(c, s, w, i, t); } else { PlainShape(c, s, w, i, t); }
    }
  }

  lemma {:induction false} UnheardAlways(c: Config, s: State, acts: seq<Action>, t: State, m: MessageId)
    requires Reaches(c, s, acts, t)
    ensures Unheard(t, m)
    decreases |acts|
  {
    if acts != [] {
      var u := Exec(c, s, acts[..|acts| - 1]).value;
      UnheardAlways(c, s, acts[..|acts| - 1], u, m);
      StructureAlways(c, s, acts[..|acts| - 1], u);
      UnheardStep(c, u, acts[|acts| - 1], t, m);
    }
  }

  /**
   A message whose first XADD fails is stranded, always: for any number of workers and whatever has
   happened to other messages, from then on its row says queued and nothing touches it again.
   */
  lemma FailedFirstAddStrands(c: Config, s: State, before: seq<Action>, t: State, m: MessageId, u: State,
                              after: seq<Action>, v: State)
    requires Reaches(c, s, before, t) && Step(c, t, World(HandlerDrop(m))) == Some(u) && Exec(c, u, after) == Some(v)
    ensures OutOfSight(u, m) && OutOfSight(v, m) && !InHand(v, m)
    ensures v.db.messages[m] == t.db.messages[m] && v.db.messages[m].row == NO_ROW
  {
    UnheardAlways(c, s, before, t, m);
    StructureAlways(c, s, before, t);
    assert NoRunOn(u, m);
    StrandedForGood(c, u, after, v, m);
    OutOfSightIsOutOfHand(v, m);
  }

  /** What of worker v stays with m when action a has cost worker w its XADD of m. */
  predicate StillTouches(s: State, w: nat, a: Action, v: nat, m: MessageId)
    requires v < |s.workers|
  {
    var x := s.workers[v];
    if v != w then Touches(s, x, m)
    else a == Poll(w, AddFail) && ((x.poller.Adding? && m in x.poller.rest) || OpenRun(x, m) || HoldsEntryOf(s, x, m))
  }

  /**
   A message whose XADD the poller loses is stranded exactly when no other un-acked entry of it exists,
   no other process runs it, holds an entry of it or lists it, and its row is not deferred again.
   */
  lemma LostPollerAddStrandsExactly(c: Config, s: State, acts: seq<Action>, t: State, w: nat, a: Action, u: State,
                                    m: MessageId)
    requires Reaches(c, s, acts, t) && PollerOwes(t, w, m) && (a == Poll(w, AddFail) || a == Consume(w, Crash))
    requires Step(c, t, a) == Some(u)
    ensures m < |t.db.messages|
    ensures OutOfSight(u, m) <==>
              && t.db.messages[m].row.status != Deferred && (forall e: EntryId :: !Unacked(t, e, m))
              && (forall v: nat :: v < |t.workers| ==> !StillTouches(t, w, a, v, m))
  {
    StructureAlways(c, s, acts, t);
    UnheardAlways(c, s, acts, t, m);
    assert PollerIsSound(t, t.workers[w].poller);
    assert u.q == t.q && u.db.messages == t.db.messages && u.adding == t.adding && |u.workers| == |t.workers|;
    forall v: nat | v < |t.workers| ensures Touches(u, u.workers[v], m) <==> StillTouches(t, w, a, v, m) {}
    forall e | 0 <= e < |t.q.entries| && t.q.entries[e].msg == m
      ensures Unacked(t, e, m) <==> !(t.q.entries[e].acked && e < t.q.cursor) {}
  }
}
