/** One worker: a message that no fault hits has exactly one owner, and is never sent early. */
module Ownership {
  import opened Base
  import opened Tables
  import opened Engine
  import opened Shapes
  import opened Focus
  import opened NoLoss
  import Single
  import Knowledge
  import Stranded

  /** A queued row's old appointment, if it had one, has passed; the reserved status is never used. */
  predicate Due(row: Row, now: Time) {
    row.status != Throttled && (row.status == Queued && row.next.Some? ==> row.next.value <= now)
  }

  /** How the row of m and what is on its way to it go together. */
  ghost predicate Owned(s: State, m: MessageId)
    requires |s.workers| == 1 && m < |s.db.messages|
  {
    var row := s.db.messages[m].row;
    && (Owes(s.workers[0].poller, m) ==> row.status == Queued && forall e: EntryId :: !Covers(s, e, m))
    && (forall e: EntryId :: Covers(s, e, m) ==> !Settled(row.status))
    && (forall d: EntryId, e: EntryId :: Covers(s, d, m) && Covers(s, e, m) ==> d == e)
    && (OnList(s.workers[0].poller, m) ==> Ready(s.db, s.now, m))
    && Due(row, s.now)
    && (row.status == Sending ==> RunningOn(s, 0, m) && InFlight(s.workers[0].run.value.pc))
  }

  /** What holds of every message, whatever faults hit it. */
  ghost predicate Orderly(c: Config, s: State) {
    && |s.workers| == 1 && Structure(s) && Exclusive(s) && Single.Sound(c, s) && TidyPoller(s.workers[0].poller)
  }

  /** What holds of a message that no fault has hit. */
  ghost predicate Clean(c: Config, s: State, m: MessageId) {
    && Orderly(c, s) && Stranded.Unheard(s, m)
    && (m < |s.db.messages| ==> InHand(s, m) && Owned(s, m))
  }

  lemma TidyStep(c: Config, s: State, a: Action, t: State)
    requires |s.workers| == 1 && TidyPoller(s.workers[0].poller) && Step(c, s, a) == Some(t)
    ensures |t.workers| == 1 && TidyPoller(t.workers[0].poller)
  {
    SameWorkerCount(c, s, a, t);
    match a
    case World(e) => WorldShape(s, e, t);
    case Poll(w, k) => if HasHead(s, 0) { AfterHead(s.workers[0].poller.ready, s.workers[0].poller.ready[0]); }
    case Consume(w, d) =>
      if d.Work? { WorkShape(c, s, w, d.input, t); } else { QuietShape(c, s, w, d, t); }
  }

  lemma OrderlyStep(c: Config, s: State, a: Action, t: State)
    requires Orderly(c, s) && Step(c, s, a) == Some(t)
    ensures Orderly(c, t)
  {
    OneWorkerStep(c, s, a, t);
    Single.SoundStep(c, s, a, t);
    TidyStep(c, s, a, t);
  }

  lemma {:induction false} OrderlyAlways(c: Config, s: State, acts: seq<Action>, t: State)
    requires Reaches(c, s, acts, t) && |s.workers| == 1
    ensures Orderly(c, t)
    decreases |acts|
  {
    if acts != [] {
      var u := Exec(c, s, acts[..|acts| - 1]).value;
      OrderlyAlways(c, s, acts[..|acts| - 1], u);
      OrderlyStep(c, u, acts[|acts| - 1], t);
    }
  }

  /** Where no run has stopped closing on an entry of m and none was un-acked, cover is nothing new. */
  lemma CoverIsOld(s: State, t: State, d: EntryId, m: MessageId)
    requires d < |s.q.entries| <= |t.q.entries| && Covers(t, d, m)
    requires t.q.entries[d].msg == s.q.entries[d].msg && (s.q.entries[d].acked ==> t.q.entries[d].acked)
    requires forall w: nat :: ClosingOn(s, w, d) ==> ClosingOn(t, w, d)
    ensures Covers(s, d, m)
  {
    forall w: nat ensures !ClosingOn(s, w, d) { assert !ClosingOn(t, w, d); }
  }

  /** Nothing that concerns m moves: time may pass and other messages be seen to. */
  lemma OwnedStill(s: State, t: State, m: MessageId)
    requires |s.workers| == 1 == |t.workers| && m < |s.db.messages| && m < |t.db.messages| && Owned(s, m)
    requires t.db.messages[m].row == s.db.messages[m].row && s.now <= t.now
    requires Owes(t.workers[0].poller, m) ==> Owes(s.workers[0].poller, m)
    requires OnList(t.workers[0].poller, m) ==> OnList(s.workers[0].poller, m)
    requires forall e: EntryId :: Covers(t, e, m) ==> Covers(s, e, m)
    requires s.db.messages[m].row.status == Sending ==> RunningOn(t, 0, m) && InFlight(t.workers[0].run.value.pc)
    ensures Owned(t, m)
  {
  }

  /** A message that gains an entry loses the owner that added it. */
  lemma OwnedAdd(c: Config, s: State, t: State, m: MessageId, source: Source)
    requires Clean(c, s, m) && m < |s.db.messages| && |t.workers| == 1 && t.db == s.db && t.now == s.now
    requires t.q == Enqueue(s.q, m, source) && t.workers[0].run == s.workers[0].run
    requires || (m in s.adding && t.workers[0].poller == s.workers[0].poller)
             || (Owes(s.workers[0].poller, m) && t.workers[0].poller == Resume(s.workers[0].poller.rest))
    ensures Owned(t, m)
  {
    forall d: EntryId | Covers(t, d, m) ensures d == |s.q.entries| {
      if d < |s.q.entries| { CoverIsOld(s, t, d, m); }
    }
  }

  lemma OwnedWorld(c: Config, s: State, e: WorldAction, t: State, m: MessageId)
    requires Clean(c, s, m) && WorldStep(s, e) == Some(t) && m < |t.db.messages| && !FaultHits(s, World(e), m)
    ensures Owned(t, m)
  {
    WorldShape(s, e, t);
    if m == |s.db.messages| { OwnedNew(c, s, t, m); }
    else if e.HandlerAdd? && e.m == m { OwnedAdd(c, s, t, m, Handler); }
    else {
      forall d: EntryId | Covers(t, d, m) ensures Covers(s, d, m) {
        if d < |s.q.entries| { CoverIsOld(s, t, d, m); }
      }
      OwnedStill(s, t, m);
    }
  }

  lemma OwnedNew(c: Config, s: State, t: State, m: MessageId)
    requires Orderly(c, s) && m >= |s.db.messages| && m < |t.db.messages| && t.workers == s.workers && t.q == s.q
    requires t.db.messages[m].row == NO_ROW
    ensures Owned(t, m)
  {
    assert PollerIsSound(s, s.workers[0].poller);
    forall e: EntryId ensures !Unacked(t, e, m) {}
  }

  lemma OwnedMark(c: Config, s: State, t: State, m: MessageId)
    requires Clean(c, s, m) && m < |s.db.messages| && MarkStep(s, 0) == Some(t)
    ensures |t.workers| == 1 && m < |t.db.messages| && Owned(t, m)
  {
    var ready := s.workers[0].poller.ready;
    AfterHead(ready, m);
    forall e: EntryId | Covers(t, e, m) ensures Covers(s, e, m) { CoverIsOld(s, t, e, m); }
    if m == ready[0] { assert OnList(s.workers[0].poller, m); } else { OwnedStill(s, t, m); }
  }

  lemma OwnedPoller(c: Config, s: State, w: nat, k: PollerAction, t: State, m: MessageId)
    requires Clean(c, s, m) && PollerStep(s, w, k) == Some(t) && m < |s.db.messages| && !FaultHits(s, Poll(w, k), m)
    ensures |t.workers| == 1 && m < |t.db.messages| && Owned(t, m)
  {
    if k.Mark? { OwnedMark(c, s, t, m); }
    else if k.Add? && Owes(s.workers[0].poller, m) { OwnedAdd(c, s, t, m, Poller); }
    else {
      PollerShape(s, w, k, t);
      if k.MarkFail? { AfterHead(s.workers[0].poller.ready, m); }
      forall e: EntryId | Covers(t, e, m) ensures Covers(s, e, m) {
        if e < |s.q.entries| { CoverIsOld(s, t, e, m); }
      }
      if k.List? && m in k.ready { OwnedListed(s, k.ready, t, m); } else { OwnedStill(s, t, m); }
    }
  }

  lemma OwnedListed(s: State, ready: seq<MessageId>, t: State, m: MessageId)
    requires |s.workers| == 1 && m < |s.db.messages| && ListStep(s, 0, ready) == Some(t) && m in ready && Owned(s, m)
    requires forall e: EntryId :: Covers(t, e, m) ==> Covers(s, e, m)
    ensures |t.workers| == 1 && Owned(t, m)
  {
    var i :| 0 <= i < |ready| && ready[i] == m;
    assert Ready(s.db, s.now, ready[i]);
  }

  /** A live entry is being run: its message is queued or sending, so the load goes on and is never skipped. */
  lemma LoadGoesOn(c: Config, s: State, m: MessageId)
    requires Clean(c, s, m) && RunningOn(s, 0, m) && s.workers[0].run.value.pc.AtLoad?
    ensures m < |s.db.messages| && s.db.messages[m].row.status == Queued && !Locked(s, 0, m)
  {
    assert RunIsSound(s, s.workers[0]);
    OpenRunCovers(s, 0);
    assert Due(s.db.messages[m].row, s.now);
  }

  /** The worker runs, fails or takes up something else. */
  lemma OwnedElsewhere(c: Config, s: State, w: nat, d: ConsumerAction, t: State, m: MessageId)
    requires Clean(c, s, m) && ConsumerStep(c, s, w, d) == Some(t) && m < |s.db.messages|
    requires !ActsOn(s, Consume(w, d), m)
    ensures |t.workers| == 1 && m < |t.db.messages| && Owned(t, m)
  {
    if d.Work? { WorkShape(c, s, w, d.input, t); } else { QuietShape(c, s, w, d, t); }
    EntriesAsTheyWere(c, s, w, d, t, m);
    forall e: EntryId | Covers(t, e, m) ensures Covers(s, e, m) { CoverIsOld(s, t, e, m); }
    OwnedStill(s, t, m);
  }

  lemma EntriesAsTheyWere(c: Config, s: State, w: nat, d: ConsumerAction, t: State, m: MessageId)
    requires Orderly(c, s) && ConsumerStep(c, s, w, d) == Some(t) && !ActsOn(s, Consume(w, d), m)
    ensures |t.q.entries| == |s.q.entries|
    ensures forall e :: 0 <= e < |s.q.entries| ==>
              t.q.entries[e].msg == s.q.entries[e].msg && (s.q.entries[e].acked ==> t.q.entries[e].acked)
    ensures forall v: nat, e: EntryId :: e < |s.q.entries| && s.q.entries[e].msg == m ==> !ClosingOn(s, v, e)
  {
    if d.Work? { WorkShape(c, s, w, d.input, t); }
    forall v: nat, e: EntryId | e < |s.q.entries| && s.q.entries[e].msg == m ensures !ClosingOn(s, v, e) {
      if Running(s, v) { assert RunIsSound(s, s.workers[v]); }
    }
  }

  /** The run of m moves on without changing its row, or its ack takes its entry. */
  lemma OwnedMoves(c: Config, s: State, t: State, m: MessageId)
    requires Clean(c, s, m) && m < |s.db.messages| == |t.db.messages| && RunningOn(s, 0, m)
    requires SameOthers(s, 0, t) && t.workers[0].poller == s.workers[0].poller && t.now == s.now
    requires t.db.messages[m].row == s.db.messages[m].row
    requires || (&& t.q == s.q && t.workers[0].run.Some? && t.workers[0].run.value.msg == m
                 && t.workers[0].run.value.entry == s.workers[0].run.value.entry
                 && (Closing(s.workers[0].run.value.pc) ==> Closing(t.workers[0].run.value.pc))
                 && (InFlight(s.workers[0].run.value.pc) ==> InFlight(t.workers[0].run.value.pc)))
             || Acks(s, 0, t)
    ensures Owned(t, m)
  {
    forall e: EntryId | Covers(t, e, m) ensures Covers(s, e, m) {
      forall w: nat ensures !ClosingOn(s, w, e) { assert !ClosingOn(t, w, e); }
    }
    OwnedStill(s, t, m);
  }

  /** Its row changes: it is marked sending, or settled. */
  lemma OwnedRow(c: Config, s: State, t: State, m: MessageId)
    requires Clean(c, s, m) && m < |s.db.messages| == |t.db.messages| && OpenOn(s, 0, m)
    requires SameOthers(s, 0, t) && t.workers[0].poller == s.workers[0].poller && t.now == s.now && t.q == s.q
    requires RunningOn(t, 0, m) && t.workers[0].run.value.entry == s.workers[0].run.value.entry
    requires var row, pc := t.db.messages[m].row, t.workers[0].run.value.pc;
             (row.status == Sending && InFlight(pc)) || (Settled(row.status) && Closing(pc))
    ensures Owned(t, m)
  {
    OpenRunCovers(s, 0);
    forall e: EntryId | Covers(t, e, m)
      ensures e == s.workers[0].run.value.entry && !Closing(t.workers[0].run.value.pc) {
      forall w: nat ensures !ClosingOn(s, w, e) {}
      assert Covers(s, e, m) && !ClosingOn(t, 0, e);
    }
  }

  lemma OwnedWork(c: Config, s: State, i: Input, t: State, m: MessageId)
    requires Clean(c, s, m) && RunningOn(s, 0, m) && WorkStep(c, s, 0, i) == Some(t)
    ensures |t.workers| == 1 && m < |t.db.messages| && Owned(t, m)
  {
    WorkShape(c, s, 0, i, t);
    assert RunIsSound(s, s.workers[0]);
    if Writes(c, s, 0, i, t) { OwnedWrite(c, s, i, t, m); }
    else {
      if Loads(s, 0, t) { LoadGoesOn(c, s, m); }
      OwnedMoves(c, s, t, m);
    }
  }

  lemma OwnedWrite(c: Config, s: State, i: Input, t: State, m: MessageId)
    requires Clean(c, s, m) && RunningOn(s, 0, m) && Writes(c, s, 0, i, t)
    ensures |t.workers| == 1 && m < |t.db.messages| && Owned(t, m)
  {
    var r := s.workers[0].run.value;
    assert Single.Agrees(c, s, r);
    if r.pc.AtRecord? { RecordShape(c, s, 0, i, t); } else { PlainShape(c, s, 0, i, t); }
    if r.pc.AtMarkSending? || r.pc.AtSettle? { OwnedRow(c, s, t, m); } else { OwnedMoves(c, s, t, m); }
  }

  lemma OwnedStart(c: Config, s: State, w: nat, e: EntryId, t: State, m: MessageId)
    requires Clean(c, s, m) && m < |s.db.messages| && StartStep(s, w, e) == Some(t)
    ensures |t.workers| == 1 && m < |t.db.messages| && Owned(t, m)
  {
    forall d: EntryId | Covers(t, d, m) ensures Covers(s, d, m) { CoverIsOld(s, t, d, m); }
    OwnedStill(s, t, m);
  }

  lemma OwnedConsume(c: Config, s: State, w: nat, d: ConsumerAction, t: State, m: MessageId)
    requires Clean(c, s, m) && m < |s.db.messages| && ConsumerStep(c, s, w, d) == Some(t)
    requires !FaultHits(s, Consume(w, d), m)
    ensures |t.workers| == 1 && m < |t.db.messages| && Owned(t, m)
  {
    if !ActsOn(s, Consume(w, d), m) { OwnedElsewhere(c, s, w, d, t, m); }
    else if d.Start? { OwnedStart(c, s, w, d.e, t, m); }
    else if d.Work? { OwnedWork(c, s, d.input, t, m); }
    else {
      LoadGoesOn(c, s, m);
      assert false;
    }
  }

  lemma OwnedStep(c: Config, s: State, a: Action, t: State, m: MessageId)
    requires Clean(c, s, m) && Step(c, s, a) == Some(t) && !FaultHits(s, a, m) && m < |t.db.messages|
    ensures |t.workers| == 1 && Owned(t, m)
  {
    SameWorkerCount(c, s, a, t);
    match a
    case World(e) => OwnedWorld(c, s, e, t, m);
    case Poll(w, k) => PollerShape(s, w, k, t); OwnedPoller(c, s, w, k, t, m);
    case Consume(w, d) => ConsumeAddsNone(c, s, w, d, t); OwnedConsume(c, s, w, d, t, m);
  }

  lemma ConsumeAddsNone(c: Config, s: State, w: nat, d: ConsumerAction, t: State)
    requires ConsumerStep(c, s, w, d) == Some(t)
    ensures |t.db.messages| == |s.db.messages|
  {
    if d.Work? { WorkShape(c, s, w, d.input, t); } else { QuietShape(c, s, w, d, t); }
  }

  lemma InHandStep(c: Config, s: State, a: Action, t: State, m: MessageId)
    requires Clean(c, s, m) && Step(c, s, a) == Some(t) && !FaultHits(s, a, m) && m < |t.db.messages|
    ensures InHand(t, m)
  {
    if m >= |s.db.messages| { NewIsInHand(c, s, a, t, m); }
    else {
      DropsExactly(c, s, a, t, m);
      if Drops(s, a, m) { OneWorkerDropsOnlyLostAdds(c, s, a, t, m); }
    }
  }

  lemma CleanStep(c: Config, s: State, a: Action, t: State, m: MessageId)
    requires Clean(c, s, m) && Step(c, s, a) == Some(t) && !FaultHits(s, a, m)
    ensures Clean(c, t, m)
  {
    OrderlyStep(c, s, a, t);
    Stranded.UnheardStep(c, s, a, t, m);
    if m < |t.db.messages| {
      OwnedStep(c, s, a, t, m);
      InHandStep(c, s, a, t, m);
    }
  }

  lemma {:induction false} CleanAlways(c: Config, s: State, acts: seq<Action>, t: State, m: MessageId)
    requires Reaches(c, s, acts, t) && |s.workers| == 1 && Untroubled(c, s, acts, m)
    ensures Clean(c, t, m)
    decreases |acts|
  {
    OrderlyAlways(c, s, acts, t);
    if acts != [] {
      var u := Exec(c, s, acts[..|acts| - 1]).value;
      CleanAlways(c, s, acts[..|acts| - 1], u, m);
      CleanStep(c, u, acts[|acts| - 1], t, m);
    }
  }

  /** Who is responsible for a message: a pending XADD, one live entry, or its own row. */
  datatype Owner = TheHandler | ThePoller | AnEntry(e: EntryId) | TheRow

  ghost predicate Owns(s: State, m: MessageId, o: Owner)
    requires |s.workers| == 1 && m < |s.db.messages|
  {
    match o
    case TheHandler => m in s.adding
    case ThePoller => Owes(s.workers[0].poller, m)
    case AnEntry(e) => Covers(s, e, m)
    case TheRow => Settled(s.db.messages[m].row.status)
  }

  lemma OwnerOf(c: Config, s: State, m: MessageId) returns (o: Owner)
    requires Clean(c, s, m) && m < |s.db.messages|
    ensures Owns(s, m, o) && forall other :: Owns(s, m, other) ==> other == o
  {
    if Settled(s.db.messages[m].row.status) { o := TheRow; }
    else if m in s.adding { o := TheHandler; }
    else if Owes(s.workers[0].poller, m) { o := ThePoller; }
    else {
      forall w: nat ensures !PollerOwes(s, w, m) {}
      if OpenOn(s, 0, m) { OpenRunCovers(s, 0); }
      var e: EntryId :| Covers(s, e, m);
      o := AnEntry(e);
    }
  }

  /**
   A message that no fault hits, whatever faults hit others, is at every moment in exactly one place:
   awaiting its handler's XADD, awaiting the poller's, in one stream entry that has not been settled
   (waiting or being processed), deferred or finished. So it is never queued twice.
   */
  lemma ExactlyOneOwner(c: Config, s: State, acts: seq<Action>, t: State, m: MessageId)
    requires Reaches(c, s, acts, t) && |s.workers| == 1 && Untroubled(c, s, acts, m) && m < |t.db.messages|
    ensures |t.workers| == 1 && exists o :: Owns(t, m, o) && forall other :: Owns(t, m, other) ==> other == o
  {
    CleanAlways(c, s, acts, t, m);
    var o := OwnerOf(c, t, m);
  }

  /** Nor does any send of it start before the time its row was deferred to. */
  lemma NoEarlySend(c: Config, s: State, acts: seq<Action>, t: State, m: MessageId)
    requires Reaches(c, s, acts, t) && |s.workers| == 1 && Untroubled(c, s, acts, m)
    requires RunningOn(t, 0, m) && t.workers[0].run.value.pc.AtMarkSending?
    ensures m < |t.db.messages| && (t.db.messages[m].row.next.Some? ==> t.db.messages[m].row.next.value <= t.now)
  {
    CleanAlways(c, s, acts, t, m);
    assert RunIsSound(t, t.workers[0]);
    OpenRunCovers(t, 0);
    assert Due(t.db.messages[m].row, t.now);
  }

  // What the poller's two calls do for it.

  /** A mark turns its row from deferred to queued, and the poller then owes it an entry. */
  lemma MarkQueues(c: Config, s: State, acts: seq<Action>, t: State, m: MessageId, u: State)
    requires Reaches(c, s, acts, t) && |s.workers| == 1 && Untroubled(c, s, acts, m)
    requires HasHead(t, 0) && t.workers[0].poller.ready[0] == m && Step(c, t, Poll(0, Mark)) == Some(u)
    ensures m < |t.db.messages| == |u.db.messages| && Ready(t.db, t.now, m)
    ensures u.db.messages[m].row == t.db.messages[m].row.(status := Queued) && u.q == t.q
    ensures |u.workers| == 1 && Owes(u.workers[0].poller, m)
  {
    CleanAlways(c, s, acts, t, m);
    assert PollerIsSound(t, t.workers[0].poller);
    assert OnList(t.workers[0].poller, m);
  }

  /** However much happens in between, the row is still queued when the poller adds the entry. */
  lemma AddQueues(c: Config, s: State, acts: seq<Action>, t: State, m: MessageId, u: State)
    requires Reaches(c, s, acts, t) && |s.workers| == 1 && Untroubled(c, s, acts, m)
    requires |t.workers| == 1 && Owes(t.workers[0].poller, m) && Step(c, t, Poll(0, Add)) == Some(u)
    ensures m < |u.db.messages| && u.db.messages[m].row.status == Queued && u.db == t.db
    ensures u.q.entries == t.q.entries + [Entry(m, Poller, false, 0)] && u.q.cursor == t.q.cursor <= |t.q.entries|
  {
    CleanAlways(c, s, acts, t, m);
    assert PollerIsSound(t, t.workers[0].poller);
  }
}
