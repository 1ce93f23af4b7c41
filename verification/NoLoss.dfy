/** No accepted message is lost, for any number of workers and any interleaving. */
module NoLoss {
  import opened Base
  import opened Tables
  import opened Engine
  import opened Shapes
  import opened Focus

  /** Every id in use names something, and only delivered entries are held or acked. */
  ghost predicate Structure(s: State) {
    && s.q.cursor <= |s.q.entries|
    && (forall e :: s.q.cursor <= e < |s.q.entries| ==> !s.q.entries[e].acked)
    && (forall e :: 0 <= e < |s.q.entries| ==> s.q.entries[e].msg < |s.db.messages|)
    && (forall m :: m in s.adding ==> m < |s.db.messages|)
    && (forall w: nat, e: EntryId :: Holds(s, w, e) ==> e < s.q.cursor)
    && (forall w: nat :: Running(s, w) ==> RunIsSound(s, s.workers[w]))
    && (forall w :: 0 <= w < |s.workers| ==> PollerIsSound(s, s.workers[w].poller))
    && (forall m :: 0 <= m < |s.db.messages| ==> RowIsSound(s.db.messages[m].row))
  }

  predicate RunIsSound(s: State, x: Worker)
    requires x.run.Some?
  {
    var r := x.run.value;
    r.entry < |s.q.entries| && r.msg == s.q.entries[r.entry].msg && r.msg < |s.db.messages| && r.entry !in x.batch
  }

  predicate PollerIsSound(s: State, p: PollerState) {
    match p
    case Resting => true
    case Marking(ready) => ready != [] && forall i :: 0 <= i < |ready| ==> ready[i] < |s.db.messages|
    case Adding(m, rest) => m < |s.db.messages| && forall i :: 0 <= i < |rest| ==> rest[i] < |s.db.messages|
  }

  /** A deferred row always says when to try again. */
  predicate RowIsSound(row: Row) { row.status == Deferred ==> row.next.Some? }

  /** Nothing is taken up that was not held before, and nothing named disappears. */
  ghost predicate Local(s: State, t: State) {
    && |s.workers| == |t.workers|
    && |s.db.messages| <= |t.db.messages| && |s.q.entries| <= |t.q.entries| && s.q.cursor == t.q.cursor
    && (forall m :: 0 <= m < |t.db.messages| ==> RowIsSound(t.db.messages[m].row))
    && (forall e :: 0 <= e < |s.q.entries| ==> t.q.entries[e].msg == s.q.entries[e].msg)
    && (forall e :: |s.q.entries| <= e < |t.q.entries| ==> t.q.entries[e].msg < |t.db.messages|)
    && (forall e :: t.q.cursor <= e < |t.q.entries| ==> !t.q.entries[e].acked)
    && (forall m :: m in t.adding ==> m < |t.db.messages|)
    && (forall w :: 0 <= w < |s.workers| ==> LocalWorker(s.workers[w], t.workers[w]))
    && (forall w :: 0 <= w < |s.workers| ==> PollerIsSound(t, t.workers[w].poller))
  }

  predicate LocalWorker(x: Worker, y: Worker) {
    y.batch <= x.batch
    && (y.run.Some? ==> x.run.Some? && y.run.value.entry == x.run.value.entry && y.run.value.msg == x.run.value.msg)
  }

  lemma StructureLocal(s: State, t: State)
    requires Structure(s) && Local(s, t)
    ensures Structure(t)
  {
    forall w: nat, e: EntryId | Holds(t, w, e) ensures Holds(s, w, e) {}
    forall w: nat | Running(t, w) ensures RunIsSound(t, t.workers[w]) {
      assert Running(s, w) && RunIsSound(s, s.workers[w]);
    }
  }

  lemma StructureReading(s: State, t: State, w: nat)
    requires Structure(s) && Unoccupied(s, w) && |s.workers| == |t.workers|
    requires s.q.cursor <= t.q.cursor <= |t.q.entries| == |s.q.entries|
    requires forall e :: 0 <= e < |s.q.entries| ==>
               t.q.entries[e].msg == s.q.entries[e].msg && t.q.entries[e].acked == s.q.entries[e].acked
    requires t.db == s.db && t.adding == s.adding
    requires forall v :: 0 <= v < |s.workers| && v != w ==> t.workers[v] == s.workers[v]
    requires t.workers[w].run.None? && t.workers[w].poller == s.workers[w].poller
    requires forall e :: e in t.workers[w].batch ==> e < t.q.cursor
    ensures Structure(t)
  {
    forall v: nat, e: EntryId | Holds(t, v, e) ensures e < t.q.cursor {
      if v != w { assert Holds(s, v, e); }
    }
    forall v: nat | Running(t, v) ensures RunIsSound(t, t.workers[v]) {
      assert Running(s, v);
    }
  }

  lemma StructureStart(s: State, w: nat, e: EntryId, t: State)
    requires Structure(s) && w < |s.workers| && e in s.workers[w].batch && s.workers[w].run.None?
    requires e < |s.q.entries|
    requires t == SetWorker(s, w, s.workers[w].(batch := s.workers[w].batch - {e},
                   run := Some(FreshRun(e, s.q.entries[e].msg))))
    ensures Structure(t)
  {
    assert Holds(s, w, e);
    forall v: nat, d: EntryId | Holds(t, v, d) ensures Holds(s, v, d) {}
    forall v: nat | Running(t, v) ensures RunIsSound(t, t.workers[v]) {
      if v != w { assert Running(s, v); }
    }
  }

  /** A run that moves on after changing tables but not the number of messages. */
  lemma GotoIsLocal(s: State, u: State, w: nat, pc: Point)
    requires Structure(s) && Running(s, w) && u.workers == s.workers && u.q == s.q && u.adding == s.adding
    requires |u.db.messages| == |s.db.messages|
    requires forall m :: 0 <= m < |u.db.messages| ==> RowIsSound(u.db.messages[m].row)
    ensures Local(s, Goto(u, w, pc))
  {
  }

  lemma WriteIsLocal(c: Config, s: State, w: nat, r: Run, i: Input, t: State)
    requires Structure(s) && Running(s, w) && r == s.workers[w].run.value && r.msg < |s.db.messages|
    requires !r.pc.AtLoad? && !r.pc.AtAck? && !ReadsOnly(r.pc) && WriteStep(c, s, w, r, i) == Some(t)
    ensures Local(s, t)
  {
    var pc := t.workers[w].run.value.pc;
    GotoIsLocal(s, t.(workers := s.workers), w, pc);
    assert t == Goto(t.(workers := s.workers), w, pc);
  }

  lemma WorkIsLocal(c: Config, s: State, w: nat, i: Input)
    requires Structure(s) && Running(s, w)
    ensures WorkStep(c, s, w, i).Some? ==> Local(s, WorkStep(c, s, w, i).value)
  {
    var r := s.workers[w].run.value;
    assert Holds(s, w, r.entry);
    if !r.pc.AtLoad? && !r.pc.AtAck? && r.msg < |s.db.messages| {
      if ReadsOnly(r.pc) { GotoIsLocal(s, s, w, AfterRead(c, s, r, i)); }
      else if WriteStep(c, s, w, r, i).Some? { WriteIsLocal(c, s, w, r, i, WriteStep(c, s, w, r, i).value); }
    }
  }

  lemma WorldIsLocal(s: State, e: WorldAction)
    requires Structure(s)
    ensures WorldStep(s, e).Some? ==> Local(s, WorldStep(s, e).value)
  {
  }

  lemma PollerIsLocal(s: State, w: nat, k: PollerAction)
    requires Structure(s)
    ensures PollerStep(s, w, k).Some? ==> Local(s, PollerStep(s, w, k).value)
  {
    if w < |s.workers| { assert PollerIsSound(s, s.workers[w].poller); }
    match k
    case List(ready) =>
    case Mark => MarkIsLocal(s, w);
    case MarkFail =>
    case Add =>
    case AddFail =>
  }

  lemma MarkIsLocal(s: State, w: nat)
    requires Structure(s)
    ensures MarkStep(s, w).Some? ==> Local(s, MarkStep(s, w).value)
  {
  }

  lemma FailIsLocal(s: State, w: nat)
    requires Structure(s)
    ensures FailStep(s, w).Some? ==> Local(s, FailStep(s, w).value)
  {
  }

  lemma CrashIsLocal(s: State, w: nat)
    requires Structure(s)
    ensures CrashStep(s, w).Some? ==> Local(s, CrashStep(s, w).value)
  {
  }

  lemma RouteErrorIsLocal(s: State, w: nat)
    requires Structure(s)
    ensures RouteErrorStep(s, w).Some? ==> Local(s, RouteErrorStep(s, w).value)
  {
  }

  lemma LoadLockedIsLocal(s: State, w: nat)
    requires Structure(s)
    ensures LoadLockedStep(s, w).Some? ==> Local(s, LoadLockedStep(s, w).value)
  {
  }

  lemma StructureConsume(c: Config, s: State, w: nat, d: ConsumerAction, t: State)
    requires Structure(s) && ConsumerStep(c, s, w, d) == Some(t)
    ensures Structure(t)
  {
    match d
    case ReadStream(count) => StructureReading(s, t, w);
    case ReclaimIdle(ids) => StructureReading(s, t, w);
    case Start(e) => StructureStart(s, w, e, t);
    case Work(i) => WorkIsLocal(c, s, w, i); StructureLocal(s, t);
    case LoadLocked => LoadLockedIsLocal(s, w); StructureLocal(s, t);
    case Fail => FailIsLocal(s, w); StructureLocal(s, t);
    case RouteError => RouteErrorIsLocal(s, w); StructureLocal(s, t);
    case Crash => CrashIsLocal(s, w); StructureLocal(s, t);
  }

  lemma StructureStep(c: Config, s: State, a: Action, t: State)
    requires Structure(s) && Step(c, s, a) == Some(t)
    ensures Structure(t)
  {
    match a
    case World(e) => WorldIsLocal(s, e); StructureLocal(s, t);
    case Consume(w, d) => StructureConsume(c, s, w, d, t);
    case Poll(w, k) => PollerIsLocal(s, w, k); StructureLocal(s, t);
  }

  lemma StructureInit(c: Config, s: State)
    requires Init(c, s)
    ensures Structure(s)
  {
  }

  lemma {:induction false} StructureAlways(c: Config, s: State, acts: seq<Action>, t: State)
    requires Reaches(c, s, acts, t)
    ensures Structure(t)
    decreases |acts|
  {
    if acts == [] {
      StructureInit(c, s);
    } else {
      var u := Exec(c, s, acts[..|acts| - 1]).value;
      StructureAlways(c, s, acts[..|acts| - 1], u);
      StructureStep(c, u, acts[|acts| - 1], t);
    }
  }

  // In whose hands a message is.

  ghost predicate ClosingOn(s: State, w: nat, e: EntryId) {
    Running(s, w) && s.workers[w].run.value.entry == e && Closing(s.workers[w].run.value.pc)
  }

  predicate OpenOn(s: State, w: nat, m: MessageId) {
    w < |s.workers| && OpenRun(s.workers[w], m)
  }

  predicate Unacked(s: State, e: EntryId, m: MessageId) {
    e < |s.q.entries| && s.q.entries[e].msg == m && !s.q.entries[e].acked
  }

  /** An un-acked entry of m that no run is about to ack without settling m. */
  ghost predicate Covers(s: State, e: EntryId, m: MessageId) {
    Unacked(s, e, m) && forall w: nat :: !ClosingOn(s, w, e)
  }

  ghost predicate PollerOwes(s: State, w: nat, m: MessageId) {
    w < |s.workers| && Owes(s.workers[w].poller, m)
  }

  /** The row is settled, or somebody still means to see to m: an XADD to come, an entry, a run. */
  ghost predicate InHand(s: State, m: MessageId)
    requires m < |s.db.messages|
  {
    || Settled(s.db.messages[m].row.status)
    || m in s.adding
    || (exists w: nat :: PollerOwes(s, w, m))
    || (exists e: EntryId :: Covers(s, e, m))
    || (exists w: nat :: OpenOn(s, w, m))
  }

  // The actions that can drop a message.

  /** The run of w is gone after a. */
  predicate Ends(a: Action, w: nat) { a == Consume(w, Fail) || a == Consume(w, Crash) }

  /** A pending XADD of m fails or dies with its process. */
  ghost predicate LosesAdd(s: State, a: Action, m: MessageId) {
    || (a == World(HandlerDrop(m)) && m in s.adding)
    || (exists w: nat :: PollerOwes(s, w, m) && (a == Poll(w, AddFail) || a == Consume(w, Crash)))
  }

  /** A run that still means to settle m ends. */
  ghost predicate CutsOff(s: State, a: Action, m: MessageId) { exists w: nat :: OpenOn(s, w, m) && Ends(a, w) }

  /** A load of m comes back empty-handed because the row is locked. */
  ghost predicate Skips(s: State, a: Action, m: MessageId) {
    exists w: nat :: RunningOn(s, w, m) && a == Consume(w, LoadLocked)
  }

  /** An un-acked entry whose closing runs, if any, end with a, and which is not the one skipped. */
  ghost predicate StaysCovered(s: State, a: Action, e: EntryId, m: MessageId) {
    && Unacked(s, e, m) && (forall w: nat :: ClosingOn(s, w, e) ==> Ends(a, w))
    && (forall w: nat :: a == Consume(w, LoadLocked) && Running(s, w) ==> s.workers[w].run.value.entry != e)
  }

  /** Something else than what a takes away has m in hand. */
  ghost predicate StaysInHand(s: State, a: Action, m: MessageId)
    requires m < |s.db.messages|
  {
    || Settled(s.db.messages[m].row.status)
    || (m in s.adding && a != World(HandlerDrop(m)))
    || (exists w: nat :: PollerOwes(s, w, m) && a != Poll(w, AddFail) && a != Consume(w, Crash))
    || (exists w: nat :: OpenOn(s, w, m) && !Ends(a, w) && a != Consume(w, LoadLocked))
    || (exists e: EntryId :: StaysCovered(s, a, e, m))
  }

  ghost predicate Drops(s: State, a: Action, m: MessageId)
    requires m < |s.db.messages|
  {
    (LosesAdd(s, a, m) || CutsOff(s, a, m) || Skips(s, a, m)) && !StaysInHand(s, a, m)
  }

  /** The entries of m are as they were, but for a fresh one, and nobody has begun to close on one. */
  ghost predicate EntriesStay(s: State, t: State, m: MessageId) {
    && |s.q.entries| <= |t.q.entries|
    && (forall e: EntryId :: Unacked(s, e, m) ==> Unacked(t, e, m))
    && (forall w: nat, e: EntryId :: ClosingOn(t, w, e) && Unacked(s, e, m) ==> ClosingOn(s, w, e))
  }

  /** For actions that end no run and skip no load it is enough to look at each owner of m. */
  lemma Carries(s: State, a: Action, t: State, m: MessageId)
    requires m < |s.db.messages| <= |t.db.messages| && StaysInHand(s, a, m) && EntriesStay(s, t, m)
    requires !(a.Consume? && (a.d.Fail? || a.d.Crash? || a.d.LoadLocked?))
    requires Settled(s.db.messages[m].row.status) ==> InHand(t, m)
    requires m in s.adding ==> InHand(t, m) || a == World(HandlerDrop(m))
    requires forall w: nat :: PollerOwes(s, w, m) ==> InHand(t, m) || a == Poll(w, AddFail)
    requires forall w: nat :: OpenOn(s, w, m) ==> InHand(t, m)
    ensures InHand(t, m)
  {
    if e: EntryId :| StaysCovered(s, a, e, m) {
      forall w: nat ensures !ClosingOn(t, w, e) {}
      assert Covers(t, e, m);
    }
  }

  lemma FreshEntryCovers(s: State, t: State, m: MessageId, source: Source)
    requires Structure(s) && t.q == Enqueue(s.q, m, source) && |s.workers| == |t.workers|
    requires forall w :: 0 <= w < |s.workers| ==> t.workers[w].run == s.workers[w].run
    ensures Covers(t, |s.q.entries|, m)
  {
    forall w: nat ensures !ClosingOn(t, w, |s.q.entries|) {
      if Running(t, w) { assert Running(s, w) && RunIsSound(s, s.workers[w]); }
    }
  }

  lemma WorldKeeps(s: State, e: WorldAction, t: State, m: MessageId)
    requires Structure(s) && m < |s.db.messages| && WorldStep(s, e) == Some(t) && StaysInHand(s, World(e), m)
    ensures m < |t.db.messages| && InHand(t, m)
  {
    if e.HandlerAdd? { FreshEntryCovers(s, t, e.m, Handler); }
    forall w: nat | PollerOwes(s, w, m) ensures PollerOwes(t, w, m) {}
    forall w: nat | OpenOn(s, w, m) ensures OpenOn(t, w, m) {}
    Carries(s, World(e), t, m);
  }

  lemma PollerKeeps(s: State, w: nat, k: PollerAction, t: State, m: MessageId)
    requires Structure(s) && m < |s.db.messages| && PollerStep(s, w, k) == Some(t) && StaysInHand(s, Poll(w, k), m)
    ensures m < |t.db.messages| && InHand(t, m)
  {
    if k.Add? { FreshEntryCovers(s, t, s.workers[w].poller.msg, Poller); }
    if k.Mark? { assert PollerOwes(t, w, s.workers[w].poller.ready[0]); }
    forall v: nat | PollerOwes(s, v, m) && v != w ensures PollerOwes(t, v, m) {}
    forall v: nat | OpenOn(s, v, m) ensures OpenOn(t, v, m) {}
    Carries(s, Poll(w, k), t, m);
  }

  /** Taking entries up moves no row and no ack. */
  lemma TakingShape(c: Config, s: State, w: nat, d: ConsumerAction, t: State)
    requires ConsumerStep(c, s, w, d) == Some(t) && (d.ReadStream? || d.ReclaimIdle? || d.Start?)
    ensures t.db == s.db && t.adding == s.adding && |t.q.entries| == |s.q.entries| && SameOthers(s, w, t)
    ensures forall e :: 0 <= e < |s.q.entries| ==>
              t.q.entries[e].msg == s.q.entries[e].msg && t.q.entries[e].acked == s.q.entries[e].acked
    ensures s.workers[w].run.None? && t.workers[w].poller == s.workers[w].poller
    ensures t.workers[w].run.Some? ==> t.workers[w].run.value.pc.AtLoad?
  {
  }

  /** Taking entries up changes nothing about who has m in hand. */
  lemma TakingKeeps(c: Config, s: State, w: nat, d: ConsumerAction, t: State, m: MessageId)
    requires Structure(s) && m < |s.db.messages| && ConsumerStep(c, s, w, d) == Some(t)
    requires (d.ReadStream? || d.ReclaimIdle? || d.Start?) && StaysInHand(s, Consume(w, d), m)
    ensures m < |t.db.messages| && InHand(t, m)
  {
    TakingShape(c, s, w, d, t);
    forall v: nat | PollerOwes(s, v, m) ensures PollerOwes(t, v, m) {}
    forall v: nat | OpenOn(s, v, m) ensures OpenOn(t, v, m) {}
    Carries(s, Consume(w, d), t, m);
  }

  /** The run of w ends without a call. */
  lemma EndKeeps(c: Config, s: State, w: nat, d: ConsumerAction, t: State, m: MessageId)
    requires m < |s.db.messages| && ConsumerStep(c, s, w, d) == Some(t)
    requires (d.Fail? || d.Crash?) && StaysInHand(s, Consume(w, d), m)
    ensures m < |t.db.messages| && InHand(t, m)
  {
    forall v: nat | PollerOwes(s, v, m) && (v != w || d.Fail?) ensures PollerOwes(t, v, m) {}
    forall v: nat | OpenOn(s, v, m) && v != w ensures OpenOn(t, v, m) {}
    if e: EntryId :| StaysCovered(s, Consume(w, d), e, m) {
      forall v: nat ensures !ClosingOn(t, v, e) { assert ClosingOn(t, v, e) ==> v != w && ClosingOn(s, v, e); }
      assert Covers(t, e, m);
    }
  }

  lemma SkipKeeps(s: State, w: nat, t: State, m: MessageId)
    requires m < |s.db.messages| && LoadLockedStep(s, w) == Some(t) && StaysInHand(s, Consume(w, LoadLocked), m)
    ensures m < |t.db.messages| && InHand(t, m)
  {
    forall v: nat | PollerOwes(s, v, m) ensures PollerOwes(t, v, m) {}
    forall v: nat | OpenOn(s, v, m) && v != w ensures OpenOn(t, v, m) {}
    if e: EntryId :| StaysCovered(s, Consume(w, LoadLocked), e, m) {
      forall v: nat ensures !ClosingOn(t, v, e) { assert ClosingOn(t, v, e) && v != w ==> ClosingOn(s, v, e); }
      assert Covers(t, e, m);
    }
  }

  /** An ack takes an entry that its own run had closed on. */
  lemma AckKeeps(s: State, w: nat, i: Input, t: State, m: MessageId)
    requires m < |s.db.messages| && Acks(s, w, t) && StaysInHand(s, Consume(w, Work(i)), m)
    ensures m < |t.db.messages| && InHand(t, m)
  {
    forall v: nat | PollerOwes(s, v, m) ensures PollerOwes(t, v, m) {}
    forall v: nat | OpenOn(s, v, m) ensures OpenOn(t, v, m) {}
    if e: EntryId :| StaysCovered(s, Consume(w, Work(i)), e, m) {
      assert ClosingOn(s, w, s.workers[w].run.value.entry);
      forall v: nat ensures !ClosingOn(t, v, e) { assert ClosingOn(t, v, e) ==> ClosingOn(s, v, e); }
      assert Covers(t, e, m);
    }
  }

  /** A run that moves on and begins to close only on a message that is settled. */
  lemma MoveKeeps(s: State, w: nat, a: Action, t: State, m: MessageId)
    requires Structure(s) && m < |s.db.messages| == |t.db.messages| && Running(s, w) && StaysInHand(s, a, m)
    requires a.Consume? && (a.d.Work? || a.d.RouteError?)
    requires SameOthers(s, w, t) && t.workers[w].poller == s.workers[w].poller && t.workers[w].run.Some?
    requires t.workers[w].run.value.msg == s.workers[w].run.value.msg
    requires t.workers[w].run.value.entry == s.workers[w].run.value.entry
    requires t.q == s.q && t.adding == s.adding
    requires m != s.workers[w].run.value.msg ==> t.db.messages[m].row == s.db.messages[m].row
    requires m == s.workers[w].run.value.msg ==>
               || OpenOn(t, w, m)
               || Settled(t.db.messages[m].row.status)
               || (Closing(s.workers[w].run.value.pc) && t.db.messages[m].row == s.db.messages[m].row)
    ensures InHand(t, m)
  {
    if !OpenOn(t, w, m) && !Settled(t.db.messages[m].row.status) {
      assert RunIsSound(s, s.workers[w]);
      forall v: nat | PollerOwes(s, v, m) ensures PollerOwes(t, v, m) {}
      forall v: nat | OpenOn(s, v, m) ensures OpenOn(t, v, m) {}
      Carries(s, a, t, m);
    }
  }

  lemma WorkKeeps(c: Config, s: State, w: nat, i: Input, t: State, m: MessageId)
    requires Structure(s) && m < |s.db.messages| && WorkStep(c, s, w, i) == Some(t)
    requires StaysInHand(s, Consume(w, Work(i)), m)
    ensures m < |t.db.messages| && InHand(t, m)
  {
    WorkShape(c, s, w, i, t);
    if Acks(s, w, t) {
      AckKeeps(s, w, i, t, m);
    } else {
      if Writes(c, s, w, i, t) {
        if s.workers[w].run.value.pc.AtRecord? { RecordShape(c, s, w, i, t); } else { PlainShape(c, s, w, i, t); }
      }
      MoveKeeps(s, w, Consume(w, Work(i)), t, m);
    }
  }

  /** Whatever is not taken away by an action still has m in hand after it. */
  lemma StayingKeeps(c: Config, s: State, a: Action, t: State, m: MessageId)
    requires Structure(s) && m < |s.db.messages| && Step(c, s, a) == Some(t) && StaysInHand(s, a, m)
    ensures m < |t.db.messages| && InHand(t, m)
  {
    match a
    case World(e) => WorldKeeps(s, e, t, m);
    case Poll(w, k) => PollerKeeps(s, w, k, t, m);
    case Consume(w, d) =>
      match d
      case Work(i) => WorkKeeps(c, s, w, i, t, m);
      case LoadLocked => SkipKeeps(s, w, t, m);
      case RouteError => MoveKeeps(s, w, a, t, m);
      case Fail => EndKeeps(c, s, w, d, t, m);
      case Crash => EndKeeps(c, s, w, d, t, m);
      case _ => TakingKeeps(c, s, w, d, t, m);
  }

  /** The actions that can drop a message change no row and ack nothing. */
  lemma DroppingShape(c: Config, s: State, a: Action, t: State, m: MessageId)
    requires Step(c, s, a) == Some(t) && m < |s.db.messages|
    requires LosesAdd(s, a, m) || CutsOff(s, a, m) || Skips(s, a, m)
    ensures t.db == s.db && t.q == s.q && t.adding <= s.adding && |t.workers| == |s.workers|
    ensures a == World(HandlerDrop(m)) ==> m !in t.adding
    ensures forall w: nat :: PollerOwes(t, w, m) ==>
              PollerOwes(s, w, m) && a != Poll(w, AddFail) && a != Consume(w, Crash)
    ensures forall w: nat :: OpenOn(t, w, m) ==> OpenOn(s, w, m) && !Ends(a, w) && a != Consume(w, LoadLocked)
    ensures forall w: nat, e: EntryId :: ClosingOn(s, w, e) ==> ClosingOn(t, w, e) || Ends(a, w)
    ensures forall w: nat :: a == Consume(w, LoadLocked) && Running(s, w) ==>
              ClosingOn(t, w, s.workers[w].run.value.entry)
  {
  }

  lemma DropIsOutOfHand(c: Config, s: State, a: Action, t: State, m: MessageId)
    requires Structure(s) && m < |s.db.messages| && Step(c, s, a) == Some(t) && Drops(s, a, m)
    ensures m < |t.db.messages| && !InHand(t, m)
  {
    DroppingShape(c, s, a, t, m);
    forall e: EntryId | Covers(t, e, m) ensures StaysCovered(s, a, e, m) {
      forall w: nat | ClosingOn(s, w, e) ensures Ends(a, w) { assert !ClosingOn(t, w, e); }
    }
  }

  /** Any other action leaves what has m in hand. */
  lemma InHandStays(c: Config, s: State, a: Action, m: MessageId)
    requires Structure(s) && m < |s.db.messages| && InHand(s, m)
    requires !LosesAdd(s, a, m) && !CutsOff(s, a, m) && !Skips(s, a, m)
    ensures StaysInHand(s, a, m)
  {
    if e: EntryId :| Covers(s, e, m) {
      forall w: nat | a == Consume(w, LoadLocked) && Running(s, w) ensures s.workers[w].run.value.entry != e {
        assert RunIsSound(s, s.workers[w]);
      }
      assert StaysCovered(s, a, e, m);
    }
  }

  /**
   Exactly three kinds of action drop a message that is in hand, for any number of workers: the loss of
   its pending XADD, the end of a run that still meant to settle it, and a skip of its locked row; and
   each of them only where nothing else has the message in hand.
   */
  lemma DropsExactly(c: Config, s: State, a: Action, t: State, m: MessageId)
    requires Structure(s) && m < |s.db.messages| && InHand(s, m) && Step(c, s, a) == Some(t)
    ensures m < |t.db.messages| && (!InHand(t, m) <==> Drops(s, a, m))
  {
    if StaysInHand(s, a, m) { StayingKeeps(c, s, a, t, m); }
    else {
      if !LosesAdd(s, a, m) && !CutsOff(s, a, m) && !Skips(s, a, m) { InHandStays(c, s, a, m); }
      DropIsOutOfHand(c, s, a, t, m);
    }
  }

  /** A message comes into being in its handler's hands. */
  lemma NewIsInHand(c: Config, s: State, a: Action, t: State, m: MessageId)
    requires Step(c, s, a) == Some(t) && |s.db.messages| <= m < |t.db.messages|
    ensures InHand(t, m)
  {
    match a
    case World(e) =>
    case Poll(w, k) => PollerShape(s, w, k, t);
    case Consume(w, d) => if d.Work? { WorkShape(c, s, w, d.input, t); } else { QuietShape(c, s, w, d, t); }
  }

  /** The state after the first k actions. */
  ghost function After(c: Config, s: State, acts: seq<Action>, k: nat): Option<State>
    requires k <= |acts|
  {
    Exec(c, s, acts[..k])
  }

  ghost predicate DroppedAt(c: Config, s: State, acts: seq<Action>, m: MessageId, k: nat)
    requires k < |acts|
  {
    var u := After(c, s, acts, k);
    u.Some? && m < |u.value.db.messages| && InHand(u.value, m) && Drops(u.value, acts[k], m)
  }

  ghost predicate OutOfHandAt(c: Config, s: State, acts: seq<Action>, m: MessageId, k: nat)
    requires k <= |acts|
  {
    var u := After(c, s, acts, k);
    u.Some? && m < |u.value.db.messages| && !InHand(u.value, m)
  }

  /** Action k dropped m, and nothing has taken it up since. */
  ghost predicate DroppedSince(c: Config, s: State, acts: seq<Action>, m: MessageId, k: nat)
    requires k < |acts|
  {
    DroppedAt(c, s, acts, m, k) && forall j :: k < j <= |acts| ==> OutOfHandAt(c, s, acts, m, j)
  }

  lemma PrefixesAgree(c: Config, s: State, acts: seq<Action>, k: nat)
    requires k < |acts|
    ensures After(c, s, acts[..|acts| - 1], k) == After(c, s, acts, k)
  {
    assert acts[..|acts| - 1][..k] == acts[..k];
  }

  /**
   Nothing is lost. However many workers there are and however their calls, failures and crashes
   interleave, an accepted message is finished, or deferred, or has an XADD still to be made, or an
   un-acked entry that no run is closing on, or a run that still means to settle it; or else one of the
   actions that drop a message dropped this one, and nothing has taken it up since.
   */
  lemma {:induction false} NoMessageLost(c: Config, s: State, acts: seq<Action>, t: State, m: MessageId)
    requires Reaches(c, s, acts, t) && m < |t.db.messages|
    ensures InHand(t, m) || exists k :: 0 <= k < |acts| && DroppedSince(c, s, acts, m, k)
    decreases |acts|
  {
    if acts != [] && !InHand(t, m) {
      var before, a := acts[..|acts| - 1], acts[|acts| - 1];
      var u := Exec(c, s, before).value;
      StructureAlways(c, s, before, u);
      if m >= |u.db.messages| { NewIsInHand(c, u, a, t, m); }
      assert acts[..|acts|] == acts;
      assert OutOfHandAt(c, s, acts, m, |acts|);
      if InHand(u, m) {
        JustDropped(c, s, acts, u, t, m);
      } else {
        NoMessageLost(c, s, before, u, m);
        var k :| 0 <= k < |before| && DroppedSince(c, s, before, m, k);
        StillDropped(c, s, acts, m, k);
      }
    }
  }

  lemma JustDropped(c: Config, s: State, acts: seq<Action>, u: State, t: State, m: MessageId)
    requires acts != [] && Exec(c, s, acts[..|acts| - 1]) == Some(u) && Step(c, u, acts[|acts| - 1]) == Some(t)
    requires Structure(u) && m < |u.db.messages| && InHand(u, m) && OutOfHandAt(c, s, acts, m, |acts|)
    requires m < |t.db.messages| && !InHand(t, m)
    ensures DroppedSince(c, s, acts, m, |acts| - 1)
  {
    DropsExactly(c, u, acts[|acts| - 1], t, m);
    assert DroppedAt(c, s, acts, m, |acts| - 1);
  }

  lemma StillDropped(c: Config, s: State, acts: seq<Action>, m: MessageId, k: nat)
    requires k < |acts| - 1 && DroppedSince(c, s, acts[..|acts| - 1], m, k) && OutOfHandAt(c, s, acts, m, |acts|)
    ensures DroppedSince(c, s, acts, m, k)
  {
    var before := acts[..|acts| - 1];
    PrefixesAgree(c, s, acts, k);
    assert before[k] == acts[k];
    forall j | k < j <= |acts| ensures OutOfHandAt(c, s, acts, m, j) {
      if j < |acts| {
        PrefixesAgree(c, s, acts, j);
        assert OutOfHandAt(c, s, before, m, j);
      }
    }
  }

  /** The row of a deferred message always says when to try again. */
  lemma DeferredHasTime(c: Config, s: State, acts: seq<Action>, t: State, m: MessageId)
    requires Reaches(c, s, acts, t) && m < |t.db.messages| && t.db.messages[m].row.status == Deferred
    ensures t.db.messages[m].row.next.Some?
  {
    StructureAlways(c, s, acts, t);
    assert RowIsSound(t.db.messages[m].row);
  }

  // Where no entry is taken from a live process.

  /** Reclaims an entry that another process still holds. */
  ghost predicate Steals(s: State, a: Action) {
    a.Consume? && a.d.ReclaimIdle? && exists v: nat, e :: v != a.w && e in a.d.ids && Holds(s, v, e)
  }

  /** A held entry has one holder and is not acked. */
  ghost predicate Exclusive(s: State) {
    && (forall w: nat, e: EntryId :: Holds(s, w, e) && e < |s.q.entries| ==> !s.q.entries[e].acked)
    && (forall w: nat, v: nat, e: EntryId :: w != v && Holds(s, w, e) ==> !Holds(s, v, e))
  }

  lemma ExclusiveLocal(s: State, t: State)
    requires Structure(s) && Exclusive(s) && Local(s, t)
    requires forall w: nat, e: EntryId :: Holds(t, w, e) && e < |s.q.entries| && t.q.entries[e].acked
               ==> s.q.entries[e].acked
    ensures Exclusive(t)
  {
    forall w: nat, e: EntryId | Holds(t, w, e) ensures Holds(s, w, e) && e < |s.q.entries| {
      assert LocalWorker(s.workers[w], t.workers[w]);
      assert Holds(s, w, e);
      assert e < s.q.cursor <= |s.q.entries|;
    }
  }

  lemma OthersHold(s: State, w: nat, t: State, v: nat, e: EntryId)
    requires Structure(s) && SameOthers(s, w, t) && v != w && Holds(t, v, e)
    ensures Holds(s, v, e) && e < s.q.cursor
  {
    assert Holds(s, v, e);
  }

  /** Worker w takes up entries that nobody else holds and that are not acked. */
  lemma ExclusiveBatch(s: State, w: nat, t: State)
    requires Structure(s) && Exclusive(s) && SameOthers(s, w, t) && t.workers[w].run.None?
    requires |t.q.entries| == |s.q.entries|
    requires forall e :: 0 <= e < |s.q.entries| ==> t.q.entries[e].acked == s.q.entries[e].acked
    requires forall e :: e in t.workers[w].batch && e < |s.q.entries| ==> !s.q.entries[e].acked
    requires forall v: nat, e :: v != w && e in t.workers[w].batch ==> !Holds(s, v, e)
    ensures Exclusive(t)
  {
    forall v: nat, e: EntryId | v != w && Holds(t, v, e) ensures Holds(s, v, e) { OthersHold(s, w, t, v, e); }
  }

  lemma ExclusiveReading(c: Config, s: State, w: nat, d: ConsumerAction, t: State)
    requires Structure(s) && Exclusive(s) && ConsumerStep(c, s, w, d) == Some(t) && (d.ReadStream? || d.ReclaimIdle?)
    requires !Steals(s, Consume(w, d))
    ensures Exclusive(t)
  {
    TakingShape(c, s, w, d, t);
    forall v: nat, e | v != w && e in t.workers[w].batch ensures !Holds(s, v, e) {
      assert Holds(s, v, e) ==> e < s.q.cursor;
    }
    ExclusiveBatch(s, w, t);
  }

  lemma ExclusiveStart(s: State, w: nat, e: EntryId, t: State)
    requires Structure(s) && Exclusive(s) && StartStep(s, w, e) == Some(t)
    ensures Exclusive(t)
  {
    forall v: nat, d: EntryId | Holds(t, v, d) ensures Holds(s, v, d) {}
  }

  lemma ExclusiveWork(c: Config, s: State, w: nat, i: Input, t: State)
    requires Structure(s) && Exclusive(s) && WorkStep(c, s, w, i) == Some(t)
    ensures Exclusive(t)
  {
    var r := s.workers[w].run.value;
    WorkIsLocal(c, s, w, i);
    WorkShape(c, s, w, i, t);
    assert Holds(s, w, r.entry) && RunIsSound(s, s.workers[w]);
    forall v: nat, e: EntryId | Holds(t, v, e) && e < |s.q.entries| && t.q.entries[e].acked
      ensures s.q.entries[e].acked {
      if Acks(s, w, t) && e == r.entry { assert Holds(s, v, e); }
    }
    ExclusiveLocal(s, t);
  }

  lemma ExclusiveStep(c: Config, s: State, a: Action, t: State)
    requires Structure(s) && Exclusive(s) && Step(c, s, a) == Some(t) && !Steals(s, a)
    ensures Exclusive(t)
  {
    match a
    case World(e) => WorldIsLocal(s, e); ExclusiveLocal(s, t);
    case Poll(w, k) => PollerIsLocal(s, w, k); ExclusiveLocal(s, t);
    case Consume(w, d) =>
      match d
      case ReadStream(count) => ExclusiveReading(c, s, w, d, t);
      case ReclaimIdle(ids) => ExclusiveReading(c, s, w, d, t);
      case Start(e) => ExclusiveStart(s, w, e, t);
      case Work(i) => ExclusiveWork(c, s, w, i, t);
      case LoadLocked => LoadLockedIsLocal(s, w); ExclusiveLocal(s, t);
      case Fail => FailIsLocal(s, w); ExclusiveLocal(s, t);
      case RouteError => RouteErrorIsLocal(s, w); ExclusiveLocal(s, t);
      case Crash => CrashIsLocal(s, w); ExclusiveLocal(s, t);
  }

  /** A run that has not settled keeps its message covered by its own entry. */
  lemma OpenRunCovers(s: State, w: nat)
    requires Structure(s) && Exclusive(s) && Running(s, w) && !Closing(s.workers[w].run.value.pc)
    ensures Covers(s, s.workers[w].run.value.entry, s.workers[w].run.value.msg)
  {
    var e := s.workers[w].run.value.entry;
    assert Holds(s, w, e) && RunIsSound(s, s.workers[w]);
    forall v: nat ensures !ClosingOn(s, v, e) { assert ClosingOn(s, v, e) ==> Holds(s, v, e); }
  }

  /** Where entries have one holder, ending a run drops nothing: its entry is delivered again. */
  lemma ExclusiveIsNeverCutOff(s: State, a: Action, m: MessageId)
    requires Structure(s) && Exclusive(s) && m < |s.db.messages| && Drops(s, a, m)
    ensures LosesAdd(s, a, m) || Skips(s, a, m)
  {
    if w: nat :| OpenOn(s, w, m) && Ends(a, w) {
      OpenRunCovers(s, w);
      assert StaysCovered(s, a, s.workers[w].run.value.entry, m);
    }
  }

  /** No process sits on a delivered entry for as long as a minute. */
  ghost predicate Prompt(s: State) {
    forall w: nat, e: EntryId :: Holds(s, w, e) && e < |s.q.entries| ==> s.now < s.q.entries[e].since + MINUTE
  }

  /** The schedule never lets a process sit on an entry for a minute. */
  ghost predicate PromptSchedule(c: Config, s: State, acts: seq<Action>) {
    forall k :: 0 <= k < |acts| && After(c, s, acts, k).Some? ==> Prompt(After(c, s, acts, k).value)
  }

  lemma PromptStealsNothing(c: Config, s: State, a: Action, t: State)
    requires Structure(s) && Prompt(s) && Step(c, s, a) == Some(t)
    ensures !Steals(s, a)
  {
    if a.Consume? && a.d.ReclaimIdle? {
      forall v: nat, e | v != a.w && e in a.d.ids ensures !Holds(s, v, e) { assert Idle(s.q, e, s.now); }
    }
  }

  lemma {:induction false} PromptIsExclusive(c: Config, s: State, acts: seq<Action>, t: State)
    requires Reaches(c, s, acts, t) && PromptSchedule(c, s, acts)
    ensures Structure(t) && Exclusive(t)
    decreases |acts|
  {
    StructureAlways(c, s, acts, t);
    if acts != [] {
      var before, a := acts[..|acts| - 1], acts[|acts| - 1];
      var u := Exec(c, s, before).value;
      forall k | 0 <= k < |before| ensures After(c, s, before, k) == After(c, s, acts, k) {
        PrefixesAgree(c, s, acts, k);
      }
      PromptIsExclusive(c, s, before, u);
      assert After(c, s, acts, |before|) == Some(u);
      PromptStealsNothing(c, u, a, t);
      ExclusiveStep(c, u, a, t);
    }
  }

  /**
   While no process sits on an entry for a minute, none has one taken from it, and no message is dropped
   by a failure or a crash of its run.
   */
  lemma PromptWorkersAreNeverRobbed(c: Config, s: State, acts: seq<Action>, t: State, a: Action, u: State, m: MessageId)
    requires Reaches(c, s, acts, t) && PromptSchedule(c, s, acts) && Prompt(t)
    requires Step(c, t, a) == Some(u) && m < |t.db.messages|
    ensures !Steals(t, a) && (Drops(t, a, m) ==> LosesAdd(t, a, m) || Skips(t, a, m))
  {
    PromptIsExclusive(c, s, acts, t);
    PromptStealsNothing(c, t, a, u);
    if Drops(t, a, m) { ExclusiveIsNeverCutOff(t, a, m); }
  }

  // One worker.

  lemma OneWorkerStealsNothing(s: State, a: Action)
    requires |s.workers| == 1
    ensures a.Consume? && a.w == 0 ==> !Steals(s, a)
  {
  }

  lemma OneWorkerStep(c: Config, s: State, a: Action, t: State)
    requires Structure(s) && Exclusive(s) && |s.workers| == 1 && Step(c, s, a) == Some(t)
    ensures Structure(t) && Exclusive(t) && |t.workers| == 1
  {
    StructureStep(c, s, a, t);
    SameWorkerCount(c, s, a, t);
    OneWorkerStealsNothing(s, a);
    ExclusiveStep(c, s, a, t);
  }

  lemma {:induction false} OneWorkerAlways(c: Config, s: State, acts: seq<Action>, t: State)
    requires Reaches(c, s, acts, t) && |s.workers| == 1
    ensures Structure(t) && Exclusive(t) && |t.workers| == 1
    decreases |acts|
  {
    if acts == [] {
      StructureInit(c, s);
    } else {
      var u := Exec(c, s, acts[..|acts| - 1]).value;
      OneWorkerAlways(c, s, acts[..|acts| - 1], u);
      OneWorkerStep(c, u, acts[|acts| - 1], t);
    }
  }

  /** One worker finds a row locked only by its own poller's mark, and the row is deferred then. */
  lemma OneWorkerSkipsSettled(c: Config, s: State, a: Action, t: State, m: MessageId)
    requires |s.workers| == 1 && m < |s.db.messages| && Step(c, s, a) == Some(t) && Skips(s, a, m)
    ensures Settled(s.db.messages[m].row.status)
  {
  }

  /** With one worker only a lost XADD drops a message. */
  lemma OneWorkerDropsOnlyLostAdds(c: Config, s: State, a: Action, t: State, m: MessageId)
    requires Structure(s) && Exclusive(s) && |s.workers| == 1 && m < |s.db.messages| && Step(c, s, a) == Some(t)
    requires Drops(s, a, m)
    ensures LosesAdd(s, a, m)
  {
    ExclusiveIsNeverCutOff(s, a, m);
    if Skips(s, a, m) { OneWorkerSkipsSettled(c, s, a, t, m); }
  }

  /** So with one worker an accepted message is in hand, or its XADD was lost and nothing has taken it up since. */
  lemma OneWorkerLosesOnlyAdds(c: Config, s: State, acts: seq<Action>, t: State, m: MessageId)
    requires Reaches(c, s, acts, t) && |s.workers| == 1 && m < |t.db.messages|
    ensures InHand(t, m)
            || exists k :: 0 <= k < |acts| && DroppedSince(c, s, acts, m, k)
                           && LosesAdd(After(c, s, acts, k).value, acts[k], m)
  {
    NoMessageLost(c, s, acts, t, m);
    if k :| 0 <= k < |acts| && DroppedSince(c, s, acts, m, k) {
      var u := After(c, s, acts, k).value;
      OneWorkerAlways(c, s, acts[..k], u);
      StepAt(c, s, acts, t, k);
      OneWorkerDropsOnlyLostAdds(c, u, acts[k], After(c, s, acts, k + 1).value, m);
    }
  }

  lemma {:induction false} StepAt(c: Config, s: State, acts: seq<Action>, t: State, k: nat)
    requires Exec(c, s, acts) == Some(t) && k < |acts|
    ensures After(c, s, acts, k).Some? && After(c, s, acts, k + 1).Some?
    ensures Step(c, After(c, s, acts, k).value, acts[k]) == After(c, s, acts, k + 1)
    decreases |acts|
  {
    var last := |acts| - 1;
    if k < last {
      StepAt(c, s, acts[..last], Exec(c, s, acts[..last]).value, k);
      assert acts[..last][..k] == acts[..k] && acts[..last][..k + 1] == acts[..k + 1];
    } else {
      assert acts[..k + 1] == acts;
    }
  }
}
