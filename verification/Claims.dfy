/** What a process may take of the stream, how long it keeps it, and when a load skips its row. */
module Claims {
  import opened Base
  import opened Tables
  import opened Engine

  /** A free process may read up to ten new entries, and claim up to ten pending ones that were idle for a minute. */
  lemma TakesExactly(c: Config, s: State, w: nat, count: nat, ids: set<EntryId>)
    requires Unoccupied(s, w)
    ensures Step(c, s, Consume(w, ReadStream(count))).Some?
            <==> 1 <= count <= 10 && s.q.cursor + count <= |s.q.entries|
    ensures Step(c, s, Consume(w, ReclaimIdle(ids))).Some?
            <==> |ids| <= 10
                 && forall e :: e in ids ==>
                      && e < s.q.cursor && e < |s.q.entries| && !s.q.entries[e].acked
                      && s.q.entries[e].since + 60_000_000_000 <= s.now
  {
    if forall e :: e in ids ==>
         e < s.q.cursor && e < |s.q.entries| && !s.q.entries[e].acked
         && s.q.entries[e].since + 60_000_000_000 <= s.now {
      assert forall e :: e in ids ==> Idle(s.q, e, s.now);
    } else {
      assert exists e :: e in ids && !Idle(s.q, e, s.now);
    }
  }

  predicate Takes(a: Action) { a.Consume? && (a.d.ReadStream? || a.d.ReclaimIdle?) }

  /** Taking entries restarts their idle time, all of theirs and nobody else's. */
  lemma TakingRestartsIdleTime(c: Config, s: State, a: Action, t: State)
    requires Takes(a) && Step(c, s, a) == Some(t)
    ensures a.w < |t.workers| && |t.q.entries| == |s.q.entries| && t.now == s.now
    ensures var batch := t.workers[a.w].batch;
            && (forall e :: e in batch ==> e < |s.q.entries|)
            && forall e :: 0 <= e < |s.q.entries| ==>
                 t.q.entries[e] == if e in batch then s.q.entries[e].(since := s.now) else s.q.entries[e]
  {
    if a.d.ReclaimIdle? {
      forall e | e in a.d.ids ensures e < |s.q.entries| { assert Idle(s.q, e, s.now); }
    }
  }

  lemma IdleTimeStep(c: Config, s: State, a: Action, t: State, e: EntryId, from: Time)
    requires Step(c, s, a) == Some(t) && e < |s.q.entries| && from <= s.now && from <= s.q.entries[e].since
    ensures e < |t.q.entries| && from <= t.now && from <= t.q.entries[e].since
  {
    if Takes(a) { TakingRestartsIdleTime(c, s, a, t); }
  }

  /** No entry is idle for longer than it has been since it was last taken. */
  lemma {:induction false} IdleTimeAlways(c: Config, s: State, acts: seq<Action>, t: State, e: EntryId, from: Time)
    requires Exec(c, s, acts) == Some(t) && e < |s.q.entries| && from <= s.now && from <= s.q.entries[e].since
    ensures e < |t.q.entries| && from <= t.now && from <= t.q.entries[e].since
    decreases |acts|
  {
    if acts != [] {
      var u := Exec(c, s, acts[..|acts| - 1]).value;
      IdleTimeAlways(c, s, acts[..|acts| - 1], u, e, from);
      IdleTimeStep(c, u, acts[|acts| - 1], t, e, from);
    }
  }

  /** Whatever happens, nobody can claim within a minute what a process has read or claimed. */
  lemma ClaimLasts(c: Config, s: State, a: Action, t: State, acts: seq<Action>, u: State, v: nat, ids: set<EntryId>)
    requires Takes(a) && Step(c, s, a) == Some(t) && Exec(c, t, acts) == Some(u) && u.now < s.now + MINUTE
    requires Step(c, u, Consume(v, ReclaimIdle(ids))).Some?
    ensures a.w < |t.workers| && t.workers[a.w].batch !! ids
  {
    TakingRestartsIdleTime(c, s, a, t);
    forall e | e in t.workers[a.w].batch ensures e !in ids {
      IdleTimeAlways(c, t, acts, u, e, s.now);
    }
  }

  // When a load comes back empty-handed.

  /** A statement on the row of m is under way: a run's own, with its foreign-key check, or a poller's mark. */
  predicate Blocks(s: State, w: nat, v: nat, m: MessageId) {
    v < |s.workers|
    && (|| (&& v != w && RunningOn(s, v, m)
            && var pc := s.workers[v].run.value.pc;
               pc.AtLoad? || pc.AtMarkSending? || pc.AtLogSending? || pc.AtRecord? || pc.AtSettle? || pc.AtLog?
               || pc.AtLogRetry?)
        || (&& m < |s.db.messages| && s.db.messages[m].row.status == Deferred
            && s.workers[v].poller.Marking? && s.workers[v].poller.ready != [] && s.workers[v].poller.ready[0] == m))
  }

  /** A load may skip its row exactly when such a statement is; the run then goes straight to its ack. */
  lemma SkipsExactly(c: Config, s: State, w: nat)
    requires Running(s, w) && s.workers[w].run.value.pc.AtLoad?
    ensures var t := Step(c, s, Consume(w, LoadLocked));
            && (t.Some? <==> exists v: nat :: Blocks(s, w, v, s.workers[w].run.value.msg))
            && (t.Some? ==> t.value == Goto(s, w, AtAck))
  {
    var m := s.workers[w].run.value.msg;
    if v: nat :| v < |s.workers| && LockedByRun(s, w, v, m) { assert Blocks(s, w, v, m); }
    if v: nat :| v < |s.workers| && LockedByMark(s, v, m) { assert Blocks(s, w, v, m); }
    if v: nat :| Blocks(s, w, v, m) { assert LockedByRun(s, w, v, m) || LockedByMark(s, v, m); }
  }
}
