/** Any number of workers: what acceptance leaves behind is written once. */
module Arrivals {
  import opened Base
  import opened Counting
  import opened Tables
  import opened Engine
  import opened Shapes

  /** The log opens with accepted and queued, and neither is written again. */
  predicate Opened(log: seq<Event>) {
    |log| >= 2 && log[0] == EvAccepted && log[1] == EvQueued
    && forall i :: 2 <= i < |log| ==> log[i] != EvAccepted && log[i] != EvQueued
  }

  function FromHandler(m: MessageId): Entry -> bool { (e: Entry) => e.msg == m && e.source == Handler }

  /** A message has at most one handler XADD, made or pending, and none before it exists. */
  predicate AddedOnce(s: State, m: MessageId) {
    Count(s.q.entries, FromHandler(m)) + (if m in s.adding then 1 else 0) <= if m < |s.db.messages| then 1 else 0
  }

  ghost predicate Arrived(s: State) {
    && (forall m :: 0 <= m < |s.db.messages| ==> Opened(s.db.messages[m].log))
    && (forall m: MessageId :: AddedOnce(s, m))
  }

  /** Each handler entry is a pending XADD that was made. */
  lemma AddsStep(c: Config, s: State, a: Action, t: State, m: MessageId)
    requires Step(c, s, a) == Some(t)
    requires AddedOnce(s, m)
    ensures AddedOnce(t, m)
  {
    match a
    case World(e) => if e.HandlerAdd? { CountAppend(s.q.entries, Entry(e.m, Handler, false, 0), FromHandler(m)); }
    case Poll(w, k) =>
      PollerShape(s, w, k, t);
      if k.Add? { CountAppend(s.q.entries, Entry(s.workers[w].poller.msg, Poller, false, 0), FromHandler(m)); }
    case Consume(w, d) => AddsConsume(c, s, w, d, t, m);
  }

  lemma AddsConsume(c: Config, s: State, w: nat, d: ConsumerAction, t: State, m: MessageId)
    requires ConsumerStep(c, s, w, d) == Some(t)
    ensures Count(t.q.entries, FromHandler(m)) == Count(s.q.entries, FromHandler(m))
    ensures t.adding == s.adding && |t.db.messages| == |s.db.messages|
  {
    if d.Work? { WorkShape(c, s, w, d.input, t); } else { QuietShape(c, s, w, d, t); }
    SameEntries(c, s, w, d, t);
    CountAgree(s.q.entries, t.q.entries, FromHandler(m));
  }

  /** A consumer delivers and acks entries; it does not add or redirect any. */
  lemma SameEntries(c: Config, s: State, w: nat, d: ConsumerAction, t: State)
    requires ConsumerStep(c, s, w, d) == Some(t)
    ensures |t.q.entries| == |s.q.entries|
    ensures forall e :: 0 <= e < |s.q.entries| ==>
              t.q.entries[e].msg == s.q.entries[e].msg && t.q.entries[e].source == s.q.entries[e].source
  {
    if d.Work? { WorkShape(c, s, w, d.input, t); }
  }

  lemma OpenedStep(c: Config, s: State, a: Action, t: State)
    requires Step(c, s, a) == Some(t) && forall m :: 0 <= m < |s.db.messages| ==> Opened(s.db.messages[m].log)
    ensures forall m :: 0 <= m < |t.db.messages| ==> Opened(t.db.messages[m].log)
  {
    match a
    case World(e) => WorldShape(s, e, t);
    case Poll(w, k) => PollerShape(s, w, k, t);
    case Consume(w, d) =>
      if d.Work? { OpenedWork(c, s, w, d.input, t); } else { QuietShape(c, s, w, d, t); }
  }

  lemma OpenedWork(c: Config, s: State, w: nat, i: Input, t: State)
    requires WorkStep(c, s, w, i) == Some(t) && forall m :: 0 <= m < |s.db.messages| ==> Opened(s.db.messages[m].log)
    ensures forall m :: 0 <= m < |t.db.messages| ==> Opened(t.db.messages[m].log)
  {
    WorkShape(c, s, w, i, t);
    if Writes(c, s, w, i, t) {
      if s.workers[w].run.value.pc.AtRecord? { RecordShape(c, s, w, i, t); } else { PlainShape(c, s, w, i, t); }
    }
  }

  lemma {:induction false} ArrivedAlways(c: Config, s: State, acts: seq<Action>, t: State)
    requires Reaches(c, s, acts, t)
    ensures Arrived(t)
    decreases |acts|
  {
    if acts != [] {
      var u := Exec(c, s, acts[..|acts| - 1]).value;
      ArrivedAlways(c, s, acts[..|acts| - 1], u);
      OpenedStep(c, u, acts[|acts| - 1], t);
      forall m: MessageId
        ensures AddedOnce(t, m) {
        AddsStep(c, u, acts[|acts| - 1], t, m);
      }
    }
  }
}
