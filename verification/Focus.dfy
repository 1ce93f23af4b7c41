/** The system as one message sees it: which steps move it along, and which faults hit it. */
module Focus {
  import opened Base
  import opened Tables
  import opened Engine

  predicate Owes(p: PollerState, m: MessageId) { p.Adding? && p.msg == m }

  predicate OnList(p: PollerState, m: MessageId) {
    match p
    case Resting => false
    case Marking(ready) => m in ready
    case Adding(_, rest) => m in rest
  }

  /** The run means to settle m and has not done so. */
  predicate OpenRun(x: Worker, m: MessageId) { x.run.Some? && x.run.value.msg == m && !Closing(x.run.value.pc) }

  predicate Mentions(p: PollerState, m: MessageId) { Owes(p, m) || OnList(p, m) }

  /** The step moves m along, or is a fault that hits it. */
  predicate ActsOn(s: State, a: Action, m: MessageId) {
    match a
    case World(e) =>
      (match e
       case Accept(_) => m == |s.db.messages|
       case HandlerAdd(n) => n == m
       case HandlerDrop(n) => n == m
       case _ => false)
    case Consume(w, d) =>
      (match d
       case ReadStream(_) => false
       case ReclaimIdle(_) => false
       case Start(e) => e < |s.q.entries| && s.q.entries[e].msg == m
       case Crash => RunningOn(s, w, m) || (w < |s.workers| && Mentions(s.workers[w].poller, m))
       case _ => RunningOn(s, w, m))
    case Poll(w, k) =>
      w < |s.workers| &&
      (match k
       case List(ready) => m in ready
       case Mark => HasHead(s, w) && s.workers[w].poller.ready[0] == m
       case MarkFail => HasHead(s, w) && s.workers[w].poller.ready[0] == m
       case Add => Owes(s.workers[w].poller, m)
       case AddFail => Owes(s.workers[w].poller, m))
  }

  predicate FaultHits(s: State, a: Action, m: MessageId) { IsFault(a) && ActsOn(s, a, m) }

  /** No fault of the schedule hits m, whatever happens to other messages. */
  ghost predicate Untroubled(c: Config, s: State, acts: seq<Action>, m: MessageId) {
    acts == [] ||
    (var before := acts[..|acts| - 1];
     Untroubled(c, s, before, m)
     && match Exec(c, s, before)
        case None => true
        case Some(u) => !FaultHits(u, acts[|acts| - 1], m))
  }

  /** All that a worker on m can do besides its next call, without a fault, is skip it. */
  lemma OnlySkip(c: Config, s: State, w: nat, d: ConsumerAction, t: State, m: MessageId)
    requires ConsumerStep(c, s, w, d) == Some(t) && !d.Work? && RunningOn(s, w, m) && !FaultHits(s, Consume(w, d), m)
    ensures d.LoadLocked? && s.workers[w].run.value.pc.AtLoad? && t == Goto(s, w, AtAck)
  {
  }

  predicate FaultFree(acts: seq<Action>) { forall k :: 0 <= k < |acts| ==> !IsFault(acts[k]) }

  lemma {:induction false} FaultFreeIsUntroubled(c: Config, s: State, acts: seq<Action>, m: MessageId)
    requires FaultFree(acts)
    ensures Untroubled(c, s, acts, m)
  {
    if acts != [] { FaultFreeIsUntroubled(c, s, acts[..|acts| - 1], m); }
  }

  predicate Distinct(ids: seq<MessageId>) { forall i, j :: 0 <= i < j < |ids| ==> ids[i] != ids[j] }

  /** A poller's list names no message twice. */
  predicate TidyPoller(p: PollerState) {
    match p
    case Resting => true
    case Marking(ready) => Distinct(ready)
    case Adding(m, rest) => Distinct(rest) && m !in rest
  }

  lemma AfterHead(ready: seq<MessageId>, m: MessageId)
    requires ready != [] && Distinct(ready)
    ensures m in ready[1..] <==> m in ready && m != ready[0]
  {
    if m in ready && m != ready[0] {
      var i :| 0 <= i < |ready| && ready[i] == m;
      assert ready[1..][i - 1] == m;
    }
  }
}
