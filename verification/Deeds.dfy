/** What one process has done in a schedule: its consumer's deeds and its poller's chores, in order. */
module Deeds {
  import opened Base
  import opened Tables
  import opened Engine
  import opened Shapes

  /** Notes taken one after the other. */
  datatype Diary<T> = Blank | Noted(before: Diary<T>, last: T)

  function Note<T>(diary: Diary<T>, entry: Option<T>): Diary<T> {
    if entry.Some? then Noted(diary, entry.value) else diary
  }

  /** Dropped: the run of an entry failed, and the entry stays pending. */
  datatype Deed =
    | Fetched(ids: set<EntryId>)
    | Reclaimed(ids: set<EntryId>)
    | Began(e: EntryId)
    | Recorded(row: Attempt)
    | Acked(e: EntryId)
    | Dropped(e: EntryId)

  function WorkDeed(r: Run, u: State): Option<Deed> {
    if r.pc.AtRecord? then Some(Recorded(AttemptOf(u, r)))
    else if r.pc.AtAck? then Some(Acked(r.entry))
    else None
  }

  /** What an action taken in state u is for the consumer of process w. */
  function DeedOf(u: State, a: Action, w: nat): Option<Deed> {
    match a
    case Consume(v, d) =>
      if v != w || w >= |u.workers| then None
      else
        (match d
         case ReadStream(count) => Some(Fetched(ReadIds(u.q, count)))
         case ReclaimIdle(ids) => Some(Reclaimed(ids))
         case Start(e) => Some(Began(e))
         case Work(_) => if u.workers[w].run.Some? then WorkDeed(u.workers[w].run.value, u) else None
         case Fail => if u.workers[w].run.Some? then Some(Dropped(u.workers[w].run.value.entry)) else None
         case _ => None)
    case _ => None
  }

  datatype Chore =
    | Listed(ids: seq<MessageId>)
    | Marked(m: MessageId)
    | MarkFailed(m: MessageId)
    | Added(m: MessageId)
    | AddFailed(m: MessageId)

  /** And for its poller. */
  function ChoreOf(u: State, a: Action, w: nat): Option<Chore> {
    match a
    case Poll(v, k) =>
      if v != w || w >= |u.workers| then None
      else
        var p := u.workers[w].poller;
        (match k
         case List(ids) => Some(Listed(ids))
         case Mark => if HasHead(u, w) then Some(Marked(p.ready[0])) else None
         case MarkFail => if HasHead(u, w) then Some(MarkFailed(p.ready[0])) else None
         case Add => if p.Adding? then Some(Added(p.msg)) else None
         case AddFail => if p.Adding? then Some(AddFailed(p.msg)) else None)
    case _ => None
  }

  ghost function DeedsOf(c: Config, s: State, acts: seq<Action>, w: nat): Diary<Deed> {
    if acts == [] then Blank
    else
      var before := acts[..|acts| - 1];
      match Exec(c, s, before)
      case None => Blank
      case Some(u) => Note(DeedsOf(c, s, before, w), DeedOf(u, acts[|acts| - 1], w))
  }

  ghost function ChoresOf(c: Config, s: State, acts: seq<Action>, w: nat): Diary<Chore> {
    if acts == [] then Blank
    else
      var before := acts[..|acts| - 1];
      match Exec(c, s, before)
      case None => Blank
      case Some(u) => Note(ChoresOf(c, s, before, w), ChoreOf(u, acts[|acts| - 1], w))
  }

  // A schedule with its states written out.

  /** What there is to know about process w before each action and at the end. */
  datatype Moment = Moment(s: State, deeds: Diary<Deed>, chores: Diary<Chore>)

  ghost predicate Follows(c: Config, w: nat, x: Moment, a: Action, y: Moment) {
    Step(c, x.s, a) == Some(y.s) && y.deeds == Note(x.deeds, DeedOf(x.s, a, w))
    && y.chores == Note(x.chores, ChoreOf(x.s, a, w))
  }

  ghost predicate Links(c: Config, w: nat, acts: seq<Action>, trace: seq<Moment>, i: nat)
    requires i < |acts| < |trace|
  {
    Follows(c, w, trace[i], acts[i], trace[i + 1])
  }

  ghost predicate Trace(c: Config, w: nat, s: State, acts: seq<Action>, trace: seq<Moment>) {
    && |trace| == |acts| + 1 && Init(c, s) && trace[0] == Moment(s, Blank, Blank)
    && forall i: nat :: i < |acts| ==> Links(c, w, acts, trace, i)
  }

  lemma TraceGrows(c: Config, w: nat, s: State, acts: seq<Action>, trace: seq<Moment>, a: Action, y: Moment)
    requires Trace(c, w, s, acts, trace) && Follows(c, w, trace[|acts|], a, y)
    ensures Trace(c, w, s, acts + [a], trace + [y])
  {
    var longer, next := acts + [a], trace + [y];
    forall i: nat | i < |longer| ensures Links(c, w, longer, next, i) {
      if i < |acts| { assert Links(c, w, acts, trace, i); }
    }
  }

  /** A trace is what the schedule reaches, and what the process has done in it. */
  lemma {:induction false} TraceTells(c: Config, w: nat, s: State, acts: seq<Action>, trace: seq<Moment>)
    requires Trace(c, w, s, acts, trace)
    ensures Reaches(c, s, acts, trace[|acts|].s)
    ensures trace[|acts|].deeds == DeedsOf(c, s, acts, w) && trace[|acts|].chores == ChoresOf(c, s, acts, w)
    decreases |acts|
  {
    if acts != [] {
      var n := |acts| - 1;
      var before, passed := acts[..n], trace[..n + 1];
      forall i: nat | i < n ensures Links(c, w, before, passed, i) { assert Links(c, w, acts, trace, i); }
      TraceTells(c, w, s, before, passed);
      assert Links(c, w, acts, trace, n);
    }
  }

  /** At every moment of it. */
  lemma TracePasses(c: Config, w: nat, s: State, acts: seq<Action>, trace: seq<Moment>, k: nat)
    requires Trace(c, w, s, acts, trace) && k <= |acts|
    ensures Reaches(c, s, acts[..k], trace[k].s)
  {
    var before, passed := acts[..k], trace[..k + 1];
    forall i: nat | i < k ensures Links(c, w, before, passed, i) { assert Links(c, w, acts, trace, i); }
    TraceTells(c, w, s, before, passed);
  }

  // What the poller does in a tick.

  /** Each id of the list in order: marked and then added, where the XADD may fail; or its mark failed. */
  predicate WorkedOff(before: Diary<Chore>, ids: seq<MessageId>, after: Diary<Chore>)
    decreases |ids|
  {
    if ids == [] then after == before
    else
      var others, m := ids[..|ids| - 1], ids[|ids| - 1];
      && after.Noted?
      && if after.last == MarkFailed(m) then WorkedOff(before, others, after.before)
         else
           && (after.last == Added(m) || after.last == AddFailed(m))
           && after.before.Noted? && after.before.last == Marked(m)
           && WorkedOff(before, others, after.before.before)
  }

  /** The answer of its query, or None where it failed, and what was done with it. */
  predicate Ticked(before: Diary<Chore>, answer: Option<seq<MessageId>>, after: Diary<Chore>) {
    match answer
    case None => after == before
    case Some(ids) => WorkedOff(Noted(before, Listed(ids)), ids, after)
  }

  ghost predicate AllTicked(before: Diary<Chore>, answers: seq<Option<seq<MessageId>>>, after: Diary<Chore>)
    decreases |answers|
  {
    if answers == [] then after == before
    else
      var earlier, answer := answers[..|answers| - 1], answers[|answers| - 1];
      exists mid :: AllTicked(before, earlier, mid) && Ticked(mid, answer, after)
  }

  lemma AllTickedGrows(before: Diary<Chore>, answers: seq<Option<seq<MessageId>>>, mid: Diary<Chore>,
          answer: Option<seq<MessageId>>, after: Diary<Chore>)
    requires AllTicked(before, answers, mid) && Ticked(mid, answer, after)
    ensures AllTicked(before, answers + [answer], after)
  {
    assert (answers + [answer])[..|answers|] == answers;
  }

  // What the consumer does with an entry and with a batch.

  /** Begun, at most one attempt recorded, and acked or left pending. */
  predicate Handled(before: Diary<Deed>, e: EntryId, after: Diary<Deed>) {
    && after.Noted? && (after.last == Acked(e) || after.last == Dropped(e))
    && (|| after.before == Noted(before, Began(e))
        || (after.before.Noted? && after.before.last.Recorded? && after.before.before == Noted(before, Began(e))))
  }

  ghost predicate AllHandled(before: Diary<Deed>, order: seq<EntryId>, after: Diary<Deed>)
    decreases |order|
  {
    if order == [] then after == before
    else
      var earlier, e := order[..|order| - 1], order[|order| - 1];
      exists mid :: AllHandled(before, earlier, mid) && Handled(mid, e, after)
  }

  lemma AllHandledGrows(before: Diary<Deed>, order: seq<EntryId>, mid: Diary<Deed>, e: EntryId, after: Diary<Deed>)
    requires AllHandled(before, order, mid) && Handled(mid, e, after)
    ensures AllHandled(before, order + [e], after)
  {
    assert (order + [e])[..|order|] == order;
  }

  /** One turn of the consumer: the entries it read, or, after a read that brought none, those it reclaimed. */
  datatype Turn = Busy(order: seq<EntryId>) | Idle(order: seq<EntryId>)

  function Members(order: seq<EntryId>): set<EntryId> { set e | e in order }

  predicate Once(order: seq<EntryId>) { forall i, j :: 0 <= i < j < |order| ==> order[i] != order[j] }

  lemma MembersOf(order: seq<EntryId>)
    ensures Members(order) == {} <==> order == []
  {
    if order != [] { assert order[0] in Members(order); }
  }

  lemma MembersFrom(order: seq<EntryId>, i: nat)
    requires i < |order| && Once(order)
    ensures order[i] in Members(order[i..]) && Members(order[i + 1..]) == Members(order[i..]) - {order[i]}
    ensures order[0..] == order
  {
    assert order[i..] == [order[i]] + order[i + 1..];
  }

  /** Every entry of the turn's batch was handled, once, in order. */
  ghost predicate Turned(before: Diary<Deed>, turn: Turn, after: Diary<Deed>) {
    && Once(turn.order)
    && match turn
       case Busy(order) => order != [] && AllHandled(Noted(before, Fetched(Members(order))), order, after)
       case Idle(order) =>
         if order == [] then after == before else AllHandled(Noted(before, Reclaimed(Members(order))), order, after)
  }

  ghost predicate AllTurned(before: Diary<Deed>, turns: seq<Turn>, after: Diary<Deed>)
    decreases |turns|
  {
    if turns == [] then after == before
    else
      var earlier, turn := turns[..|turns| - 1], turns[|turns| - 1];
      exists mid :: AllTurned(before, earlier, mid) && Turned(mid, turn, after)
  }

  lemma AllTurnedGrows(before: Diary<Deed>, turns: seq<Turn>, mid: Diary<Deed>, turn: Turn, after: Diary<Deed>)
    requires AllTurned(before, turns, mid) && Turned(mid, turn, after)
    ensures AllTurned(before, turns + [turn], after)
    ensures IdleTurns(turns + [turn]) == IdleTurns(turns) + if turn.Idle? then 1 else 0
  {
    assert (turns + [turn])[..|turns|] == turns;
  }

  function IdleTurns(turns: seq<Turn>): nat {
    if turns == [] then 0 else IdleTurns(turns[..|turns| - 1]) + (if turns[|turns| - 1].Idle? then 1 else 0)
  }
}
