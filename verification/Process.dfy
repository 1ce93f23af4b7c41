/**
 One worker process: the consumer loop that runs and acks entries, and the poller that re-injects
 deferred messages.
 */
module Processes {
  import opened Base
  import opened Deeds
  import opened Tables
  import opened Engine
  import opened Stores
  import opened Processors
  import Caps
  import Conservation
  import NoLoss
  import Shapes

  class Consumer {
    const proc: Processor
    const st: Store

    ghost predicate Valid()
      reads this, proc, proc.st, proc.limiter
    {
      st == proc.st && proc.Valid()
    }

    /** Nothing under way and nothing left of a batch. */
    ghost predicate Resting()
      reads this, proc, proc.st, proc.limiter, st
    {
      Valid() && st.MyRun().None? && st.MyBatch() == {}
    }

    constructor (proc: Processor)
      requires proc.Valid()
      ensures Valid() && this.proc == proc && this.st == proc.st
    {
      this.proc, this.st := proc, proc.st;
    }

    /** Runs one entry and acks it, unless the pipeline reported an error: then it stays pending. */
    method ProcessEntry(e: EntryId)
      requires Valid() && st.MyRun().None? && e in st.MyBatch()
      modifies st, proc.limiter
      ensures Valid() && old(st.acts) <= st.acts && st.MyRun().None? && st.MyBatch() == old(st.MyBatch()) - {e}
      ensures st.asked == old(st.asked) && Handled(old(st.deeds), e, st.deeds)
    {
      var m := st.Begin(e);
      var rolledLimit: bool, draw: nat := *, *;
      ghost var sent, seen;
      var ok;
      ok, sent, seen := proc.Process(m, rolledLimit, draw);
      if !ok { return; }
      var acked := st.Ack(e);
    }

    /** Stranded entries are taken over and run, if there are any; order says in which order. */
    method ReclaimAndProcess() returns (ghost order: seq<EntryId>)
      requires Resting()
      modifies st, proc.limiter
      ensures Resting() && old(st.acts) <= st.acts
      ensures st.asked == old(st.asked).(reclaims := old(st.asked).reclaims + 1)
      ensures Turned(old(st.deeds), Idle(order), st.deeds)
    {
      var ids := st.Reclaim();
      order := RunStranded(ids);
      MembersOf(order);
    }

    method RunStranded(ids: set<EntryId>) returns (ghost order: seq<EntryId>)
      requires Valid() && st.MyRun().None? && st.MyBatch() == ids
      modifies st, proc.limiter
      ensures Resting() && old(st.acts) <= st.acts && st.asked == old(st.asked)
      ensures Once(order) && Members(order) == ids && AllHandled(old(st.deeds), order, st.deeds)
    {
      var entries := ids;
      order := [];
      while entries != {}
        invariant Valid() && old(st.acts) <= st.acts && st.MyRun().None? && st.MyBatch() == entries
        invariant st.asked == old(st.asked) && AllHandled(old(st.deeds), order, st.deeds)
        invariant Once(order) && Members(order) !! entries && Members(order) + entries == ids
      {
        var e :| e in entries;
        ghost var before := st.deeds;
        ProcessEntry(e);
        AllHandledGrows(old(st.deeds), order, before, e, st.deeds);
        order, entries := order + [e], entries - {e};
      }
    }

    /**
     A first reclaim, and then one turn a round: the entries a read brings are run in order, and after a
     read that brings none the stranded ones are taken over.
     */
    method RunConsumer(rounds: nat) returns (ghost turns: seq<Turn>)
      requires Resting()
      modifies st, proc.limiter
      ensures Resting() && old(st.acts) <= st.acts
      ensures |turns| == rounds + 1 && turns[0].Idle? && AllTurned(old(st.deeds), turns, st.deeds)
      ensures st.asked.fetches == old(st.asked).fetches + rounds
      ensures st.asked.reclaims == old(st.asked).reclaims + IdleTurns(turns)
      ensures st.asked.lists == old(st.asked).lists
    {
      ghost var order := ReclaimAndProcess();
      turns := [Idle(order)];
      AllTurnedGrows(old(st.deeds), [], old(st.deeds), Idle(order), st.deeds);
      for round := 0 to rounds
        invariant Resting() && old(st.acts) <= st.acts
        invariant |turns| == round + 1 && turns[0].Idle? && AllTurned(old(st.deeds), turns, st.deeds)
        invariant st.asked.fetches == old(st.asked).fetches + round
        invariant st.asked.reclaims == old(st.asked).reclaims + IdleTurns(turns)
        invariant st.asked.lists == old(st.asked).lists
      {
        ghost var before := st.deeds;
        ghost var turn := TakeTurn();
        AllTurnedGrows(old(st.deeds), turns, before, turn, st.deeds);
        turns := turns + [turn];
      }
    }

    method TakeTurn() returns (ghost turn: Turn)
      requires Resting()
      modifies st, proc.limiter
      ensures Resting() && old(st.acts) <= st.acts && Turned(old(st.deeds), turn, st.deeds)
      ensures st.asked.fetches == old(st.asked).fetches + 1 && st.asked.lists == old(st.asked).lists
      ensures st.asked.reclaims == old(st.asked).reclaims + if turn.Idle? then 1 else 0
    {
      var entries := st.Read();
      if |entries| == 0 {
        ghost var order := ReclaimAndProcess();
        turn := Idle(order);
      } else {
        assert Members(entries) == st.MyBatch();
        RunEntries(entries);
        turn := Busy(entries);
      }
    }

    method RunEntries(entries: seq<EntryId>)
      requires Valid() && st.MyRun().None? && Members(entries) == st.MyBatch() && Once(entries)
      modifies st, proc.limiter
      ensures Resting() && old(st.acts) <= st.acts
      ensures st.asked == old(st.asked) && AllHandled(old(st.deeds), entries, st.deeds)
    {
      for i := 0 to |entries|
        invariant Valid() && old(st.acts) <= st.acts && st.MyRun().None?
        invariant st.MyBatch() == Members(entries[i..])
        invariant st.asked == old(st.asked) && AllHandled(old(st.deeds), entries[..i], st.deeds)
      {
        MembersFrom(entries, i);
        ghost var before := st.deeds;
        ProcessEntry(entries[i]);
        AllHandledGrows(old(st.deeds), entries[..i], before, entries[i], st.deeds);
        assert entries[..i] + [entries[i]] == entries[..i + 1];
      }
      assert entries[..|entries|] == entries;
    }
  }

  class DeferredPoller {
    const st: Store

    constructor (st: Store)
      ensures this.st == st
    {
      this.st := st;
    }

    /** One id of the list: marked queued and then added; a failed mark skips the add. */
    method Requeue(m: MessageId, ghost rest: seq<MessageId>)
      requires st.Valid() && st.MyPoller() == Marking([m] + rest)
      modifies st
      ensures st.Valid() && old(st.acts) <= st.acts && st.MyPoller() == Resume(rest) && st.SameTalk()
      ensures || st.chores == Noted(old(st.chores), MarkFailed(m))
              || st.chores == Noted(Noted(old(st.chores), Marked(m)), Added(m))
              || st.chores == Noted(Noted(old(st.chores), Marked(m)), AddFailed(m))
    {
      var ok := st.MarkQueued(m, rest);
      if !ok { return; }
      ok := st.Enqueue(m, rest);
    }

    /** One tick: every id of the answer in order, or nothing when the query failed. */
    method Tick() returns (ghost answer: Option<seq<MessageId>>)
      requires st.Valid() && st.MyPoller().Resting?
      modifies st
      ensures st.Valid() && old(st.acts) <= st.acts && st.MyPoller().Resting?
      ensures st.asked == old(st.asked).(lists := old(st.asked).lists + 1)
      ensures Ticked(old(st.chores), answer, st.chores)
    {
      var ok, ids := st.GetDeferredMessagesReady();
      answer := if ok then Some(ids) else None;
      if !ok { return; }
      ghost var listed, asked := st.chores, st.asked;
      for i := 0 to |ids|
        invariant st.Valid() && old(st.acts) <= st.acts && st.MyPoller() == Resume(ids[i..])
        invariant st.asked == asked && WorkedOff(listed, ids[..i], st.chores)
      {
        assert ids[i..] == [ids[i]] + ids[i + 1..];
        ghost var before := st.chores;
        Requeue(ids[i], ids[i + 1..]);
        assert ids[..i + 1][..i] == ids[..i];
      }
      assert ids[..|ids|] == ids;
    }

    /** Each tick asks once for the ready messages, and works off whatever list it gets. */
    method RunDeferredPoller(ticks: nat) returns (ghost answers: seq<Option<seq<MessageId>>>)
      requires st.Valid() && st.MyPoller().Resting?
      modifies st
      ensures st.Valid() && old(st.acts) <= st.acts && st.MyPoller().Resting?
      ensures |answers| == ticks && AllTicked(old(st.chores), answers, st.chores)
      ensures st.asked == old(st.asked).(lists := old(st.asked).lists + ticks)
    {
      answers := [];
      for tick := 0 to ticks
        invariant st.Valid() && old(st.acts) <= st.acts && st.MyPoller().Resting?
        invariant |answers| == tick && AllTicked(old(st.chores), answers, st.chores)
        invariant st.asked == old(st.asked).(lists := old(st.asked).lists + tick)
      {
        ghost var before := st.chores;
        ghost var answer := Tick();
        AllTickedGrows(old(st.chores), answers, before, answer, st.chores);
        answers := answers + [answer];
      }
    }
  }

  /**
   Whatever the code of a process has done: an accepted message is in hand or was dropped and not taken up
   since, no pool is over its cap, and the counters balance.
   */
  lemma CodeIsSafe(st: Store, m: MessageId, pool: Routing.Pool, date: int)
    requires st.Valid() && m < |st.s.db.messages|
    requires pool in st.config.routing.pools && Routing.UniquePools(st.config.routing)
    requires Routing.CapOnlyLoosens(pool, st.origin.now)
    ensures NoLoss.InHand(st.s, m)
            || exists k :: 0 <= k < |st.acts| && NoLoss.DroppedSince(st.config, st.origin, st.acts, m, k)
    ensures var cap := Routing.WarmupCap(pool, st.s.now);
            cap >= 0 ==> Caps.Recorded(st.s.db.attempts, Caps.OfPool(pool), date) <= cap + |st.origin.workers| - 1
    ensures st.s.tally.attempts
            == st.s.tally.delivered + st.s.tally.bounced + st.s.tally.deadLettered + st.s.tally.deferred
               + Counting.Count(st.s.workers, Conservation.InDoubt()) + st.s.hist.abandoned
  {
    st.Tells();
    NoLoss.NoMessageLost(st.config, st.origin, st.acts, st.s, m);
    WorkersStay(st);
    Caps.PoolCapHolds(st.config, st.origin, st.acts, st.s, [], st.s, pool, date);
    Conservation.AttemptsAreConserved(st.config, st.origin, st.acts, st.s);
  }

  /** The number of processes is that of the beginning. */
  lemma WorkersStay(st: Store)
    requires st.Valid()
    ensures |st.origin.workers| == |st.s.workers| >= 1
  {
    st.Tells();
    SameWorkersAlways(st.config, st.origin, st.acts, st.s);
  }

  lemma {:induction false} SameWorkersAlways(c: Config, s: State, acts: seq<Action>, t: State)
    requires Exec(c, s, acts) == Some(t)
    ensures |t.workers| == |s.workers|
    decreases |acts|
  {
    if acts != [] {
      var u := Exec(c, s, acts[..|acts| - 1]).value;
      SameWorkersAlways(c, s, acts[..|acts| - 1], u);
      Shapes.SameWorkerCount(c, u, acts[|acts| - 1], t);
    }
  }
}
