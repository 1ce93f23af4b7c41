/** Building blocks of concrete runs: how a message of a small world comes to be read, sent and settled. */
module Scenarios {
  import opened Base
  import opened Counting
  import opened Tables
  import opened Engine
  import opened Shapes
  import Classify
  import Routing

  ghost predicate Reachable(c: Config, origin: State, s: State) { exists acts :: Reaches(c, origin, acts, s) }

  lemma Then(c: Config, origin: State, s: State, a: Action, t: State)
    requires Reachable(c, origin, s) && Step(c, s, a) == Some(t)
    ensures Reachable(c, origin, t)
  {
    var acts :| Reaches(c, origin, acts, s);
    ExecSnoc(c, origin, acts, s, a, t);
    assert Reaches(c, origin, acts + [a], t);
  }

  // A small world: one customer, one provider, one route onto one shared pool.

  const MAIL := Mail("c", "x", "p", false, "d")

  const ROUTE := Routing.Route(1, "p", Some(1), true)

  function PoolOf(limit: Option<int>): Routing.Pool { Routing.Pool(1, Routing.Shared, None, None, limit) }

  function Small(maxAttempts: nat, limit: Option<int>): Config {
    Config(maxAttempts, map["c" := 0], Routing.Tables([ROUTE], [PoolOf(limit)]))
  }

  function Empty(workers: seq<Worker>): State {
    State(0, Db([], [], {}, map["c" := Trusted]), Stream([], 0), {}, workers, Tally(0, 0, 0, 0, 0, 0),
          History(0, 0, map[], map[]))
  }

  function PlanAt(limit: Option<int>, now: Time): Plan { Plan(Routing.Decision(ROUTE, PoolOf(limit)), now) }

  lemma SmallRoutes(maxAttempts: nat, limit: Option<int>)
    ensures Routing.Select(Small(maxAttempts, limit).routing, "p", "c") == Some(PlanAt(limit, 0).decision)
    ensures Routing.UniquePools(Small(maxAttempts, limit).routing)
  {
    var pools := [PoolOf(limit)];
    assert pools[1..] == [];
    assert Routing.DedicatedPool(pools, "c") == None;
    assert Routing.SharedPools(pools) == pools;
    assert Routing.RoutesFor([ROUTE], "p") == [ROUTE];
    assert Routing.PoolWithId(pools, 1) == Some(PoolOf(limit));
  }

  /** An accepted message that waits for its handler's XADD. */
  lemma IsAccepted(c: Config, origin: State, s: State, mail: Mail)
    requires Reachable(c, origin, s)
    ensures Reachable(c, origin, AcceptStep(s, mail))
  {
    Then(c, origin, s, World(Accept(mail)), AcceptStep(s, mail));
  }

  // Running the pipeline.

  function On(s: State, w: nat, r: Run): State
    requires w < |s.workers|
  {
    SetWorker(s, w, s.workers[w].(run := Some(r)))
  }

  lemma Look(c: Config, origin: State, s: State, w: nat, r: Run, i: Input, pc: Point)
    requires w < |s.workers| && Reachable(c, origin, On(s, w, r))
    requires ReadsOnly(r.pc) && r.msg < |s.db.messages| && AfterRead(c, On(s, w, r), r, i) == pc
    ensures Reachable(c, origin, On(s, w, r.(pc := pc)))
  {
    var t := On(s, w, r.(pc := pc));
    assert t.workers == On(s, w, r).workers[w := t.workers[w]];
    Then(c, origin, On(s, w, r), Consume(w, Work(i)), t);
  }

  /** Nothing in the small world stops a run on m short of the caps. */
  predicate Calm(s: State, m: MessageId) {
    && m < |s.db.messages| && s.db.messages[m].mail == MAIL && !Terminal(s.db.messages[m].row.status)
    && s.db.sendingState == map["c" := Trusted] && s.db.suppressed == {}
  }

  lemma RunsToPoolCap(maxAttempts: nat, limit: Option<int>, origin: State, s: State, w: nat, r: Run)
    requires w < |s.workers| && Reachable(Small(maxAttempts, limit), origin, On(s, w, r))
    requires r.pc.AtLoad? && Calm(s, r.msg)
    ensures Reachable(Small(maxAttempts, limit), origin,
                      On(s, w, Run(r.entry, r.msg, AtPoolCap(PlanAt(limit, s.now)), MAIL, s.db.messages[r.msg].row)))
  {
    var c := Small(maxAttempts, limit);
    var q := r.(pc := AtCustomer, mail := MAIL, seen := s.db.messages[r.msg].row);
    var t := On(s, w, q);
    assert t.workers == On(s, w, r).workers[w := t.workers[w]];
    Then(c, origin, On(s, w, r), Consume(w, Work(NO_INPUT)), t);
    var p := PlanAt(limit, s.now);
    SmallRoutes(maxAttempts, limit);
    Look(c, origin, s, w, q, NO_INPUT, AtSuppression);
    Look(c, origin, s, w, q.(pc := AtSuppression), NO_INPUT, AtRoute);
    Look(c, origin, s, w, q.(pc := AtRoute), NO_INPUT, AtCustomerCap(p));
    Look(c, origin, s, w, q.(pc := AtCustomerCap(p)), NO_INPUT, AtPoolCap(p));
  }

  /** A run that nothing stops comes to mark its message sending. */
  lemma RunsToMark(maxAttempts: nat, limit: Option<int>, origin: State, s: State, w: nat, r: Run)
    requires w < |s.workers| && Reachable(Small(maxAttempts, limit), origin, On(s, w, r))
    requires r.pc.AtLoad? && Calm(s, r.msg) && (limit.Some? ==> CountSendsToday(s.db, 1, s.now) < limit.value)
    ensures var q := Run(r.entry, r.msg, AtMarkSending(PlanAt(limit, s.now)), MAIL, s.db.messages[r.msg].row);
            Reachable(Small(maxAttempts, limit), origin, On(s, w, q))
  {
    var c, p := Small(maxAttempts, limit), PlanAt(limit, s.now);
    var q := r.(pc := AtPoolCap(p), mail := MAIL, seen := s.db.messages[r.msg].row);
    RunsToPoolCap(maxAttempts, limit, origin, s, w, r);
    Look(c, origin, s, w, q, NO_INPUT, AtThrottle(p));
    Look(c, origin, s, w, q.(pc := AtThrottle(p)), NO_INPUT, AtMarkSending(p));
  }

  lemma HeldAtPool(c: Config, s: State, r: Run, limit: int)
    requires r.pc == AtPoolCap(PlanAt(Some(limit), s.now)) && 0 <= limit <= CountSendsToday(s.db, 1, s.now)
    ensures AfterRead(c, s, r, NO_INPUT)
            == AtSettle(Held(WarmupLimit, s.now + HOUR), Some(LaneOf(r.pc.p)), r.seen.attempts)
  {
  }

  /** A run that finds the pool's cap used up comes to defer its message for an hour. */
  lemma ComesToHold(c: Config, limit: int, origin: State, s: State, w: nat, q: Run)
    requires w < |s.workers| && Reachable(c, origin, On(s, w, q)) && q.msg < |s.db.messages|
    requires q.pc == AtPoolCap(PlanAt(Some(limit), s.now)) && 0 <= limit <= CountSendsToday(s.db, 1, s.now)
    ensures Reachable(c, origin, On(s, w, q.(pc := HeldPoint(q, s.now))))
  {
    HeldAtPool(c, On(s, w, q), q, limit);
    Look(c, origin, s, w, q, NO_INPUT, HeldPoint(q, s.now));
  }

  function HeldPoint(q: Run, now: Time): Point
    requires q.pc.AtPoolCap?
  {
    AtSettle(Held(WarmupLimit, now + HOUR), Some(LaneOf(q.pc.p)), q.seen.attempts)
  }

  /** Beside the tables only the run of w has changed. */
  ghost predicate Framed(s: State, w: nat, t: State) {
    && SameOthers(s, w, t) && t.workers[w] == s.workers[w].(run := t.workers[w].run)
    && t.now == s.now && t.q == s.q && t.adding == s.adding
    && t.hist.faults == s.hist.faults && |t.db.messages| == |s.db.messages|
  }

  /** A run makes a write other than recording an attempt. */
  lemma Calls(c: Config, origin: State, s: State, w: nat) returns (t: State)
    requires Reachable(c, origin, s) && Running(s, w) && s.workers[w].run.value.msg < |s.db.messages|
    requires var pc := s.workers[w].run.value.pc;
             && !ReadsOnly(pc) && !pc.AtLoad? && !pc.AtAck? && !pc.AtRecord? && !pc.AtSuppress?
             && (pc.AtLogRetry? ==> pc.out.Retry?)
    ensures Reachable(c, origin, t) && Plain(s, w, t) && Framed(s, w, t)
    ensures t.db.sendingState == s.db.sendingState && t.db.suppressed == s.db.suppressed
    ensures Step(c, s, Consume(w, Work(NO_INPUT))) == Some(t)
  {
    t := WriteStep(c, s, w, s.workers[w].run.value, NO_INPUT).value;
    Then(c, origin, s, Consume(w, Work(NO_INPUT)), t);
    WriteShape(c, s, w, NO_INPUT, t);
    PlainShape(c, s, w, NO_INPUT, t);
  }

  lemma Records(c: Config, origin: State, s: State, w: nat) returns (t: State)
    requires Reachable(c, origin, s) && Running(s, w)
    requires s.workers[w].run.value.pc.AtRecord? && s.workers[w].run.value.msg < |s.db.messages|
    ensures Reachable(c, origin, t) && Framed(s, w, t)
    ensures var r := s.workers[w].run.value;
            && t.db == WriteDeliveryAttempt(s.db, AttemptOf(s, r))
            && Moves(s, w, t, OutcomePoint(c, r.pc.p, r.pc.kind, r.seen.attempts + 1, 0))
  {
    t := WriteStep(c, s, w, s.workers[w].run.value, NO_INPUT).value;
    Then(c, origin, s, Consume(w, Work(NO_INPUT)), t);
    WriteShape(c, s, w, NO_INPUT, t);
    RecordShape(c, s, w, NO_INPUT, t);
  }

  /** A run marks its message sending and logs it. */
  lemma ComesToPolicy(c: Config, origin: State, s: State, w: nat) returns (t: State)
    requires Reachable(c, origin, s) && Running(s, w)
    requires s.workers[w].run.value.pc.AtMarkSending? && s.workers[w].run.value.msg < |s.db.messages|
    ensures Reachable(c, origin, t) && Framed(s, w, t)
    ensures var r := s.workers[w].run.value;
            OnlyMessage(s, t, r.msg) && t.workers[w].run == Some(r.(pc := AtPolicy(r.pc.p)))
    ensures t.db.attempts == s.db.attempts && t.db.suppressed == s.db.suppressed
    ensures t.db.sendingState == s.db.sendingState
  {
    var u := Calls(c, origin, s, w);
    t := Calls(c, origin, u, w);
  }

  /** The reply comes in. */
  lemma Hears(c: Config, origin: State, s: State, w: nat, kind: Classify.Kind) returns (t: State)
    requires Reachable(c, origin, s) && Running(s, w)
    requires s.workers[w].run.value.pc.AtPolicy? && s.workers[w].run.value.msg < |s.db.messages|
    ensures Reachable(c, origin, t) && t == Goto(s, w, AtRecord(s.workers[w].run.value.pc.p, kind))
  {
    t := Goto(s, w, AtRecord(s.workers[w].run.value.pc.p, kind));
    Then(c, origin, s, Consume(w, Work(Input(false, kind, 0))), t);
  }

  /** A run marks its message sending and records an attempt that meets the given reply. */
  lemma Sends(c: Config, origin: State, s: State, w: nat, kind: Classify.Kind) returns (t: State)
    requires Reachable(c, origin, s) && Running(s, w)
    requires s.workers[w].run.value.pc.AtMarkSending? && s.workers[w].run.value.msg < |s.db.messages|
    ensures Reachable(c, origin, t) && Framed(s, w, t)
    ensures t.db.sendingState == s.db.sendingState && t.db.suppressed == s.db.suppressed
    ensures var r := s.workers[w].run.value;
            && OnlyMessage(s, t, r.msg)
            && t.workers[w].run == Some(r.(pc := OutcomePoint(c, r.pc.p, kind, r.seen.attempts + 1, 0)))
            && t.db.attempts == s.db.attempts + [AttemptOf(s, r.(pc := AtRecord(r.pc.p, kind)))]
  {
    var u := ComesToPolicy(c, origin, s, w);
    var v := Hears(c, origin, u, w, kind);
    t := Records(c, origin, v, w);
  }

  /** n messages accepted and added, none of them read yet. */
  function Added(workers: seq<Worker>, n: nat): State {
    var msg := Message(MAIL, NO_ROW, [EvAccepted, EvQueued]);
    Empty(workers).(db := Db(seq(n, _ => msg), [], {}, map["c" := Trusted]),
                    q := Stream(seq(n, i requires 0 <= i < n => Entry(i, Handler, false, 0)), 0))
  }

  lemma AddsOne(c: Config, origin: State, workers: seq<Worker>, n: nat)
    requires Reachable(c, origin, Added(workers, n))
    ensures Reachable(c, origin, Added(workers, n + 1))
  {
    var s := Added(workers, n);
    IsAccepted(c, origin, s, MAIL);
    var t := AcceptStep(s, MAIL);
    assert t.adding == {n};
    var u := Added(workers, n + 1);
    assert t.db.messages == u.db.messages;
    assert Enqueue(t.q, n, Handler).entries == u.q.entries;
    assert t.adding - {n} == {};
    Then(c, origin, t, World(HandlerAdd(n)), u);
  }

  lemma {:induction false} AddsReach(c: Config, workers: seq<Worker>, n: nat)
    requires c.maxAttempts >= 1 && forall w :: 0 <= w < |workers| ==> workers[w] == FRESH_WORKER
    ensures Reachable(c, Empty(workers), Added(workers, n))
  {
    var origin := Empty(workers);
    if n == 0 {
      assert Reaches(c, origin, [], origin);
      assert Added(workers, 0) == origin;
    } else {
      AddsReach(c, workers, n - 1);
      AddsOne(c, origin, workers, n - 1);
    }
  }

  /** Worker w reads the next entry and starts on it. */
  lemma TakesNext(c: Config, origin: State, s: State, w: nat)
    requires Reachable(c, origin, s) && Unoccupied(s, w) && s.q.cursor < |s.q.entries|
    ensures var e := s.q.cursor;
            Reachable(c, origin, On(s.(q := Read(s.q, 1, s.now)), w, FreshRun(e, s.q.entries[e].msg)))
  {
    var e := s.q.cursor;
    assert ReadIds(s.q, 1) == {e};
    var t := SetWorker(s.(q := Read(s.q, 1, s.now)), w, s.workers[w].(batch := {e}));
    Then(c, origin, s, Consume(w, ReadStream(1)), t);
    var u := On(s.(q := Read(s.q, 1, s.now)), w, FreshRun(e, s.q.entries[e].msg));
    assert t.workers[w].batch - {e} == {};
    assert u.workers == t.workers[w := u.workers[w]];
    Then(c, origin, t, Consume(w, Start(e)), u);
  }

  /** After a minute worker w takes over entry e and starts on it. */
  lemma TakesOver(c: Config, origin: State, s: State, w: nat, e: EntryId) returns (t: State)
    requires Reachable(c, origin, s) && Unoccupied(s, w) && Idle(s.q, e, s.now + MINUTE)
    ensures t.db == s.db && t.now == s.now + MINUTE && t.workers == s.workers && |t.q.entries| == |s.q.entries|
    ensures t.hist == s.hist && t.adding == s.adding && t.q.cursor == s.q.cursor
    ensures Reachable(c, origin, On(t, w, FreshRun(e, s.q.entries[e].msg)))
  {
    var s1 := s.(now := s.now + MINUTE);
    Then(c, origin, s, World(Tick(MINUTE)), s1);
    assert |{e}| == 1;
    var s2 := ReclaimStep(s1, w, {e}).value;
    Then(c, origin, s1, Consume(w, ReclaimIdle({e})), s2);
    t := s2.(workers := s.workers);
    var u := On(t, w, FreshRun(e, s.q.entries[e].msg));
    assert s2.workers[w].batch - {e} == {};
    assert u.workers == s2.workers[w := u.workers[w]];
    Then(c, origin, s2, Consume(w, Start(e)), u);
  }

  const ONE: seq<Worker> := [FRESH_WORKER]

  const TWO: seq<Worker> := [FRESH_WORKER, FRESH_WORKER]

  /** Worker w comes to mark the message of the next entry. */
  lemma MarksNext(maxAttempts: nat, limit: Option<int>, origin: State, s: State, w: nat) returns (t: State)
    requires var c := Small(maxAttempts, limit); Reachable(c, origin, s) && Unoccupied(s, w)
    requires s.q.cursor < |s.q.entries| && Calm(s, s.q.entries[s.q.cursor].msg)
    requires limit.Some? ==> CountSendsToday(s.db, 1, s.now) < limit.value
    ensures Reachable(Small(maxAttempts, limit), origin, t) && t.db == s.db && t.now == s.now && t.hist == s.hist
    ensures t.adding == s.adding
    ensures SameOthers(s, w, t) && t.q == Read(s.q, 1, s.now)
    ensures var e := s.q.cursor;
            && t.workers[w].run == Some(Run(e, s.q.entries[e].msg, AtMarkSending(PlanAt(limit, s.now)), MAIL,
                                            s.db.messages[s.q.entries[e].msg].row))
            && t.workers[w].batch == {} && t.workers[w].poller == s.workers[w].poller
  {
    var c := Small(maxAttempts, limit);
    var e := s.q.cursor;
    TakesNext(c, origin, s, w);
    var u := s.(q := Read(s.q, 1, s.now));
    RunsToMark(maxAttempts, limit, origin, u, w, FreshRun(e, s.q.entries[e].msg));
    t := On(u, w, Run(e, s.q.entries[e].msg, AtMarkSending(PlanAt(limit, s.now)), MAIL,
                      s.db.messages[s.q.entries[e].msg].row));
  }

  lemma Delivers(c: Config, origin: State, s: State, w: nat) returns (t: State)
    requires Reachable(c, origin, s) && Running(s, w)
    requires s.workers[w].run.value.pc.AtMarkSending? && s.workers[w].run.value.msg < |s.db.messages|
    ensures Reachable(c, origin, t) && Framed(s, w, t) && OnlyMessage(s, t, s.workers[w].run.value.msg)
    ensures t.db.messages[s.workers[w].run.value.msg].row.status == Delivered
    ensures var r := s.workers[w].run.value;
            t.workers[w].run == Some(r.(pc := AtLog(Outcome.Accepted, r.seen.attempts + 1)))
  {
    var u := Sends(c, origin, s, w, Classify.Delivered);
    t := Calls(c, origin, u, w);
  }

  // How two workers can lose a message.

  /** An ack that comes due. */
  lemma AcksDue(c: Config, origin: State, s: State, w: nat) returns (t: State)
    requires Reachable(c, origin, s) && Running(s, w) && s.workers[w].run.value.pc.AtAck?
    ensures Reachable(c, origin, t) && Acks(s, w, t)
  {
    t := AckStep(s, w, s.workers[w].run.value);
    Then(c, origin, s, Consume(w, Work(NO_INPUT)), t);
  }

  /** A worker finishes the log of a delivered message and acks. */
  lemma FinishesDelivered(c: Config, origin: State, s: State, w: nat) returns (t: State)
    requires Reachable(c, origin, s) && Running(s, w) && s.workers[w].run.value.msg < |s.db.messages|
    requires s.workers[w].run.value.pc.AtLog? && s.workers[w].run.value.pc.out == Outcome.Accepted
    ensures Reachable(c, origin, t) && SameOthers(s, w, t) && t.adding == s.adding && t.hist == s.hist
    ensures |t.db.messages| == |s.db.messages|
    ensures t.db.messages[s.workers[w].run.value.msg].row == s.db.messages[s.workers[w].run.value.msg].row
    ensures t.workers[w] == s.workers[w].(run := None) && t.q == Ack(s.q, s.workers[w].run.value.entry)
  {
    var u := Calls(c, origin, s, w);
    t := AcksDue(c, origin, u, w);
  }

  /** A worker finishes the log of a retried message and acks. */
  lemma FinishesRetried(c: Config, origin: State, s: State, w: nat) returns (t: State)
    requires Reachable(c, origin, s) && Running(s, w) && s.workers[w].run.value.msg < |s.db.messages|
    requires s.workers[w].run.value.pc.AtLog? && s.workers[w].run.value.pc.out.Retry?
    ensures Reachable(c, origin, t) && SameOthers(s, w, t) && t.adding == s.adding && t.hist == s.hist
    ensures |t.db.messages| == |s.db.messages|
    ensures t.db.messages[s.workers[w].run.value.msg].row == s.db.messages[s.workers[w].run.value.msg].row
    ensures t.workers[w] == s.workers[w].(run := None) && t.q == Ack(s.q, s.workers[w].run.value.entry)
  {
    var u := Calls(c, origin, s, w);
    var v := Calls(c, origin, u, w);
    t := AcksDue(c, origin, v, w);
  }
}
