/**
 The tables and the stream as the code of one process uses them: one method per call, each of them
 one action of the engine, with everybody else free to act before it takes effect.
 */
module Stores {
  import opened Base
  import Counting
  import opened Tables
  import opened Engine
  import opened Shapes
  import opened Deeds
  import Caps
  import Classify
  import Knowledge
  import NoLoss
  import Routing
  import Simulate
  import Throttle

  /** Two parts of one process run side by side. */
  datatype Role = AsConsumer | AsPoller

  predicate Mine(me: nat, role: Role, a: Action) {
    match a
    case World(_) => false
    case Consume(w, d) => w == me && (role.AsConsumer? || d.Crash?)
    case Poll(w, _) => w == me && role.AsPoller?
  }

  /** What the others cannot take away from the process at me. */
  ghost predicate Standing(s: State, t: State, me: nat, role: Role) {
    && me < |s.workers| == |t.workers| && |s.db.messages| <= |t.db.messages|
    && (forall m :: 0 <= m < |s.db.messages| ==> t.db.messages[m].mail == s.db.messages[m].mail)
    && (role.AsConsumer? ==>
          t.workers[me].run == s.workers[me].run && t.workers[me].batch == s.workers[me].batch)
    && (role.AsPoller? ==> t.workers[me].poller == s.workers[me].poller)
  }

  lemma OthersKeepStanding(c: Config, s: State, a: Action, t: State, me: nat, role: Role)
    requires Step(c, s, a) == Some(t) && me < |s.workers| && !Mine(me, role, a)
    ensures Standing(s, t, me, role)
  {
    match a
    case World(e) => WorldShape(s, e, t);
    case Poll(w, k) => PollerShape(s, w, k, t);
    case Consume(w, d) =>
      if d.Work? { WorkShape(c, s, w, d.input, t); }
      else {
        QuietShape(c, s, w, d, t);
        if w == me { OwnPollerStands(c, s, w, d, t); }
      }
  }

  lemma OwnPollerStands(c: Config, s: State, w: nat, d: ConsumerAction, t: State)
    requires ConsumerStep(c, s, w, d) == Some(t) && !d.Work? && !d.Crash?
    ensures w < |s.workers| == |t.workers| && t.workers[w].poller == s.workers[w].poller
  {
  }

  /** What the pipeline reads of a customers row. */
  datatype Customer = Customer(sendingState: SendingState, dailySendCap: int)

  /** Where a run goes once it has seen its customer's row. */
  function AfterCustomer(found: Option<Customer>, mail: Mail, attempts: nat): Point {
    match found
    case None => AtSettle(SetupFailed, None, attempts)
    case Some(k) =>
      if k.sendingState == BlockedFromSending || (k.sendingState == BlockedFromMarketing && mail.marketing)
      then AtSettle(AbuseBlocked, None, attempts) else AtSuppression
  }

  /** The row a run at pc is about to write, and where it goes then. */
  predicate WritesRow(r: Run, row: Row) {
    match r.pc
    case AtMarkSending(p) => row == Row(Sending, Some(LaneOf(p)), r.seen.attempts + 1, None)
    case AtSettle(out, lane, n) => row == Row(StatusOf(out), lane, n, NextOf(out))
    case _ => false
  }

  function AfterRow(pc: Point): Point {
    match pc
    case AtMarkSending(p) => AtLogSending(p)
    case AtSettle(out, _, n) => AtLog(out, n)
    case _ => pc
  }

  /** The event a run at pc is about to write, and where it goes then. */
  predicate WritesEvent(r: Run, e: Event) {
    match r.pc
    case AtLogSending(p) => e == EvSendingAttempted(r.seen.attempts + 1, LaneOf(p))
    case AtLog(out, _) => e == EventOf(out)
    case AtLogRetry(out, n) => out.Retry? && e == EvRetryScheduled(n, out.kind, out.at)
    case _ => false
  }

  function AfterEvent(pc: Point): Point {
    match pc
    case AtLogSending(p) => AtPolicy(p)
    case AtLog(out, n) => if out.Retry? then AtLogRetry(out, n) else AtAck
    case AtLogRetry(_, _) => AtAck
    case _ => pc
  }

  /** Where a call that takes effect in state x sends its run. */
  function NextPoint(c: Config, x: State, r: Run, i: Input): Point {
    match r.pc
    case AtMarkSending(_) => AfterRow(r.pc)
    case AtSettle(_, _, _) => AfterRow(r.pc)
    case AtLogSending(_) => AfterEvent(r.pc)
    case AtLog(_, _) => AfterEvent(r.pc)
    case AtLogRetry(_, _) => AfterEvent(r.pc)
    case AtRecord(p, kind) => OutcomePoint(c, p, kind, r.seen.attempts + 1, i.draw)
    case AtSuppress(p) => AtSettle(HardBounced, Some(LaneOf(p)), r.seen.attempts + 1)
    case AtLoad => r.pc
    case AtAck => r.pc
    case _ => AfterRead(c, x, r, i)
  }

  /** And what it does to the tables. */
  predicate Leaves(x: State, r: Run, db: Db) {
    match r.pc
    case AtMarkSending(p) => db == Tables.UpdateMessageStatus(x.db, r.msg, MarkedRow(r, p))
    case AtSettle(out, lane, n) =>
      db == Tables.UpdateMessageStatus(x.db, r.msg, Row(StatusOf(out), lane, n, NextOf(out)))
    case AtLogSending(p) => Logs(x.db, r.msg, EvSendingAttempted(r.seen.attempts + 1, LaneOf(p)), db)
    case AtLog(out, _) => Logs(x.db, r.msg, EventOf(out), db)
    case AtLogRetry(out, n) => out.Retry? && Logs(x.db, r.msg, EvRetryScheduled(n, out.kind, out.at), db)
    case AtRecord(_, _) => db == Tables.WriteDeliveryAttempt(x.db, AttemptOf(x, r))
    case AtSuppress(_) => db == Tables.AddSuppression(x.db, PairOf(r.mail))
    case _ => db == x.db
  }

  function MarkedRow(r: Run, p: Plan): Row { Row(Sending, Some(LaneOf(p)), r.seen.attempts + 1, None) }

  predicate Logs(db: Db, m: MessageId, e: Event, after: Db) {
    m < |db.messages| && after == Tables.WriteEvent(db, m, e)
  }

  /** A call of a loaded run comes down to where it goes and what it writes. */
  lemma CallEffect(c: Config, x: State, w: nat, i: Input, y: State)
    requires WorkStep(c, x, w, i) == Some(y) && Knowledge.Loaded(x.workers[w].run.value.pc)
    ensures w < |y.workers| && y.workers[w].run.Some? && SameOthers(x, w, y) && y.now == x.now
    ensures var r := x.workers[w].run.value;
            && y.workers[w] == x.workers[w].(run := Some(r.(pc := NextPoint(c, x, r, i))))
            && Leaves(x, r, y.db)
  {
    WorkShape(c, x, w, i, y);
    if Writes(c, x, w, i, y) {
      if x.workers[w].run.value.pc.AtRecord? { RecordShape(c, x, w, i, y); }
    }
  }

  /** How many list queries, reads and reclaims a process has asked for. */
  datatype Asked = Asked(lists: nat, fetches: nat, reclaims: nat)

  /** The latest answers of the queries that no table of the engine holds: the policy row and the throttle rules. */
  datatype Heard = Heard(reputation: Simulate.Reputation, rules: seq<Throttle.Rule>)

  class Store {
    const config: Config
    const me: nat
    var s: State
    ghost const origin: State
    ghost var acts: seq<Action>
    ghost var trace: seq<Moment>

    /** The state the latest action took effect in, and the schedule that led there. */
    ghost var eve: State
    ghost var prior: seq<Action>

    /** What the consumer and the poller of this process have done in that schedule. */
    ghost var deeds: Diary<Deed>
    ghost var chores: Diary<Chore>

    ghost var asked: Asked
    ghost var heard: Heard

    /** All that has happened is a schedule of the engine. */
    ghost predicate Valid() reads this {
      && Trace(config, me, origin, acts, trace) && trace[|acts|] == Moment(s, deeds, chores) && me < |s.workers|
    }

    /** So the state is reached, and the process has done what its diaries say. */
    lemma Tells()
      requires Valid()
      ensures Reaches(config, origin, acts, s)
      ensures deeds == DeedsOf(config, origin, acts, me) && chores == ChoresOf(config, origin, acts, me)
    {
      TraceTells(config, me, origin, acts, trace);
    }

    twostate predicate SameTalk() reads this { asked == old(asked) && heard == old(heard) }

    /** The schedule has passed eve since the method began. */
    twostate predicate Passed() reads this {
      old(acts) <= prior <= acts && |prior| < |trace| && trace[|prior|].s == eve
    }

    /** The last thing that happened is action a, in state eve, after whatever the others did first. */
    twostate predicate Called(a: Action) reads this {
      old(acts) <= prior && |prior| < |trace| && trace[|prior|].s == eve && acts == prior + [a]
    }

    /** The action a call of the consumer amounts to. */
    function Ask(ok: bool, input: Input): Action { Consume(me, if ok then Work(input) else Fail) }

    constructor (config: Config, me: nat, s: State)
      requires Init(config, s) && me < |s.workers|
      ensures Valid() && this.config == config && this.me == me && this.s == s && acts == []
    {
      this.config, this.me, this.s, this.origin, this.acts := config, me, s, s, [];
      this.eve, this.prior, this.deeds, this.chores := s, [], Blank, Blank;
      this.trace := [Moment(s, Blank, Blank)];
      this.asked, this.heard := Asked(0, 0, 0), Heard(Simulate.Healthy, []);
    }

    function MyRun(): Option<Run>
      requires me < |s.workers|
      reads this
    {
      s.workers[me].run
    }

    method Do(a: Action)
      requires Valid() && Step(config, s, a).Some?
      modifies this
      ensures Valid() && Some(s) == Step(config, old(s), a) && acts == old(acts) + [a]
      ensures eve == old(s) && prior == old(acts) && Called(a) && SameTalk()
      ensures deeds == Note(old(deeds), DeedOf(old(s), a, me)) && chores == Note(old(chores), ChoreOf(old(s), a, me))
    {
      deeds, chores := Note(deeds, DeedOf(s, a, me)), Note(chores, ChoreOf(s, a, me));
      eve, prior := s, acts;
      s := Step(config, s, a).value;
      SameWorkerCount(config, eve, a, s);
      TraceGrows(config, me, origin, acts, trace, a, Moment(s, deeds, chores));
      acts, trace := acts + [a], trace + [Moment(s, deeds, chores)];
    }

    /** Anybody else may do anything, any number of times. */
    method Others(role: Role)
      requires Valid()
      modifies this
      ensures Valid() && Standing(old(s), s, me, role) && old(acts) <= acts && SameTalk()
      ensures if role.AsConsumer? then deeds == old(deeds) else chores == old(chores)
    {
      var n: nat := *;
      while n > 0
        invariant Valid() && Standing(old(s), s, me, role) && old(acts) <= acts && SameTalk()
        invariant if role.AsConsumer? then deeds == old(deeds) else chores == old(chores)
      {
        var a: Action := *;
        if !Mine(me, role, a) && Step(config, s, a).Some? {
          OthersKeepStanding(config, s, a, Step(config, s, a).value, me, role);
          Do(a);
        }
        n := n - 1;
      }
    }

    /** The run moved on to pc, or ended where there is none; nothing else of the consumer changed. */
    twostate predicate Moved(pc: Option<Point>)
      requires old(me < |s.workers|) && old(s.workers[me].run.Some?)
      reads this
    {
      && Valid() && old(acts) <= acts && s.workers[me].batch == old(s).workers[me].batch
      && (match pc
          case None => s.workers[me].run == None
          case Some(next) => s.workers[me].run == Some(old(s).workers[me].run.value.(pc := next)))
    }

    /** And the consumer did just that. */
    twostate predicate Does(pc: Option<Point>, did: Option<Deed>)
      requires old(me < |s.workers|) && old(s.workers[me].run.Some?)
      reads this
    {
      Moved(pc) && SameTalk() && deeds == Note(old(deeds), did)
    }

    /** What it comes to when a run ends without its ack. */
    function Ending(ended: bool, e: EntryId): Option<Deed> { if ended then Some(Dropped(e)) else None }

    twostate predicate Went(pc: Option<Point>)
      requires old(me < |s.workers|) && old(s.workers[me].run.Some?)
      reads this
    {
      Does(pc, Ending(pc.None?, old(s.workers[me].run.value.entry)))
    }

    /** The counting queries count the attempts of today that are the customer's, or the pool's. */
    lemma CustomerCount(customer: CustomerId)
      requires Valid()
      ensures Tables.CountCustomerSendsToday(s.db, customer, s.now)
              == Counting.Count(s.db.attempts, Caps.SentBy(s.db, customer, DateOf(s.now)))
    {
      Tells();
      Knowledge.KnownAlways(config, origin, acts, s);
      Caps.CustomerCountExactly(config, s, customer);
    }

    lemma PoolCount(pool: Routing.Pool)
      requires Valid()
      ensures Tables.CountSendsToday(s.db, pool.id, s.now)
              == Caps.Recorded(s.db.attempts, Caps.OfPool(pool), DateOf(s.now))
    {
      Tells();
      Knowledge.KnownAlways(config, origin, acts, s);
      Caps.PoolCountExactly(config, s, pool);
    }

    /** The run of a loaded message knows that it exists. */
    lemma MessageExists()
      requires Valid() && MyRun().Some? && Knowledge.Loaded(MyRun().value.pc)
      ensures MyRun().value.msg < |s.db.messages|
    {
      Tells();
      Knowledge.KnownAlways(config, origin, acts, s);
      assert Running(s, me);
    }

    /** The call under way takes effect now, or fails now and ends the run. */
    method Settle(ok: bool, input: Input)
      requires Valid() && MyRun().Some?
      requires var pc := MyRun().value.pc; Knowledge.Loaded(pc) && !pc.AtRoute? && (pc.AtLogRetry? ==> pc.out.Retry?)
      modifies this
      ensures Called(Ask(ok, input)) && eve == old(s)
      ensures s.now == eve.now && (ok ==> Leaves(eve, old(MyRun()).value, s.db))
      ensures ok ==> Does(Some(NextPoint(config, eve, old(MyRun()).value, input)), WorkDeed(old(MyRun()).value, eve))
      ensures !ok ==> Went(None) && eve.db == s.db
    {
      MessageExists();
      if ok {
        Do(Consume(me, Work(input)));
        CallEffect(config, eve, me, input, s);
      } else {
        Do(Consume(me, Fail));
      }
    }

    /** A call that succeeds with whatever the tables hold, or fails. */
    method Call(input: Input) returns (ok: bool)
      requires Valid() && MyRun().Some?
      requires var pc := MyRun().value.pc; Knowledge.Loaded(pc) && !pc.AtRoute? && (pc.AtLogRetry? ==> pc.out.Retry?)
      modifies this
      ensures Called(Ask(ok, input)) && eve.workers != [] && Standing(old(s), eve, me, AsConsumer)
      ensures s.now == eve.now && (ok ==> Leaves(eve, old(MyRun()).value, s.db))
      ensures ok ==> Does(Some(NextPoint(config, eve, old(MyRun()).value, input)), WorkDeed(old(MyRun()).value, eve))
      ensures !ok ==> Went(None) && eve.db == s.db
    {
      Others(AsConsumer);
      ok := *;
      Settle(ok, input);
    }

    /** SELECT ... FOR UPDATE SKIP LOCKED: no row when it is missing or somebody has it locked. */
    method GetMessageForProcessing(m: MessageId) returns (ok: bool, found: Option<(Mail, Row)>)
      requires Valid() && MyRun().Some? && MyRun().value.pc.AtLoad? && MyRun().value.msg == m
      modifies this
      ensures Called(Ask(ok, NO_INPUT)) || (ok && found.None? && Called(Consume(me, LoadLocked)))
      ensures !ok ==> Went(None)
      ensures ok && (found.None? || Terminal(found.value.1.status)) ==> Went(Some(AtAck))
      ensures ok && found.Some? && !Terminal(found.value.1.status) ==>
                && Valid() && old(acts) <= acts && s.workers[me].batch == old(s).workers[me].batch
                && s.workers[me].run
                   == Some(old(MyRun()).value.(pc := AtCustomer, mail := found.value.0, seen := found.value.1))
                && SameTalk() && deeds == old(deeds)
      ensures ok && found.Some? ==>
                m < |eve.db.messages| && found.value == (eve.db.messages[m].mail, eve.db.messages[m].row)
      ensures ok && found.None? ==> m >= |eve.db.messages| || Locked(eve, me, m)
    {
      Others(AsConsumer);
      ok, found := *, None;
      var skip := *;
      if !ok {
        Do(Consume(me, Fail));
      } else if skip && Locked(s, me, m) {
        Do(Consume(me, LoadLocked));
      } else {
        if m < |s.db.messages| { found := Some((s.db.messages[m].mail, s.db.messages[m].row)); }
        Do(Consume(me, Work(NO_INPUT)));
      }
    }

    /** The customers row as it stands in a given state. */
    function CustomerAt(x: State, customer: CustomerId): Option<Customer> {
      if customer in config.customers && customer in x.db.sendingState
      then Some(Customer(x.db.sendingState[customer], config.customers[customer])) else None
    }

    method GetCustomer(customer: CustomerId) returns (ok: bool, found: Option<Customer>)
      requires Valid() && MyRun().Some? && MyRun().value.pc.AtCustomer? && MyRun().value.mail.customer == customer
      modifies this
      ensures !ok ==> Went(None)
      ensures ok ==> Went(Some(AfterCustomer(found, old(MyRun()).value.mail, old(MyRun()).value.seen.attempts)))
      ensures ok ==> Passed() && found == CustomerAt(eve, customer)
    {
      ok := Call(NO_INPUT);
      found := CustomerAt(s, customer);
    }

    method IsSuppressed(customer: CustomerId, to: Email) returns (ok: bool, hit: bool)
      requires Valid() && MyRun().Some? && MyRun().value.pc.AtSuppression?
      requires PairOf(MyRun().value.mail) == (customer, to)
      modifies this
      ensures ok ==> Passed() && hit == ((customer, to) in eve.db.suppressed)
      ensures Went(if !ok then None
                   else if hit then Some(AtSettle(OnSuppressionList, None, old(MyRun()).value.seen.attempts))
                   else Some(AtRoute))
    {
      ok := Call(NO_INPUT);
      hit := (customer, to) in s.db.suppressed;
    }

    /** The queries behind route selection; any error among them fails the message. */
    method ReadRoutes() returns (ok: bool)
      requires Valid() && MyRun().Some? && MyRun().value.pc.AtRoute?
      modifies this
      ensures !ok ==> Called(Consume(me, RouteError))
      ensures Went(if ok then Some(AtRoute) else Some(AtSettle(SetupFailed, None, old(MyRun()).value.seen.attempts)))
    {
      Others(AsConsumer);
      ok := *;
      if !ok { Do(Consume(me, RouteError)); }
    }

    /** Selection ends; the clock read here is the one the run goes by. */
    method Chosen(found: Option<Routing.Decision>) returns (now: Time)
      requires Valid() && MyRun().Some? && MyRun().value.pc.AtRoute?
      requires found == Routing.Select(config.routing, MyRun().value.mail.provider, MyRun().value.mail.customer)
      modifies this
      ensures Called(Ask(true, NO_INPUT))
      ensures Went(Some(if found.None? then AtSettle(SetupFailed, None, old(MyRun()).value.seen.attempts)
                        else AtCustomerCap(Plan(found.value, now))))
    {
      Others(AsConsumer);
      MessageExists();
      now := s.now;
      Do(Consume(me, Work(NO_INPUT)));
    }

    method CountCustomerSendsToday(customer: CustomerId) returns (ok: bool, n: nat)
      requires Valid() && MyRun().Some? && MyRun().value.pc.AtCustomerCap? && MyRun().value.mail.customer == customer
      requires CapOf(config, customer) > 0
      modifies this
      ensures ok ==> Passed() && n == Counting.Count(eve.db.attempts, Caps.SentBy(eve.db, customer, DateOf(eve.now)))
      ensures var r := old(MyRun()).value;
              var p := r.pc.p;
              Went(if !ok then None
                   else if n >= CapOf(config, customer)
                   then Some(AtSettle(Held(DailySendCap, p.asOf + HOUR), Some(LaneOf(p)), r.seen.attempts))
                   else Some(AtPoolCap(p)))
    {
      ok := Call(NO_INPUT);
      n := Tables.CountCustomerSendsToday(s.db, customer, s.now);
      CustomerCount(customer);
    }

    method CountSendsToday(pool: int) returns (ok: bool, n: nat)
      requires Valid() && MyRun().Some? && MyRun().value.pc.AtPoolCap? && MyRun().value.pc.p.decision.pool.id == pool
      requires Routing.WarmupCap(MyRun().value.pc.p.decision.pool, MyRun().value.pc.p.asOf) >= 0
      modifies this
      ensures ok ==>
                var p := old(MyRun()).value.pc.p.decision.pool;
                Passed() && n == Caps.Recorded(eve.db.attempts, Caps.OfPool(p), DateOf(eve.now))
      ensures var r := old(MyRun()).value;
              var p := r.pc.p;
              Went(if !ok then None
                   else if n >= Routing.WarmupCap(p.decision.pool, p.asOf)
                   then Some(AtSettle(Held(WarmupLimit, p.asOf + HOUR), Some(LaneOf(p)), r.seen.attempts))
                   else Some(AtThrottle(p)))
    {
      ok := Call(NO_INPUT);
      n := Tables.CountSendsToday(s.db, pool, s.now);
      PoolCount(old(MyRun()).value.pc.p.decision.pool);
    }

    /** Where there is no cap the code asks nothing, and the engine's check lets the run by. */
    method NoCap()
      requires Valid() && MyRun().Some?
      requires match MyRun().value.pc
               case AtCustomerCap(p) => CapOf(config, MyRun().value.mail.customer) <= 0
               case AtPoolCap(p) => Routing.WarmupCap(p.decision.pool, p.asOf) < 0
               case _ => false
      modifies this
      ensures var pc := old(MyRun()).value.pc;
              Went(Some(if pc.AtCustomerCap? then AtPoolCap(pc.p) else AtThrottle(pc.p)))
    {
      MessageExists();
      Do(Consume(me, Work(NO_INPUT)));
    }

    /** The limiter has answered, or failed. */
    method Limited(ok: bool, throttled: bool)
      requires Valid() && MyRun().Some? && MyRun().value.pc.AtThrottle?
      modifies this
      ensures var r := old(MyRun()).value;
              var p := r.pc.p;
              Went(if !ok then None
                   else if throttled
                   then Some(AtSettle(Held(RateLimited, p.asOf + MINUTE), Some(LaneOf(p)), r.seen.attempts))
                   else Some(AtMarkSending(p)))
    {
      Others(AsConsumer);
      Settle(ok, Input(throttled, Classify.Delivered, 0));
    }

    method UpdateMessageStatus(m: MessageId, row: Row) returns (ok: bool)
      requires Valid() && MyRun().Some? && MyRun().value.msg == m && WritesRow(MyRun().value, row)
      modifies this
      ensures Called(Ask(ok, NO_INPUT))
      ensures Went(if ok then Some(AfterRow(old(MyRun()).value.pc)) else None)
      ensures s.db == if ok then Tables.UpdateMessageStatus(eve.db, m, row) else eve.db
    {
      ok := Call(NO_INPUT);
    }

    method WriteEvent(m: MessageId, e: Event) returns (ok: bool)
      requires Valid() && MyRun().Some? && MyRun().value.msg == m && WritesEvent(MyRun().value, e)
      modifies this
      ensures Called(Ask(ok, NO_INPUT))
      ensures Went(if ok then Some(AfterEvent(old(MyRun()).value.pc)) else None)
      ensures m < |eve.db.messages| && s.db == if ok then Tables.WriteEvent(eve.db, m, e) else eve.db
    {
      MessageExists();
      ok := Call(NO_INPUT);
    }

    /** The policy row decides nothing but the simulated reply; without one the provider counts as healthy. */
    method GetProviderPolicy(provider: Provider) returns (ok: bool, reputation: Simulate.Reputation)
      requires Valid() && MyRun().Some? && MyRun().value.pc.AtPolicy?
      modifies this
      ensures !ok ==> Called(Consume(me, Fail)) && Went(None)
      ensures ok ==> Moved(Some(old(MyRun()).value.pc)) && deeds == old(deeds) && asked == old(asked)
      ensures ok ==> heard == old(heard).(reputation := reputation)
    {
      Others(AsConsumer);
      ok, reputation := *, *;
      if !ok { Do(Consume(me, Fail)); } else { heard := heard.(reputation := reputation); }
    }

    /** The throttle rules of a check, in the order the query returns them. */
    method GetThrottleRules() returns (ok: bool, rules: seq<Throttle.Rule>)
      requires Valid() && MyRun().Some? && MyRun().value.pc.AtThrottle?
      modifies this`heard
      ensures Valid() && heard == if ok then old(heard).(rules := rules) else old(heard)
    {
      ok, rules := *, *;
      if ok { heard := heard.(rules := rules); }
    }

    method Replied(kind: Classify.Kind)
      requires Valid() && MyRun().Some? && MyRun().value.pc.AtPolicy?
      modifies this
      ensures Called(Ask(true, Input(false, kind, 0)))
      ensures Went(Some(AtRecord(old(MyRun()).value.pc.p, kind)))
    {
      MessageExists();
      Do(Consume(me, Work(Input(false, kind, 0))));
    }

    /** The attempt of a reply that has come in is inserted. */
    method InsertAttempt(m: MessageId, number: nat, provider: Provider, pool: int, draw: nat) returns (ok: bool)
      requires Valid() && MyRun().Some? && MyRun().value.pc.AtRecord? && MyRun().value.msg == m
      requires number == MyRun().value.seen.attempts + 1 && provider == MyRun().value.mail.provider
      requires pool == MyRun().value.pc.p.decision.pool.id
      modifies this
      ensures Called(Ask(ok, Input(false, Classify.Delivered, draw)))
      ensures var r := old(MyRun()).value;
              var row := Attempt(m, r.mail.customer, number, provider, pool, r.pc.kind, eve.now);
              && Does(if ok then Some(OutcomePoint(config, r.pc.p, r.pc.kind, number, draw)) else None,
                      Some(if ok then Recorded(row) else Dropped(r.entry)))
              && s.db == if ok then Tables.WriteDeliveryAttempt(eve.db, row) else eve.db
    {
      ghost var r := MyRun().value;
      ok := Call(Input(false, Classify.Delivered, draw));
      assert AttemptOf(eve, r) == Attempt(m, r.mail.customer, number, provider, pool, r.pc.kind, eve.now);
    }

    /** The reply has come in and is recorded; draw is what the jitter will be, should it be retried. */
    method WriteDeliveryAttempt(m: MessageId, number: nat, provider: Provider, pool: int, kind: Classify.Kind,
            draw: nat)
      returns (ok: bool)
      requires Valid() && MyRun().Some? && MyRun().value.pc.AtPolicy? && MyRun().value.msg == m
      requires number == MyRun().value.seen.attempts + 1 && provider == MyRun().value.mail.provider
      requires pool == MyRun().value.pc.p.decision.pool.id
      modifies this
      ensures Called(Ask(ok, Input(false, Classify.Delivered, draw)))
      ensures var r := old(MyRun()).value;
              var row := Attempt(m, r.mail.customer, number, provider, pool, kind, eve.now);
              && Does(if ok then Some(OutcomePoint(config, r.pc.p, kind, number, draw)) else None,
                      Some(if ok then Recorded(row) else Dropped(r.entry)))
              && s.db == if ok then Tables.WriteDeliveryAttempt(eve.db, row) else eve.db
    {
      Replied(kind);
      ok := InsertAttempt(m, number, provider, pool, draw);
    }

    method AddSuppression(customer: CustomerId, to: Email) returns (ok: bool)
      requires Valid() && MyRun().Some? && MyRun().value.pc.AtSuppress? && PairOf(MyRun().value.mail) == (customer, to)
      modifies this
      ensures Called(Ask(ok, NO_INPUT))
      ensures var r := old(MyRun()).value;
              Went(if ok then Some(AtSettle(HardBounced, Some(LaneOf(r.pc.p)), r.seen.attempts + 1)) else None)
      ensures s.db == if ok then Tables.AddSuppression(eve.db, (customer, to)) else eve.db
    {
      ok := Call(NO_INPUT);
    }

    // The stream, for the consumer.

    function MyBatch(): set<EntryId>
      requires me < |s.workers|
      reads this
    {
      s.workers[me].batch
    }

    function MyPoller(): PollerState
      requires me < |s.workers|
      reads this
    {
      s.workers[me].poller
    }

    /** A delivered entry is in the stream. */
    lemma HeldIsThere(e: EntryId)
      requires Valid() && e in MyBatch()
      ensures e < |s.q.entries|
    {
      Tells();
      NoLoss.StructureAlways(config, origin, acts, s);
      assert Holds(s, me, e);
    }

    /** New entries for this consumer, in order; none when the wait runs out or the read fails. */
    method Read() returns (ids: seq<EntryId>)
      requires Valid() && MyRun().None? && MyBatch() == {}
      modifies this
      ensures Valid() && old(acts) <= acts && MyRun().None? && heard == old(heard)
      ensures asked == old(asked).(fetches := old(asked).fetches + 1)
      ensures deeds == if ids == [] then old(deeds) else Noted(old(deeds), Fetched(MyBatch()))
      ensures |ids| <= 10 && (forall e :: e in ids <==> e in MyBatch())
      ensures ids != [] ==> Called(Consume(me, ReadStream(|ids|)))
      ensures ids != [] ==> forall i :: 0 <= i < |ids| ==> ids[i] == eve.q.cursor + i
    {
      asked := asked.(fetches := asked.fetches + 1);
      Others(AsConsumer);
      var count: nat := *;
      ids := [];
      if CanRead(s.q, count) {
        var first := s.q.cursor;
        Do(Consume(me, ReadStream(count)));
        ids := seq(count, i requires 0 <= i < count => first + i);
        forall e: EntryId | first <= e < first + count ensures e in ids { assert ids[e - first] == e; }
      }
    }

    /** Entries idle for a minute, taken over from whoever had them. */
    method Reclaim() returns (ids: set<EntryId>)
      requires Valid() && MyRun().None? && MyBatch() == {}
      modifies this
      ensures Valid() && old(acts) <= acts && MyRun().None? && MyBatch() == ids && heard == old(heard)
      ensures asked == old(asked).(reclaims := old(asked).reclaims + 1)
      ensures deeds == if ids == {} then old(deeds) else Noted(old(deeds), Reclaimed(ids))
      ensures ids != {} ==> Called(Consume(me, ReclaimIdle(ids))) && CanReclaim(eve.q, ids, eve.now)
    {
      asked := asked.(reclaims := asked.reclaims + 1);
      Others(AsConsumer);
      ids := *;
      if ids != {} && CanReclaim(s.q, ids, s.now) { Do(Consume(me, ReclaimIdle(ids))); } else { ids := {}; }
    }

    /** The next entry of the batch is taken up. */
    method Begin(e: EntryId) returns (m: MessageId)
      requires Valid() && MyRun().None? && e in MyBatch()
      modifies this
      ensures Called(Consume(me, Start(e)))
      ensures Valid() && old(acts) <= acts && MyRun() == Some(FreshRun(e, m)) && MyBatch() == old(MyBatch()) - {e}
      ensures SameTalk() && deeds == Noted(old(deeds), Began(e))
    {
      HeldIsThere(e);
      m := s.q.entries[e].msg;
      Do(Consume(me, Start(e)));
    }

    /** XACK; its failure is only logged. */
    method Ack(e: EntryId) returns (ok: bool)
      requires Valid() && MyRun().Some? && MyRun().value.pc.AtAck? && MyRun().value.entry == e
      modifies this
      ensures Called(Ask(ok, NO_INPUT))
      ensures Does(None, Some(if ok then Acked(e) else Dropped(e))) && s.q == if ok then Tables.Ack(eve.q, e) else eve.q
    {
      Others(AsConsumer);
      ok := *;
      if ok { Do(Consume(me, Work(NO_INPUT))); } else { Do(Consume(me, Fail)); }
    }

    // The calls of the deferred poller.

    /** An answer lists what was ready, earliest first, up to a batch; so an empty one means nothing was. */
    method GetDeferredMessagesReady() returns (ok: bool, ids: seq<MessageId>)
      requires Valid() && MyPoller().Resting?
      modifies this
      ensures Valid() && old(acts) <= acts && MyPoller() == Resume(ids) && heard == old(heard)
      ensures asked == old(asked).(lists := old(asked).lists + 1)
      ensures chores == if ok then Noted(old(chores), Listed(ids)) else old(chores)
      ensures if ok then Called(Poll(me, List(ids))) && ReadyList(eve.db, eve.now, ids) && s.db == eve.db else ids == []
    {
      asked := asked.(lists := asked.lists + 1);
      Others(AsPoller);
      ok, ids := *, *;
      if ok && ReadyList(s.db, s.now, ids) { Do(Poll(me, List(ids))); } else { ok, ids := false, []; }
    }

    method MarkQueued(m: MessageId, ghost rest: seq<MessageId>) returns (ok: bool)
      requires Valid() && MyPoller() == Marking([m] + rest)
      modifies this
      ensures Called(Poll(me, if ok then Mark else MarkFail)) && SameTalk()
      ensures chores == Noted(old(chores), if ok then Marked(m) else MarkFailed(m))
      ensures Valid() && old(acts) <= acts && MyPoller() == if ok then Adding(m, rest) else Resume(rest)
      ensures s.db == if ok then Tables.MarkQueued(eve.db, m) else eve.db
    {
      Others(AsPoller);
      ok := *;
      assert s.workers[me].poller.ready[1..] == rest;
      if ok { Do(Poll(me, Mark)); } else { Do(Poll(me, MarkFail)); }
    }

    method Enqueue(m: MessageId, ghost rest: seq<MessageId>) returns (ok: bool)
      requires Valid() && MyPoller() == Adding(m, rest)
      modifies this
      ensures Called(Poll(me, if ok then Add else AddFail)) && SameTalk()
      ensures chores == Noted(old(chores), if ok then Added(m) else AddFailed(m))
      ensures Valid() && old(acts) <= acts && MyPoller() == Resume(rest)
      ensures s.q == if ok then Tables.Enqueue(eve.q, m, Poller) else eve.q
    {
      Others(AsPoller);
      ok := *;
      if ok { Do(Poll(me, Add)); } else { Do(Poll(me, AddFail)); }
    }
  }
}
