/**
 The delivery engine as one transition system: request handlers that enqueue, W worker processes
 that consume, and one deferred poller per process, over shared tables and one stream. Every store
 or queue call is one atomic action; a failed call, a crash, a lost enqueue are actions too.
 */
module Engine {
  import opened Base
  import opened Tables
  import Classify
  import Routing
  import Backoff

  /** What no action changes. customers maps each customer to its daily_send_cap. */
  datatype Config = Config(maxAttempts: nat, customers: map<CustomerId, int>, routing: Routing.Tables)

  /** How a run of the pipeline ends: the first four before any send, the others after one. */
  datatype Outcome =
    | AbuseBlocked
    | OnSuppressionList
    | SetupFailed
    | Held(reason: HoldReason, until: Time)
    | Accepted
    | HardBounced
    | PolicyRefused
    | Exhausted(kind: Classify.Kind)
    | Retry(kind: Classify.Kind, at: Time)

  predicate AfterSend(out: Outcome) {
    out.Accepted? || out.HardBounced? || out.PolicyRefused? || out.Exhausted? || out.Retry?
  }

  function StatusOf(out: Outcome): Status {
    match out
    case AbuseBlocked => Blocked
    case OnSuppressionList => Suppressed
    case SetupFailed => Failed
    case Held(_, _) => Deferred
    case Accepted => Delivered
    case HardBounced => Bounced
    case PolicyRefused => Failed
    case Exhausted(_) => DeadLettered
    case Retry(_, _) => Deferred
  }

  function NextOf(out: Outcome): Option<Time> {
    match out
    case Held(_, until) => Some(until)
    case Retry(_, at) => Some(at)
    case _ => None
  }

  function EventOf(out: Outcome): Event {
    match out
    case AbuseBlocked => EvBlockedByAbuseControl
    case OnSuppressionList => EvSuppressed
    case SetupFailed => EvBounced(None)
    case Held(reason, until) => EvThrottled(reason, until)
    case Accepted => EvDelivered
    case HardBounced => EvBounced(Some(Classify.HardBounce))
    case PolicyRefused => EvBounced(Some(Classify.PolicyRejection))
    case Exhausted(kind) => EvDeadLettered(kind)
    case Retry(kind, _) => EvDeferred(kind)
  }

  /** The route, pool and clock reading a run works with once selection has succeeded. */
  datatype Plan = Plan(decision: Routing.Decision, asOf: Time)

  /** The plan of a run that has chosen its route and not yet recorded an attempt. */
  function PlanOf(pc: Point): Option<Plan> {
    match pc
    case AtCustomerCap(p) => Some(p)
    case AtPoolCap(p) => Some(p)
    case AtThrottle(p) => Some(p)
    case AtMarkSending(p) => Some(p)
    case AtLogSending(p) => Some(p)
    case AtPolicy(p) => Some(p)
    case AtRecord(p, _) => Some(p)
    case _ => None
  }

  function LaneOf(p: Plan): Lane { Lane(p.decision.route.id, p.decision.pool.id) }

  /** The call a run makes next. */
  datatype Point =
    | AtLoad
    | AtCustomer
    | AtSuppression
    | AtRoute
    | AtCustomerCap(p: Plan)
    | AtPoolCap(p: Plan)
    | AtThrottle(p: Plan)
    | AtMarkSending(p: Plan)
    | AtLogSending(p: Plan)
    | AtPolicy(p: Plan)
    | AtRecord(p: Plan, kind: Classify.Kind)
    | AtSuppress(p: Plan)
    | AtSettle(out: Outcome, lane: Option<Lane>, attempts: nat)
    | AtLog(out: Outcome, attempts: nat)
    | AtLogRetry(out: Outcome, attempts: nat)
    | AtAck

  /** The row has its final value for this run: only the log and the ack remain. */
  predicate Closing(pc: Point) { pc.AtLog? || pc.AtLogRetry? || pc.AtAck? }

  /** The run has marked the row sending and not yet settled it. */
  predicate InFlight(pc: Point) {
    pc.AtLogSending? || pc.AtPolicy? || pc.AtRecord? || pc.AtSuppress? || (pc.AtSettle? && AfterSend(pc.out))
  }

  /** The attempt has been counted in delivery_attempts_total and its outcome has not. */
  predicate Uncounted(pc: Point) { pc.AtPolicy? || pc.AtRecord? }

  /** A statement that locks the message row while it executes (inserts do, through their foreign key). */
  predicate LocksRow(pc: Point) {
    pc.AtLoad? || pc.AtMarkSending? || pc.AtLogSending? || pc.AtRecord? || pc.AtSettle? || pc.AtLog? || pc.AtLogRetry?
  }

  /** mail and seen are the message as loaded; they mean nothing before the load. */
  datatype Run = Run(entry: EntryId, msg: MessageId, pc: Point, mail: Mail, seen: Row)

  const NO_MAIL := Mail("", "", "", false, "")
  const NO_ROW := Row(Queued, None, 0, None)

  function FreshRun(e: EntryId, m: MessageId): Run { Run(e, m, AtLoad, NO_MAIL, NO_ROW) }

  datatype PollerState = Resting | Marking(ready: seq<MessageId>) | Adding(msg: MessageId, rest: seq<MessageId>)

  function Resume(ready: seq<MessageId>): PollerState { if ready == [] then Resting else Marking(ready) }

  /** One process: its consumer holds a batch of delivered entries and runs one at a time. */
  datatype Worker = Worker(batch: set<EntryId>, run: Option<Run>, poller: PollerState)

  const FRESH_WORKER := Worker({}, None, Resting)

  /** Metric counters, summed over the lives of all processes. */
  datatype Tally = Tally(attempts: nat, delivered: nat, bounced: nat, deadLettered: nat,
                         deferred: nat, retryScheduled: nat)

  /**
   What has happened so far, kept for stating theorems only: the number of faults, the sends that were
   counted but abandoned, the runs per message that marked sending and never settled, and the delays
   scheduled per message.
   */
  datatype History = History(faults: nat, abandoned: nat, aborted: map<MessageId, nat>,
                             waits: map<MessageId, seq<Time>>)

  function Aborted(h: History, m: MessageId): nat { if m in h.aborted then h.aborted[m] else 0 }

  function Waits(h: History, m: MessageId): seq<Time> { if m in h.waits then h.waits[m] else [] }

  /** adding holds the committed messages whose handler has not made its XADD yet. */
  datatype State = State(now: Time, db: Db, q: Stream, adding: set<MessageId>, workers: seq<Worker>,
                         tally: Tally, hist: History)

  /** What the world answers during one call: the limiter, the provider, the jitter. */
  datatype Input = Input(throttled: bool, kind: Classify.Kind, draw: nat)

  /** For a call that the world has no say in. */
  const NO_INPUT := Input(false, Classify.Delivered, 0)

  /** Handlers, the clock, and whoever edits customers. */
  datatype WorldAction =
    | Accept(mail: Mail)
    | HandlerAdd(m: MessageId)
    | HandlerDrop(m: MessageId)
    | Tick(elapsed: nat)
    | SetSendingState(customer: CustomerId, state: SendingState)

  /** A consumer: LoadLocked is a load that finds the row locked; Fail is a call that returns an error. */
  datatype ConsumerAction =
    | ReadStream(count: nat)
    | ReclaimIdle(ids: set<EntryId>)
    | Start(e: EntryId)
    | Work(input: Input)
    | LoadLocked
    | Fail
    | RouteError
    | Crash

  datatype PollerAction =
    | List(ready: seq<MessageId>)
    | Mark
    | MarkFail
    | Add
    | AddFail

  datatype Action =
    | World(e: WorldAction)
    | Consume(w: nat, d: ConsumerAction)
    | Poll(w: nat, k: PollerAction)

  predicate IsFault(a: Action) {
    match a
    case World(e) => e.HandlerDrop?
    case Consume(_, d) => d.Fail? || d.RouteError? || d.Crash?
    case Poll(_, k) => k.MarkFail? || k.AddFail?
  }

  predicate Init(c: Config, s: State) {
    && s.db.messages == [] && s.db.attempts == []
    && s.q == Stream([], 0) && s.adding == {}
    && (forall w :: 0 <= w < |s.workers| ==> s.workers[w] == FRESH_WORKER)
    && s.tally == Tally(0, 0, 0, 0, 0, 0)
    && s.hist == History(0, 0, map[], map[])
    && c.maxAttempts >= 1
  }

  // Building blocks.

  function SetWorker(s: State, w: nat, x: Worker): State
    requires w < |s.workers|
  {
    s.(workers := s.workers[w := x])
  }

  function Goto(s: State, w: nat, pc: Point): State
    requires w < |s.workers| && s.workers[w].run.Some?
  {
    SetWorker(s, w, s.workers[w].(run := Some(s.workers[w].run.value.(pc := pc))))
  }

  function EndRun(s: State, w: nat): State
    requires w < |s.workers|
  {
    SetWorker(s, w, s.workers[w].(run := None))
  }

  predicate Running(s: State, w: nat) { w < |s.workers| && s.workers[w].run.Some? }

  predicate RunningOn(s: State, w: nat, m: MessageId) { Running(s, w) && s.workers[w].run.value.msg == m }

  predicate Holds(s: State, w: nat, e: EntryId) {
    w < |s.workers|
    && (e in s.workers[w].batch || (s.workers[w].run.Some? && s.workers[w].run.value.entry == e))
  }

  function CapOf(c: Config, customer: CustomerId): int {
    if customer in c.customers then c.customers[customer] else 0
  }

  // The pipeline: one call of Process, from the point it has reached.

  function CustomerStep(c: Config, s: State, mail: Mail, attempts: nat): Point {
    if mail.customer !in c.customers || mail.customer !in s.db.sendingState
    then AtSettle(SetupFailed, None, attempts)
    else
      var state := s.db.sendingState[mail.customer];
      if state == BlockedFromSending || (state == BlockedFromMarketing && mail.marketing)
      then AtSettle(AbuseBlocked, None, attempts)
      else AtSuppression
  }

  function CustomerCapStep(c: Config, s: State, mail: Mail, p: Plan, attempts: nat): Point {
    var cap := CapOf(c, mail.customer);
    if cap > 0 && CountCustomerSendsToday(s.db, mail.customer, s.now) >= cap
    then AtSettle(Held(DailySendCap, p.asOf + HOUR), Some(LaneOf(p)), attempts)
    else AtPoolCap(p)
  }

  function PoolCapStep(s: State, p: Plan, attempts: nat): Point {
    var cap := Routing.WarmupCap(p.decision.pool, p.asOf);
    if cap >= 0 && CountSendsToday(s.db, p.decision.pool.id, s.now) >= cap
    then AtSettle(Held(WarmupLimit, p.asOf + HOUR), Some(LaneOf(p)), attempts)
    else AtThrottle(p)
  }

  /** Where the outcome switch sends a run whose attempt has been recorded. */
  function OutcomePoint(c: Config, p: Plan, kind: Classify.Kind, attempt: nat, draw: nat): Point {
    match kind
    case Delivered => AtSettle(Accepted, Some(LaneOf(p)), attempt)
    case HardBounce => AtSuppress(p)
    case PolicyRejection => AtSettle(PolicyRefused, Some(LaneOf(p)), attempt)
    case _ =>
      match Backoff.NextDelay(attempt, c.maxAttempts, draw)
      case Exhausted => AtSettle(Exhausted(kind), Some(LaneOf(p)), attempt)
      case RetryAfter(delay) => AtSettle(Retry(kind, p.asOf + delay), Some(LaneOf(p)), attempt)
  }

  function Counted(c: Config, t: Tally, kind: Classify.Kind, attempt: nat): Tally {
    match kind
    case Delivered => t.(delivered := t.delivered + 1)
    case HardBounce => t.(bounced := t.bounced + 1)
    case PolicyRejection => t.(bounced := t.bounced + 1)
    case _ =>
      if attempt >= c.maxAttempts then t.(deadLettered := t.deadLettered + 1)
      else t.(deferred := t.deferred + 1, retryScheduled := t.retryScheduled + 1)
  }

  /** The delay of a retry is remembered when its outcome is decided. */
  function NoteWait(h: History, m: MessageId, pc: Point, asOf: Time): History {
    if pc.AtSettle? && pc.out.Retry? then h.(waits := h.waits[m := Waits(h, m) + [pc.out.at - asOf]]) else h
  }

  function RecordStep(c: Config, s: State, w: nat, r: Run, p: Plan, kind: Classify.Kind, draw: nat): State
    requires Running(s, w)
  {
    var n := r.seen.attempts + 1;
    var row := Attempt(r.msg, r.mail.customer, n, r.mail.provider, p.decision.pool.id, kind, s.now);
    var pc := OutcomePoint(c, p, kind, n, draw);
    Goto(s.(db := WriteDeliveryAttempt(s.db, row), tally := Counted(c, s.tally, kind, n),
            hist := NoteWait(s.hist, r.msg, pc, p.asOf)),
         w, pc)
  }

  function SettleStep(s: State, w: nat, r: Run): State
    requires Running(s, w) && r.pc.AtSettle?
  {
    var out := r.pc.out;
    var row := Row(StatusOf(out), r.pc.lane, r.pc.attempts, NextOf(out));
    Goto(s.(db := UpdateMessageStatus(s.db, r.msg, row)), w, AtLog(out, r.pc.attempts))
  }

  function LogStep(s: State, w: nat, r: Run): State
    requires Running(s, w) && r.pc.AtLog? && r.msg < |s.db.messages|
  {
    var out := r.pc.out;
    Goto(s.(db := WriteEvent(s.db, r.msg, EventOf(out))), w,
         if out.Retry? then AtLogRetry(out, r.pc.attempts) else AtAck)
  }

  /** The calls that only read: they move the run on and change nothing else. */
  predicate ReadsOnly(pc: Point) {
    pc.AtCustomer? || pc.AtSuppression? || pc.AtRoute? || pc.AtCustomerCap? || pc.AtPoolCap? || pc.AtThrottle?
    || pc.AtPolicy?
  }

  function AfterRead(c: Config, s: State, r: Run, i: Input): Point
    requires ReadsOnly(r.pc)
  {
    var mail := r.mail;
    match r.pc
    case AtCustomer => CustomerStep(c, s, mail, r.seen.attempts)
    case AtSuppression =>
      if PairOf(mail) in s.db.suppressed then AtSettle(OnSuppressionList, None, r.seen.attempts) else AtRoute
    case AtRoute =>
      (match Routing.Select(c.routing, mail.provider, mail.customer)
       case None => AtSettle(SetupFailed, None, r.seen.attempts)
       case Some(d) => AtCustomerCap(Plan(d, s.now)))
    case AtCustomerCap(p) => CustomerCapStep(c, s, mail, p, r.seen.attempts)
    case AtPoolCap(p) => PoolCapStep(s, p, r.seen.attempts)
    case AtThrottle(p) =>
      if i.throttled then AtSettle(Held(RateLimited, p.asOf + MINUTE), Some(LaneOf(p)), r.seen.attempts)
      else AtMarkSending(p)
    case AtPolicy(p) => AtRecord(p, i.kind)
  }

  /** The calls that write. */
  function WriteStep(c: Config, s: State, w: nat, r: Run, i: Input): Option<State>
    requires Running(s, w) && r == s.workers[w].run.value && r.msg < |s.db.messages| && !ReadsOnly(r.pc)
    requires !r.pc.AtLoad? && !r.pc.AtAck?
  {
    var m := r.msg;
    match r.pc
    case AtMarkSending(p) =>
      Some(Goto(s.(db := UpdateMessageStatus(s.db, m, Row(Sending, Some(LaneOf(p)), r.seen.attempts + 1, None))),
                w, AtLogSending(p)))
    case AtLogSending(p) =>
      Some(Goto(s.(db := WriteEvent(s.db, m, EvSendingAttempted(r.seen.attempts + 1, LaneOf(p))),
                   tally := s.tally.(attempts := s.tally.attempts + 1)),
                w, AtPolicy(p)))
    case AtRecord(p, kind) => Some(RecordStep(c, s, w, r, p, kind, i.draw))
    case AtSuppress(p) =>
      Some(Goto(s.(db := AddSuppression(s.db, PairOf(r.mail))), w,
                AtSettle(HardBounced, Some(LaneOf(p)), r.seen.attempts + 1)))
    case AtSettle(_, _, _) => Some(SettleStep(s, w, r))
    case AtLog(_, _) => Some(LogStep(s, w, r))
    case AtLogRetry(out, n) =>
      if !out.Retry? then None
      else Some(Goto(s.(db := WriteEvent(s.db, m, EvRetryScheduled(n, out.kind, out.at))), w, AtAck))
  }

  /** The load: a missing or finished message is only to be acked. */
  function LoadStep(s: State, w: nat, r: Run): State
    requires Running(s, w)
  {
    if r.msg >= |s.db.messages| || Terminal(s.db.messages[r.msg].row.status) then Goto(s, w, AtAck)
    else SetWorker(s, w, s.workers[w].(run := Some(r.(pc := AtCustomer, mail := s.db.messages[r.msg].mail,
                                                      seen := s.db.messages[r.msg].row))))
  }

  function AckStep(s: State, w: nat, r: Run): State
    requires Running(s, w)
  {
    EndRun(s.(q := Ack(s.q, r.entry)), w)
  }

  function WorkStep(c: Config, s: State, w: nat, i: Input): Option<State> {
    if !Running(s, w) then None else
    var r := s.workers[w].run.value;
    if r.pc.AtLoad? then Some(LoadStep(s, w, r))
    else if r.pc.AtAck? then Some(AckStep(s, w, r))
    else if r.msg >= |s.db.messages| then None
    else if ReadsOnly(r.pc) then Some(Goto(s, w, AfterRead(c, s, r, i)))
    else WriteStep(c, s, w, r, i)
  }

  // Faults.

  function NoteFault(h: History): History { h.(faults := h.faults + 1) }

  /** The run of w is gone without having made its next call. */
  function NoteAbort(h: History, run: Option<Run>): History {
    if run.None? then h
    else
      var r := run.value;
      var g := if InFlight(r.pc) then h.(aborted := h.aborted[r.msg := Aborted(h, r.msg) + 1]) else h;
      if Uncounted(r.pc) then g.(abandoned := g.abandoned + 1) else g
  }

  function FailStep(s: State, w: nat): Option<State> {
    if Running(s, w) && !s.workers[w].run.value.pc.AtRoute?
    then Some(EndRun(s.(hist := NoteAbort(NoteFault(s.hist), s.workers[w].run)), w))
    else None
  }

  /** An error while choosing a route does not leave the entry pending: it fails the message. */
  function RouteErrorStep(s: State, w: nat): Option<State> {
    if Running(s, w) && s.workers[w].run.value.pc.AtRoute?
    then Some(Goto(s.(hist := NoteFault(s.hist)), w,
                   AtSettle(SetupFailed, None, s.workers[w].run.value.seen.attempts)))
    else None
  }

  function CrashStep(s: State, w: nat): Option<State> {
    if w >= |s.workers| then None
    else
      var x := s.workers[w];
      var h := NoteAbort(NoteFault(s.hist), x.run);
      Some(SetWorker(s.(hist := h), w, FRESH_WORKER))
  }

  // The row lock that makes GetMessageForProcessing come back empty-handed.

  predicate LockedByRun(s: State, w: nat, v: nat, m: MessageId) {
    v != w && RunningOn(s, v, m) && LocksRow(s.workers[v].run.value.pc)
  }

  predicate LockedByMark(s: State, v: nat, m: MessageId) {
    v < |s.workers| && m < |s.db.messages| && s.db.messages[m].row.status == Deferred
    && s.workers[v].poller.Marking? && s.workers[v].poller.ready != [] && s.workers[v].poller.ready[0] == m
  }

  predicate Locked(s: State, w: nat, m: MessageId) {
    (exists v: nat :: v < |s.workers| && LockedByRun(s, w, v, m))
    || (exists v: nat :: v < |s.workers| && LockedByMark(s, v, m))
  }

  predicate Settled(st: Status) { Terminal(st) || st == Deferred }

  function LoadLockedStep(s: State, w: nat): Option<State> {
    if Running(s, w) && s.workers[w].run.value.pc.AtLoad? && Locked(s, w, s.workers[w].run.value.msg)
    then Some(Goto(s, w, AtAck)) else None
  }

  // Reading and reclaiming.

  predicate Unoccupied(s: State, w: nat) {
    w < |s.workers| && s.workers[w].run.None? && s.workers[w].batch == {}
  }

  function ReadStep(s: State, w: nat, count: nat): Option<State> {
    if Unoccupied(s, w) && CanRead(s.q, count)
    then Some(SetWorker(s.(q := Read(s.q, count, s.now)), w, s.workers[w].(batch := ReadIds(s.q, count))))
    else None
  }

  function ReclaimStep(s: State, w: nat, ids: set<EntryId>): Option<State> {
    if Unoccupied(s, w) && CanReclaim(s.q, ids, s.now)
    then Some(SetWorker(s.(q := Reclaim(s.q, ids, s.now)), w, s.workers[w].(batch := ids)))
    else None
  }

  function StartStep(s: State, w: nat, e: EntryId): Option<State> {
    if w < |s.workers| && s.workers[w].run.None? && e in s.workers[w].batch && e < |s.q.entries|
    then
      var r := FreshRun(e, s.q.entries[e].msg);
      Some(SetWorker(s, w, s.workers[w].(batch := s.workers[w].batch - {e}, run := Some(r))))
    else None
  }

  function ConsumerStep(c: Config, s: State, w: nat, d: ConsumerAction): Option<State> {
    match d
    case ReadStream(count) => ReadStep(s, w, count)
    case ReclaimIdle(ids) => ReclaimStep(s, w, ids)
    case Start(e) => StartStep(s, w, e)
    case Work(i) => WorkStep(c, s, w, i)
    case LoadLocked => LoadLockedStep(s, w)
    case Fail => FailStep(s, w)
    case RouteError => RouteErrorStep(s, w)
    case Crash => CrashStep(s, w)
  }

  // The poller.

  function SetPoller(s: State, w: nat, p: PollerState): State
    requires w < |s.workers|
  {
    SetWorker(s, w, s.workers[w].(poller := p))
  }

  predicate HasHead(s: State, w: nat) {
    w < |s.workers| && s.workers[w].poller.Marking? && s.workers[w].poller.ready != []
  }

  function ListStep(s: State, w: nat, ready: seq<MessageId>): Option<State> {
    if w < |s.workers| && s.workers[w].poller.Resting? && ReadyList(s.db, s.now, ready)
    then Some(SetPoller(s, w, Resume(ready))) else None
  }

  function MarkStep(s: State, w: nat): Option<State> {
    if HasHead(s, w)
    then
      var ready := s.workers[w].poller.ready;
      Some(SetPoller(s.(db := MarkQueued(s.db, ready[0])), w, Adding(ready[0], ready[1..])))
    else None
  }

  function MarkFailStep(s: State, w: nat): Option<State> {
    if HasHead(s, w)
    then Some(SetPoller(s.(hist := NoteFault(s.hist)), w, Resume(s.workers[w].poller.ready[1..])))
    else None
  }

  function AddStep(s: State, w: nat): Option<State> {
    if w < |s.workers| && s.workers[w].poller.Adding?
    then
      var p := s.workers[w].poller;
      Some(SetPoller(s.(q := Enqueue(s.q, p.msg, Poller)), w, Resume(p.rest)))
    else None
  }

  function AddFailStep(s: State, w: nat): Option<State> {
    if w < |s.workers| && s.workers[w].poller.Adding?
    then
      var p := s.workers[w].poller;
      Some(SetPoller(s.(hist := NoteFault(s.hist)), w, Resume(p.rest)))
    else None
  }

  function PollerStep(s: State, w: nat, k: PollerAction): Option<State> {
    match k
    case List(ready) => ListStep(s, w, ready)
    case Mark => MarkStep(s, w)
    case MarkFail => MarkFailStep(s, w)
    case Add => AddStep(s, w)
    case AddFail => AddFailStep(s, w)
  }

  // Handlers and the world.

  /** The commit of an accepting transaction: the row and its two events appear together. */
  function AcceptStep(s: State, mail: Mail): State {
    var msg := Message(mail, NO_ROW, [EvAccepted, EvQueued]);
    s.(db := s.db.(messages := s.db.messages + [msg]), adding := s.adding + {|s.db.messages|})
  }

  function WorldStep(s: State, e: WorldAction): Option<State> {
    match e
    case Accept(mail) => Some(AcceptStep(s, mail))
    case HandlerAdd(m) =>
      if m in s.adding then Some(s.(q := Enqueue(s.q, m, Handler), adding := s.adding - {m})) else None
    case HandlerDrop(m) =>
      if m in s.adding then Some(s.(adding := s.adding - {m}, hist := NoteFault(s.hist))) else None
    case Tick(elapsed) => Some(s.(now := s.now + elapsed))
    case SetSendingState(customer, state) =>
      if customer in s.db.sendingState
      then Some(s.(db := s.db.(sendingState := s.db.sendingState[customer := state]))) else None
  }

  /** The state after action a, or None where a cannot happen. */
  function Step(c: Config, s: State, a: Action): Option<State> {
    match a
    case World(e) => WorldStep(s, e)
    case Consume(w, d) => ConsumerStep(c, s, w, d)
    case Poll(w, k) => PollerStep(s, w, k)
  }

  /** The state after a whole schedule of actions, or None if one of them cannot happen. */
  ghost function Exec(c: Config, s: State, acts: seq<Action>): Option<State> {
    if acts == [] then Some(s)
    else
      match Exec(c, s, acts[..|acts| - 1])
      case None => None
      case Some(t) => Step(c, t, acts[|acts| - 1])
  }

  /** t is reached from an initial state by some schedule. */
  ghost predicate Reaches(c: Config, s: State, acts: seq<Action>, t: State) {
    Init(c, s) && Exec(c, s, acts) == Some(t)
  }

  lemma ExecSnoc(c: Config, s: State, acts: seq<Action>, t: State, a: Action, u: State)
    requires Exec(c, s, acts) == Some(t) && Step(c, t, a) == Some(u)
    ensures Exec(c, s, acts + [a]) == Some(u)
  {
    assert (acts + [a])[..|acts|] == acts;
  }

  lemma ExecOne(c: Config, s: State, a: Action)
    ensures Exec(c, s, []) == Some(s)
    ensures Exec(c, s, [a]) == Step(c, s, a)
  {
    assert [a][..0] == [];
  }

  /** Schedules run one after the other. */
  lemma {:induction false} ExecThen(c: Config, s: State, first: seq<Action>, t: State, second: seq<Action>)
    requires Exec(c, s, first) == Some(t)
    ensures Exec(c, s, first + second) == Exec(c, t, second)
    decreases |second|
  {
    if second == [] {
      assert first + second == first;
    } else {
      var last := |second| - 1;
      assert (first + second)[..|first + second| - 1] == first + second[..last];
      ExecThen(c, s, first, t, second[..last]);
    }
  }

  lemma ExecFirst(c: Config, s: State, a: Action, t: State, more: seq<Action>)
    requires Step(c, s, a) == Some(t)
    ensures Exec(c, s, [a] + more) == Exec(c, t, more)
  {
    ExecOne(c, s, a);
    ExecThen(c, s, [a], t, more);
  }
}
