/** The Postgres tables the worker writes and the Redis stream, as values, with one function per statement. */
module Tables {
  import opened Base
  import opened Counting
  import Classify

  datatype Status =
    | Queued | Sending | Deferred | Delivered | Bounced | Failed
    | DeadLettered | Suppressed | Throttled | Blocked

  predicate Terminal(st: Status) {
    st == Delivered || st == Bounced || st == Failed || st == DeadLettered || st == Suppressed || st == Blocked
  }

  /** The route and pool ids a row or event names. */
  datatype Lane = Lane(route: int, pool: int)

  datatype HoldReason = DailySendCap | WarmupLimit | RateLimited

  /** message_events rows, one constructor per event type. */
  datatype Event =
    | EvAccepted
    | EvQueued
    | EvThrottled(reason: HoldReason, until: Time)
    | EvSendingAttempted(attempt: nat, lane: Lane)
    | EvDeferred(kind: Classify.Kind)
    | EvRetryScheduled(attempt: nat, kind: Classify.Kind, at: Time)
    | EvDelivered
    | EvBounced(reply: Option<Classify.Kind>)
    | EvDeadLettered(kind: Classify.Kind)
    | EvSuppressed
    | EvBlockedByAbuseControl

  /** The columns accepted with a message, which no statement changes. */
  datatype Mail = Mail(customer: CustomerId, to: Email, provider: Provider, marketing: bool, domain: string)

  /** The columns UpdateMessageStatus writes. */
  datatype Row = Row(status: Status, lane: Option<Lane>, attempts: nat, next: Option<Time>)

  datatype Message = Message(mail: Mail, row: Row, log: seq<Event>)

  /** delivery_attempts; the customer is the one the counting query joins in. */
  datatype Attempt = Attempt(msg: MessageId, customer: CustomerId, number: nat, provider: Provider,
                             pool: int, kind: Classify.Kind, startedAt: Time)

  datatype SendingState = Trusted | New | Limited | BlockedFromMarketing | BlockedFromSending

  datatype Db = Db(messages: seq<Message>, attempts: seq<Attempt>,
                   suppressed: set<(CustomerId, Email)>, sendingState: map<CustomerId, SendingState>)

  function PairOf(mail: Mail): (CustomerId, Email) { (mail.customer, mail.to) }

  function UpdateMessageStatus(db: Db, m: MessageId, row: Row): Db {
    if m < |db.messages| then db.(messages := db.messages[m := db.messages[m].(row := row)]) else db
  }

  function WriteEvent(db: Db, m: MessageId, e: Event): Db
    requires m < |db.messages|
  {
    var was := db.messages[m];
    db.(messages := db.messages[m := was.(log := was.log + [e])])
  }

  function WriteDeliveryAttempt(db: Db, a: Attempt): Db { db.(attempts := db.attempts + [a]) }

  function AddSuppression(db: Db, pair: (CustomerId, Email)): Db { db.(suppressed := db.suppressed + {pair}) }

  /** Conditional on the row still being deferred; everything else is preserved. */
  function MarkQueued(db: Db, m: MessageId): Db {
    if m < |db.messages| && db.messages[m].row.status == Deferred
    then UpdateMessageStatus(db, m, db.messages[m].row.(status := Queued))
    else db
  }

  predicate Ready(db: Db, now: Time, m: MessageId) {
    m < |db.messages| && db.messages[m].row.status == Deferred
    && db.messages[m].row.next.Some? && db.messages[m].row.next.value <= now
  }

  const DEFERRED_BATCH := 100

  /** A possible answer of the ready query: at most a batch of ready ids, earliest first, none passed over. */
  predicate ReadyList(db: Db, now: Time, ids: seq<MessageId>) {
    && |ids| <= DEFERRED_BATCH
    && (forall i :: 0 <= i < |ids| ==> Ready(db, now, ids[i]))
    && (forall i, j :: 0 <= i < j < |ids| ==> ids[i] != ids[j])
    && (forall i, j :: 0 <= i < j < |ids| ==>
          db.messages[ids[i]].row.next.value <= db.messages[ids[j]].row.next.value)
    && (forall m: MessageId :: m < |db.messages| && Ready(db, now, m) && m !in ids ==>
          |ids| == DEFERRED_BATCH
          && forall i :: 0 <= i < |ids| ==> db.messages[ids[i]].row.next.value <= db.messages[m].row.next.value)
  }

  /** A ready message is listed unless a hundred others, none of them due later, are. */
  lemma ListedUnlessCrowdedOut(db: Db, now: Time, ids: seq<MessageId>, m: MessageId)
    requires ReadyList(db, now, ids) && m < |db.messages|
    requires db.messages[m].row.status == Deferred && db.messages[m].row.next.Some?
    ensures if m in ids then exists i :: 0 <= i < |ids| && ids[i] == m && db.messages[m].row.next.value <= now
            else || db.messages[m].row.next.value > now
                 || (|ids| == 100 && forall i :: 0 <= i < 100 ==>
                       db.messages[ids[i]].row.next.Some?
                       && db.messages[ids[i]].row.next.value <= db.messages[m].row.next.value)
    ensures forall i, j :: 0 <= i < j < |ids| ==>
              && ids[i] != ids[j] && ids[i] < |db.messages| && ids[j] < |db.messages|
              && var x, y := db.messages[ids[i]].row.next, db.messages[ids[j]].row.next;
                 x.Some? && y.Some? && x.value <= y.value
  {
    if m in ids { var i :| 0 <= i < |ids| && ids[i] == m; assert Ready(db, now, ids[i]); }
    else if db.messages[m].row.next.value <= now {
      assert Ready(db, now, m);
      forall i | 0 <= i < 100 ensures db.messages[ids[i]].row.next.Some? { assert Ready(db, now, ids[i]); }
    }
  }

  /** started_at >= CURRENT_DATE, for one pool or for one customer. */
  function PoolSince(pool: int, date: int): Attempt -> bool {
    (a: Attempt) => a.pool == pool && DateOf(a.startedAt) >= date
  }

  function CustomerSince(customer: CustomerId, date: int): Attempt -> bool {
    (a: Attempt) => a.customer == customer && DateOf(a.startedAt) >= date
  }

  function CountSendsToday(db: Db, pool: int, now: Time): nat {
    Count(db.attempts, PoolSince(pool, DateOf(now)))
  }

  function CountCustomerSendsToday(db: Db, customer: CustomerId, now: Time): nat {
    Count(db.attempts, CustomerSince(customer, DateOf(now)))
  }

  // The consumer group's view of the stream.

  datatype Source = Handler | Poller

  /** since is when the entry was last delivered or claimed. */
  datatype Entry = Entry(msg: MessageId, source: Source, acked: bool, since: Time)

  /** Entries below cursor have been delivered; those of them not acked form the pending list. */
  datatype Stream = Stream(entries: seq<Entry>, cursor: nat)

  function Enqueue(q: Stream, m: MessageId, source: Source): Stream {
    q.(entries := q.entries + [Entry(m, source, false, 0)])
  }

  const READ_BATCH := 10
  const RECLAIM_MIN_IDLE: Time := MINUTE

  predicate CanRead(q: Stream, count: nat) { 1 <= count <= READ_BATCH && q.cursor + count <= |q.entries| }

  function Range(lo: nat, hi: nat): (ids: set<EntryId>)
    ensures forall e: nat :: e in ids <==> lo <= e < hi
    decreases hi - lo
  {
    if lo >= hi then {} else {lo} + Range(lo + 1, hi)
  }

  function ReadIds(q: Stream, count: nat): set<EntryId> { Range(q.cursor, q.cursor + count) }

  function Stamp(entries: seq<Entry>, ids: set<EntryId>, now: Time): (out: seq<Entry>)
    ensures |out| == |entries|
    ensures forall e :: 0 <= e < |entries| ==>
              out[e] == if e in ids then entries[e].(since := now) else entries[e]
  {
    seq(|entries|, e requires 0 <= e < |entries| => if e in ids then entries[e].(since := now) else entries[e])
  }

  function Read(q: Stream, count: nat, now: Time): Stream
    requires CanRead(q, count)
  {
    Stream(Stamp(q.entries, ReadIds(q, count), now), q.cursor + count)
  }

  /** An entry XAUTOCLAIM may take: pending, and idle for at least a minute. */
  predicate Idle(q: Stream, e: EntryId, now: Time) {
    e < q.cursor && e < |q.entries| && !q.entries[e].acked && q.entries[e].since + RECLAIM_MIN_IDLE <= now
  }

  predicate CanReclaim(q: Stream, ids: set<EntryId>, now: Time) {
    |ids| <= READ_BATCH && forall e :: e in ids ==> Idle(q, e, now)
  }

  function Reclaim(q: Stream, ids: set<EntryId>, now: Time): Stream {
    q.(entries := Stamp(q.entries, ids, now))
  }

  function Ack(q: Stream, e: EntryId): Stream {
    if e < |q.entries| then q.(entries := q.entries[e := q.entries[e].(acked := true)]) else q
  }
}
