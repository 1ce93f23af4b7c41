/**
 POST /messages as concurrent transactions in front of the engine. Each query is one action and may
 fail; a COMMIT or an XADD may also take effect and still report an error.
 */
module Intake {
  import opened Base
  import opened Counting
  import opened Tables
  import Engine
  import Shapes
  import Arrivals

  datatype Reply =
    | Created(m: MessageId) | Replayed(m: MessageId)
    | CustomerNotFound | Forbidden | InternalError | NoReply

  /** The query a request makes next. */
  datatype Point =
    | AtSelectKey
    | AtReplay(m: MessageId)
    | AtCustomer
    | AtInsertMessage
    | AtInsertKey
    | AtInsertAccepted
    | AtInsertQueued
    | AtCommit
    | AtEnqueue(m: MessageId)
    | AtRespond(m: MessageId)
    | Answered(reply: Reply)

  /** keyed and events are the uncommitted rows of idempotency_keys and message_events. */
  datatype Post = Post(key: string, mail: Mail, pc: Point, keyed: bool, events: seq<Event>)

  datatype State = State(engine: Engine.State, keys: map<string, MessageId>, posts: seq<Post>)

  /** Lost: the call took effect and the caller saw an error. */
  datatype Outcome = Ok | Error | Lost

  datatype Action =
    | Arrive(key: string, mail: Mail)
    | Advance(p: nat, outcome: Outcome)
    | Die(p: nat)
    | Elsewhere(a: Engine.Action)

  predicate Init(c: Engine.Config, s: State) { Engine.Init(c, s.engine) && s.keys == map[] && s.posts == [] }

  function SetPost(s: State, p: nat, x: Post): State
    requires p < |s.posts|
  {
    s.(posts := s.posts[p := x])
  }

  function Goto(s: State, p: nat, pc: Point): State
    requires p < |s.posts|
  {
    SetPost(s, p, s.posts[p].(pc := pc))
  }

  /** The transaction is gone, and with it what it had inserted. */
  function Answer(s: State, p: nat, reply: Reply): State
    requires p < |s.posts|
  {
    SetPost(s, p, s.posts[p].(pc := Answered(reply), keyed := false, events := []))
  }

  /** An open transaction has inserted this key: a second insert waits for it. */
  predicate KeyHeld(s: State, p: nat, key: string) {
    exists q :: 0 <= q < |s.posts| && q != p && s.posts[q].keyed && s.posts[q].key == key
  }

  function CustomerPoint(s: State, x: Post): Point {
    if x.mail.customer !in s.engine.db.sendingState then Answered(CustomerNotFound)
    else if s.engine.db.sendingState[x.mail.customer] == BlockedFromSending then Answered(Forbidden)
    else AtInsertMessage
  }

  function InsertKeyStep(s: State, p: nat): Option<State>
    requires p < |s.posts|
  {
    var x := s.posts[p];
    if x.key in s.keys then Some(Answer(s, p, InternalError))
    else if KeyHeld(s, p, x.key) then None
    else Some(SetPost(s, p, x.(pc := AtInsertAccepted, keyed := true)))
  }

  /** The message, its key and its events appear together; the XADD is now owed. */
  function Committed(s: State, p: nat): State
    requires p < |s.posts|
  {
    var x, e := s.posts[p], s.engine;
    var m := |e.db.messages|;
    var msg := Message(x.mail, Engine.NO_ROW, x.events);
    var engine := e.(db := e.db.(messages := e.db.messages + [msg]), adding := e.adding + {m});
    State(engine, s.keys[x.key := m], s.posts[p := x.(pc := AtEnqueue(m), keyed := false, events := [])])
  }

  function Added(e: Engine.State, m: MessageId): Engine.State {
    e.(q := Enqueue(e.q, m, Handler), adding := e.adding - {m})
  }

  function Dropped(e: Engine.State, m: MessageId): Engine.State {
    e.(adding := e.adding - {m}, hist := Engine.NoteFault(e.hist))
  }

  function CommitStep(s: State, p: nat, outcome: Outcome): State
    requires p < |s.posts|
  {
    match outcome
    case Ok => Committed(s, p)
    case Error => Answer(s, p, InternalError)
    case Lost =>
      var t := Committed(s, p);
      Answer(t.(engine := Dropped(t.engine, |s.engine.db.messages|)), p, InternalError)
  }

  /** Errors of the XADD are logged and swallowed. */
  function EnqueueStep(s: State, p: nat, m: MessageId, outcome: Outcome): State
    requires p < |s.posts|
  {
    Goto(s.(engine := if outcome.Error? then Dropped(s.engine, m) else Added(s.engine, m)), p, AtRespond(m))
  }

  /** The queries whose failure ends the request with a 500. */
  function QueryStep(s: State, p: nat): Option<State>
    requires p < |s.posts|
  {
    var x := s.posts[p];
    match x.pc
    case AtSelectKey => Some(Goto(s, p, if x.key in s.keys then AtReplay(s.keys[x.key]) else AtCustomer))
    case AtReplay(m) => Some(Answer(s, p, Replayed(m)))
    case AtCustomer => Some(Goto(s, p, CustomerPoint(s, x)))
    case AtInsertMessage => Some(Goto(s, p, AtInsertKey))
    case AtInsertKey => InsertKeyStep(s, p)
    case AtInsertAccepted => Some(SetPost(s, p, x.(pc := AtInsertQueued, events := x.events + [EvAccepted])))
    case AtInsertQueued => Some(SetPost(s, p, x.(pc := AtCommit, events := x.events + [EvQueued])))
    case AtRespond(m) => Some(Answer(s, p, Created(m)))
    case _ => None
  }

  function AdvanceStep(s: State, p: nat, outcome: Outcome): Option<State> {
    if p >= |s.posts| || s.posts[p].pc.Answered? then None
    else if s.posts[p].pc.AtCommit? then Some(CommitStep(s, p, outcome))
    else if s.posts[p].pc.AtEnqueue? then Some(EnqueueStep(s, p, s.posts[p].pc.m, outcome))
    else if !outcome.Ok? then Some(Answer(s, p, InternalError))
    else QueryStep(s, p)
  }

  /** The process serving the request dies: the transaction rolls back, and an XADD not made is never made. */
  function DieStep(s: State, p: nat): Option<State> {
    if p >= |s.posts| || s.posts[p].pc.Answered? then None
    else
      var t := Answer(s, p, NoReply);
      Some(if s.posts[p].pc.AtEnqueue? then t.(engine := Dropped(s.engine, s.posts[p].pc.m)) else t)
  }

  /** The engine's own actions; accepting and the handlers' XADDs happen only through requests. */
  predicate IsElsewhere(a: Engine.Action) {
    !(a.World? && (a.e.Accept? || a.e.HandlerAdd? || a.e.HandlerDrop?))
  }

  function Step(c: Engine.Config, s: State, a: Action): Option<State> {
    match a
    case Arrive(key, mail) => Some(s.(posts := s.posts + [Post(key, mail, AtSelectKey, false, [])]))
    case Advance(p, outcome) => AdvanceStep(s, p, outcome)
    case Die(p) => DieStep(s, p)
    case Elsewhere(b) =>
      if !IsElsewhere(b) then None
      else
        match Engine.Step(c, s.engine, b)
        case None => None
        case Some(e) => Some(s.(engine := e))
  }

  ghost function Exec(c: Engine.Config, s: State, acts: seq<Action>): Option<State> {
    if acts == [] then Some(s)
    else
      match Exec(c, s, acts[..|acts| - 1])
      case None => None
      case Some(t) => Step(c, t, acts[|acts| - 1])
  }

  ghost predicate Reaches(c: Engine.Config, s: State, acts: seq<Action>, t: State) {
    Init(c, s) && Exec(c, s, acts) == Some(t)
  }

  lemma ExecSnoc(c: Engine.Config, s: State, acts: seq<Action>, t: State, a: Action, u: State)
    requires Exec(c, s, acts) == Some(t) && Step(c, t, a) == Some(u)
    ensures Exec(c, s, acts + [a]) == Some(u)
  {
    assert (acts + [a])[..|acts|] == acts;
  }

  // The invariant.

  /** The request that created m, from its commit on. */
  predicate Creates(x: Post, m: MessageId) {
    (x.pc.AtEnqueue? && x.pc.m == m) || (x.pc.AtRespond? && x.pc.m == m) || x.pc == Answered(Created(m))
  }

  /** The key of x leads to m, and m is what x asked to send. */
  predicate Recorded(s: State, x: Post, m: MessageId) {
    x.key in s.keys && s.keys[x.key] == m && m < |s.engine.db.messages| && s.engine.db.messages[m].mail == x.mail
  }

  ghost predicate PostFits(s: State, x: Post) {
    && (x.keyed <==> x.pc.AtInsertAccepted? || x.pc.AtInsertQueued? || x.pc.AtCommit?)
    && (x.keyed ==> x.key !in s.keys)
    && x.events == (if x.pc.AtInsertQueued? then [EvAccepted]
                    else if x.pc.AtCommit? then [EvAccepted, EvQueued] else [])
    && (x.pc.AtReplay? || (x.pc.Answered? && x.pc.reply.Replayed?) ==>
          x.key in s.keys && s.keys[x.key] == if x.pc.AtReplay? then x.pc.m else x.pc.reply.m)
    && (forall m: MessageId :: Creates(x, m) ==> Recorded(s, x, m))
    && (x.pc.AtEnqueue? ==> x.pc.m in s.engine.adding)
  }

  /** Keys and messages are in one-to-one correspondence. */
  ghost predicate KeysMatch(s: State) {
    && (forall k :: k in s.keys ==> s.keys[k] < |s.engine.db.messages|)
    && (forall j, k :: j in s.keys && k in s.keys && s.keys[j] == s.keys[k] ==> j == k)
    && (forall m: MessageId :: m < |s.engine.db.messages| ==> HasKey(s, m))
  }

  ghost predicate HasKey(s: State, m: MessageId) { exists k :: k in s.keys && s.keys[k] == m }

  ghost predicate Exclusive(s: State) {
    && (forall p, q :: 0 <= p < q < |s.posts| && s.posts[p].keyed && s.posts[q].keyed ==>
          s.posts[p].key != s.posts[q].key)
    && (forall p, q, m: MessageId :: 0 <= p < q < |s.posts| && Creates(s.posts[p], m) ==> !Creates(s.posts[q], m))
  }

  ghost predicate Consistent(s: State) {
    KeysMatch(s) && Exclusive(s) && forall p :: 0 <= p < |s.posts| ==> PostFits(s, s.posts[p])
  }

  /** What a request's own steps leave alone. */
  predicate KeysGrow(s: State, t: State) {
    && (forall k :: k in s.keys ==> k in t.keys && t.keys[k] == s.keys[k])
    && |s.engine.db.messages| <= |t.engine.db.messages|
    && (forall m :: 0 <= m < |s.engine.db.messages| ==>
          t.engine.db.messages[m].mail == s.engine.db.messages[m].mail)
  }

  lemma ConsistentCommit(s: State, p: nat)
    requires Consistent(s) && p < |s.posts| && s.posts[p].pc.AtCommit?
    ensures Consistent(Committed(s, p)) && KeysGrow(s, Committed(s, p))
  {
    var t, x := Committed(s, p), s.posts[p];
    var count := |s.engine.db.messages|;
    assert PostFits(s, x);
    forall m: MessageId | m < |t.engine.db.messages| ensures HasKey(t, m) {
      if m < count {
        assert HasKey(s, m);
        var k :| k in s.keys && s.keys[k] == m;
        assert k in t.keys && t.keys[k] == m;
      } else {
        assert t.keys[x.key] == m;
      }
    }
    forall q | 0 <= q < |t.posts| ensures PostFits(t, t.posts[q]) { assert PostFits(s, s.posts[q]); }
    forall q, m: MessageId | 0 <= q < |t.posts| && Creates(t.posts[q], m) ensures q == p || Creates(s.posts[q], m) {}
    forall q, m: MessageId | 0 <= q < |s.posts| && Creates(s.posts[q], m) ensures m < count {
      assert PostFits(s, s.posts[q]);
    }
  }

  /** A request that answers or moves on without committing. */
  lemma ConsistentMove(s: State, p: nat, x: Post, t: State)
    requires Consistent(s) && p < |s.posts| && t == SetPost(s, p, x).(engine := t.engine)
    requires t.engine.db == s.engine.db && x.key == s.posts[p].key && x.mail == s.posts[p].mail && PostFits(t, x)
    requires forall m: MessageId :: Creates(x, m) ==> Creates(s.posts[p], m)
    requires x.keyed ==> s.posts[p].keyed || !KeyHeld(s, p, x.key)
    requires forall q :: 0 <= q < |s.posts| && q != p && s.posts[q].pc.AtEnqueue? ==> s.posts[q].pc.m in t.engine.adding
    ensures Consistent(t) && KeysGrow(s, t)
  {
    forall m: MessageId | m < |t.engine.db.messages| ensures HasKey(t, m) { assert HasKey(s, m); }
    forall q | 0 <= q < |t.posts| ensures PostFits(t, t.posts[q]) { assert PostFits(s, s.posts[q]); }
  }

  /** Of the requests waiting to make their XADD each waits for its own message. */
  lemma OwnAdd(s: State, p: nat, m: MessageId)
    requires Consistent(s) && p < |s.posts| && Creates(s.posts[p], m)
    ensures forall q :: 0 <= q < |s.posts| && q != p && s.posts[q].pc.AtEnqueue? ==>
              s.posts[q].pc.m != m && s.posts[q].pc.m in s.engine.adding
  {
    forall q | 0 <= q < |s.posts| && q != p && s.posts[q].pc.AtEnqueue?
      ensures s.posts[q].pc.m != m && s.posts[q].pc.m in s.engine.adding {
      assert PostFits(s, s.posts[q]) && Creates(s.posts[q], s.posts[q].pc.m);
    }
  }

  lemma ConsistentCommitStep(s: State, p: nat, outcome: Outcome)
    requires Consistent(s) && p < |s.posts| && s.posts[p].pc.AtCommit?
    ensures Consistent(CommitStep(s, p, outcome)) && KeysGrow(s, CommitStep(s, p, outcome))
  {
    ConsistentCommit(s, p);
    var t := CommitStep(s, p, outcome);
    assert PostFits(s, s.posts[p]);
    forall q | 0 <= q < |s.posts| ensures PostFits(s, s.posts[q]) {}
    if outcome.Error? {
      ConsistentMove(s, p, t.posts[p], t);
    }
    if outcome.Lost? {
      var u := Committed(s, p);
      OwnAdd(u, p, |s.engine.db.messages|);
      ConsistentMove(u, p, t.posts[p], t);
    }
  }

  lemma ConsistentEnqueue(s: State, p: nat, outcome: Outcome)
    requires Consistent(s) && p < |s.posts| && s.posts[p].pc.AtEnqueue?
    ensures var t := EnqueueStep(s, p, s.posts[p].pc.m, outcome); Consistent(t) && KeysGrow(s, t)
  {
    var m := s.posts[p].pc.m;
    var t := EnqueueStep(s, p, m, outcome);
    assert PostFits(s, s.posts[p]) && Creates(s.posts[p], m);
    OwnAdd(s, p, m);
    ConsistentMove(s, p, t.posts[p], t);
  }

  lemma ConsistentAdvance(s: State, p: nat, outcome: Outcome, t: State)
    requires Consistent(s) && AdvanceStep(s, p, outcome) == Some(t)
    ensures Consistent(t) && KeysGrow(s, t)
  {
    if s.posts[p].pc.AtCommit? { ConsistentCommitStep(s, p, outcome); }
    else if s.posts[p].pc.AtEnqueue? { ConsistentEnqueue(s, p, outcome); }
    else {
      forall q | 0 <= q < |s.posts| ensures PostFits(s, s.posts[q]) {}
      var x := s.posts[p];
      if x.pc.AtRespond? { assert Creates(x, x.pc.m); }
      ConsistentMove(s, p, t.posts[p], t);
    }
  }

  lemma ConsistentDie(s: State, p: nat, t: State)
    requires Consistent(s) && DieStep(s, p) == Some(t)
    ensures Consistent(t) && KeysGrow(s, t)
  {
    forall q | 0 <= q < |s.posts| ensures PostFits(s, s.posts[q]) {}
    if s.posts[p].pc.AtEnqueue? {
      assert Creates(s.posts[p], s.posts[p].pc.m);
      OwnAdd(s, p, s.posts[p].pc.m);
    }
    ConsistentMove(s, p, t.posts[p], t);
  }

  /** The engine neither accepts messages nor makes handlers' XADDs by itself. */
  lemma ElsewhereShape(c: Engine.Config, e: Engine.State, a: Engine.Action, f: Engine.State)
    requires IsElsewhere(a) && Engine.Step(c, e, a) == Some(f)
    ensures f.adding == e.adding && |f.db.messages| == |e.db.messages|
    ensures forall m :: 0 <= m < |e.db.messages| ==> f.db.messages[m].mail == e.db.messages[m].mail
  {
    match a
    case World(w) =>
    case Poll(w, k) => Shapes.PollerShape(e, w, k, f);
    case Consume(w, d) =>
      if d.Work? { Shapes.WorkShape(c, e, w, d.input, f); } else { Shapes.QuietShape(c, e, w, d, f); }
  }

  lemma ConsistentElsewhere(c: Engine.Config, s: State, a: Engine.Action, t: State)
    requires Consistent(s) && Step(c, s, Elsewhere(a)) == Some(t)
    ensures Consistent(t) && KeysGrow(s, t)
  {
    ElsewhereShape(c, s.engine, a, t.engine);
    forall m: MessageId | m < |t.engine.db.messages| ensures HasKey(t, m) { assert HasKey(s, m); }
    forall p | 0 <= p < |t.posts| ensures PostFits(t, t.posts[p]) { assert PostFits(s, s.posts[p]); }
  }

  lemma ConsistentArrive(c: Engine.Config, s: State, key: string, mail: Mail, t: State)
    requires Consistent(s) && Step(c, s, Arrive(key, mail)) == Some(t)
    ensures Consistent(t) && KeysGrow(s, t)
  {
    forall m: MessageId | m < |t.engine.db.messages| ensures HasKey(t, m) { assert HasKey(s, m); }
    forall p | 0 <= p < |t.posts| ensures PostFits(t, t.posts[p]) {
      if p < |s.posts| { assert PostFits(s, s.posts[p]); }
    }
  }

  lemma ConsistentStep(c: Engine.Config, s: State, a: Action, t: State)
    requires Consistent(s) && Step(c, s, a) == Some(t)
    ensures Consistent(t) && KeysGrow(s, t)
  {
    match a
    case Arrive(key, mail) => ConsistentArrive(c, s, key, mail, t);
    case Advance(p, outcome) => ConsistentAdvance(s, p, outcome, t);
    case Die(p) => ConsistentDie(s, p, t);
    case Elsewhere(b) => ConsistentElsewhere(c, s, b, t);
  }

  lemma {:induction false} ConsistentAlways(c: Engine.Config, s: State, acts: seq<Action>, t: State)
    requires Reaches(c, s, acts, t)
    ensures Consistent(t)
    decreases |acts|
  {
    if acts != [] {
      var u := Exec(c, s, acts[..|acts| - 1]).value;
      ConsistentAlways(c, s, acts[..|acts| - 1], u);
      ConsistentStep(c, u, acts[|acts| - 1], t);
    }
  }

  // The engine below.

  /** What a step is to the engine. */
  function EngineActs(s: State, a: Action): seq<Engine.Action> {
    match a
    case Arrive(_, _) => []
    case Elsewhere(b) => [b]
    case Die(p) =>
      if p < |s.posts| && s.posts[p].pc.AtEnqueue? then [Engine.World(Engine.HandlerDrop(s.posts[p].pc.m))] else []
    case Advance(p, outcome) =>
      if p >= |s.posts| then []
      else
        match s.posts[p].pc
        case AtCommit =>
          var accept := Engine.World(Engine.Accept(s.posts[p].mail));
          (match outcome
           case Ok => [accept]
           case Error => []
           case Lost => [accept, Engine.World(Engine.HandlerDrop(|s.engine.db.messages|))])
        case AtEnqueue(m) =>
          if outcome.Error? then [Engine.World(Engine.HandlerDrop(m))] else [Engine.World(Engine.HandlerAdd(m))]
        case _ => []
  }

  lemma ProjectCommit(c: Engine.Config, s: State, p: nat, outcome: Outcome, t: State)
    requires Consistent(s) && AdvanceStep(s, p, outcome) == Some(t) && s.posts[p].pc.AtCommit?
    ensures Engine.Exec(c, s.engine, EngineActs(s, Advance(p, outcome))) == Some(t.engine)
  {
    assert PostFits(s, s.posts[p]);
    var accept := Engine.World(Engine.Accept(s.posts[p].mail));
    Engine.ExecOne(c, s.engine, accept);
    if outcome.Lost? {
      var drop := Engine.World(Engine.HandlerDrop(|s.engine.db.messages|));
      var u := Engine.AcceptStep(s.engine, s.posts[p].mail);
      Engine.ExecOne(c, u, drop);
      Engine.ExecThen(c, s.engine, [accept], u, [drop]);
      assert [accept] + [drop] == [accept, drop];
    }
  }

  lemma ProjectStep(c: Engine.Config, s: State, a: Action, t: State)
    requires Consistent(s) && Step(c, s, a) == Some(t)
    ensures Engine.Exec(c, s.engine, EngineActs(s, a)) == Some(t.engine)
  {
    match a
    case Arrive(_, _) =>
    case Elsewhere(b) => Engine.ExecOne(c, s.engine, b);
    case Die(p) =>
      assert PostFits(s, s.posts[p]);
      if s.posts[p].pc.AtEnqueue? { Engine.ExecOne(c, s.engine, Engine.World(Engine.HandlerDrop(s.posts[p].pc.m))); }
    case Advance(p, outcome) =>
      if s.posts[p].pc.AtCommit? { ProjectCommit(c, s, p, outcome, t); }
      else if s.posts[p].pc.AtEnqueue? { ProjectEnqueue(c, s, p, outcome, t); }
  }

  lemma ProjectEnqueue(c: Engine.Config, s: State, p: nat, outcome: Outcome, t: State)
    requires Consistent(s) && AdvanceStep(s, p, outcome) == Some(t) && s.posts[p].pc.AtEnqueue?
    ensures Engine.Exec(c, s.engine, EngineActs(s, Advance(p, outcome))) == Some(t.engine)
  {
    assert PostFits(s, s.posts[p]);
    Engine.ExecOne(c, s.engine, EngineActs(s, Advance(p, outcome))[0]);
  }

  /** Requests refine the engine's handlers: every run of the whole system is a run of the engine. */
  lemma {:induction false} RunsAreEngineRuns(c: Engine.Config, s: State, acts: seq<Action>, t: State)
    returns (below: seq<Engine.Action>)
    requires Reaches(c, s, acts, t)
    ensures Engine.Reaches(c, s.engine, below, t.engine)
    decreases |acts|
  {
    if acts == [] {
      below := [];
    } else {
      var u := Exec(c, s, acts[..|acts| - 1]).value;
      var before := RunsAreEngineRuns(c, s, acts[..|acts| - 1], u);
      ConsistentAlways(c, s, acts[..|acts| - 1], u);
      ProjectStep(c, u, acts[|acts| - 1], t);
      Engine.ExecThen(c, s.engine, before, u.engine, EngineActs(u, acts[|acts| - 1]));
      below := before + EngineActs(u, acts[|acts| - 1]);
    }
  }

  // What a client may rely on.

  /** The request an action is about, if it is about one already there. */
  function Subject(a: Action): Option<nat> {
    match a
    case Advance(p, _) => Some(p)
    case Die(p) => Some(p)
    case _ => None
  }

  lemma PostsShape(c: Engine.Config, s: State, a: Action, t: State)
    requires Step(c, s, a) == Some(t)
    ensures |s.posts| <= |t.posts|
    ensures forall p :: 0 <= p < |s.posts| ==>
              t.posts[p].key == s.posts[p].key && (Subject(a) != Some(p) ==> t.posts[p] == s.posts[p])
    ensures forall p :: |s.posts| <= p < |t.posts| ==> t.posts[p].pc == AtSelectKey
  {
    match a
    case Advance(p, outcome) => AdvanceShape(s, p, outcome, t);
    case _ =>
  }

  lemma AdvanceShape(s: State, p: nat, outcome: Outcome, t: State)
    requires AdvanceStep(s, p, outcome) == Some(t)
    ensures p < |s.posts| == |t.posts| && t.posts[p].key == s.posts[p].key
    ensures forall q :: 0 <= q < |s.posts| && q != p ==> t.posts[q] == s.posts[q]
  {
  }

  lemma {:induction false} KeysStay(c: Engine.Config, s0: State, before: seq<Action>, s: State, after: seq<Action>,
          t: State)
    requires Reaches(c, s0, before, s) && Exec(c, s, after) == Some(t)
    ensures Consistent(t) && KeysGrow(s, t) && |s.posts| <= |t.posts|
    decreases |after|
  {
    ConsistentAlways(c, s0, before, s);
    if after != [] {
      var u := Exec(c, s, after[..|after| - 1]).value;
      KeysStay(c, s0, before, s, after[..|after| - 1], u);
      ConsistentStep(c, u, after[|after| - 1], t);
      PostsShape(c, u, after[|after| - 1], t);
    }
  }

  /**
   Each idempotency key leads to at most one message and each committed message has exactly one key;
   its log opens with accepted and queued, each written once, and its handler makes at most one XADD.
   */
  lemma OneKeyPerMessage(c: Engine.Config, s: State, acts: seq<Action>, t: State, m: MessageId)
    requires Reaches(c, s, acts, t) && m < |t.engine.db.messages|
    ensures exists k :: k in t.keys && t.keys[k] == m && forall j :: j in t.keys && t.keys[j] == m ==> j == k
    ensures Arrivals.Opened(t.engine.db.messages[m].log)
    ensures Count(t.engine.q.entries, Arrivals.FromHandler(m)) <= 1
  {
    ConsistentAlways(c, s, acts, t);
    assert HasKey(t, m);
    var below := RunsAreEngineRuns(c, s, acts, t);
    Arrivals.ArrivedAlways(c, s.engine, below, t.engine);
    assert Arrivals.AddedOnce(t.engine, m);
  }

  /**
   Requests that are answered with a message agree on it if they share a key, and one at most is told
   it created it.
   */
  lemma AnswersAgree(c: Engine.Config, s: State, acts: seq<Action>, t: State, p: nat, q: nat, m: MessageId,
          n: MessageId)
    requires Reaches(c, s, acts, t) && p < |t.posts| && q < |t.posts| && t.posts[p].key == t.posts[q].key
    requires t.posts[p].pc == Answered(Created(m)) || t.posts[p].pc == Answered(Replayed(m))
    requires t.posts[q].pc == Answered(Created(n)) || t.posts[q].pc == Answered(Replayed(n))
    ensures m == n && m < |t.engine.db.messages|
    ensures t.posts[p].pc == Answered(Created(m)) ==> t.engine.db.messages[m].mail == t.posts[p].mail
    ensures t.posts[p].pc == Answered(Created(m)) && t.posts[q].pc == Answered(Created(n)) ==> p == q
  {
    ConsistentAlways(c, s, acts, t);
    assert PostFits(t, t.posts[p]) && PostFits(t, t.posts[q]);
    if t.posts[p].pc == Answered(Created(m)) { assert Creates(t.posts[p], m); }
    if t.posts[q].pc == Answered(Created(n)) { assert Creates(t.posts[q], n); }
  }

  /** Where a request that found the key can be. */
  predicate OnReplay(pc: Point, m: MessageId) {
    pc == AtSelectKey || pc == AtReplay(m) || pc == Answered(Replayed(m)) || pc == Answered(InternalError)
    || pc == Answered(NoReply)
  }

  /** Where a request that did not find its key, and whose key has been taken since, can be. */
  predicate TooEarly(pc: Point) {
    pc == AtCustomer || pc == AtInsertMessage || pc == AtInsertKey || pc == Answered(CustomerNotFound)
    || pc == Answered(Forbidden) || pc == Answered(InternalError) || pc == Answered(NoReply)
  }

  lemma KeyTakenStep(c: Engine.Config, s: State, a: Action, t: State, p: nat, k: string)
    requires Consistent(s) && Step(c, s, a) == Some(t) && p < |s.posts| && s.posts[p].key == k && k in s.keys
    ensures p < |t.posts| && t.posts[p].key == k && k in t.keys && t.keys[k] == s.keys[k]
    ensures OnReplay(s.posts[p].pc, s.keys[k]) ==> OnReplay(t.posts[p].pc, s.keys[k])
    ensures TooEarly(s.posts[p].pc) ==> TooEarly(t.posts[p].pc)
  {
    ConsistentStep(c, s, a, t);
    PostsShape(c, s, a, t);
    if a.Advance? && a.p == p { KeyTakenAdvance(s, p, a.outcome, t); }
    if a.Die? && a.p == p { assert t.posts[p].pc == Answered(NoReply); }
  }

  lemma KeyTakenAdvance(s: State, p: nat, outcome: Outcome, t: State)
    requires AdvanceStep(s, p, outcome) == Some(t) && s.posts[p].key in s.keys
    ensures p < |t.posts|
    ensures var m := s.keys[s.posts[p].key]; OnReplay(s.posts[p].pc, m) ==> OnReplay(t.posts[p].pc, m)
    ensures TooEarly(s.posts[p].pc) ==> TooEarly(t.posts[p].pc)
  {
  }

  /**
   Whoever looks after the commit is told of the same message: a request that has not looked its key
   up by the time it is committed creates nothing, and any message it is answered with is the one the
   key leads to.
   */
  lemma {:induction false} LaterRequestsReplay(c: Engine.Config, s0: State, before: seq<Action>, s: State,
                                               after: seq<Action>, t: State, p: nat, k: string)
    requires Reaches(c, s0, before, s) && k in s.keys && Exec(c, s, after) == Some(t)
    requires p < |t.posts| && t.posts[p].key == k && (p < |s.posts| ==> s.posts[p].pc == AtSelectKey)
    ensures k in t.keys && t.keys[k] == s.keys[k] && OnReplay(t.posts[p].pc, s.keys[k])
    decreases |after|
  {
    if after != [] {
      var u := Exec(c, s, after[..|after| - 1]).value;
      KeysStay(c, s0, before, s, after[..|after| - 1], u);
      ConsistentStep(c, u, after[|after| - 1], t);
      PostsShape(c, u, after[|after| - 1], t);
      if p < |u.posts| {
        LaterRequestsReplay(c, s0, before, s, after[..|after| - 1], u, p, k);
        KeyTakenStep(c, u, after[|after| - 1], t, p, k);
      }
    }
  }

  /**
   And that is the exact condition: a request that looked for its key before the commit and has not
   inserted it is never told of the message. It fails on the primary key instead of replaying.
   */
  lemma {:induction false} EarlierRequestsFail(c: Engine.Config, s0: State, before: seq<Action>, s: State,
                                               after: seq<Action>, t: State, p: nat, k: string)
    requires Reaches(c, s0, before, s) && k in s.keys && Exec(c, s, after) == Some(t)
    requires p < |s.posts| && s.posts[p].key == k && TooEarly(s.posts[p].pc)
    ensures p < |t.posts| && t.posts[p].key == k && TooEarly(t.posts[p].pc)
    decreases |after|
  {
    if after != [] {
      var u := Exec(c, s, after[..|after| - 1]).value;
      EarlierRequestsFail(c, s0, before, s, after[..|after| - 1], u, p, k);
      KeysStay(c, s0, before, s, after[..|after| - 1], u);
      KeyTakenStep(c, u, after[|after| - 1], t, p, k);
    }
  }

  // Unknown and blocked customers.

  /** Exactly when the check of a request answers 404 or 403, and when it lets the request insert. */
  lemma CustomerCheckExactly(s: State, p: nat, t: State)
    requires p < |s.posts| && s.posts[p].pc.AtCustomer? && QueryStep(s, p) == Some(t)
    ensures var customers, k := s.engine.db.sendingState, s.posts[p].mail.customer;
            var next := t.posts[p].pc;
            && (next == Answered(CustomerNotFound) <==> k !in customers)
            && (next == Answered(Forbidden) <==> k in customers && customers[k] == BlockedFromSending)
            && (next == AtInsertMessage <==> k in customers && customers[k] != BlockedFromSending)
  {
  }

  /** Action k was the check of request p, and found its customer in the given state, or not at all. */
  ghost predicate CheckedAt(c: Engine.Config, s: State, acts: seq<Action>, p: nat, customer: CustomerId,
                            found: Option<SendingState>, k: nat)
  {
    && k < |acts| && acts[k] == Advance(p, Ok)
    && match Exec(c, s, acts[..k])
       case None => false
       case Some(u) =>
         var customers := u.engine.db.sendingState;
         && p < |u.posts| && u.posts[p].pc.AtCustomer?
         && found == if customer in customers then Some(customers[customer]) else None
  }

  ghost predicate Checked(c: Engine.Config, s: State, acts: seq<Action>, p: nat, customer: CustomerId,
                          found: Option<SendingState>)
  {
    exists k: nat :: CheckedAt(c, s, acts, p, customer, found, k)
  }

  /** The request has passed the check, and has perhaps created its message. */
  predicate PastCheck(pc: Point) {
    pc.AtInsertMessage? || pc.AtInsertKey? || pc.AtInsertAccepted? || pc.AtInsertQueued? || pc.AtCommit?
    || pc.AtEnqueue? || pc.AtRespond? || (pc.Answered? && pc.reply.Created?)
  }

  ghost predicate CheckExplains(c: Engine.Config, s: State, acts: seq<Action>, x: Post, p: nat) {
    var k := x.mail.customer;
    && (x.pc == Answered(CustomerNotFound) ==> Checked(c, s, acts, p, k, None))
    && (x.pc == Answered(Forbidden) ==> Checked(c, s, acts, p, k, Some(BlockedFromSending)))
    && (PastCheck(x.pc) ==>
          exists state :: state != BlockedFromSending && Checked(c, s, acts, p, k, Some(state)))
  }

  lemma CheckedStays(c: Engine.Config, s: State, before: seq<Action>, a: Action, p: nat, customer: CustomerId,
                     found: Option<SendingState>)
    requires Checked(c, s, before, p, customer, found)
    ensures Checked(c, s, before + [a], p, customer, found)
  {
    var k: nat :| CheckedAt(c, s, before, p, customer, found, k);
    assert (before + [a])[..k] == before[..k];
    assert CheckedAt(c, s, before + [a], p, customer, found, k);
  }

  lemma CheckStaysExplained(c: Engine.Config, s: State, before: seq<Action>, a: Action, x: Post, y: Post, p: nat)
    requires CheckExplains(c, s, before, x, p) && y.mail == x.mail
    requires MovesFrom(x, y)
    ensures CheckExplains(c, s, before + [a], y, p)
  {
    var k := x.mail.customer;
    if y.pc == Answered(CustomerNotFound) { CheckedStays(c, s, before, a, p, k, None); }
    if y.pc == Answered(Forbidden) { CheckedStays(c, s, before, a, p, k, Some(BlockedFromSending)); }
    if PastCheck(y.pc) {
      var state :| state != BlockedFromSending && Checked(c, s, before, p, k, Some(state));
      CheckedStays(c, s, before, a, p, k, Some(state));
    }
  }

  lemma CheckedNow(c: Engine.Config, s: State, before: seq<Action>, u: State, p: nat)
    requires Exec(c, s, before) == Some(u) && p < |u.posts| && u.posts[p].pc.AtCustomer?
    ensures var customers, k := u.engine.db.sendingState, u.posts[p].mail.customer;
            Checked(c, s, before + [Advance(p, Ok)], p, k, if k in customers then Some(customers[k]) else None)
  {
    var customers, k := u.engine.db.sendingState, u.posts[p].mail.customer;
    var found := if k in customers then Some(customers[k]) else None;
    var acts := before + [Advance(p, Ok)];
    assert acts[..|before|] == before && acts[|before|] == Advance(p, Ok);
    assert CheckedAt(c, s, acts, p, k, found, |before|);
  }

  lemma CheckNowExplains(c: Engine.Config, s: State, before: seq<Action>, u: State, p: nat, t: State)
    requires Exec(c, s, before) == Some(u) && p < |u.posts| && u.posts[p].pc.AtCustomer?
    requires AdvanceStep(u, p, Ok) == Some(t)
    ensures p < |t.posts| && CheckExplains(c, s, before + [Advance(p, Ok)], t.posts[p], p)
  {
    CheckedNow(c, s, before, u, p);
    assert t.posts[p] == u.posts[p].(pc := CustomerPoint(u, u.posts[p]));
  }

  /** An answer 404 or 403, and any insertion, go back to a check that found the customer so. */
  lemma {:induction false} CustomerAnswers(c: Engine.Config, s: State, acts: seq<Action>, t: State, p: nat)
    requires Reaches(c, s, acts, t) && p < |t.posts|
    ensures CheckExplains(c, s, acts, t.posts[p], p)
    decreases |acts|
  {
    if acts != [] {
      var before, a := acts[..|acts| - 1], acts[|acts| - 1];
      var u := Exec(c, s, before).value;
      assert acts == before + [a];
      PostsShape(c, u, a, t);
      if p < |u.posts| {
        CustomerAnswers(c, s, before, u, p);
        if a == Advance(p, Ok) && u.posts[p].pc.AtCustomer? {
          CheckNowExplains(c, s, before, u, p, t);
        } else {
          MovesOn(c, u, a, t, p);
          CheckStaysExplained(c, s, before, a, u.posts[p], t.posts[p], p);
        }
      }
    }
  }

  predicate MovesFrom(x: Post, y: Post) {
    || y.pc == x.pc || y.pc == Answered(InternalError) || y.pc == Answered(NoReply)
    || (PastCheck(x.pc) && PastCheck(y.pc))
    || !(PastCheck(y.pc) || y.pc == Answered(CustomerNotFound) || y.pc == Answered(Forbidden))
  }

  /** Any other step of a request passes the check only if it was passed before. */
  lemma MovesOn(c: Engine.Config, u: State, a: Action, t: State, p: nat)
    requires Step(c, u, a) == Some(t) && p < |u.posts| && !(a == Advance(p, Ok) && u.posts[p].pc.AtCustomer?)
    ensures p < |t.posts| && t.posts[p].mail == u.posts[p].mail && MovesFrom(u.posts[p], t.posts[p])
  {
    if a.Advance? { AdvanceMoves(u, a.p, a.outcome, t, p); }
  }

  lemma AdvanceMoves(u: State, q: nat, outcome: Outcome, t: State, p: nat)
    requires AdvanceStep(u, q, outcome) == Some(t) && p < |u.posts|
    requires !(q == p && outcome == Ok && u.posts[p].pc.AtCustomer?)
    ensures p < |t.posts| && t.posts[p].mail == u.posts[p].mail && MovesFrom(u.posts[p], t.posts[p])
  {
  }

  // Who waits for whom.

  /** Another request with the same key has inserted it and not committed yet. */
  predicate Rival(s: State, p: nat, q: nat) {
    && p < |s.posts| && q < |s.posts| && q != p && s.posts[q].key == s.posts[p].key
    && (s.posts[q].pc.AtInsertAccepted? || s.posts[q].pc.AtInsertQueued? || s.posts[q].pc.AtCommit?)
  }

  /** A request waits exactly while a rival is open, and a rival can always go on: nobody waits for ever in a circle. */
  lemma WaitsExactly(c: Engine.Config, s: State, acts: seq<Action>, t: State, p: nat)
    requires Reaches(c, s, acts, t) && p < |t.posts| && !t.posts[p].pc.Answered?
    ensures Step(c, t, Advance(p, Ok)).None?
            <==> t.posts[p].pc.AtInsertKey? && t.posts[p].key !in t.keys && exists q: nat :: Rival(t, p, q)
    ensures forall q: nat :: Rival(t, p, q) ==> Step(c, t, Advance(q, Ok)).Some?
  {
    ConsistentAlways(c, s, acts, t);
    forall q: nat | q < |t.posts| && q != p && t.posts[q].key == t.posts[p].key
      ensures t.posts[q].keyed <==> Rival(t, p, q) {
      assert PostFits(t, t.posts[q]);
    }
  }
}
