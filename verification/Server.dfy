/** POST /messages as the handler runs it, query by query, with every other request and worker in between. */
module Servers {
  import opened Base
  import opened Tables
  import opened Intake
  import Engine

  predicate Own(p: nat, a: Intake.Action) {
    match a
    case Advance(q, _) => q == p
    case Die(q) => q == p
    case _ => false
  }

  /** A schedule that extends another runs on from where that one ends. */
  lemma {:induction false} ExecSuffix(c: Engine.Config, s: Intake.State, before: seq<Intake.Action>, t: Intake.State,
                                      acts: seq<Intake.Action>, u: Intake.State)
    requires Exec(c, s, before) == Some(t) && before <= acts && Exec(c, s, acts) == Some(u)
    ensures Exec(c, t, acts[|before|..]) == Some(u)
    decreases |acts|
  {
    if |acts| > |before| {
      var last := |acts| - 1;
      ExecSuffix(c, s, before, t, acts[..last], Exec(c, s, acts[..last]).value);
      var after := acts[|before|..];
      assert after[..|after| - 1] == acts[..last][|before|..];
    } else {
      assert acts == before;
    }
  }

  /** When a call was made: what had happened by then. */
  datatype Moment = Moment(acts: seq<Intake.Action>, s: Intake.State)

  class Server {
    const config: Engine.Config
    var s: Intake.State
    ghost const origin: Intake.State
    ghost var acts: seq<Intake.Action>

    /** The state the latest action took effect in, and the schedule that led there. */
    ghost var eve: Intake.State
    ghost var prior: seq<Intake.Action>

    ghost predicate Valid() reads this { Intake.Reaches(config, origin, acts, s) }

    /** The last thing that happened is action a, in state eve, after whatever the others did first. */
    twostate predicate Called(a: Intake.Action) reads this {
      old(acts) <= prior && Exec(config, origin, prior) == Some(eve) && acts == prior + [a]
    }

    constructor (config: Engine.Config, s: Intake.State)
      requires Intake.Init(config, s)
      ensures Valid() && this.config == config && this.s == s && acts == []
    {
      this.config, this.s, this.origin, this.acts := config, s, s, [];
      this.eve, this.prior := s, [];
    }

    method Do(a: Intake.Action)
      requires Valid() && Intake.Step(config, s, a).Some?
      modifies this
      ensures Valid() && Some(s) == Intake.Step(config, old(s), a) && acts == old(acts) + [a]
      ensures eve == old(s) && prior == old(acts)
      ensures |old(s).posts| <= |s.posts|
    {
      eve, prior := s, acts;
      s := Intake.Step(config, s, a).value;
      ExecSnoc(config, origin, acts, eve, a, s);
      PostsShape(config, eve, a, s);
      acts := acts + [a];
    }

    method Others(p: nat)
      requires Valid() && p < |s.posts|
      modifies this
      ensures Valid() && old(acts) <= acts && p < |s.posts| && s.posts[p] == old(s).posts[p]
    {
      var n: nat := *;
      while n > 0
        invariant Valid() && old(acts) <= acts && p < |s.posts| && s.posts[p] == old(s).posts[p]
      {
        var a: Intake.Action := *;
        if !Own(p, a) && Intake.Step(config, s, a).Some? {
          PostsShape(config, s, a, Intake.Step(config, s, a).value);
          Do(a);
        }
        n := n - 1;
      }
    }

    predicate At(p: nat, key: string, mail: Mail, pc: Point) reads this {
      p < |s.posts| && s.posts[p].key == key && s.posts[p].mail == mail && s.posts[p].pc == pc
    }

    /** The calls that answer 500 when they fail. */
    method Query(p: nat, key: string, mail: Mail, ghost pc: Point) returns (ok: bool)
      requires Valid() && At(p, key, mail, pc) && !pc.AtCommit? && !pc.AtEnqueue? && !pc.AtInsertKey? && !pc.Answered?
      modifies this
      ensures Valid() && old(acts) <= acts && p < |eve.posts| && eve.posts[p] == old(s).posts[p]
      ensures Called(Advance(p, if ok then Ok else Error))
      ensures if ok then QueryStep(eve, p) == Some(s) else At(p, key, mail, Answered(InternalError))
    {
      Others(p);
      ok := *;
      Do(Advance(p, if ok then Ok else Error));
    }

    /** The primary key decides: taken by a commit, it fails; held by an open transaction, it waits or gives up. */
    method InsertKey(p: nat, key: string, mail: Mail) returns (ok: bool)
      requires Valid() && At(p, key, mail, AtInsertKey)
      modifies this
      ensures Valid() && old(acts) <= acts
      ensures At(p, key, mail, if ok then AtInsertAccepted else Answered(InternalError))
      ensures Called(Advance(p, if ok then Ok else Error))
      ensures ok ==> key !in eve.keys && !KeyHeld(eve, p, key)
    {
      Others(p);
      var patience: nat := *;
      while patience > 0 && key !in s.keys && KeyHeld(s, p, key)
        invariant Valid() && old(acts) <= acts && At(p, key, mail, AtInsertKey)
      {
        Others(p);
        patience := patience - 1;
      }
      var reached := *;
      ok := reached && key !in s.keys && !KeyHeld(s, p, key);
      Do(Advance(p, if ok then Ok else Error));
    }

    /** The enqueue after the commit: its errors are swallowed, so the answer depends on the last read alone. */
    method EnqueueAndRespond(p: nat, key: string, mail: Mail, m: MessageId) returns (reply: Reply, ghost read: bool)
      requires Valid() && At(p, key, mail, AtEnqueue(m))
      modifies this
      ensures Valid() && old(acts) <= acts && At(p, key, mail, Answered(reply))
      ensures Called(Advance(p, if read then Ok else Error)) && p < |eve.posts| && eve.posts[p].pc == AtRespond(m)
      ensures reply == if read then Created(m) else InternalError
    {
      Others(p);
      var outcome: Intake.Outcome := *;
      Do(Advance(p, outcome));
      var ok := Query(p, key, mail, AtRespond(m));
      reply, read := if ok then Created(m) else InternalError, ok;
    }

    /**
     COMMIT, which may take effect and still report an error. Whenever it reports one the answer is 500,
     and nothing is stored if it took no effect; whenever it took effect the key leads to the new message,
     and the answer names it if the COMMIT reported success and the message could be read back.
     */
    method CommitAndEnqueue(p: nat, key: string, mail: Mail)
      returns (reply: Reply, ghost commit: Intake.Outcome, ghost read: bool, ghost call: Moment)
      requires Valid() && At(p, key, mail, AtCommit)
      modifies this
      ensures Valid() && old(acts) <= acts && At(p, key, mail, Answered(reply))
      ensures old(acts) <= call.acts && Exec(config, origin, call.acts) == Some(call.s)
      ensures call.acts + [Advance(p, commit)] <= acts
      ensures var m := |call.s.engine.db.messages|;
              && reply == (if commit.Ok? && read then Created(m) else InternalError)
              && (if commit.Error? then s.keys == call.s.keys && s.engine == call.s.engine
                  else
                    && key !in call.s.keys && key in s.keys && s.keys[key] == m < |s.engine.db.messages|
                    && s.engine.db.messages[m].mail == mail)
              && (if commit.Ok?
                  then p < |eve.posts| && eve.posts[p].pc == AtRespond(m)
                       && Called(Advance(p, if read then Ok else Error))
                  else Called(Advance(p, commit)))
    {
      Others(p);
      call := Moment(acts, s);
      var outcome: Intake.Outcome := *;
      var m := |s.engine.db.messages|;
      FreshKey(p);
      Do(Advance(p, outcome));
      commit, read := outcome, false;
      if !outcome.Ok? { return InternalError, commit, read, call; }
      ghost var committed, before := s, acts;
      reply, read := EnqueueAndRespond(p, key, mail, m);
      ExecSuffix(config, origin, before, committed, acts, s);
      KeysStay(config, origin, before, committed, acts[|before|..], s);
    }

    /** A request that has inserted its key is the first to commit one. */
    lemma FreshKey(p: nat)
      requires Valid() && p < |s.posts| && s.posts[p].pc.AtCommit?
      ensures s.posts[p].key !in s.keys
    {
      ConsistentAlways(config, origin, acts, s);
      assert PostFits(s, s.posts[p]);
    }

    /** Both opening events, or a 500. */
    method InsertEvents(p: nat, key: string, mail: Mail) returns (ok: bool)
      requires Valid() && At(p, key, mail, AtInsertAccepted)
      modifies this
      ensures Valid() && old(acts) <= acts && At(p, key, mail, if ok then AtCommit else Answered(InternalError))
    {
      ok := Query(p, key, mail, AtInsertAccepted);
      if !ok { return; }
      ok := Query(p, key, mail, AtInsertQueued);
    }

    /** All the rows of the transaction, or a 500. */
    method InsertRows(p: nat, key: string, mail: Mail) returns (ok: bool)
      requires Valid() && At(p, key, mail, AtInsertMessage)
      modifies this
      ensures Valid() && old(acts) <= acts && At(p, key, mail, if ok then AtCommit else Answered(InternalError))
    {
      ok := Query(p, key, mail, AtInsertMessage);
      if !ok { return; }
      ok := InsertKey(p, key, mail);
      if !ok { return; }
      ok := InsertEvents(p, key, mail);
    }

    method Insert(p: nat, key: string, mail: Mail) returns (reply: Reply)
      requires Valid() && At(p, key, mail, AtInsertMessage)
      modifies this
      ensures Valid() && old(acts) <= acts && At(p, key, mail, Answered(reply)) && reply != NoReply
    {
      var ok := InsertRows(p, key, mail);
      if !ok { return InternalError; }
      var answer, _, _, _ := CommitAndEnqueue(p, key, mail);
      reply := answer;
    }

    method CheckCustomerAndInsert(p: nat, key: string, mail: Mail) returns (reply: Reply)
      requires Valid() && At(p, key, mail, AtCustomer)
      modifies this
      ensures Valid() && old(acts) <= acts && At(p, key, mail, Answered(reply)) && reply != NoReply
    {
      var ok := Query(p, key, mail, AtCustomer);
      if !ok { return InternalError; }
      var customers := s.engine.db.sendingState;
      if mail.customer !in customers { return CustomerNotFound; }
      if customers[mail.customer] == BlockedFromSending { return Forbidden; }
      reply := Insert(p, key, mail);
    }

    /**
     A whole request. A 201 names the message stored for this very body under this key; a 200 names
     the message the key already led to; and if the key was committed before the request began, no
     other message is ever named. A 404 follows a look that found no such customer, a 403 one that found
     it blocked, and a 201 one that found it and not blocked.
     */
    method Post(key: string, mail: Mail) returns (reply: Reply, p: nat)
      requires Valid()
      modifies this
      ensures Valid() && old(acts) <= acts && |old(s).posts| <= p && At(p, key, mail, Answered(reply))
      ensures reply.Created? || reply.Replayed? ==> key in s.keys && s.keys[key] == reply.m
      ensures reply.Created? ==> reply.m < |s.engine.db.messages| && s.engine.db.messages[reply.m].mail == mail
      ensures key in old(s).keys ==> reply == Replayed(old(s).keys[key]) || reply == InternalError
      ensures CheckExplains(config, origin, acts, s.posts[p], p)
    {
      p := |s.posts|;
      Do(Arrive(key, mail));
      var ok := Query(p, key, mail, AtSelectKey);
      if !ok {
        reply := InternalError;
      } else if key in s.keys {
        var m := s.keys[key];
        ok := Query(p, key, mail, AtReplay(m));
        reply := if ok then Replayed(m) else InternalError;
      } else {
        reply := CheckCustomerAndInsert(p, key, mail);
      }
      Explain(old(s), old(acts), key, mail, reply, p);
    }

    /** What the answer of a finished request means. */
    lemma Explain(was: Intake.State, before: seq<Intake.Action>, key: string, mail: Mail, reply: Reply, p: nat)
      requires Valid() && Intake.Reaches(config, origin, before, was) && before <= acts
      requires |was.posts| <= p && At(p, key, mail, Answered(reply))
      ensures reply.Created? || reply.Replayed? ==> key in s.keys && s.keys[key] == reply.m
      ensures reply.Created? ==> reply.m < |s.engine.db.messages| && s.engine.db.messages[reply.m].mail == mail
      ensures key in was.keys ==> reply == Replayed(was.keys[key]) || reply == InternalError || reply == NoReply
      ensures CheckExplains(config, origin, acts, s.posts[p], p)
    {
      CustomerAnswers(config, origin, acts, s, p);
      ConsistentAlways(config, origin, acts, s);
      assert PostFits(s, s.posts[p]);
      if reply.Created? { assert Creates(s.posts[p], reply.m); }
      if key in was.keys {
        ExecSuffix(config, origin, before, was, acts, s);
        LaterRequestsReplay(config, origin, before, was, acts[|before|..], s, p, key);
      }
    }
  }
}
