/** What a run in progress knows is true, and every recorded attempt went where selection sends it. */
module Knowledge {
  import opened Base
  import opened Tables
  import opened Engine
  import opened Shapes
  import Routing

  predicate Loaded(pc: Point) { !pc.AtLoad? && !pc.AtAck? }

  predicate PlanIsSelected(c: Config, now: Time, r: Run, p: Plan) {
    Routing.Select(c.routing, r.mail.provider, r.mail.customer) == Some(p.decision) && p.asOf <= now
  }

  predicate RunKnows(c: Config, s: State, r: Run) {
    Loaded(r.pc) ==>
      && r.msg < |s.db.messages| && r.mail == s.db.messages[r.msg].mail
      && (PlanOf(r.pc).Some? ==> PlanIsSelected(c, s.now, r, PlanOf(r.pc).value))
      && (r.pc.AtSuppress? ==> PlanIsSelected(c, s.now, r, r.pc.p))
  }

  predicate AttemptKnows(c: Config, s: State, a: Attempt) {
    && a.msg < |s.db.messages|
    && a.customer == s.db.messages[a.msg].mail.customer && a.provider == s.db.messages[a.msg].mail.provider
    && a.startedAt <= s.now
    && var d := Routing.Select(c.routing, a.provider, a.customer); d.Some? && d.value.pool.id == a.pool
  }

  ghost predicate Known(c: Config, s: State) {
    && (forall w: nat :: Running(s, w) ==> RunKnows(c, s, s.workers[w].run.value))
    && (forall i :: 0 <= i < |s.db.attempts| ==> AttemptKnows(c, s, s.db.attempts[i]))
  }

  /** Messages keep their mail and time does not go back. */
  ghost predicate Later(s: State, t: State) {
    && s.now <= t.now && |s.db.messages| <= |t.db.messages|
    && (forall m :: 0 <= m < |s.db.messages| ==> t.db.messages[m].mail == s.db.messages[m].mail)
  }

  lemma KnownCarries(c: Config, s: State, t: State)
    requires Known(c, s) && Later(s, t)
    requires forall w: nat :: Running(t, w) && Loaded(t.workers[w].run.value.pc) ==>
               (Running(s, w) && t.workers[w].run == s.workers[w].run) || RunKnows(c, t, t.workers[w].run.value)
    requires forall i :: 0 <= i < |t.db.attempts| ==>
               (i < |s.db.attempts| && t.db.attempts[i] == s.db.attempts[i]) || AttemptKnows(c, t, t.db.attempts[i])
    ensures Known(c, t)
  {
    forall i | 0 <= i < |t.db.attempts| ensures AttemptKnows(c, t, t.db.attempts[i]) {
      if i < |s.db.attempts| { assert AttemptKnows(c, s, s.db.attempts[i]); }
    }
  }

  lemma KnownWork(c: Config, s: State, w: nat, i: Input, t: State)
    requires Known(c, s) && WorkStep(c, s, w, i) == Some(t)
    ensures Known(c, t)
  {
    WorkShape(c, s, w, i, t);
    assert RunKnows(c, s, s.workers[w].run.value);
    if Writes(c, s, w, i, t) { KnownWrite(c, s, w, i, t); }
    else { KnownCarries(c, s, t); }
  }

  lemma KnownWrite(c: Config, s: State, w: nat, i: Input, t: State)
    requires Known(c, s) && Writes(c, s, w, i, t)
    ensures Known(c, t)
  {
    var r := s.workers[w].run.value;
    assert RunKnows(c, s, r);
    assert RunKnows(c, t, t.workers[w].run.value);
    if r.pc.AtRecord? {
      var n := |s.db.attempts|;
      assert AttemptKnows(c, t, t.db.attempts[n]);
      assert forall k :: 0 <= k < n ==> t.db.attempts[k] == s.db.attempts[k];
    } else {
      assert t.db.attempts == s.db.attempts;
    }
    KnownCarries(c, s, t);
  }

  lemma KnownStep(c: Config, s: State, a: Action, t: State)
    requires Known(c, s) && Step(c, s, a) == Some(t)
    ensures Known(c, t)
  {
    match a
    case World(e) => WorldShape(s, e, t); KnownCarries(c, s, t);
    case Poll(w, k) => PollerShape(s, w, k, t); KnownCarries(c, s, t);
    case Consume(w, d) =>
      if d.Work? {
        KnownWork(c, s, w, d.input, t);
      } else {
        QuietShape(c, s, w, d, t);
        KnownQuiet(c, s, w, t);
      }
  }

  lemma KnownQuiet(c: Config, s: State, w: nat, t: State)
    requires Known(c, s) && Quiet(s, w, t)
    ensures Known(c, t)
  {
    forall v: nat | Running(t, v) && Loaded(t.workers[v].run.value.pc)
      ensures RunKnows(c, t, t.workers[v].run.value) {
      assert Running(s, v) && RunKnows(c, s, s.workers[v].run.value);
    }
    KnownCarries(c, s, t);
  }

  lemma {:induction false} KnownAlways(c: Config, s: State, acts: seq<Action>, t: State)
    requires Reaches(c, s, acts, t)
    ensures Known(c, t)
    decreases |acts|
  {
    if acts != [] {
      var u := Exec(c, s, acts[..|acts| - 1]).value;
      KnownAlways(c, s, acts[..|acts| - 1], u);
      KnownStep(c, u, acts[|acts| - 1], t);
    }
  }

  lemma LaterStep(c: Config, s: State, a: Action, t: State)
    requires Step(c, s, a) == Some(t)
    ensures Later(s, t)
  {
    match a
    case World(e) => WorldShape(s, e, t);
    case Poll(w, k) => PollerShape(s, w, k, t);
    case Consume(w, d) => if d.Work? { WorkShape(c, s, w, d.input, t); } else { QuietShape(c, s, w, d, t); }
  }

  /** However a schedule goes on. */
  lemma {:induction false} LaterAlways(c: Config, s: State, before: seq<Action>, u: State, acts: seq<Action>, t: State)
    requires Exec(c, s, before) == Some(u) && before <= acts && Exec(c, s, acts) == Some(t)
    ensures Later(u, t)
    decreases |acts|
  {
    if |acts| > |before| {
      var x := Exec(c, s, acts[..|acts| - 1]).value;
      LaterAlways(c, s, before, u, acts[..|acts| - 1], x);
      LaterStep(c, x, acts[|acts| - 1], t);
    } else {
      assert acts == before;
    }
  }

  /** In every reachable state each attempt used a shared pool or the customer's own, over an enabled route. */
  lemma AttemptsUseLegalPools(c: Config, s: State, acts: seq<Action>, t: State, i: nat)
    requires Reaches(c, s, acts, t) && i < |t.db.attempts|
    ensures var a := t.db.attempts[i];
            a.msg < |t.db.messages| && a.customer == t.db.messages[a.msg].mail.customer
            && exists r, p :: Routing.Serves(c.routing, a.provider, r, p) && p.id == a.pool
                && Routing.MayUse(a.customer, p)
  {
    KnownAlways(c, s, acts, t);
    var a := t.db.attempts[i];
    assert AttemptKnows(c, t, a);
    Routing.SelectIsLegal(c.routing, a.provider, a.customer);
    var d := Routing.Select(c.routing, a.provider, a.customer).value;
    assert Routing.Serves(c.routing, a.provider, d.route, d.pool) && d.pool.id == a.pool
        && Routing.MayUse(a.customer, d.pool);
  }
}
