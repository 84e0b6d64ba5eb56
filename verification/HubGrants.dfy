/** What a session holds against what it was told, over every run. */
module HubGrants {
  import opened Types
  import opened Frames
  import opened Registry
  import opened Hub
  import opened HubReplies

  predicate IsSubscribe(m: Message, ch: Channel) {
    m.Frame? && m.frame.Subscribe? && m.frame.channel == ch
  }

  /** Some subscribe of the session to `ch` succeeded. */
  predicate Granted(answers: seq<Verdict>, ch: Channel) {
    exists i :: 0 <= i < |answers| && answers[i].ok && IsSubscribe(answers[i].message, ch)
  }

  predicate IsUnsubscribe(m: Message) { m.Frame? && m.frame.Unsubscribe? }

  predicate NeverLeaves(s: State, sid: SessionId) {
    forall m <- AskedBy(s, sid) :: !IsUnsubscribe(m)
  }

  /** A registered session that never unsubscribes holds exactly what it was granted. */
  ghost predicate GrantInv(s: State) {
    forall sid: SessionId, ch :: sid in s.sessions.registered && NeverLeaves(s, sid) ==>
      (ch in HeldBy(s, sid) <==> Granted(AnsweredTo(s, sid), ch))
  }

  lemma GrantedSnoc(answers: seq<Verdict>, v: Verdict, ch: Channel)
    ensures Granted(answers + [v], ch) <==> Granted(answers, ch) || (v.ok && IsSubscribe(v.message, ch))
  {
    var more := answers + [v];
    if Granted(answers, ch) {
      var i :| 0 <= i < |answers| && answers[i].ok && IsSubscribe(answers[i].message, ch);
      assert more[i] == answers[i];
    }
    if v.ok && IsSubscribe(v.message, ch) { assert more[|answers|] == v; }
    if Granted(more, ch) {
      var i :| 0 <= i < |more| && more[i].ok && IsSubscribe(more[i].message, ch);
      if i < |answers| { assert answers[i] == more[i]; }
    }
  }

  predicate GrantsNothing(v: Verdict) {
    !(v.ok && v.message.Frame? && v.message.frame.Subscribe?)
  }

  /** Nothing changed for `sid` but answers that grant nothing. */
  ghost predicate SameGrants(s: State, s': State, sid: SessionId) {
    && HeldBy(s', sid) == HeldBy(s, sid)
    && (sid in s'.sessions.registered ==> sid in s.sessions.registered)
    && (NeverLeaves(s', sid) ==> NeverLeaves(s, sid))
    && (AnsweredTo(s', sid) == AnsweredTo(s, sid)
        || exists v :: AnsweredTo(s', sid) == AnsweredTo(s, sid) + [v] && GrantsNothing(v))
  }

  lemma SameGrantsKeep(s: State, s': State)
    requires GrantInv(s) && forall sid: SessionId :: SameGrants(s, s', sid)
    ensures GrantInv(s')
  {
    forall sid: SessionId, ch | sid in s'.sessions.registered && NeverLeaves(s', sid)
      ensures ch in HeldBy(s', sid) <==> Granted(AnsweredTo(s', sid), ch)
    {
      assert SameGrants(s, s', sid);
      if AnsweredTo(s', sid) != AnsweredTo(s, sid) {
        var v :| AnsweredTo(s', sid) == AnsweredTo(s, sid) + [v] && GrantsNothing(v);
        GrantedSnoc(AnsweredTo(s, sid), v, ch);
      }
    }
  }

  /** A handler's step that does not insert records at most one answer, which grants nothing. */
  lemma SubscribeAnswers(env: Env, s: State, t: TaskId, fail: bool)
    requires t in s.tasks.all && SubscribeInFlight(s.tasks.all[t], s.tasks.all[t].sid) && !Inserts(s, s.tasks.all[t])
    ensures
      var k := s.tasks.all[t];
      var s' := AdvanceSubscribe(env, s, t, k, fail);
      s'.talk == s.talk || s'.talk == Record(s, k.sid, k.message, false).talk
  {
  }

  lemma AdvanceAnswers(env: Env, s: State, t: TaskId, fail: bool)
    requires t in s.tasks.all && !Inserts(s, s.tasks.all[t])
    ensures
      var k := s.tasks.all[t];
      var s' := AdvanceTask(env, s, t, k, fail);
      || s'.talk == s.talk
      || s'.talk == Record(s, k.sid, k.message, false).talk
      || (s'.talk == Record(s, k.sid, k.message, true).talk && k.message.Frame? && !k.message.frame.Subscribe?)
  {
    hide AdvanceSubscribe;
    if SubscribeInFlight(s.tasks.all[t], s.tasks.all[t].sid) { SubscribeAnswers(env, s, t, fail); }
  }

  lemma RecordSame(s: State, s': State, sid: SessionId, m: Message, ok: bool)
    requires s'.talk == s.talk || (s'.talk == Record(s, sid, m, ok).talk && !(ok && m.Frame? && m.frame.Subscribe?))
    requires s'.held == s.held && s'.sessions == s.sessions
    ensures forall x: SessionId :: SameGrants(s, s', x)
  {
    forall x: SessionId ensures SameGrants(s, s', x) {
      if s'.talk != s.talk && x == sid {
        var v := Verdict(m, ok, 0);
        assert AnsweredTo(s', x) == AnsweredTo(s, x) + [v] && GrantsNothing(v);
      }
    }
  }

  lemma InsertKeepsGrants(s: State, t: TaskId, k: Task, sub: SubId, cursor: Cursor, ch: Channel)
    requires GrantInv(s) && sub in s.subs.all && IsSubscribe(k.message, ch)
    ensures GrantInv(InsertSubscription(s, t, k, sub, cursor, ch))
  {
    var s' := InsertSubscription(s, t, k, sub, cursor, ch);
    assert s'.held.of == s.held.of[k.sid := HeldBy(s, k.sid)[ch := sub]];
    assert s'.talk == Record(s, k.sid, k.message, true, cursor.seen).talk && s'.sessions.registered == s.sessions.registered;
    hide InsertSubscription;
    forall sid: SessionId, c | sid in s'.sessions.registered && NeverLeaves(s', sid)
      ensures c in HeldBy(s', sid) <==> Granted(AnsweredTo(s', sid), c)
    {
      assert NeverLeaves(s, sid);
      if sid == k.sid {
        var v := Verdict(k.message, true, cursor.seen);
        assert AnsweredTo(s', sid) == AnsweredTo(s, sid) + [v];
        GrantedSnoc(AnsweredTo(s, sid), v, c);
      } else {
        assert AnsweredTo(s', sid) == AnsweredTo(s, sid) && HeldBy(s', sid) == HeldBy(s, sid);
      }
    }
  }

  lemma AdvanceKeepsGrants(env: Env, s: State, t: TaskId, fail: bool)
    requires GrantInv(s) && t in s.tasks.all
    ensures GrantInv(AdvanceTask(env, s, t, s.tasks.all[t], fail))
  {
    var k := s.tasks.all[t];
    var s' := AdvanceTask(env, s, t, k, fail);
    if Inserts(s, k) {
      hide GrantInv;
      assert s' == InsertSubscription(s, t, k, k.stage.sub, k.stage.cursor, k.message.frame.channel);
      InsertKeepsGrants(s, t, k, k.stage.sub, k.stage.cursor, k.message.frame.channel);
    } else {
      AdvanceFrame(env, s, t, fail);
      AdvanceAnswers(env, s, t, fail);
      hide AdvanceTask, GrantInv;
      RecordSame(s, s', k.sid, k.message, k.message.Frame? && !k.message.frame.Subscribe? && s'.talk == Record(s, k.sid, k.message, true).talk);
      SameGrantsKeep(s, s');
    }
  }

  lemma BeginAnswers(env: Env, s: State, t: TaskId, sid: SessionId, m: Message)
    ensures var s' := Begin(env, s, t, sid, m); s'.talk == s.talk || s'.talk == Record(s, sid, m, false).talk
  {
  }

  lemma AskGrants(s: State, sid: SessionId, m: Message)
    requires GrantInv(s)
    ensures GrantInv(Ask(s, sid, m))
  {
    var s' := Ask(s, sid, m);
    forall x: SessionId ensures SameGrants(s, s', x) {
      assert AskedBy(s', x) == if x == sid then AskedBy(s, x) + [m] else AskedBy(s, x);
    }
    SameGrantsKeep(s, s');
  }

  /** After an unsubscribe has been asked, nothing is claimed of the session. */
  lemma BeginKeepsGrants(env: Env, s: State, t: TaskId, sid: SessionId, m: Message)
    requires GrantInv(s)
    requires m in AskedBy(s, sid)
    ensures GrantInv(Begin(env, s, t, sid, m))
  {
    var s' := Begin(env, s, t, sid, m);
    BeginFrame(env, s, t, sid, m);
    BeginAnswers(env, s, t, sid, m);
    hide Begin;
    if Removes(s, sid, m) {
      assert m in AskedBy(s', sid) && IsUnsubscribe(m);
      forall x: SessionId, ch | x in s'.sessions.registered && NeverLeaves(s', x)
        ensures ch in HeldBy(s', x) <==> Granted(AnsweredTo(s', x), ch)
      {
        assert x != sid && NeverLeaves(s, x) && HeldBy(s', x) == HeldBy(s, x) && AnsweredTo(s', x) == AnsweredTo(s, x);
      }
    } else {
      RecordSame(s, s', sid, m, false);
      SameGrantsKeep(s, s');
    }
  }

  lemma OpenKeepsGrants(env: Env, s: State)
    requires GrantInv(s)
    ensures GrantInv(OpenSession(env, s))
  {
    var s', sid := OpenSession(env, s), s.sessions.nextId;
    assert s'.talk.asked == s.talk.asked[sid := []] && s'.talk.answered == s.talk.answered[sid := []];
    assert s'.held.of == s.held.of[sid := map[]] && s'.sessions.registered == s.sessions.registered + {sid};
    hide OpenSession;
    forall x: SessionId, ch | x in s'.sessions.registered && NeverLeaves(s', x)
      ensures ch in HeldBy(s', x) <==> Granted(AnsweredTo(s', x), ch)
    {
      if x == sid {
        assert HeldBy(s', x) == map[] && AnsweredTo(s', x) == [];
      } else {
        assert AskedBy(s', x) == AskedBy(s, x) && HeldBy(s', x) == HeldBy(s, x) && AnsweredTo(s', x) == AnsweredTo(s, x);
        assert NeverLeaves(s, x);
      }
    }
  }

  lemma StepKeepsGrants(env: Env, s: State, e: Event)
    requires GrantInv(s)
    ensures GrantInv(Step(env, s, e))
  {
    hide Begin, AdvanceTask;
    match e
    case Open => OpenKeepsGrants(env, s);
    case Receive(t, sid, m) =>
      if t !in s.tasks.all && Reads(s, sid) {
        AskGrants(s, sid, m);
        assert AskedBy(Ask(s, sid, m), sid) == AskedBy(s, sid) + [m];
        BeginKeepsGrants(env, Ask(s, sid, m), t, sid, m);
      }
    case Advance(t, fail) => if t in s.tasks.all { AdvanceKeepsGrants(env, s, t, fail); }
    case Release(sid) =>
      if Unused(s, sid) {
        var s' := ReleaseSession(s, sid);
        forall x: SessionId, ch | x in s'.sessions.registered && NeverLeaves(s', x)
          ensures ch in HeldBy(s', x) <==> Granted(AnsweredTo(s', x), ch)
        {
          assert x != sid && NeverLeaves(s, x) && HeldBy(s', x) == HeldBy(s, x) && AnsweredTo(s', x) == AnsweredTo(s, x);
        }
      }
    case _ =>
      var s' := Step(env, s, e);
      forall x: SessionId ensures SameGrants(s, s', x) {}
      SameGrantsKeep(s, s');
  }

  lemma {:induction false} RunKeepsGrants(env: Env, events: seq<Event>)
    ensures GrantInv(Run(env, Init, events))
    decreases |events|
  {
    hide Step;
    if events == [] {
      assert Init.sessions.registered == {};
    } else {
      RunKeepsGrants(env, events[..|events| - 1]);
      hide GrantInv;
      StepKeepsGrants(env, Run(env, Init, events[..|events| - 1]), events[|events| - 1]);
    }
  }
}
