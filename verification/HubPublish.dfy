/** Every publish is accounted for: logged, broadcast, on its way, or refused, over every run. */
module HubPublish {
  import opened Types
  import opened Frames
  import opened Hub
  import Broker
  import History
  import HubIndex
  import Registry

  // --------------------------------------------------------------------
  // Counting one session's publications of one payload on one channel
  // --------------------------------------------------------------------

  predicate IsPublish(m: Message, ch: Channel, data: Bytes) {
    m.Frame? && m.frame.Publish? && m.frame.channel == ch && m.frame.data == data
  }

  function One(b: bool): nat { if b then 1 else 0 }

  /** How many such publishes were answered `ok`. */
  function Answered(verdicts: seq<Verdict>, ok: bool, ch: Channel, data: Bytes): nat {
    if verdicts == [] then 0
    else
      var v := verdicts[|verdicts| - 1];
      Answered(verdicts[..|verdicts| - 1], ok, ch, data) + One(v.ok == ok && IsPublish(v.message, ch, data))
  }

  /** How many log entries are the session's and have the payload. */
  function Logged(log: seq<History.Record>, authors: seq<Author>, sid: SessionId, data: Bytes): nat
    decreases |log|
  {
    if log == [] || |log| != |authors| then 0
    else
      var n := |log| - 1;
      Logged(log[..n], authors[..n], sid, data) + One(authors[n].sid == sid && log[n].data == data)
  }

  /** The handler has the publication accepted and not yet handed to the broker. */
  predicate Carrying(k: Task, sid: SessionId, ch: Channel, data: Bytes) {
    k.sid == sid && IsPublish(k.message, ch, data) && k.stage.FanningOut?
  }

  function Carriers(tasks: map<TaskId, Task>, sid: SessionId, ch: Channel, data: Bytes): set<TaskId> {
    set t | t in tasks && Carrying(tasks[t], sid, ch, data)
  }

  ghost predicate Accounted(s: State, sid: SessionId, ch: Channel, data: Bytes) {
    var logged := Logged(LogOf(s, ch), AuthorsOf(s, ch), sid, data);
    var done := Answered(AnsweredTo(s, sid), true, ch, data) + |Carriers(s.tasks.all, sid, ch, data)|;
    done <= logged <= done + Answered(AnsweredTo(s, sid), false, ch, data)
  }

  ghost predicate PublishInv(s: State, sid: SessionId, ch: Channel, data: Bytes) {
    && |LogOf(s, ch)| == |AuthorsOf(s, ch)|
    && (forall x: SessionId :: x in s.talk.answered ==> x < s.sessions.nextId)
    && Accounted(s, sid, ch, data)
  }

  lemma CarriersPut(tasks: map<TaskId, Task>, t: TaskId, k: Task, sid: SessionId, ch: Channel, data: Bytes)
    ensures |Carriers(tasks[t := k], sid, ch, data)|
         == |Carriers(tasks, sid, ch, data)| - One(t in tasks && Carrying(tasks[t], sid, ch, data)) + One(Carrying(k, sid, ch, data))
  {
    var others := Carriers(tasks, sid, ch, data) - {t};
    assert Carriers(tasks[t := k], sid, ch, data) == if Carrying(k, sid, ch, data) then others + {t} else others;
    assert Carriers(tasks, sid, ch, data) == if t in tasks && Carrying(tasks[t], sid, ch, data) then others + {t} else others;
  }

  lemma CarriersDrop(tasks: map<TaskId, Task>, t: TaskId, sid: SessionId, ch: Channel, data: Bytes)
    ensures |Carriers(tasks - {t}, sid, ch, data)|
         == |Carriers(tasks, sid, ch, data)| - One(t in tasks && Carrying(tasks[t], sid, ch, data))
  {
    var others := Carriers(tasks, sid, ch, data) - {t};
    assert Carriers(tasks - {t}, sid, ch, data) == others;
    assert Carriers(tasks, sid, ch, data) == if t in tasks && Carrying(tasks[t], sid, ch, data) then others + {t} else others;
  }

  lemma AnsweredSnoc(verdicts: seq<Verdict>, v: Verdict, ok: bool, ch: Channel, data: Bytes)
    ensures Answered(verdicts + [v], ok, ch, data)
         == Answered(verdicts, ok, ch, data) + One(v.ok == ok && IsPublish(v.message, ch, data))
  {
    assert (verdicts + [v])[..|verdicts|] == verdicts;
  }

  lemma LoggedSnoc(log: seq<History.Record>, authors: seq<Author>, r: History.Record, a: Author, sid: SessionId, data: Bytes)
    requires |log| == |authors|
    ensures Logged(log + [r], authors + [a], sid, data)
         == Logged(log, authors, sid, data) + One(a.sid == sid && r.data == data)
  {
    assert (log + [r])[..|log|] == log && (authors + [a])[..|log|] == authors;
  }

  // --------------------------------------------------------------------
  // What a handler's step does to the record
  // --------------------------------------------------------------------

  /** At most one verdict more, on the handler's own message. */
  ghost predicate OwnVerdict(s: State, s': State, k: Task) {
    || s'.talk.answered == s.talk.answered
    || exists v: Verdict :: v.message == k.message && s'.talk.answered == s.talk.answered[k.sid := AnsweredTo(s, k.sid) + [v]]
  }

  lemma SubscribeVerdict(env: Env, s: State, t: TaskId, fail: bool)
    requires t in s.tasks.all && SubscribeInFlight(s.tasks.all[t], s.tasks.all[t].sid)
    ensures OwnVerdict(s, AdvanceSubscribe(env, s, t, s.tasks.all[t], fail), s.tasks.all[t])
  {
    hide Broker.Attach, Broker.Detach, CursorOf, OutboxOf, CodeFor, RequestId;
    var k := s.tasks.all[t];
    assert Verdict(k.message, false, 0).message == k.message;
    if k.stage.Inserting? { assert Verdict(k.message, true, k.stage.cursor.seen).message == k.message; }
  }

  /** A step of a handler of anything but a publish. */
  lemma OtherVerdict(env: Env, s: State, t: TaskId, fail: bool)
    requires t in s.tasks.all
    requires var k := s.tasks.all[t]; k.stage.Replying? || k.message.Undecodable? || !k.message.frame.Publish?
    ensures
      var s' := AdvanceTask(env, s, t, s.tasks.all[t], fail);
      && OwnVerdict(s, s', s.tasks.all[t]) && s'.log == s.log && OnlyTask(s, s', t)
      && s'.sessions.nextId == s.sessions.nextId
      && (s.tasks.all[t].stage.Replying? ==> s'.talk == s.talk)
  {
    hide AdvanceSubscribe, AdvancePublish, OutboxOf, CodeFor, RequestId;
    var k := s.tasks.all[t];
    AdvanceFrame(env, s, t, fail);
    if SubscribeInFlight(k, k.sid) {
      SubscribeFrame(env, s, t, fail);
      SubscribeVerdict(env, s, t, fail);
      NextIdStays(env, s, t, fail);
    } else {
      assert Verdict(k.message, false, 0).message == k.message && Verdict(k.message, true, 0).message == k.message;
    }
  }

  lemma NextIdStays(env: Env, s: State, t: TaskId, fail: bool)
    requires t in s.tasks.all && SubscribeInFlight(s.tasks.all[t], s.tasks.all[t].sid)
    ensures AdvanceSubscribe(env, s, t, s.tasks.all[t], fail).sessions.nextId == s.sessions.nextId
  {
    hide Broker.Attach, Broker.Detach, CursorOf, OutboxOf, CodeFor, RequestId, Registry.AddTo;
  }

  lemma OthersNotCounted(s: State, s': State, t: TaskId, sid: SessionId, ch: Channel, data: Bytes)
    requires PublishInv(s, sid, ch, data) && OnlyTask(s, s', t) && s'.log == s.log && s'.sessions.nextId == s.sessions.nextId
    requires OwnVerdict(s, s', s.tasks.all[t]) && s.tasks.all[t].sid < s.sessions.nextId
    requires IsPublish(s.tasks.all[t].message, ch, data) ==> s.tasks.all[t].stage.Replying? && s'.talk == s.talk
    ensures PublishInv(s', sid, ch, data)
  {
    var k := s.tasks.all[t];
    if s'.talk.answered != s.talk.answered {
      var v: Verdict :| v.message == k.message && s'.talk.answered == s.talk.answered[k.sid := AnsweredTo(s, k.sid) + [v]];
      AnsweredSnoc(AnsweredTo(s, k.sid), v, true, ch, data);
      AnsweredSnoc(AnsweredTo(s, k.sid), v, false, ch, data);
    }
    hide Answered, Logged;
    if t in s'.tasks.all {
      CarriersPut(s.tasks.all, t, s'.tasks.all[t], sid, ch, data);
    } else {
      CarriersDrop(s.tasks.all, t, sid, ch, data);
    }
  }

  // --------------------------------------------------------------------

  /** A publish refused, before it was accepted or after. */
  lemma FailCounts(env: Env, s: State, t: TaskId, e: HubError, sid: SessionId, ch: Channel, data: Bytes)
    requires PublishInv(s, sid, ch, data) && t in s.tasks.all && s.tasks.all[t].sid < s.sessions.nextId
    ensures PublishInv(Fail(env, s, t, s.tasks.all[t].sid, s.tasks.all[t].message, e), sid, ch, data)
  {
    var k := s.tasks.all[t];
    var s' := Fail(env, s, t, k.sid, k.message, e);
    assert s'.tasks.all == s.tasks.all[t := s'.tasks.all[t]] && s'.tasks.all[t].stage.Replying?;
    assert s'.talk.answered == s.talk.answered[k.sid := AnsweredTo(s, k.sid) + [Verdict(k.message, false, 0)]];
    AnsweredSnoc(AnsweredTo(s, k.sid), Verdict(k.message, false, 0), true, ch, data);
    AnsweredSnoc(AnsweredTo(s, k.sid), Verdict(k.message, false, 0), false, ch, data);
    CarriersPut(s.tasks.all, t, s'.tasks.all[t], sid, ch, data);
    hide Fail, Answered, Logged, Carriers;
  }

  lemma MoveCounts(s: State, t: TaskId, stage: Stage, sid: SessionId, ch: Channel, data: Bytes)
    requires PublishInv(s, sid, ch, data) && t in s.tasks.all && !s.tasks.all[t].stage.FanningOut? && !stage.FanningOut?
    ensures PublishInv(Put(s, t, s.tasks.all[t].(stage := stage)), sid, ch, data)
  {
    hide Answered, Logged;
    CarriersPut(s.tasks.all, t, s.tasks.all[t].(stage := stage), sid, ch, data);
  }

  lemma AcceptCounts(env: Env, s: State, t: TaskId, k: Task, claims: Claims, sid: SessionId, ch: Channel, data: Bytes)
    requires PublishInv(s, sid, ch, data) && t in s.tasks.all && k == s.tasks.all[t] && k.stage.Accepting?
    requires k.message.Frame? && k.message.frame.Publish?
    ensures PublishInv(AcceptPublication(env, s, t, k, claims, k.message.frame.channel, k.message.frame.data), sid, ch, data)
  {
    var c, d := k.message.frame.channel, k.message.frame.data;
    var s' := AcceptPublication(env, s, t, k, claims, c, d);
    if c == ch {
      LoggedSnoc(LogOf(s, ch), AuthorsOf(s, ch), History.Record(s.now, d), Author(k.sid, claims), sid, data);
      assert LogOf(s', ch) == LogOf(s, ch) + [History.Record(s.now, d)];
      assert AuthorsOf(s', ch) == AuthorsOf(s, ch) + [Author(k.sid, claims)];
    }
    CarriersPut(s.tasks.all, t, s'.tasks.all[t], sid, ch, data);
    assert s'.tasks.all == s.tasks.all[t := s'.tasks.all[t]] && s'.talk == s.talk;
    hide Answered, Logged, Carriers;
  }

  lemma FanOutCounts(s: State, t: TaskId, k: Task, p: Publication, sid: SessionId, ch: Channel, data: Bytes)
    requires PublishInv(s, sid, ch, data) && t in s.tasks.all && k == s.tasks.all[t] && k.stage.FanningOut?
    requires k.message.Frame? && k.message.frame.Publish? && k.sid < s.sessions.nextId
    ensures PublishInv(FanOut(s, t, k, k.message.frame.channel, p), sid, ch, data)
  {
    hide Broker.Broadcast;
    var s' := FanOut(s, t, k, k.message.frame.channel, p);
    assert s'.tasks.all == s.tasks.all - {t} && s'.log.log == s.log.log && s'.log.authors == s.log.authors;
    assert s'.talk.answered == s.talk.answered[k.sid := AnsweredTo(s, k.sid) + [Verdict(k.message, true, 0)]];
    AnsweredSnoc(AnsweredTo(s, k.sid), Verdict(k.message, true, 0), true, ch, data);
    AnsweredSnoc(AnsweredTo(s, k.sid), Verdict(k.message, true, 0), false, ch, data);
    CarriersDrop(s.tasks.all, t, sid, ch, data);
    hide Answered, Logged, Carriers, FanOut;
  }

  lemma PublishCounts(env: Env, s: State, t: TaskId, fail: bool, sid: SessionId, ch: Channel, data: Bytes)
    requires PublishInv(s, sid, ch, data) && t in s.tasks.all && s.tasks.all[t].sid < s.sessions.nextId
    requires s.tasks.all[t].message.Frame? && s.tasks.all[t].message.frame.Publish?
    ensures PublishInv(AdvancePublish(env, s, t, s.tasks.all[t], fail), sid, ch, data)
  {
    hide Fail, Put, AcceptPublication, FanOut, PublishInv;
    var k := s.tasks.all[t];
    match k.stage
    case Gate(claims) =>
      FailCounts(env, s, t, Denied, sid, ch, data);
      MoveCounts(s, t, Validating(claims), sid, ch, data);
    case Validating(claims) =>
      FailCounts(env, s, t, Rejected, sid, ch, data);
      MoveCounts(s, t, Accepting(claims), sid, ch, data);
    case Accepting(claims) =>
      FailCounts(env, s, t, BadChannel, sid, ch, data);
      AcceptCounts(env, s, t, k, claims, sid, ch, data);
    case FanningOut(p) =>
      FailCounts(env, s, t, BrokerFailed, sid, ch, data);
      FanOutCounts(s, t, k, p, sid, ch, data);
    case _ =>
  }

  lemma AdvanceCounts(env: Env, s: State, t: TaskId, fail: bool, sid: SessionId, ch: Channel, data: Bytes)
    requires PublishInv(s, sid, ch, data) && HubIndex.IdsInv(s) && t in s.tasks.all
    ensures PublishInv(AdvanceTask(env, s, t, s.tasks.all[t], fail), sid, ch, data)
  {
    var k := s.tasks.all[t];
    if !k.stage.Replying? && k.message.Frame? && k.message.frame.Publish? {
      hide PublishInv, AdvancePublish;
      PublishCounts(env, s, t, fail, sid, ch, data);
    } else {
      hide PublishInv, AdvanceTask, OnlyTask, OwnVerdict;
      OtherVerdict(env, s, t, fail);
      OthersNotCounted(s, AdvanceTask(env, s, t, k, fail), t, sid, ch, data);
    }
  }

  lemma BeginCounts(env: Env, s: State, t: TaskId, who: SessionId, m: Message, sid: SessionId, ch: Channel, data: Bytes)
    requires PublishInv(s, sid, ch, data) && t !in s.tasks.all && who < s.sessions.nextId
    ensures PublishInv(Begin(env, Ask(s, who, m), t, who, m), sid, ch, data)
  {
    hide Begin, RemoveSubscription, PublishInv;
    var s1 := Ask(s, who, m);
    var s' := Begin(env, s1, t, who, m);
    BeginFrame(env, s1, t, who, m);
    BeginVerdict(env, s1, t, who, m);
    assert s'.log == s.log && s'.sessions.nextId == s.sessions.nextId && s'.tasks.all == s.tasks.all[t := s'.tasks.all[t]];
    assert AnsweredTo(s1, who) == AnsweredTo(s, who) && s1.talk.answered == s.talk.answered;
    hide Begins;
    NewTaskCounts(s, s', t, who, m, sid, ch, data);
  }

  lemma NewTaskCounts(s: State, s': State, t: TaskId, who: SessionId, m: Message, sid: SessionId, ch: Channel, data: Bytes)
    requires PublishInv(s, sid, ch, data) && t !in s.tasks.all && who < s.sessions.nextId
    requires s'.log == s.log && s'.sessions.nextId == s.sessions.nextId
    requires t in s'.tasks.all && s'.tasks.all == s.tasks.all[t := s'.tasks.all[t]] && !s'.tasks.all[t].stage.FanningOut?
    requires || s'.talk.answered == s.talk.answered
             || s'.talk.answered == s.talk.answered[who := AnsweredTo(s, who) + [Verdict(m, false, 0)]]
    ensures PublishInv(s', sid, ch, data)
  {
    hide Answered, Logged;
    CarriersPut(s.tasks.all, t, s'.tasks.all[t], sid, ch, data);
    AnsweredSnoc(AnsweredTo(s, who), Verdict(m, false, 0), true, ch, data);
    AnsweredSnoc(AnsweredTo(s, who), Verdict(m, false, 0), false, ch, data);
  }

  lemma BeginVerdict(env: Env, s: State, t: TaskId, sid: SessionId, m: Message)
    ensures
      var s' := Begin(env, s, t, sid, m);
      && s'.sessions.nextId == s.sessions.nextId
      && (|| s'.talk.answered == s.talk.answered
          || s'.talk.answered == s.talk.answered[sid := AnsweredTo(s, sid) + [Verdict(m, false, 0)]])
  {
    hide Broker.Detach, CodeFor;
  }

  lemma StepCounts(env: Env, s: State, e: Event, sid: SessionId, ch: Channel, data: Bytes)
    requires PublishInv(s, sid, ch, data) && HubIndex.IdsInv(s)
    ensures PublishInv(Step(env, s, e), sid, ch, data)
  {
    hide AdvanceTask, Begin;
    var s' := Step(env, s, e);
    match e
    case Advance(t, fail) =>
      if t in s.tasks.all { hide PublishInv, HubIndex.IdsInv; AdvanceCounts(env, s, t, fail, sid, ch, data); }
    case Receive(t, who, m) =>
      if t !in s.tasks.all && Reads(s, who) { hide PublishInv; BeginCounts(env, s, t, who, m, sid, ch, data); }
    case _ =>
      assert s'.tasks == s.tasks && s'.log == s.log && s'.sessions.nextId >= s.sessions.nextId;
      assert s'.talk.answered == s.talk.answered || s'.talk.answered == s.talk.answered[s.sessions.nextId := []];
      assert s'.sessions.nextId > s.sessions.nextId || s'.talk.answered == s.talk.answered;
      hide Step, PublishInv, HubIndex.IdsInv;
      QuietCounts(s, s', sid, ch, data);
  }

  lemma QuietCounts(s: State, s': State, sid: SessionId, ch: Channel, data: Bytes)
    requires PublishInv(s, sid, ch, data) && s'.tasks == s.tasks && s'.log == s.log
    requires || (s'.talk.answered == s.talk.answered && s'.sessions.nextId >= s.sessions.nextId)
             || (&& s'.talk.answered == s.talk.answered[s.sessions.nextId := []]
                 && s'.sessions.nextId > s.sessions.nextId)
    ensures PublishInv(s', sid, ch, data)
  {
    hide Answered, Logged, Carriers;
    assert AnsweredTo(s', sid) == AnsweredTo(s, sid);
  }

  /**
   * In every reachable state, for every session, channel and payload: the publishes
   * answered with success and those whose handler still carries the publication to the
   * broker are all in the log, each with an entry of its own under its author; and each
   * further entry belongs to a publish of its own that was answered with an error.
   */
  lemma {:induction false} PublishesAccounted(env: Env, events: seq<Event>, sid: SessionId, ch: Channel, data: Bytes)
    ensures PublishInv(Run(env, Init, events), sid, ch, data)
    decreases |events|
  {
    hide Step;
    if events == [] {
      assert Init.log == LogAudit(map[], map[], map[]) && Init.talk.answered == map[] && Init.tasks.all == map[];
      assert Carriers(Init.tasks.all, sid, ch, data) == {};
    } else {
      hide PublishInv;
      var init := events[..|events| - 1];
      PublishesAccounted(env, init, sid, ch, data);
      HubIndex.InitIndex();
      HubIndex.RunKeepsIndex(env, Init, init);
      StepCounts(env, Run(env, Init, init), events[|events| - 1], sid, ch, data);
    }
  }
}
