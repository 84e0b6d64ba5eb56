/** What handlers and forwarders do when nothing stops them. */
module HubProgress {
  import opened Types
  import opened Frames
  import opened Hub
  import opened HubDelivery
  import opened HubReplies
  import Broker
  import HubCursor
  import HubIndex
  import HubOutbox
  import HubShape
  import Registry

  lemma RunCons(env: Env, s: State, e: Event, events: seq<Event>)
    ensures Run(env, s, [e] + events) == Run(env, Step(env, s, e), events)
  {
    hide Step;
    RunAppend(env, s, [e], events);
    assert Run(env, s, [e]) == Step(env, s, e) by { assert [e][..0] == []; }
  }

  // --------------------------------------------------------------------
  // A forwarder delivers what waits for it
  // --------------------------------------------------------------------

  /** The publications that wait in the topic and are not overwritten. */
  function Kept(env: Env, s: State, sub: SubId): seq<Publication>
    requires Running(s, sub)
  {
    var r := s.broker.receivers[sub];
    var topic := s.broker.topics[r.topic];
    if |topic| - r.cursor > env.capacity then topic[|topic| - env.capacity..] else topic[r.cursor..]
  }

  function InHand(u: Subscription): seq<Publication> {
    if u.hand.Some? then [u.hand.value] else []
  }

  /** What the session's outbox is to receive through the subscription. */
  function Coming(env: Env, s: State, sub: SubId): seq<Publication>
    requires Running(s, sub)
  {
    Through(OutboxOf(s, s.subs.all[sub].sid), sub) + InHand(s.subs.all[sub]) + Kept(env, s, sub)
  }

  function Distance(s: State, sub: SubId): nat
    requires Running(s, sub)
  {
    var r := s.broker.receivers[sub];
    2 * (|s.broker.topics[r.topic]| - r.cursor) + |InHand(s.subs.all[sub])|
  }

  /** The forwarder goes on, nearer its end, with the same to come. */
  ghost predicate Nearer(env: Env, s: State, s': State, sub: SubId)
    requires Running(s, sub)
  {
    && Running(s', sub) && s'.subs.all[sub].sid == s.subs.all[sub].sid && s'.outboxes.open == s.outboxes.open
    && Coming(env, s', sub) == Coming(env, s, sub) && Distance(s', sub) < Distance(s, sub)
  }

  lemma ForwardNearer(env: Env, s: State, sub: SubId)
    requires Running(s, sub) && s.subs.all[sub].hand.Some? && s.subs.all[sub].sid in s.outboxes.open
    ensures Nearer(env, s, Step(env, s, Forward(sub)), sub)
  {
    hide AdvanceTask, Begin;
    var u, s' := s.subs.all[sub], Step(env, s, Forward(sub));
    assert s' == ForwardHand(s, sub);
    hide Step;
    var out := OutboxOf(s, u.sid);
    assert OutboxOf(s', u.sid) == out + [Delivered(sub, u.hand.value)];
    ThroughSnoc(out, Delivered(sub, u.hand.value));
    assert Through(OutboxOf(s', u.sid), sub) == Through(out, sub) + [u.hand.value];
    hide Through;
    assert Coming(env, s', sub) == Through(out, sub) + [u.hand.value] + [] + Kept(env, s', sub);
  }

  lemma PollNearer(env: Env, s: State, sub: SubId)
    requires Running(s, sub) && s.subs.all[sub].hand.None?
    requires s.broker.receivers[sub].cursor < |s.broker.topics[s.broker.receivers[sub].topic]|
    ensures Nearer(env, s, Step(env, s, PollStream(sub)), sub)
  {
    hide AdvanceTask, Begin, Through;
    var s' := Step(env, s, PollStream(sub));
    assert s' == PollReceiver(env, s, sub);
    hide Step;
    var r := s.broker.receivers[sub];
    var topic := s.broker.topics[r.topic];
    var before := Through(OutboxOf(s, s.subs.all[sub].sid), sub);
    if |topic| - r.cursor > env.capacity {
      assert Kept(env, s', sub) == topic[|topic| - env.capacity..];
    } else {
      assert topic[r.cursor..] == [topic[r.cursor]] + topic[r.cursor + 1..];
      assert before + [] + ([topic[r.cursor]] + topic[r.cursor + 1..]) == before + [topic[r.cursor]] + topic[r.cursor + 1..];
    }
  }

  lemma Drained(env: Env, s: State, sub: SubId)
    requires Running(s, sub) && s.subs.all[sub].hand.None?
    requires s.broker.receivers[sub].cursor == |s.broker.topics[s.broker.receivers[sub].topic]|
    ensures Coming(env, s, sub) == Through(OutboxOf(s, s.subs.all[sub].sid), sub)
  {
  }

  lemma {:induction false} Drains(env: Env, s: State, sub: SubId) returns (after: seq<Event>)
    requires Running(s, sub) && s.subs.all[sub].sid in s.outboxes.open
    ensures forall e <- after :: e == PollStream(sub) || e == Forward(sub)
    ensures Through(OutboxOf(Run(env, s, after), s.subs.all[sub].sid), sub) == Coming(env, s, sub)
    decreases Distance(s, sub)
  {
    hide Step, Through, Coming;
    var r := s.broker.receivers[sub];
    if s.subs.all[sub].hand.None? && r.cursor == |s.broker.topics[r.topic]| {
      Drained(env, s, sub);
      after := [];
    } else {
      var e := if s.subs.all[sub].hand.Some? then Forward(sub) else PollStream(sub);
      if s.subs.all[sub].hand.Some? { ForwardNearer(env, s, sub); } else { PollNearer(env, s, sub); }
      hide Running, Kept, Distance;
      var more := Drains(env, Step(env, s, e), sub);
      after := [e] + more;
      RunCons(env, s, e, more);
    }
  }

  /**
   * A running forwarder of a session with an open outbox can deliver, by its own steps
   * alone, exactly what it has in hand and what waits for it in the topic without having
   * been overwritten, in order.
   */
  lemma ForwarderDelivers(env: Env, events: seq<Event>, sub: SubId) returns (after: seq<Event>)
    requires var s := Run(env, Init, events); Running(s, sub) && s.subs.all[sub].sid in s.outboxes.open
    ensures forall e <- after :: e == PollStream(sub) || e == Forward(sub)
    ensures
      var s, s' := Run(env, Init, events), Run(env, Init, events + after);
      var sid := s.subs.all[sub].sid;
      Through(OutboxOf(s', sid), sub) == Through(OutboxOf(s, sid), sub) + InHand(s.subs.all[sub]) + Kept(env, s, sub)
  {
    hide Step, Through, Running;
    after := Drains(env, Run(env, Init, events), sub);
    RunAppend(env, Init, events, after);
  }

  /**
   * What a session with an open outbox holds delivers: by the forwarder's own steps alone,
   * everything that waits in the channel's topic and is not overwritten reaches the outbox.
   */
  lemma HeldDelivers(env: Env, events: seq<Event>, sid: SessionId, ch: Channel) returns (after: seq<Event>)
    requires var s := Run(env, Init, events); sid in s.outboxes.open && ch in HeldBy(s, sid)
    ensures
      var s, s' := Run(env, Init, events), Run(env, Init, events + after);
      var sub := HeldBy(s, sid)[ch];
      && Running(s, sub) && s.broker.receivers[sub].topic == ch
      && (forall e <- after :: e == PollStream(sub) || e == Forward(sub))
      && Through(OutboxOf(s', sid), sub) == Through(OutboxOf(s, sid), sub) + InHand(s.subs.all[sub]) + Kept(env, s, sub)
  {
    hide Run, Through, Running, Kept;
    HubOutbox.HeldRuns(env, events, sid, ch);
    after := ForwarderDelivers(env, events, HeldBy(Run(env, Init, events), sid)[ch]);
  }

  // --------------------------------------------------------------------
  // A handler that is left alone answers, and with success unless a refusal is due
  // --------------------------------------------------------------------

  function Steps(t: TaskId, n: nat): seq<Event> { seq(n, _ => Advance(t, false)) }

  /** How many stages are still to come. */
  function Rank(stage: Stage): nat {
    match stage
    case Gate(_) => 6
    case Entering(_) => 5
    case Validating(_) => 5
    case Attaching(_, _) => 4
    case Accepting(_) => 4
    case Reading(_, _) => 3
    case Sending(_, _) => 2
    case _ => 1
  }

  function Left(s: State, stage: Stage): nat {
    if stage.Sending? && stage.sub in s.subs.all && s.subs.all[stage.sub].replayed <= |s.subs.all[stage.sub].replay|
    then |s.subs.all[stage.sub].replay| - s.subs.all[stage.sub].replayed else 0
  }

  /** Nothing has failed so far, and a replay can be sent. */
  predicate Unhindered(s: State, k: Task) {
    !k.stage.Replying? && !k.stage.Unwinding?
    && (k.message.Frame? && k.message.frame.Subscribe? ==> k.sid in s.outboxes.open)
  }

  /** The handler came closer to its answer. */
  predicate Closer(s: State, s': State, t: TaskId)
    requires t in s.tasks.all && t in s'.tasks.all
  {
    var k, k' := s.tasks.all[t], s'.tasks.all[t];
    Rank(k'.stage) < Rank(k.stage) || (Rank(k'.stage) == Rank(k.stage) && Left(s', k'.stage) < Left(s, k.stage))
  }

  lemma SubscribeCloser(env: Env, s: State, t: TaskId)
    requires t in s.tasks.all && SubscribeInFlight(s.tasks.all[t], s.tasks.all[t].sid) && Unhindered(s, s.tasks.all[t])
    requires HubShape.TaskShape(s, s.tasks.all[t])
    requires InProgress(env, s, LastStanding(s, s.tasks.all[t].sid), s.tasks.all[t])
    ensures
      var k, s' := s.tasks.all[t], AdvanceSubscribe(env, s, t, s.tasks.all[t], false);
      && t in s'.tasks.all
      && (!s'.tasks.all[t].stage.Replying? ==> Unhindered(s', s'.tasks.all[t]) && Closer(s, s', t))
      && (s'.tasks.all[t].stage.Replying? && Due(env, k.message, LastStanding(s, k.sid)).None? ==>
            k.stage.Inserting? && s'.tasks.all[t].stage.reply.SubscribeOk?)
  {
    hide Broker.Attach, Broker.Detach, CursorOf, CodeFor, Registry.AddTo;
  }

  lemma OtherCloser(env: Env, s: State, t: TaskId)
    requires t in s.tasks.all && Unhindered(s, s.tasks.all[t])
    requires InProgress(env, s, LastStanding(s, s.tasks.all[t].sid), s.tasks.all[t])
    requires !s.tasks.all[t].message.frame.Subscribe?
    requires !(s.tasks.all[t].message.frame.Publish? && s.tasks.all[t].stage.FanningOut?)
    ensures
      var k, s' := s.tasks.all[t], AdvanceTask(env, s, t, s.tasks.all[t], false);
      && t in s'.tasks.all
      && (!s'.tasks.all[t].stage.Replying? ==> Unhindered(s', s'.tasks.all[t]) && Closer(s, s', t))
      && (s'.tasks.all[t].stage.Replying? && Due(env, k.message, LastStanding(s, k.sid)).None? ==>
            !s'.tasks.all[t].stage.reply.Error?)
  {
    hide AdvanceSubscribe, Broker.Broadcast, CodeFor;
  }

  /** The verdict the message calls for was recorded. */
  ghost predicate AnsweredAsDue(env: Env, s: State, s': State, k: Task) {
    && |AnsweredTo(s', k.sid)| == |AnsweredTo(s, k.sid)| + 1
    && AnsweredTo(s, k.sid) <= AnsweredTo(s', k.sid)
    && var v := AnsweredTo(s', k.sid)[|AnsweredTo(s, k.sid)|];
    v.message == k.message && (v.ok <==> Due(env, k.message, LastStanding(s, k.sid)).None?)
  }

  /** The facts that a handler's own steps keep. */
  ghost predicate OnItsWay(env: Env, s: State, t: TaskId) {
    && HubShape.ShapeInv(s) && HubIndex.IndexInv(s) && (HubCursor.PubSub(env) ==> HubCursor.CursorInv(s))
    && t in s.tasks.all && Unhindered(s, s.tasks.all[t])
    && InProgress(env, s, LastStanding(s, s.tasks.all[t].sid), s.tasks.all[t])
  }

  lemma FanOutAnswers(env: Env, s: State, t: TaskId)
    requires t in s.tasks.all && s.tasks.all[t].stage.FanningOut?
    requires InProgress(env, s, LastStanding(s, s.tasks.all[t].sid), s.tasks.all[t]) && s.tasks.all[t].message.frame.Publish?
    ensures AnsweredAsDue(env, s, Step(env, s, Advance(t, false)), s.tasks.all[t])
  {
    hide Broker.Broadcast, Begin;
  }

  lemma StepIsAdvance(env: Env, s: State, t: TaskId)
    requires t in s.tasks.all
    ensures Step(env, s, Advance(t, false)) == AdvanceTask(env, s, t, s.tasks.all[t], false)
  {
    hide AdvanceTask;
  }

  /** One step: closer and still on its way, or answered as due. */
  lemma OneStep(env: Env, s: State, t: TaskId)
    requires OnItsWay(env, s, t)
    ensures
      var k, s' := s.tasks.all[t], Step(env, s, Advance(t, false));
      || AnsweredAsDue(env, s, s', k)
      || (&& OnItsWay(env, s', t) && Closer(s, s', t)
          && s'.tasks.all[t].sid == k.sid && s'.tasks.all[t].message == k.message
          && AnsweredTo(s', k.sid) == AnsweredTo(s, k.sid) && StandingsOf(s', k.sid) == StandingsOf(s, k.sid))
  {
    hide Step, HubCursor.PubSub;
    var k, s' := s.tasks.all[t], Step(env, s, Advance(t, false));
    if k.message.frame.Publish? && k.stage.FanningOut? {
      hide AnsweredAsDue, HubShape.ShapeInv, HubIndex.IndexInv, HubCursor.CursorInv;
      FanOutAnswers(env, s, t);
    } else {
      assert HubShape.TaskShape(s, k);
      assert HubCursor.PubSub(env) ==> HubCursor.CursorAt(s, k);
      StepIsAdvance(env, s, t);
      hide HubShape.ShapeInv, HubCursor.CursorInv, HubCursor.CursorAt, InProgress, LastStanding, Closer, OthersSame;
      IndexHasIds(s);
      hide HubIndex.IndexInv;
      HubShape.StepKeepsShape(env, s, Advance(t, false));
      HubIndex.StepKeepsIndex(env, s, Advance(t, false));
      if HubCursor.PubSub(env) { HubCursor.StepKeeps(env, s, Advance(t, false)); }
      AdvanceTalk(env, s, t, k, false);
      OthersStandings(s, s', k.sid);
      StepCloser(env, s, t);
      hide AdvanceTask;
      if !GoesOn(env, s, s', t, k) { ReturnsAsDue(env, s, s', t, k); }
    }
  }

  lemma IndexHasIds(s: State)
    requires HubIndex.IndexInv(s)
    ensures HubIndex.IdsInv(s)
  {
  }

  lemma OthersStandings(s: State, s': State, sid: SessionId)
    requires OthersSame(s, s', sid)
    ensures StandingsOf(s', sid) == StandingsOf(s, sid) && LastStanding(s', sid) == LastStanding(s, sid)
  {
  }

  lemma StepCloser(env: Env, s: State, t: TaskId)
    requires t in s.tasks.all && Unhindered(s, s.tasks.all[t]) && HubShape.TaskShape(s, s.tasks.all[t])
    requires InProgress(env, s, LastStanding(s, s.tasks.all[t].sid), s.tasks.all[t])
    requires !(s.tasks.all[t].message.frame.Publish? && s.tasks.all[t].stage.FanningOut?)
    ensures
      var k, s' := s.tasks.all[t], AdvanceTask(env, s, t, s.tasks.all[t], false);
      && t in s'.tasks.all
      && (!s'.tasks.all[t].stage.Replying? ==> Unhindered(s', s'.tasks.all[t]) && Closer(s, s', t))
      && (s'.tasks.all[t].stage.Replying? && Due(env, k.message, LastStanding(s, k.sid)).None? ==>
            !s'.tasks.all[t].stage.reply.Error?)
  {
    hide AdvanceSubscribe, Closer, HubShape.TaskShape, Subscribes, Publishes, LastStanding, Due;
    if s.tasks.all[t].message.frame.Subscribe? { SubscribeCloser(env, s, t); } else { OtherCloser(env, s, t); }
  }

  lemma ReturnsAsDue(env: Env, s: State, s': State, t: TaskId, k: Task)
    requires Returns(env, s, s', t, k) && t in s'.tasks.all && s'.tasks.all[t].stage.Replying?
    requires Due(env, k.message, LastStanding(s, k.sid)).None? ==> !s'.tasks.all[t].stage.reply.Error?
    ensures AnsweredAsDue(env, s, s', k)
  {
    hide Due, LastStanding, HubCursor.PubSub;
  }

  lemma {:induction false} Finishes(env: Env, s: State, t: TaskId) returns (n: nat)
    requires OnItsWay(env, s, t)
    ensures AnsweredAsDue(env, s, Run(env, s, Steps(t, n)), s.tasks.all[t])
    decreases Rank(s.tasks.all[t].stage), Left(s, s.tasks.all[t].stage)
  {
    hide Step, HubCursor.PubSub, HubCursor.CursorInv, HubShape.ShapeInv, HubIndex.IndexInv, InProgress, Due;
    var k, s' := s.tasks.all[t], Step(env, s, Advance(t, false));
    OneStep(env, s, t);
    if AnsweredAsDue(env, s, s', k) {
      n := 1;
      assert Steps(t, 1) == [Advance(t, false)] + [];
      RunCons(env, s, Advance(t, false), []);
    } else {
      hide Rank, Left, Unhindered;
      var m := Finishes(env, s', t);
      n := m + 1;
      assert Steps(t, n) == [Advance(t, false)] + Steps(t, m);
      RunCons(env, s, Advance(t, false), Steps(t, m));
    }
  }

  /**
   * In every reachable state of a run that handles the session's frames one at a time, a
   * handler of it that is not yet unwinding, left alone and with all its parts working,
   * answers its message: with success if and only if no refusal is due. A subscribe needs
   * an open outbox for its replay.
   */
  lemma HandlerAnswersAsDue(env: Env, events: seq<Event>, t: TaskId) returns (n: nat)
    requires
      var s := Run(env, Init, events);
      t in s.tasks.all && Unhindered(s, s.tasks.all[t]) && SerialRunAt(env, events, s.tasks.all[t].sid)
    ensures
      var s := Run(env, Init, events);
      AnsweredAsDue(env, s, Run(env, Init, events + Steps(t, n)), s.tasks.all[t])
  {
    hide Step, HubCursor.PubSub, HubCursor.CursorInv, InProgress, SerialRunAt, AnsweredAsDue;
    var s := Run(env, Init, events);
    var sid := s.tasks.all[t].sid;
    HubShape.RunKeepsShape(env, events);
    HubIndex.InitIndex();
    HubIndex.RunKeepsIndex(env, Init, events);
    if HubCursor.PubSub(env) { HubCursor.RunKeepsCursors(env, events); }
    RunKeepsTalk(env, events, sid);
    hide Run, HubShape.ShapeInv, HubIndex.IndexInv;
    assert Pending(env, s, sid, s.tasks.all[t]);
    n := Finishes(env, s, t);
    RunAppend(env, Init, events, Steps(t, n));
  }

  // --------------------------------------------------------------------
  // Every handler can end
  // --------------------------------------------------------------------

  /** How many stages, failing or not, are still to come. */
  function Height(stage: Stage): nat {
    match stage
    case Gate(_) => 9
    case Entering(_) => 8
    case Validating(_) => 8
    case Attaching(_, _) => 7
    case Accepting(_) => 7
    case Reading(_, _) => 6
    case Sending(_, _) => 5
    case Unwinding(_, _) => 2
    case Replying(_) => 1
    case _ => 4
  }

  /** The handler ended, or came closer to its end. */
  predicate Descends(s: State, s': State, t: TaskId)
    requires t in s.tasks.all
  {
    t in s'.tasks.all ==>
      var stage, stage' := s.tasks.all[t].stage, s'.tasks.all[t].stage;
      Height(stage') < Height(stage) || (Height(stage') == Height(stage) && Left(s', stage') < Left(s, stage))
  }

  lemma SubscribeDescends(env: Env, s: State, t: TaskId)
    requires t in s.tasks.all && SubscribeInFlight(s.tasks.all[t], s.tasks.all[t].sid)
    requires HubShape.TaskShape(s, s.tasks.all[t])
    requires InProgress(env, s, LastStanding(s, s.tasks.all[t].sid), s.tasks.all[t])
    ensures Descends(s, AdvanceSubscribe(env, s, t, s.tasks.all[t], false), t)
  {
    hide Broker.Attach, Broker.Detach, CursorOf, CodeFor, Registry.AddTo, Due;
  }

  lemma OtherDescends(env: Env, s: State, t: TaskId)
    requires t in s.tasks.all && !SubscribeInFlight(s.tasks.all[t], s.tasks.all[t].sid)
    requires !s.tasks.all[t].stage.Replying? ==> InProgress(env, s, LastStanding(s, s.tasks.all[t].sid), s.tasks.all[t])
    ensures Descends(s, AdvanceTask(env, s, t, s.tasks.all[t], false), t)
  {
    hide AdvanceSubscribe, Broker.Broadcast, CodeFor, Due, OutboxOf;
  }

  lemma StepDescends(env: Env, s: State, t: TaskId)
    requires HubShape.TasksShape(s) && t in s.tasks.all && TalkAt(env, s, s.tasks.all[t].sid)
    ensures Descends(s, Step(env, s, Advance(t, false)), t)
  {
    hide AdvanceSubscribe, Descends, Correlates, Answers, Replies, InProgress;
    var k := s.tasks.all[t];
    assert Pending(env, s, k.sid, k) && HubShape.TaskShape(s, k);
    hide TalkAt, HubShape.TaskShape;
    StepIsAdvance(env, s, t);
    hide Step;
    if SubscribeInFlight(k, k.sid) {
      SubscribeDescends(env, s, t);
    } else {
      hide AdvanceTask;
      OtherDescends(env, s, t);
    }
  }

  lemma SerialAdvance(env: Env, events: seq<Event>, t: TaskId, sid: SessionId)
    requires SerialRunAt(env, events, sid)
    ensures SerialRunAt(env, events + [Advance(t, false)], sid)
  {
    hide Step;
    var s := Run(env, Init, events);
    RunSnoc(env, Init, events, Advance(t, false));
    assert (events + [Advance(t, false)])[..|events|] == events;
    AdvanceSerial(env, s, t, sid);
  }

  lemma AdvanceSerial(env: Env, s: State, t: TaskId, sid: SessionId)
    requires SerialAt(s, sid)
    ensures SerialAt(Step(env, s, Advance(t, false)), sid)
    ensures Step(env, s, Advance(t, false)).sessions.nextId == s.sessions.nextId
  {
    hide AdvanceTask;
    IdsGrowByOpen(env, s, Advance(t, false));
    if t in s.tasks.all { AdvanceFrame(env, s, t, false); }
  }

  /** The session's handler in flight, if any, ends by its own steps. */
  lemma {:induction false} TaskEnds(env: Env, events: seq<Event>, t: TaskId) returns (n: nat)
    requires
      var s := Run(env, Init, events);
      t in s.tasks.all && SerialRunAt(env, events, s.tasks.all[t].sid) && s.tasks.all[t].sid < s.sessions.nextId
    ensures
      var sid := Run(env, Init, events).tasks.all[t].sid;
      !Busy(Run(env, Init, events + Steps(t, n)), sid) && SerialRunAt(env, events + Steps(t, n), sid)
    decreases
      Height(Run(env, Init, events).tasks.all[t].stage),
      Left(Run(env, Init, events), Run(env, Init, events).tasks.all[t].stage)
  {
    hide Step, TalkAt, HubShape.SubsShape, HubShape.HeldShape, HubShape.TasksShape, Height, Left;
    var s := Run(env, Init, events);
    var sid, e := s.tasks.all[t].sid, Advance(t, false);
    HubShape.RunKeepsShape(env, events);
    RunKeepsTalk(env, events, sid);
    StepDescends(env, s, t);
    RunSnoc(env, Init, events, e);
    SerialAdvance(env, events, t, sid);
    AdvanceSerial(env, s, t, sid);
    var s' := Step(env, s, e);
    assert s' == Run(env, Init, events + [e]);
    OwnTask(env, s, t);
    hide Run, SerialRunAt;
    if t !in s'.tasks.all {
      n := 1;
      assert Steps(t, 1) == [e];
    } else {
      var m := TaskEnds(env, events + [e], t);
      n := m + 1;
      assert events + Steps(t, n) == events + [e] + Steps(t, m);
    }
  }

  /** Only the handler itself changes, and it is the session's only one. */
  lemma OwnTask(env: Env, s: State, t: TaskId)
    requires t in s.tasks.all && SerialAt(s, s.tasks.all[t].sid)
    ensures
      var sid, s' := s.tasks.all[t].sid, Step(env, s, Advance(t, false));
      && (t in s'.tasks.all ==> s'.tasks.all[t].sid == sid)
      && (t !in s'.tasks.all ==> !Busy(s', sid))
  {
    hide AdvanceTask;
    AdvanceFrame(env, s, t, false);
  }
}
