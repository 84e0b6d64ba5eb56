/** When outboxes stop growing, and what releasing a session ends, over every run. */
module HubOutbox {
  import opened Types
  import opened Frames
  import opened Hub
  import opened HubDelivery
  import opened HubReplies
  import Broker
  import HubIndex
  import HubShape
  import Registry

  /** At most one frame more, and only while the outbox is open; a reply only for a registered session. */
  ghost predicate Grows(s: State, s': State, sid: SessionId) {
    || OutboxOf(s', sid) == OutboxOf(s, sid)
    || (&& sid in s.outboxes.open
        && exists o: Out :: OutboxOf(s', sid) == OutboxOf(s, sid) + [o] && (o.Replied? ==> sid in s.sessions.registered))
  }

  lemma PushGrows(s: State, s': State, who: SessionId, o: Out, sid: SessionId)
    requires who in s.outboxes.open && (o.Replied? ==> who in s.sessions.registered)
    requires s'.outboxes.of == s.outboxes.of[who := OutboxOf(s, who) + [o]]
    ensures Grows(s, s', sid)
  {
    if sid == who { assert OutboxOf(s', sid) == OutboxOf(s, sid) + [o]; }
  }

  lemma SubscribeGrows(env: Env, s: State, t: TaskId, fail: bool, sid: SessionId)
    requires t in s.tasks.all && SubscribeInFlight(s.tasks.all[t], s.tasks.all[t].sid)
    ensures Grows(s, AdvanceSubscribe(env, s, t, s.tasks.all[t], fail), sid)
  {
    hide Broker.Attach, Broker.Detach, CursorOf, CodeFor, RequestId, Registry.AddTo, Grows;
    var k := s.tasks.all[t];
    var s' := AdvanceSubscribe(env, s, t, k, fail);
    if s'.outboxes == s.outboxes {
      SameOutbox(s, s', sid);
    } else {
      var u := s.subs.all[k.stage.sub];
      PushGrows(s, s', k.sid, Delivered(k.stage.sub, u.replay[u.replayed]), sid);
    }
  }

  lemma SameOutbox(s: State, s': State, sid: SessionId)
    requires s'.outboxes == s.outboxes
    ensures Grows(s, s', sid)
  {
  }

  lemma AdvanceGrows(env: Env, s: State, t: TaskId, fail: bool, sid: SessionId)
    requires t in s.tasks.all
    ensures Grows(s, AdvanceTask(env, s, t, s.tasks.all[t], fail), sid)
  {
    var k := s.tasks.all[t];
    var s' := AdvanceTask(env, s, t, k, fail);
    hide AdvanceSubscribe, Broker.Broadcast, CodeFor, RequestId, Grows;
    if SubscribeInFlight(k, k.sid) {
      SubscribeGrows(env, s, t, fail, sid);
    } else if k.stage.Replying? && k.sid in s.sessions.registered && k.sid in s.outboxes.open {
      PushGrows(s, s', k.sid, Replied(k.stage.reply), sid);
    } else {
      SameOutbox(s, s', sid);
    }
  }

  lemma StepGrows(env: Env, s: State, e: Event, sid: SessionId)
    requires sid < s.sessions.nextId
    ensures Grows(s, Step(env, s, e), sid)
    ensures sid !in s.outboxes.open ==> sid !in Step(env, s, e).outboxes.open
    ensures sid !in s.sessions.registered ==> sid !in Step(env, s, e).sessions.registered
    ensures sid < Step(env, s, e).sessions.nextId
    ensures sid in s.outboxes.open && e != CloseOutbox(sid) ==> sid in Step(env, s, e).outboxes.open
    ensures sid in s.sessions.registered && e != Deregister(sid) ==> sid in Step(env, s, e).sessions.registered
  {
    hide AdvanceTask, Begin, Grows, PollReceiver;
    IdsGrowByOpen(env, s, e);
    var s' := Step(env, s, e);
    match e
    case Advance(t, fail) =>
      if t in s.tasks.all {
        AdvanceGrows(env, s, t, fail, sid);
        AdvanceOthers(env, s, t, fail);
        hide Step, LogsGrow;
      } else {
        SameOutbox(s, s', sid);
      }
    case Receive(t, who, m) =>
      if t !in s.tasks.all && Reads(s, who) { BeginFrame(env, Ask(s, who, m), t, who, m); }
      SameOutbox(s, s', sid);
    case PollStream(sub) =>
      if Running(s, sub) { PollQuiet(env, s, sub); }
      SameOutbox(s, s', sid);
    case Forward(sub) =>
      if s'.outboxes == s.outboxes {
        SameOutbox(s, s', sid);
      } else {
        PushGrows(s, s', s.subs.all[sub].sid, Delivered(sub, s.subs.all[sub].hand.value), sid);
      }
    case Open => OpenGrows(env, s, sid);
    case CloseOutbox(who) => CloseGrows(s, s', sid);
    case _ => SameOutbox(s, s', sid);
  }

  lemma OpenGrows(env: Env, s: State, sid: SessionId)
    requires sid < s.sessions.nextId
    ensures Grows(s, OpenSession(env, s), sid)
  {
  }

  lemma CloseGrows(s: State, s': State, sid: SessionId)
    requires s'.outboxes.of == s.outboxes.of
    ensures Grows(s, s', sid)
  {
  }

  lemma NoMoreReplies(out: seq<Out>, o: Out)
    requires o.Delivered?
    ensures Replies(out + [o]) == Replies(out)
  {
    assert (out + [o])[..|out|] == out;
  }

  /**
   * A closed outbox stays closed and gets nothing more, and a session that is no longer
   * registered stays so and gets no more replies, in any continuation.
   */
  lemma {:induction false} EndIsFinal(env: Env, s: State, after: seq<Event>, sid: SessionId)
    requires sid < s.sessions.nextId
    ensures
      var s' := Run(env, s, after);
      && sid < s'.sessions.nextId
      && (sid !in s.outboxes.open ==> sid !in s'.outboxes.open && OutboxOf(s', sid) == OutboxOf(s, sid))
      && (sid !in s.sessions.registered ==>
            sid !in s'.sessions.registered && Replies(OutboxOf(s', sid)) == Replies(OutboxOf(s, sid)))
    decreases |after|
  {
    hide Step, Replies;
    if after != [] {
      var init, e := after[..|after| - 1], after[|after| - 1];
      EndIsFinal(env, s, init, sid);
      var s1 := Run(env, s, init);
      StepGrows(env, s1, e, sid);
      var s' := Step(env, s1, e);
      if OutboxOf(s', sid) != OutboxOf(s1, sid) {
        var o: Out :| OutboxOf(s', sid) == OutboxOf(s1, sid) + [o] && (o.Replied? ==> sid in s1.sessions.registered);
        if o.Delivered? { NoMoreReplies(OutboxOf(s1, sid), o); }
      }
    }
  }

  /** From its opening a session stays registered until it is deregistered, and its outbox open until it is closed. */
  lemma {:induction false} OpenStaysOpen(env: Env, before: seq<Event>, after: seq<Event>)
    ensures
      var sid := Run(env, Init, before).sessions.nextId;
      var s := Run(env, Init, before + [Open] + after);
      && sid < s.sessions.nextId
      && (Deregister(sid) !in after ==> sid in s.sessions.registered)
      && (CloseOutbox(sid) !in after ==> sid in s.outboxes.open)
    decreases |after|
  {
    hide Step;
    var sid := Run(env, Init, before).sessions.nextId;
    if after == [] {
      assert before + [Open] + after == before + [Open];
      RunSnoc(env, Init, before, Open);
      OpenOpens(env, Run(env, Init, before));
    } else {
      var init, e := after[..|after| - 1], after[|after| - 1];
      OpenStaysOpen(env, before, init);
      assert before + [Open] + after == (before + [Open] + init) + [e];
      RunSnoc(env, Init, before + [Open] + init, e);
      StepGrows(env, Run(env, Init, before + [Open] + init), e, sid);
    }
  }

  lemma OpenOpens(env: Env, s: State)
    ensures
      var s' := Step(env, s, Open);
      s.sessions.nextId in s'.sessions.registered && s.sessions.nextId in s'.outboxes.open && s.sessions.nextId < s'.sessions.nextId
  {
    hide AdvanceTask, Begin;
  }

  /** Closing an outbox closes it for good, and deregistering a session is final, whatever follows. */
  lemma CloseIsFinal(env: Env, before: seq<Event>, after: seq<Event>, sid: SessionId)
    requires sid < Run(env, Init, before).sessions.nextId
    ensures
      var s, s' := Run(env, Init, before), Run(env, Init, before + [CloseOutbox(sid)] + after);
      sid !in s'.outboxes.open && OutboxOf(s', sid) == OutboxOf(s, sid)
    ensures
      var s, s' := Run(env, Init, before), Run(env, Init, before + [Deregister(sid)] + after);
      sid !in s'.sessions.registered && Replies(OutboxOf(s', sid)) == Replies(OutboxOf(s, sid))
  {
    hide Run, Replies, AdvanceTask, Begin;
    var s := Run(env, Init, before);
    RunSnoc(env, Init, before, CloseOutbox(sid));
    RunSnoc(env, Init, before, Deregister(sid));
    RunAppend(env, Init, before + [CloseOutbox(sid)], after);
    RunAppend(env, Init, before + [Deregister(sid)], after);
    EndIsFinal(env, Step(env, s, CloseOutbox(sid)), after, sid);
    EndIsFinal(env, Step(env, s, Deregister(sid)), after, sid);
  }

  // --------------------------------------------------------------------
  // No stream outlives its subscription
  // --------------------------------------------------------------------

  ghost predicate InUse(s: State, sub: SubId) {
    exists t :: t in s.tasks.all && HubShape.Uses(s.tasks.all[t], sub)
  }

  predicate IsHeld(s: State, sub: SubId) {
    sub in s.subs.all
    && var u := s.subs.all[sub]; u.channel in HeldBy(s, u.sid) && HeldBy(s, u.sid)[u.channel] == sub
  }

  /** Every attached stream is a handler's or a held subscription's. */
  ghost predicate KeptInv(s: State) {
    forall sub :: sub in s.broker.receivers ==> InUse(s, sub) || IsHeld(s, sub)
  }

  /** A handler's step accounts for every stream: its own before, its own after, or held after. */
  ghost predicate Hands(s: State, s': State, t: TaskId) {
    && OnlyTask(s, s', t)
    && (forall sub :: sub in s'.broker.receivers ==>
          || (t in s'.tasks.all && HubShape.Uses(s'.tasks.all[t], sub))
          || IsHeld(s', sub)
          || (sub in s.broker.receivers && !HubShape.Uses(s.tasks.all[t], sub) && (IsHeld(s, sub) ==> IsHeld(s', sub))))
  }

  lemma HandsKeeps(s: State, s': State, t: TaskId)
    requires KeptInv(s) && Hands(s, s', t)
    ensures KeptInv(s')
  {
    hide IsHeld;
    forall sub | sub in s'.broker.receivers ensures InUse(s', sub) || IsHeld(s', sub) {
      if !IsHeld(s', sub) && !(t in s'.tasks.all && HubShape.Uses(s'.tasks.all[t], sub)) {
        assert InUse(s, sub);
        var x :| x in s.tasks.all && HubShape.Uses(s.tasks.all[x], sub);
        assert x in s'.tasks.all && s'.tasks.all[x] == s.tasks.all[x];
      }
    }
  }

  lemma SubscribeHands(env: Env, s: State, t: TaskId, fail: bool)
    requires HubShape.SubsShape(s) && t in s.tasks.all && SubscribeInFlight(s.tasks.all[t], s.tasks.all[t].sid)
    requires HubShape.TaskShape(s, s.tasks.all[t]) && !Inserts(s, s.tasks.all[t])
    ensures Hands(s, AdvanceSubscribe(env, s, t, s.tasks.all[t], fail), t)
  {
    hide HubShape.SubShape, Broker.Wf, CursorOf, OutboxOf, CodeFor, RequestId, Registry.AddTo;
    SubscribeFrame(env, s, t, fail);
    SubscribeSubs(env, s, t, fail);
    hide OnlyTask, SameOrigin, NewSub;
    var k := s.tasks.all[t];
    var s' := AdvanceSubscribe(env, s, t, k, fail);
    SubscribeStreams(env, s, t, fail);
    hide AdvanceSubscribe;
    forall sub | sub in s.subs.all && IsHeld(s, sub) ensures IsHeld(s', sub) { SameHeld(s, s', k, sub); }
  }

  lemma SameHeld(s: State, s': State, k: Task, sub: SubId)
    requires sub in s.subs.all && IsHeld(s, sub) && s'.held == s.held && SubsFollow(s, s', k)
    ensures IsHeld(s', sub)
  {
  }

  /** The handler's stream goes on being its own or is dropped; a new one is its own. */
  lemma SubscribeStreams(env: Env, s: State, t: TaskId, fail: bool)
    requires HubShape.SubsShape(s) && t in s.tasks.all && SubscribeInFlight(s.tasks.all[t], s.tasks.all[t].sid)
    requires HubShape.TaskShape(s, s.tasks.all[t]) && !Inserts(s, s.tasks.all[t])
    ensures
      var s' := AdvanceSubscribe(env, s, t, s.tasks.all[t], fail);
      forall sub :: sub in s'.broker.receivers ==>
        || (t in s'.tasks.all && HubShape.Uses(s'.tasks.all[t], sub))
        || (sub in s.subs.all && sub in s.broker.receivers && !HubShape.Uses(s.tasks.all[t], sub))
  {
    hide HubShape.SubShape, Broker.Wf, CursorOf, OutboxOf, CodeFor, RequestId, Registry.AddTo;
  }

  lemma InsertHands(s: State, t: TaskId, k: Task)
    requires HubShape.SubsShape(s) && t in s.tasks.all && k == s.tasks.all[t] && Inserts(s, k) && HubShape.TaskShape(s, k)
    ensures Hands(s, InsertSubscription(s, t, k, k.stage.sub, k.stage.cursor, k.message.frame.channel), t)
  {
    hide HubShape.SubShape, Broker.Wf, RequestId, Registry.AddTo;
    var ch, sub := k.message.frame.channel, k.stage.sub;
    var s' := InsertSubscription(s, t, k, sub, k.stage.cursor, ch);
    InsertLeaves(s, t, sub, k.stage.cursor, ch);
    assert s'.broker == s.broker && s'.held.of == s.held.of[k.sid := HeldBy(s, k.sid)[ch := sub]];
    assert s'.subs.all == s.subs.all[sub := s.subs.all[sub].(running := true)];
    hide InsertSubscription, OnlyTask;
    assert IsHeld(s', sub);
    forall x | x in s.subs.all && x != sub && IsHeld(s, x) ensures IsHeld(s', x) {}
  }

  lemma AdvanceKept(env: Env, s: State, t: TaskId, fail: bool)
    requires KeptInv(s) && HubShape.ShapeInv(s) && t in s.tasks.all
    ensures KeptInv(AdvanceTask(env, s, t, s.tasks.all[t], fail))
  {
    var k := s.tasks.all[t];
    var s' := AdvanceTask(env, s, t, k, fail);
    assert HubShape.TaskShape(s, k);
    hide HubShape.HeldShape, HubShape.TasksShape, KeptInv, Hands;
    if Inserts(s, k) {
      assert s' == InsertSubscription(s, t, k, k.stage.sub, k.stage.cursor, k.message.frame.channel);
      hide AdvanceTask, InsertSubscription;
      InsertHands(s, t, k);
    } else if SubscribeInFlight(k, k.sid) {
      hide AdvanceSubscribe;
      SubscribeHands(env, s, t, fail);
    } else {
      OtherHands(env, s, t, fail);
    }
    HandsKeeps(s, s', t);
  }

  lemma OtherHands(env: Env, s: State, t: TaskId, fail: bool)
    requires t in s.tasks.all && HubShape.TaskShape(s, s.tasks.all[t])
    requires !SubscribeInFlight(s.tasks.all[t], s.tasks.all[t].sid)
    ensures Hands(s, AdvanceTask(env, s, t, s.tasks.all[t], fail), t)
  {
    var k := s.tasks.all[t];
    var s' := AdvanceTask(env, s, t, k, fail);
    AdvanceFrame(env, s, t, fail);
    hide AdvanceSubscribe, OutboxOf, CodeFor, RequestId, OnlyTask;
    assert s'.broker.receivers == s.broker.receivers && s'.subs == s.subs && s'.held == s.held;
    hide AdvanceTask;
    assert forall sub :: !HubShape.Uses(k, sub);
  }

  lemma BeginKept(env: Env, s: State, t: TaskId, sid: SessionId, m: Message)
    requires KeptInv(s) && HubShape.ShapeInv(s) && t !in s.tasks.all
    ensures KeptInv(Begin(env, s, t, sid, m))
  {
    hide Begin, KeptInv, RemoveSubscription, HubShape.SubsShape, HubShape.TasksShape;
    var s' := Begin(env, s, t, sid, m);
    BeginFrame(env, s, t, sid, m);
    if Removes(s, sid, m) {
      RemovalKept(s, s', t, sid, m.frame.channel);
    } else {
      assert s'.broker == s.broker && s'.subs == s.subs && s'.held == s.held;
      hide Begins;
      NewTaskKept(s, s', t);
    }
  }

  lemma NewTaskKept(s: State, s': State, t: TaskId)
    requires KeptInv(s) && t !in s.tasks.all && t in s'.tasks.all && s'.tasks.all == s.tasks.all[t := s'.tasks.all[t]]
    requires s'.broker == s.broker && s'.subs == s.subs && s'.held == s.held
    ensures KeptInv(s')
  {
    forall sub | sub in s'.broker.receivers ensures InUse(s', sub) || IsHeld(s', sub) {
      assert InUse(s, sub) || IsHeld(s, sub);
      if InUse(s, sub) {
        var x :| x in s.tasks.all && HubShape.Uses(s.tasks.all[x], sub);
        assert x in s'.tasks.all && s'.tasks.all[x] == s.tasks.all[x];
      }
    }
  }

  lemma RemovalKept(s: State, s': State, t: TaskId, sid: SessionId, ch: Channel)
    requires KeptInv(s) && HubShape.HeldShape(s) && ch in HeldBy(s, sid)
    requires t !in s.tasks.all && t in s'.tasks.all && s'.tasks.all == s.tasks.all[t := s'.tasks.all[t]]
    requires s'.subs == s.subs
    requires var s1 := RemoveSubscription(s, sid, ch); s'.broker == s1.broker && s'.held == s1.held
    ensures KeptInv(s')
  {
    hide Registry.RemoveFrom;
    forall sub | sub in s'.broker.receivers ensures InUse(s', sub) || IsHeld(s', sub) {
      assert sub in s.broker.receivers && sub != HeldBy(s, sid)[ch];
      assert InUse(s, sub) || IsHeld(s, sub);
      if InUse(s, sub) {
        var x :| x in s.tasks.all && HubShape.Uses(s.tasks.all[x], sub);
        assert x in s'.tasks.all && s'.tasks.all[x] == s.tasks.all[x];
      }
    }
  }

  lemma ReleaseKept(s: State, sid: SessionId)
    requires KeptInv(s) && HubShape.ShapeInv(s) && Unused(s, sid)
    ensures KeptInv(ReleaseSession(s, sid))
  {
    hide HubShape.SubShape, Broker.Wf;
    var s' := ReleaseSession(s, sid);
    forall sub | sub in s'.broker.receivers ensures InUse(s', sub) || IsHeld(s', sub) {
      assert InUse(s, sub) || IsHeld(s, sub);
      if InUse(s, sub) {
        var x :| x in s.tasks.all && HubShape.Uses(s.tasks.all[x], sub);
        assert x in s'.tasks.all;
      } else {
        HeldIsValue(s, sub);
      }
    }
  }

  lemma HeldIsValue(s: State, sub: SubId)
    requires IsHeld(s, sub)
    ensures sub in HeldBy(s, s.subs.all[sub].sid).Values
  {
    var u := s.subs.all[sub];
    assert HeldBy(s, u.sid)[u.channel] in HeldBy(s, u.sid).Values;
  }

  /** A stream in use is used by a handler of its own session. */
  lemma UserIsOwn(s: State, sub: SubId)
    requires HubShape.ShapeInv(s) && sub in s.subs.all
    ensures InUse(s, sub) ==> exists t :: t in s.tasks.all && s.tasks.all[t].sid == s.subs.all[sub].sid
  {
    hide HubShape.SubsShape, HubShape.HeldShape;
    if t :| t in s.tasks.all && HubShape.Uses(s.tasks.all[t], sub) {
      assert HubShape.TaskShape(s, s.tasks.all[t]);
    }
  }

  lemma StreamsKept(s: State, s': State)
    requires KeptInv(s) && s'.tasks == s.tasks && s'.held == s.held && s'.broker.receivers.Keys <= s.broker.receivers.Keys
    requires forall sub :: sub in s.subs.all ==>
               && sub in s'.subs.all
               && s'.subs.all[sub].sid == s.subs.all[sub].sid && s'.subs.all[sub].channel == s.subs.all[sub].channel
    ensures KeptInv(s')
  {
    forall sub | sub in s'.broker.receivers ensures InUse(s', sub) || IsHeld(s', sub) {
      assert sub in s.broker.receivers.Keys;
      assert InUse(s, sub) || IsHeld(s, sub);
      if InUse(s, sub) {
        var x :| x in s.tasks.all && HubShape.Uses(s.tasks.all[x], sub);
        assert x in s'.tasks.all;
      }
    }
  }

  lemma PollKept(env: Env, s: State, sub: SubId)
    requires KeptInv(s) && Running(s, sub)
    ensures KeptInv(PollReceiver(env, s, sub))
  {
    hide KeptInv;
    var s' := PollReceiver(env, s, sub);
    assert s'.broker.receivers.Keys == s.broker.receivers.Keys;
    StreamsKept(s, s');
  }

  lemma ForwardKept(s: State, sub: SubId)
    requires KeptInv(s) && sub in s.subs.all && s.subs.all[sub].hand.Some?
    ensures KeptInv(ForwardHand(s, sub))
  {
    hide KeptInv, OutboxOf;
    StreamsKept(s, ForwardHand(s, sub));
  }

  lemma QuietKept(s: State, s': State)
    requires KeptInv(s) && s'.tasks == s.tasks && s'.broker == s.broker && s'.subs == s.subs
    requires forall sid :: HeldBy(s', sid) == HeldBy(s, sid)
    ensures KeptInv(s')
  {
    forall sub | sub in s'.broker.receivers ensures InUse(s', sub) || IsHeld(s', sub) {
      assert InUse(s, sub) || IsHeld(s, sub);
      if InUse(s, sub) {
        var x :| x in s.tasks.all && HubShape.Uses(s.tasks.all[x], sub);
        assert x in s'.tasks.all;
      }
    }
  }

  lemma StepKept(env: Env, s: State, e: Event)
    requires KeptInv(s) && HubShape.ShapeInv(s) && HubIndex.IdsInv(s)
    ensures KeptInv(Step(env, s, e))
  {
    hide KeptInv, AdvanceTask, Begin, HubShape.SubsShape, HubShape.HeldShape, HubShape.TasksShape, ReleaseSession;
    var s' := Step(env, s, e);
    match e
    case Advance(t, fail) => if t in s.tasks.all { AdvanceKept(env, s, t, fail); }
    case Receive(t, sid, m) =>
      if t !in s.tasks.all && Reads(s, sid) {
        QuietKept(s, Ask(s, sid, m));
        AskShape(s, sid, m);
        BeginKept(env, Ask(s, sid, m), t, sid, m);
      }
    case Release(sid) => if Unused(s, sid) { ReleaseKept(s, sid); }
    case PollStream(sub) => if Running(s, sub) && s.subs.all[sub].hand.None? { hide PollReceiver; PollKept(env, s, sub); }
    case Forward(sub) => if Running(s, sub) && s.subs.all[sub].hand.Some? { hide ForwardHand; ForwardKept(s, sub); }
    case _ => QuietKept(s, s');
  }

  lemma AskShape(s: State, sid: SessionId, m: Message)
    requires HubShape.ShapeInv(s)
    ensures HubShape.ShapeInv(Ask(s, sid, m))
  {
    hide HubShape.SubShape, Broker.Wf;
    var s' := Ask(s, sid, m);
    forall t | t in s'.tasks.all ensures HubShape.TaskShape(s', s'.tasks.all[t]) {
      assert HubShape.TaskShape(s, s.tasks.all[t]);
    }
  }

  /**
   * No stream leaks: in every reachable state each attached stream belongs to a subscribe in
   * flight or to a subscription its session holds.
   */
  lemma {:induction false} NoStreamLeaks(env: Env, events: seq<Event>)
    ensures KeptInv(Run(env, Init, events))
    decreases |events|
  {
    hide Step, HubShape.ShapeInv;
    if events == [] {
      assert Init.broker.receivers == map[];
    } else {
      hide KeptInv;
      var init := events[..|events| - 1];
      NoStreamLeaks(env, init);
      HubShape.RunKeepsShape(env, init);
      HubIndex.InitIndex();
      HubIndex.RunKeepsIndex(env, Init, init);
      StepKept(env, Run(env, Init, init), events[|events| - 1]);
    }
  }

  /** A session released when nothing uses it any more holds nothing, and every stream of its subscriptions has ended. */
  lemma ReleaseEndsAll(env: Env, events: seq<Event>, sid: SessionId, sub: SubId)
    requires var s := Run(env, Init, events); Unused(s, sid) && sub in s.subs.all && s.subs.all[sub].sid == sid
    ensures var s := Run(env, Init, events + [Release(sid)]); HeldBy(s, sid) == map[] && Dropped(s, sub)
  {
    hide Run, AdvanceTask, Begin;
    var s := Run(env, Init, events);
    RunSnoc(env, Init, events, Release(sid));
    HubShape.RunKeepsShape(env, events);
    NoStreamLeaks(env, events);
    UserIsOwn(s, sub);
    hide HubShape.ShapeInv;
    if sub in s.broker.receivers { HeldIsValue(s, sub); }
  }

  // --------------------------------------------------------------------
  // A held subscription stays attached
  // --------------------------------------------------------------------

  /** What a session with an open outbox holds is attached. */
  ghost predicate AliveInv(s: State) {
    forall sid, ch :: sid in s.outboxes.open && ch in HeldBy(s, sid) ==> HeldBy(s, sid)[ch] in s.broker.receivers
  }

  /** Only this stream was dropped, if any; nothing new is held. */
  ghost predicate DropsOne(s: State, s': State, sub: SubId) {
    && s'.held == s.held && s'.outboxes.open == s.outboxes.open
    && (forall x :: x in s.broker.receivers && x != sub ==> x in s'.broker.receivers)
  }

  /** A stream that is not running, or whose session's outbox is closed, is held by nobody who could hear it. */
  lemma DropsUnheard(s: State, s': State, sub: SubId)
    requires AliveInv(s) && HubShape.HeldShape(s) && DropsOne(s, s', sub)
    requires sub in s.subs.all ==> !s.subs.all[sub].running || s.subs.all[sub].sid !in s.outboxes.open
    ensures AliveInv(s')
  {
    forall sid, ch | sid in s'.outboxes.open && ch in HeldBy(s', sid) ensures HeldBy(s', sid)[ch] in s'.broker.receivers {
      assert HeldBy(s, sid)[ch] in s.broker.receivers;
    }
  }

  lemma NothingDropped(s: State, s': State)
    requires AliveInv(s) && s'.held == s.held && s'.outboxes.open <= s.outboxes.open
    requires s.broker.receivers.Keys <= s'.broker.receivers.Keys
    ensures AliveInv(s')
  {
    forall sid, ch | sid in s'.outboxes.open && ch in HeldBy(s', sid) ensures HeldBy(s', sid)[ch] in s'.broker.receivers {
      assert HeldBy(s, sid)[ch] in s.broker.receivers.Keys;
    }
  }

  /** The subscription a subscribe's step may drop. */
  function Droppable(k: Task): Option<SubId> {
    match k.stage
    case Inserting(sub, _) => Some(sub)
    case Unwinding(_, stream) => stream
    case _ => None
  }

  lemma SubscribeDrops(env: Env, s: State, t: TaskId, fail: bool)
    requires t in s.tasks.all && SubscribeInFlight(s.tasks.all[t], s.tasks.all[t].sid) && !Inserts(s, s.tasks.all[t])
    ensures
      var k, s' := s.tasks.all[t], AdvanceSubscribe(env, s, t, s.tasks.all[t], fail);
      && s'.held == s.held && s'.outboxes.open == s.outboxes.open
      && (forall x :: x in s.broker.receivers && Droppable(k) != Some(x) ==> x in s'.broker.receivers)
  {
    hide CursorOf, OutboxOf, CodeFor, RequestId, Registry.AddTo;
  }

  lemma SubscribeAlive(env: Env, s: State, t: TaskId, fail: bool)
    requires AliveInv(s) && HubShape.HeldShape(s) && t in s.tasks.all && HubShape.TaskShape(s, s.tasks.all[t])
    requires SubscribeInFlight(s.tasks.all[t], s.tasks.all[t].sid) && !Inserts(s, s.tasks.all[t])
    ensures AliveInv(AdvanceSubscribe(env, s, t, s.tasks.all[t], fail))
  {
    hide AdvanceSubscribe, AliveInv, HubShape.HeldShape;
    var k, s' := s.tasks.all[t], AdvanceSubscribe(env, s, t, s.tasks.all[t], fail);
    SubscribeDrops(env, s, t, fail);
    match Droppable(k)
    case None => NothingDropped(s, s');
    case Some(sub) =>
      OwnIsNotRunning(s, k);
      DropsUnheard(s, s', sub);
  }

  lemma OwnIsNotRunning(s: State, k: Task)
    requires HubShape.TaskShape(s, k) && Droppable(k).Some?
    ensures Droppable(k).value in s.subs.all && !s.subs.all[Droppable(k).value].running
  {
  }

  lemma InsertAlive(s: State, t: TaskId, k: Task)
    requires AliveInv(s) && Inserts(s, k) && HubShape.TaskShape(s, k)
    ensures AliveInv(InsertSubscription(s, t, k, k.stage.sub, k.stage.cursor, k.message.frame.channel))
  {
    hide RequestId, Registry.AddTo;
    var s' := InsertSubscription(s, t, k, k.stage.sub, k.stage.cursor, k.message.frame.channel);
    forall sid, ch | sid in s'.outboxes.open && ch in HeldBy(s', sid) ensures HeldBy(s', sid)[ch] in s'.broker.receivers {
      assert ch in HeldBy(s, sid) ==> HeldBy(s, sid)[ch] in s.broker.receivers;
    }
  }

  lemma AdvanceAlive(env: Env, s: State, t: TaskId, fail: bool)
    requires AliveInv(s) && HubShape.ShapeInv(s) && t in s.tasks.all
    ensures AliveInv(AdvanceTask(env, s, t, s.tasks.all[t], fail))
  {
    var k := s.tasks.all[t];
    var s' := AdvanceTask(env, s, t, k, fail);
    assert HubShape.TaskShape(s, k);
    hide HubShape.SubsShape, HubShape.HeldShape, HubShape.TasksShape, AliveInv;
    if Inserts(s, k) {
      assert s' == InsertSubscription(s, t, k, k.stage.sub, k.stage.cursor, k.message.frame.channel);
      hide AdvanceTask, InsertSubscription;
      InsertAlive(s, t, k);
    } else if SubscribeInFlight(k, k.sid) {
      hide AdvanceSubscribe;
      SubscribeAlive(env, s, t, fail);
    } else {
      AdvanceFrame(env, s, t, fail);
      OtherReceivers(env, s, t, fail);
      hide AdvanceTask, OnlyTask;
      NothingDropped(s, s');
    }
  }

  lemma OtherReceivers(env: Env, s: State, t: TaskId, fail: bool)
    requires t in s.tasks.all && !SubscribeInFlight(s.tasks.all[t], s.tasks.all[t].sid)
    ensures AdvanceTask(env, s, t, s.tasks.all[t], fail).broker.receivers == s.broker.receivers
  {
    hide AdvanceSubscribe, OutboxOf, CodeFor, RequestId;
  }

  lemma RemovalAlive(s: State, s': State, sid: SessionId, ch: Channel)
    requires AliveInv(s) && HubShape.HeldShape(s) && ch in HeldBy(s, sid) && s'.outboxes == s.outboxes
    requires var s1 := RemoveSubscription(s, sid, ch); s'.broker == s1.broker && s'.held == s1.held
    ensures AliveInv(s')
  {
    hide Registry.RemoveFrom;
    var gone := HeldBy(s, sid)[ch];
    forall x, c | x in s'.outboxes.open && c in HeldBy(s', x) ensures HeldBy(s', x)[c] in s'.broker.receivers {
      assert c in HeldBy(s, x) && HeldBy(s', x)[c] == HeldBy(s, x)[c];
      assert HeldBy(s, x)[c] in s.broker.receivers;
      assert HeldBy(s, x)[c] != gone by {
        assert s.subs.all[gone].sid == sid && s.subs.all[gone].channel == ch;
        assert s.subs.all[HeldBy(s, x)[c]].sid == x && s.subs.all[HeldBy(s, x)[c]].channel == c;
      }
    }
  }

  lemma BeginAlive(env: Env, s: State, t: TaskId, sid: SessionId, m: Message)
    requires AliveInv(s) && HubShape.HeldShape(s)
    ensures AliveInv(Begin(env, s, t, sid, m))
  {
    hide Begin, AliveInv, RemoveSubscription, HubShape.HeldShape;
    var s' := Begin(env, s, t, sid, m);
    BeginFrame(env, s, t, sid, m);
    if Removes(s, sid, m) {
      RemovalAlive(s, s', sid, m.frame.channel);
    } else {
      NothingDropped(s, s');
    }
  }

  lemma ReleaseAlive(s: State, sid: SessionId)
    requires AliveInv(s) && HubShape.HeldShape(s)
    ensures AliveInv(ReleaseSession(s, sid))
  {
    var s' := ReleaseSession(s, sid);
    forall x, ch | x in s'.outboxes.open && ch in HeldBy(s', x) ensures HeldBy(s', x)[ch] in s'.broker.receivers {
      var sub := HeldBy(s, x)[ch];
      assert x != sid && HeldBy(s', x) == HeldBy(s, x) && sub in s.broker.receivers;
      assert forall c :: c in HeldBy(s, sid) ==> s.subs.all[HeldBy(s, sid)[c]].sid == sid;
      assert s.subs.all[sub].sid == x;
    }
  }

  lemma OpenAlive(env: Env, s: State)
    requires AliveInv(s)
    ensures AliveInv(OpenSession(env, s))
  {
    var s', newest := OpenSession(env, s), s.sessions.nextId;
    forall sid, ch | sid in s'.outboxes.open && ch in HeldBy(s', sid) ensures HeldBy(s', sid)[ch] in s'.broker.receivers {
      assert sid != newest && HeldBy(s', sid) == HeldBy(s, sid);
    }
  }

  lemma PollAlive(env: Env, s: State, sub: SubId)
    requires AliveInv(s) && Running(s, sub)
    ensures AliveInv(PollReceiver(env, s, sub))
  {
    hide AliveInv;
    assert PollReceiver(env, s, sub).broker.receivers.Keys == s.broker.receivers.Keys;
    NothingDropped(s, PollReceiver(env, s, sub));
  }

  lemma ForwardAlive(s: State, sub: SubId)
    requires AliveInv(s) && HubShape.HeldShape(s) && sub in s.subs.all && s.subs.all[sub].hand.Some?
    ensures AliveInv(ForwardHand(s, sub))
  {
    hide AliveInv, HubShape.HeldShape, OutboxOf;
    var s' := ForwardHand(s, sub);
    if s.subs.all[sub].sid in s.outboxes.open { NothingDropped(s, s'); } else { DropsUnheard(s, s', sub); }
  }

  lemma StepAlive(env: Env, s: State, e: Event)
    requires AliveInv(s) && HubShape.ShapeInv(s)
    ensures AliveInv(Step(env, s, e))
  {
    hide AliveInv, AdvanceTask, Begin, HubShape.SubsShape, HubShape.HeldShape, HubShape.TasksShape, ReleaseSession;
    var s' := Step(env, s, e);
    match e
    case Advance(t, fail) => if t in s.tasks.all { AdvanceAlive(env, s, t, fail); }
    case Receive(t, sid, m) =>
      if t !in s.tasks.all && Reads(s, sid) {
        NothingDropped(s, Ask(s, sid, m));
        AskShape(s, sid, m);
        BeginAlive(env, Ask(s, sid, m), t, sid, m);
      }
    case Open => hide OpenSession; OpenAlive(env, s);
    case Release(sid) => if Unused(s, sid) { ReleaseAlive(s, sid); }
    case PollStream(sub) => if Running(s, sub) && s.subs.all[sub].hand.None? { hide PollReceiver; PollAlive(env, s, sub); }
    case Forward(sub) => if Running(s, sub) && s.subs.all[sub].hand.Some? { hide ForwardHand; ForwardAlive(s, sub); }
    case _ => NothingDropped(s, s');
  }

  lemma {:induction false} RunKeepsAlive(env: Env, events: seq<Event>)
    ensures AliveInv(Run(env, Init, events))
    decreases |events|
  {
    hide Step, HubShape.ShapeInv;
    if events == [] {
      assert Init.held.of == map[];
    } else {
      hide AliveInv;
      RunKeepsAlive(env, events[..|events| - 1]);
      HubShape.RunKeepsShape(env, events[..|events| - 1]);
      StepAlive(env, Run(env, Init, events[..|events| - 1]), events[|events| - 1]);
    }
  }

  /**
   * In every reachable state, whatever a session with an open outbox holds is attached to
   * its channel, with its forwarder running.
   */
  lemma HeldRuns(env: Env, events: seq<Event>, sid: SessionId, ch: Channel)
    requires var s := Run(env, Init, events); sid in s.outboxes.open && ch in HeldBy(s, sid)
    ensures
      var s := Run(env, Init, events);
      var sub := HeldBy(s, sid)[ch];
      && Running(s, sub)
      && s.subs.all[sub].sid == sid && s.subs.all[sub].channel == ch && s.broker.receivers[sub].topic == ch
  {
    RunKeepsAlive(env, events);
    HubShape.RunKeepsShape(env, events);
    hide Run, HubShape.SubShape, HubShape.TasksShape;
  }
}
