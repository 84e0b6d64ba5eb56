/** The channel kind's subscribe and unsubscribe hooks stay in balance over every run. */
module HubBalance {
  import opened Types
  import opened Frames
  import opened Hub
  import Broker
  import HubIndex
  import Registry

  /** The handler has entered `ch` (or is leaving it) and owes one `on_unsubscribe`. */
  predicate Inside(k: Task, ch: Channel) {
    && k.message.Frame?
    && (|| (&& k.message.frame.Subscribe?
            && k.message.frame.channel == ch
            && (k.stage.Attaching? || k.stage.Reading? || k.stage.Sending? || k.stage.Inserting? || k.stage.Unwinding?))
        || (k.message.frame.Unsubscribe? && k.message.frame.channel == ch && k.stage.Leaving?))
  }

  function InFlight(tasks: map<TaskId, Task>, ch: Channel): set<TaskId> {
    set t | t in tasks && Inside(tasks[t], ch)
  }

  function Holders(held: map<SessionId, map<Channel, SubId>>, ch: Channel): set<SessionId> {
    set sid | sid in held && ch in held[sid]
  }

  /** On one channel: calls to enter are matched by leaves, handlers in flight, holders and abandoned holders. */
  ghost predicate Balanced(s: State, ch: Channel) {
    Get(s.hooks.entered, ch, 0)
    == Get(s.hooks.left, ch, 0) + |InFlight(s.tasks.all, ch)| + |Holders(s.held.of, ch)|
       + Get(s.hooks.abandoned, ch, 0)
  }

  function One(b: bool): nat { if b then 1 else 0 }

  lemma InFlightPut(tasks: map<TaskId, Task>, t: TaskId, k: Task, ch: Channel)
    ensures |InFlight(tasks[t := k], ch)|
         == |InFlight(tasks, ch)| - One(t in tasks && Inside(tasks[t], ch)) + One(Inside(k, ch))
  {
    var others := InFlight(tasks, ch) - {t};
    assert InFlight(tasks[t := k], ch) == if Inside(k, ch) then others + {t} else others;
    assert InFlight(tasks, ch) == if t in tasks && Inside(tasks[t], ch) then others + {t} else others;
  }

  lemma InFlightDrop(tasks: map<TaskId, Task>, t: TaskId, ch: Channel)
    ensures |InFlight(tasks - {t}, ch)| == |InFlight(tasks, ch)| - One(t in tasks && Inside(tasks[t], ch))
  {
    var others := InFlight(tasks, ch) - {t};
    assert InFlight(tasks - {t}, ch) == others;
    assert InFlight(tasks, ch) == if t in tasks && Inside(tasks[t], ch) then others + {t} else others;
  }

  lemma HoldersPut(held: map<SessionId, map<Channel, SubId>>, sid: SessionId, mine: map<Channel, SubId>, ch: Channel)
    ensures |Holders(held[sid := mine], ch)|
         == |Holders(held, ch)| - One(sid in held && ch in held[sid]) + One(ch in mine)
  {
    var others := Holders(held, ch) - {sid};
    assert Holders(held[sid := mine], ch) == if ch in mine then others + {sid} else others;
    assert Holders(held, ch) == if sid in held && ch in held[sid] then others + {sid} else others;
  }

  /** A step that rewrites or ends task `t`; what it does to the hooks and holders must add up. */
  lemma TaskStepBalances(s: State, s': State, t: TaskId, ch: Channel)
    requires Balanced(s, ch)
    requires OnlyTask(s, s', t)
    requires s'.hooks.abandoned == s.hooks.abandoned
    requires
      Get(s'.hooks.entered, ch, 0)
        + Get(s.hooks.left, ch, 0) + One(Inside(s.tasks.all[t], ch)) + |Holders(s.held.of, ch)|
      == Get(s.hooks.entered, ch, 0)
        + Get(s'.hooks.left, ch, 0) + One(t in s'.tasks.all && Inside(s'.tasks.all[t], ch)) + |Holders(s'.held.of, ch)|
    ensures Balanced(s', ch)
  {
    if t in s'.tasks.all {
      InFlightPut(s.tasks.all, t, s'.tasks.all[t], ch);
      assert s.tasks.all == s.tasks.all[t := s.tasks.all[t]];
    } else {
      InFlightDrop(s.tasks.all, t, ch);
    }
  }

  /** The hooks called in the step make up for whether the handler is between them before and after. */
  predicate MovesHooks(s: State, s': State, t: TaskId, ch: Channel, inserted: bool)
    requires t in s.tasks.all
  {
    && s'.hooks.abandoned == s.hooks.abandoned
    && Get(s'.hooks.entered, ch, 0) + Get(s.hooks.left, ch, 0) + One(Inside(s.tasks.all[t], ch))
       == Get(s.hooks.entered, ch, 0) + Get(s'.hooks.left, ch, 0)
          + One(t in s'.tasks.all && Inside(s'.tasks.all[t], ch)) + One(inserted)
  }

  lemma FailMovesHooks(env: Env, s: State, s1: State, t: TaskId, e: HubError, ch: Channel)
    requires t in s.tasks.all && s1.hooks.abandoned == s.hooks.abandoned && s1.hooks.entered == s.hooks.entered
    requires Get(s1.hooks.left, ch, 0) == Get(s.hooks.left, ch, 0) + One(Inside(s.tasks.all[t], ch))
    ensures MovesHooks(s, Fail(env, s1, t, s.tasks.all[t].sid, s.tasks.all[t].message, e), t, ch, false)
  {
    hide CodeFor, RequestId;
  }

  lemma ReadMovesHooks(env: Env, s: State, t: TaskId, sub: SubId, cursor: Cursor, c: Channel, since: nat, ch: Channel)
    requires t in s.tasks.all && sub in s.subs.all && s.tasks.all[t].stage.Reading?
    ensures MovesHooks(s, ReadReplay(env, s, t, s.tasks.all[t], sub, cursor, c, since), t, ch, false)
  {
  }

  lemma SendMovesHooks(s: State, t: TaskId, sub: SubId, cursor: Cursor, ch: Channel)
    requires t in s.tasks.all && sub in s.subs.all && s.tasks.all[t].stage.Sending?
    ensures MovesHooks(s, SendReplay(s, t, s.tasks.all[t], sub, cursor), t, ch, false)
  {
    hide OutboxOf;
  }

  lemma InsertMovesHooks(s: State, t: TaskId, sub: SubId, cursor: Cursor, ch: Channel)
    requires t in s.tasks.all && sub in s.subs.all && s.tasks.all[t].stage.Inserting? && SubscribeInFlight(s.tasks.all[t], s.tasks.all[t].sid)
    ensures
      var c := s.tasks.all[t].message.frame.channel;
      MovesHooks(s, InsertSubscription(s, t, s.tasks.all[t], sub, cursor, c), t, ch, c == ch)
  {
    hide Registry.AddTo, RequestId;
  }

  lemma SubscribeMovesHooks(env: Env, s: State, t: TaskId, fail: bool, ch: Channel)
    requires t in s.tasks.all && SubscribeInFlight(s.tasks.all[t], s.tasks.all[t].sid)
    ensures
      var k := s.tasks.all[t];
      MovesHooks(s, AdvanceSubscribe(env, s, t, k, fail), t, ch, Inserts(s, k) && k.message.frame.channel == ch)
  {
    hide Fail, Broker.Attach, Broker.Detach, ReadReplay, SendReplay, InsertSubscription, CursorOf;
    var k := s.tasks.all[t];
    var c, since := k.message.frame.channel, k.message.frame.sinceOffset;
    match k.stage
    case Gate(_) =>
      FailMovesHooks(env, s, s, t, Denied, ch);
      FailMovesHooks(env, s, s, t, AlreadySubscribed, ch);
    case Entering(_) => FailMovesHooks(env, s, s, t, BadChannel, ch);
    case Attaching(_, _) =>
    case Reading(sub, cursor) => if sub in s.subs.all { ReadMovesHooks(env, s, t, sub, cursor, c, since, ch); }
    case Sending(sub, cursor) => if sub in s.subs.all { SendMovesHooks(s, t, sub, cursor, ch); }
    case Inserting(sub, cursor) => if Inserts(s, k) { InsertMovesHooks(s, t, sub, cursor, ch); }
    case Unwinding(error, stream) =>
      var s1 := if stream.Some? then DropReceiver(s, stream.value) else s;
      FailMovesHooks(env, s, s1.(hooks := s.hooks.(left := Bump(s.hooks.left, c))), t, error, ch);
    case _ =>
  }

  lemma SubscribeBalances(env: Env, s: State, t: TaskId, fail: bool, ch: Channel)
    requires t in s.tasks.all && SubscribeInFlight(s.tasks.all[t], s.tasks.all[t].sid) && Balanced(s, ch)
    ensures Balanced(AdvanceSubscribe(env, s, t, s.tasks.all[t], fail), ch)
  {
    var k := s.tasks.all[t];
    var s' := AdvanceSubscribe(env, s, t, k, fail);
    SubscribeFrame(env, s, t, fail);
    SubscribeMovesHooks(env, s, t, fail, ch);
    if Inserts(s, k) {
      assert s' == InsertSubscription(s, t, k, k.stage.sub, k.stage.cursor, k.message.frame.channel);
      HoldersPut(s.held.of, k.sid, HeldBy(s, k.sid)[k.message.frame.channel := k.stage.sub], ch);
      TaskStepBalances(s, s', t, ch);
    } else {
      hide AdvanceSubscribe;
      TaskStepBalances(s, s', t, ch);
    }
  }

  lemma AdvanceBalances(env: Env, s: State, t: TaskId, fail: bool, ch: Channel)
    requires t in s.tasks.all && Balanced(s, ch)
    ensures Balanced(AdvanceTask(env, s, t, s.tasks.all[t], fail), ch)
  {
    var k := s.tasks.all[t];
    var s' := AdvanceTask(env, s, t, k, fail);
    if SubscribeInFlight(k, k.sid) {
      hide AdvanceSubscribe, Balanced;
      SubscribeBalances(env, s, t, fail, ch);
    } else {
      hide AdvanceTask;
      AdvanceFrame(env, s, t, fail);
      OtherMovesHooks(env, s, t, fail, ch);
      TaskStepBalances(s, s', t, ch);
    }
  }

  /** Of the other handlers only an unsubscribe calls a hook, and it leaves when it does. */
  lemma OtherMovesHooks(env: Env, s: State, t: TaskId, fail: bool, ch: Channel)
    requires t in s.tasks.all && !SubscribeInFlight(s.tasks.all[t], s.tasks.all[t].sid)
    ensures MovesHooks(s, AdvanceTask(env, s, t, s.tasks.all[t], fail), t, ch, false)
  {
    hide AdvanceSubscribe, CodeFor, RequestId, OutboxOf, Broker.Broadcast;
  }

  lemma BeginBalances(env: Env, s: State, t: TaskId, sid: SessionId, m: Message, ch: Channel)
    requires t !in s.tasks.all && Balanced(s, ch)
    ensures Balanced(Begin(env, s, t, sid, m), ch)
  {
    var s' := Begin(env, s, t, sid, m);
    BeginFrame(env, s, t, sid, m);
    hide Begin;
    InFlightPut(s.tasks.all, t, s'.tasks.all[t], ch);
    if Removes(s, sid, m) {
      HoldersPut(s.held.of, sid, HeldBy(s, sid) - {m.frame.channel}, ch);
    }
  }

  lemma RunnerQuiet(env: Env, s: State, sub: SubId)
    requires Running(s, sub)
    ensures var s' := PollReceiver(env, s, sub); s'.tasks == s.tasks && s'.hooks == s.hooks && s'.held == s.held
    ensures s.subs.all[sub].hand.Some? ==>
              var s' := ForwardHand(s, sub);
              s'.tasks == s.tasks && s'.hooks == s.hooks && s'.held == s.held
  {
    hide Broker.Poll, Broker.Peek, OutboxOf;
  }

  lemma StepBalances(env: Env, s: State, e: Event, ch: Channel)
    requires Balanced(s, ch) && s.sessions.nextId !in s.held.of
    ensures Balanced(Step(env, s, e), ch)
  {
    hide AdvanceTask, Begin, PollReceiver, ForwardHand;
    match e
    case Open => HoldersPut(s.held.of, s.sessions.nextId, map[], ch);
    case Release(sid) => if Unused(s, sid) { HoldersPut(s.held.of, sid, map[], ch); }
    case PollStream(sub) => if Running(s, sub) { RunnerQuiet(env, s, sub); }
    case Forward(sub) => if Running(s, sub) && s.subs.all[sub].hand.Some? { RunnerQuiet(env, s, sub); }
    case Receive(t, sid, m) =>
      if t !in s.tasks.all && Reads(s, sid) { BeginBalances(env, Ask(s, sid, m), t, sid, m, ch); }
    case Advance(t, fail) => if t in s.tasks.all { AdvanceBalances(env, s, t, fail, ch); }
    case _ =>
  }

  lemma {:induction false} RunBalances(env: Env, events: seq<Event>, ch: Channel)
    ensures Balanced(Run(env, Init, events), ch)
    decreases |events|
  {
    if events == [] {
      assert Init.held.of == map[] && Init.tasks.all == map[];
      assert Init.hooks == HookAudit(map[], map[], map[]);
      assert InFlight(Init.tasks.all, ch) == {} && Holders(Init.held.of, ch) == {};
    } else {
      hide Balanced, Step, HubIndex.IndexInv;
      var init := events[..|events| - 1];
      RunBalances(env, init, ch);
      HubIndex.InitIndex();
      HubIndex.RunKeepsIndex(env, Init, init);
      HubIndex.NextIdIsFresh(Run(env, Init, init));
      StepBalances(env, Run(env, Init, init), events[|events| - 1], ch);
    }
  }

  /**
   * In every reachable state and for every channel, successful `on_subscribe` calls
   * minus `on_unsubscribe` calls is the number of handlers between the two plus the
   * sessions holding the channel plus the holders dropped with their session. So
   * when no handler is between them, every failed subscribe has netted zero.
   */
  lemma HooksBalance(env: Env, events: seq<Event>, ch: Channel)
    ensures
      var s := Run(env, Init, events);
      && Balanced(s, ch)
      && ((forall t :: t in s.tasks.all ==> !Inside(s.tasks.all[t], ch)) ==>
            Get(s.hooks.entered, ch, 0)
            == Get(s.hooks.left, ch, 0) + |Holders(s.held.of, ch)| + Get(s.hooks.abandoned, ch, 0))
  {
    RunBalances(env, events, ch);
    var s := Run(env, Init, events);
    if forall t :: t in s.tasks.all ==> !Inside(s.tasks.all[t], ch) {
      assert InFlight(s.tasks.all, ch) == {};
    }
  }
}
