/** How handlers, sessions, subscriptions and broker receivers fit together in every reachable state. */
module HubShape {
  import opened Types
  import opened Frames
  import opened Hub
  import Broker
  import HubIndex

  /** The subscription a subscribe handler is setting up or giving up. */
  predicate Uses(k: Task, sub: SubId) {
    match k.stage
    case Reading(u, _) => u == sub
    case Sending(u, _) => u == sub
    case Inserting(u, _) => u == sub
    case Unwinding(_, stream) => stream == Some(sub)
    case _ => false
  }

  ghost predicate SubShape(u: Subscription) {
    && u.replayed <= |u.replay|
    && (u.read.None? ==> u.replay == [])
    && (u.since == 0 ==> u.read.None?)
    && (u.running ==> u.replayed == |u.replay| && (u.since > 0 ==> u.read.Some?))
    && (!u.running ==> u.hand.None? && u.forwarded == [])
  }

  ghost predicate SubsShape(s: State) {
    && Broker.Wf(s.broker)
    && (forall sub: SubId :: sub in s.subs.all <==> sub < s.subs.next)
    && (forall sub :: sub in s.subs.all ==> SubShape(s.subs.all[sub]))
    && (forall sub :: sub in s.broker.receivers ==>
          sub in s.subs.all && s.broker.receivers[sub].topic == s.subs.all[sub].channel)
  }

  /** A held subscription is the session's own, for that channel, with its forwarder started. */
  ghost predicate HeldShape(s: State) {
    forall sid, ch :: sid in s.held.of && ch in s.held.of[sid] ==>
      && s.held.of[sid][ch] in s.subs.all
      && var u := s.subs.all[s.held.of[sid][ch]];
         u.sid == sid && u.channel == ch && u.running
  }

  /** A handler's subscription is its own and not yet running. */
  ghost predicate TaskShape(s: State, k: Task) {
    match k.stage
    case Reading(sub, _) =>
      Owns(s, k, sub) && sub in s.broker.receivers && s.subs.all[sub].since > 0 && s.subs.all[sub].read.None?
    case Sending(sub, _) =>
      Owns(s, k, sub) && sub in s.broker.receivers && s.subs.all[sub].read.Some?
      && s.subs.all[sub].replayed < |s.subs.all[sub].replay|
    case Inserting(sub, _) =>
      Owns(s, k, sub) && sub in s.broker.receivers && s.subs.all[sub].replayed == |s.subs.all[sub].replay|
      && (s.subs.all[sub].since > 0 ==> s.subs.all[sub].read.Some?)
    case Unwinding(_, stream) => stream.Some? ==> Owns(s, k, stream.value)
    case _ => true
  }

  ghost predicate Owns(s: State, k: Task, sub: SubId) {
    && k.message.Frame? && k.message.frame.Subscribe?
    && sub in s.subs.all
    && var u := s.subs.all[sub];
       u.sid == k.sid && u.channel == k.message.frame.channel && u.since == k.message.frame.sinceOffset && !u.running
  }

  ghost predicate TasksShape(s: State) {
    && (forall t :: t in s.tasks.all ==> TaskShape(s, s.tasks.all[t]))
    && Exclusive(s.tasks.all)
  }

  /** No two handlers use the same subscription. */
  ghost predicate Exclusive(tasks: map<TaskId, Task>) {
    forall t, t', sub :: t in tasks && t' in tasks && Uses(tasks[t], sub) && Uses(tasks[t'], sub) ==> t == t'
  }

  /** A handler may move to a stage that uses no more than before, or a subscription nobody uses. */
  lemma PutKeepsExclusive(tasks: map<TaskId, Task>, t: TaskId, k: Task)
    requires Exclusive(tasks)
    requires forall sub, x :: Uses(k, sub) && x in tasks && Uses(tasks[x], sub) ==> x == t
    ensures Exclusive(tasks[t := k])
  {
  }

  ghost predicate ShapeInv(s: State) {
    SubsShape(s) && HeldShape(s) && TasksShape(s)
  }

  // --------------------------------------------------------------------

  /** One task changed to a well-shaped one that uses no other task's subscription. */
  lemma TaskKeepsShape(s: State, s': State, t: TaskId)
    requires ShapeInv(s)
    requires s'.subs == s.subs && s'.broker == s.broker && s'.held == s.held
    requires
      || s'.tasks.all == s.tasks.all - {t}
      || (&& t in s'.tasks.all && s'.tasks.all == s.tasks.all[t := s'.tasks.all[t]]
          && TaskShape(s, s'.tasks.all[t])
          && (forall sub :: Uses(s'.tasks.all[t], sub) ==> t in s.tasks.all && Uses(s.tasks.all[t], sub)))
    ensures ShapeInv(s')
  {
    forall x | x in s'.tasks.all ensures TaskShape(s', s'.tasks.all[x]) {
      assert x != t ==> TaskShape(s, s.tasks.all[x]);
    }
  }

  /** A receiver that no held subscription and no handler but a dead one relies on may be dropped. */
  lemma DropKeepsShape(s: State, sub: SubId, t: TaskId)
    requires ShapeInv(s) && t in s.tasks.all && s.tasks.all[t].stage.Unwinding?
    requires s.tasks.all[t].stage.stream == Some(sub)
    ensures ShapeInv(DropReceiver(s, sub))
  {
    var s' := DropReceiver(s, sub);
    forall x | x in s'.tasks.all ensures TaskShape(s', s'.tasks.all[x]) {
      assert TaskShape(s, s.tasks.all[x]);
      assert x != t ==> !Uses(s.tasks.all[x], sub);
    }
  }

  /** A handler's step on the subscription it is setting up. */
  lemma OwnerKeepsShape(s: State, s': State, t: TaskId, sub: SubId, u: Subscription)
    requires ShapeInv(s) && t in s.tasks.all && Uses(s.tasks.all[t], sub) && Owns(s, s.tasks.all[t], sub)
    requires s'.held == s.held && s'.broker == s.broker
    requires s'.subs == SubTable(s.subs.all[sub := u], s.subs.next)
    requires SubShape(u) && !u.running
    requires u.sid == s.subs.all[sub].sid && u.channel == s.subs.all[sub].channel && u.since == s.subs.all[sub].since
    requires t in s'.tasks.all && s'.tasks.all == s.tasks.all[t := s'.tasks.all[t]]
    requires TaskShape(s', s'.tasks.all[t])
    requires forall x :: Uses(s'.tasks.all[t], x) ==> x == sub
    ensures ShapeInv(s')
  {
    forall x | x in s'.tasks.all ensures TaskShape(s', s'.tasks.all[x]) {
      if x != t {
        assert TaskShape(s, s.tasks.all[x]);
        assert !Uses(s.tasks.all[x], sub);
      }
    }
  }

  /** What attaching changes: a new subscription with its receiver, and the handler's stage. */
  ghost predicate Attaches(s: State, s': State, t: TaskId) {
    && s.subs.next in s'.subs.all
    && s'.subs == SubTable(s.subs.all[s.subs.next := s'.subs.all[s.subs.next]], s.subs.next + 1)
    && SubShape(s'.subs.all[s.subs.next])
    && s'.held == s.held
    && s'.broker == Broker.Attach(s.broker, s.subs.next, s'.subs.all[s.subs.next].channel)
    && t in s'.tasks.all && s'.tasks.all == s.tasks.all[t := s'.tasks.all[t]]
    && TaskShape(s', s'.tasks.all[t])
    && (forall sub: SubId :: Uses(s'.tasks.all[t], sub) ==> sub == s.subs.next)
  }

  lemma AttachKeepsSubs(s: State, s': State, t: TaskId)
    requires SubsShape(s) && Attaches(s, s', t)
    ensures SubsShape(s')
  {
    Broker.AttachWf(s.broker, s.subs.next, s'.subs.all[s.subs.next].channel);
    hide Broker.Wf, Broker.Attach, SubShape, TaskShape;
  }

  lemma AttachKeepsTasks(s: State, s': State, t: TaskId)
    requires SubsShape(s) && TasksShape(s) && Attaches(s, s', t)
    ensures TasksShape(s')
  {
    Broker.AttachWf(s.broker, s.subs.next, s'.subs.all[s.subs.next].channel);
    hide Broker.Wf, Broker.Attach, SubShape;
    forall x | x in s'.tasks.all ensures TaskShape(s', s'.tasks.all[x]) {
      if x != t { assert TaskShape(s, s.tasks.all[x]); }
    }
    NextIsUnused(s);
    hide TaskShape;
    PutKeepsExclusive(s.tasks.all, t, s'.tasks.all[t]);
  }

  lemma NextIsUnused(s: State)
    requires SubsShape(s) && TasksShape(s)
    ensures forall x :: x in s.tasks.all ==> !Uses(s.tasks.all[x], s.subs.next)
  {
    hide Broker.Wf, SubShape, Exclusive;
    forall x | x in s.tasks.all ensures !Uses(s.tasks.all[x], s.subs.next) {
      assert TaskShape(s, s.tasks.all[x]);
    }
  }

  lemma AttachKeepsShape(s: State, t: TaskId, k: Task, claims: Claims, cursor: Cursor, ch: Channel, since: nat)
    requires ShapeInv(s) && t in s.tasks.all && k == s.tasks.all[t] && k.stage.Attaching?
    requires k.message.Frame? && k.message.frame.Subscribe?
    requires ch == k.message.frame.channel && since == k.message.frame.sinceOffset
    ensures ShapeInv(AttachStream(s, t, k, claims, cursor, ch, since))
  {
    var s' := AttachStream(s, t, k, claims, cursor, ch, since);
    assert Attaches(s, s', t);
    AttachKeepsSubs(s, s', t);
    AttachKeepsTasks(s, s', t);
    hide AttachStream, TasksShape, Broker.Wf;
  }

  lemma ReadKeepsShape(env: Env, s: State, t: TaskId, k: Task, sub: SubId, cursor: Cursor, ch: Channel, since: nat)
    requires ShapeInv(s) && t in s.tasks.all && k == s.tasks.all[t] && k.stage == Reading(sub, cursor)
    requires sub in s.subs.all
    ensures ShapeInv(ReadReplay(env, s, t, k, sub, cursor, ch, since))
  {
    var s' := ReadReplay(env, s, t, k, sub, cursor, ch, since);
    assert TaskShape(s, k);
    OwnerKeepsShape(s, s', t, sub, s'.subs.all[sub]);
  }

  lemma SendKeepsShape(s: State, t: TaskId, k: Task, sub: SubId, cursor: Cursor)
    requires ShapeInv(s) && t in s.tasks.all && k == s.tasks.all[t] && k.stage == Sending(sub, cursor)
    requires sub in s.subs.all
    ensures ShapeInv(SendReplay(s, t, k, sub, cursor))
  {
    var s' := SendReplay(s, t, k, sub, cursor);
    assert TaskShape(s, k);
    OwnerKeepsShape(s, s', t, sub, s'.subs.all[sub]);
  }

  /** What inserting changes: the subscription runs, the session holds it, the handler replies. */
  ghost predicate Inserted(s: State, s': State, t: TaskId, k: Task, sub: SubId, ch: Channel)
    requires sub in s.subs.all
  {
    && s'.subs == SubTable(s.subs.all[sub := s.subs.all[sub].(running := true)], s.subs.next)
    && s'.held.of == s.held.of[k.sid := HeldBy(s, k.sid)[ch := sub]]
    && s'.broker == s.broker
    && t in s'.tasks.all && s'.tasks.all == s.tasks.all[t := s'.tasks.all[t]] && s'.tasks.all[t].stage.Replying?
  }

  lemma InsertDoes(s: State, t: TaskId, k: Task, sub: SubId, cursor: Cursor, ch: Channel)
    requires sub in s.subs.all
    ensures Inserted(s, InsertSubscription(s, t, k, sub, cursor, ch), t, k, sub, ch)
  {
    hide Registry.AddTo, RequestId;
  }

  lemma InsertKeepsTasks(s: State, s': State, t: TaskId, k: Task, sub: SubId, ch: Channel)
    requires TasksShape(s) && t in s.tasks.all && k == s.tasks.all[t] && Uses(k, sub) && sub in s.subs.all
    requires Inserted(s, s', t, k, sub, ch)
    ensures TasksShape(s')
  {
    forall x | x in s'.tasks.all ensures TaskShape(s', s'.tasks.all[x]) {
      if x != t {
        assert TaskShape(s, s.tasks.all[x]);
        assert !Uses(s.tasks.all[x], sub);
      }
    }
    hide TaskShape;
    PutKeepsExclusive(s.tasks.all, t, s'.tasks.all[t]);
  }

  lemma InsertKeepsSubs(s: State, s': State, t: TaskId, k: Task, sub: SubId, ch: Channel)
    requires SubsShape(s) && HeldShape(s) && sub in s.subs.all && Inserted(s, s', t, k, sub, ch)
    requires var u := s.subs.all[sub]; u.sid == k.sid && u.channel == ch && u.replayed == |u.replay| && (u.since > 0 ==> u.read.Some?)
    ensures SubsShape(s') && HeldShape(s')
  {
    hide Broker.Wf;
  }

  lemma InsertKeepsShape(s: State, t: TaskId, k: Task, sub: SubId, cursor: Cursor, ch: Channel)
    requires ShapeInv(s) && t in s.tasks.all && k == s.tasks.all[t] && k.stage == Inserting(sub, cursor)
    requires sub in s.subs.all && k.message.frame.channel == ch
    ensures ShapeInv(InsertSubscription(s, t, k, sub, cursor, ch))
  {
    var s' := InsertSubscription(s, t, k, sub, cursor, ch);
    assert TaskShape(s, k);
    InsertDoes(s, t, k, sub, cursor, ch);
    hide InsertSubscription, SubsShape, HeldShape, TasksShape;
    InsertKeepsTasks(s, s', t, k, sub, ch);
    InsertKeepsSubs(s, s', t, k, sub, ch);
  }

  /** Losing the race to insert: the stream is dropped at once. */
  lemma StrayKeepsShape(s: State, t: TaskId, k: Task, sub: SubId, cursor: Cursor, error: HubError)
    requires ShapeInv(s) && t in s.tasks.all && k == s.tasks.all[t] && k.stage == Inserting(sub, cursor)
    ensures ShapeInv(Put(DropReceiver(s, sub), t, k.(stage := Unwinding(error, None))))
  {
    var s' := Put(DropReceiver(s, sub), t, k.(stage := Unwinding(error, None)));
    assert TaskShape(s, k);
    forall x | x in s'.tasks.all ensures TaskShape(s', s'.tasks.all[x]) {
      if x != t {
        assert TaskShape(s, s.tasks.all[x]);
        assert !Uses(s.tasks.all[x], sub);
      }
    }
  }

  lemma UnwindKeepsShape(env: Env, s: State, t: TaskId, k: Task, ch: Channel, error: HubError, stream: Option<SubId>)
    requires ShapeInv(s) && t in s.tasks.all && k == s.tasks.all[t] && k.stage == Unwinding(error, stream)
    ensures ShapeInv(Unwind(env, s, t, k, ch, error, stream))
  {
    var s' := Unwind(env, s, t, k, ch, error, stream);
    if stream.Some? {
      DropKeepsShape(s, stream.value, t);
      TaskKeepsShape(DropReceiver(s, stream.value), s', t);
    } else {
      TaskKeepsShape(s, s', t);
    }
  }

  lemma SubscribeKeepsShape(env: Env, s: State, t: TaskId, k: Task, fail: bool)
    requires ShapeInv(s) && t in s.tasks.all && k == s.tasks.all[t] && SubscribeInFlight(k, k.sid)
    ensures ShapeInv(AdvanceSubscribe(env, s, t, k, fail))
  {
    hide Broker.Wf, Broker.Attach, Broker.Detach, SubsShape, HeldShape;
    var s' := AdvanceSubscribe(env, s, t, k, fail);
    var ch, since := k.message.frame.channel, k.message.frame.sinceOffset;
    assert TaskShape(s, k);
    match k.stage
    case Attaching(claims, cursor) =>
      if fail { TaskKeepsShape(s, s', t); }
      else { hide ShapeInv, AttachStream; AttachKeepsShape(s, t, k, claims, cursor, ch, since); }
    case Reading(sub, cursor) =>
      if fail { TaskKeepsShape(s, s', t); }
      else { hide ShapeInv, ReadReplay; ReadKeepsShape(env, s, t, k, sub, cursor, ch, since); }
    case Sending(sub, cursor) =>
      if k.sid !in s.outboxes.open { TaskKeepsShape(s, s', t); }
      else { hide ShapeInv, SendReplay; SendKeepsShape(s, t, k, sub, cursor); }
    case Inserting(sub, cursor) =>
      if ch in HeldBy(s, k.sid) { hide ShapeInv; StrayKeepsShape(s, t, k, sub, cursor, AlreadySubscribed); }
      else { hide ShapeInv, InsertSubscription; InsertKeepsShape(s, t, k, sub, cursor, ch); }
    case Unwinding(error, stream) => hide ShapeInv, Unwind; UnwindKeepsShape(env, s, t, k, ch, error, stream);
    case _ => TaskKeepsShape(s, s', t);
  }

  lemma FanOutKeepsShape(s: State, t: TaskId, k: Task, ch: Channel, p: Publication)
    requires ShapeInv(s) && t in s.tasks.all
    ensures ShapeInv(FanOut(s, t, k, ch, p))
  {
    Broker.BroadcastWf(s.broker, ch, p);
    var s1 := s.(broker := Broker.Broadcast(s.broker, ch, p));
    assert ShapeInv(s1) by {
      forall x | x in s1.tasks.all ensures TaskShape(s1, s1.tasks.all[x]) { assert TaskShape(s, s.tasks.all[x]); }
    }
    TaskKeepsShape(s1, FanOut(s, t, k, ch, p), t);
  }

  /** A handler that is not a subscribe in flight uses no subscription, and starts using none. */
  lemma OtherMoves(env: Env, s: State, t: TaskId, fail: bool)
    requires t in s.tasks.all && !SubscribeInFlight(s.tasks.all[t], s.tasks.all[t].sid)
    requires
      var k := s.tasks.all[t];
      k.stage.Replying? || !(k.message.Frame? && k.message.frame.Publish? && k.stage.FanningOut? && !fail)
    ensures
      var s' := AdvanceTask(env, s, t, s.tasks.all[t], fail);
      && s'.subs == s.subs && s'.broker == s.broker
      && (t in s'.tasks.all && s'.tasks.all[t] != s.tasks.all[t] ==>
            TaskShape(s, s'.tasks.all[t]) && forall sub :: !Uses(s'.tasks.all[t], sub))
  {
    hide AdvanceSubscribe, CodeFor, RequestId, OutboxOf;
  }

  lemma OtherKeepsShape(env: Env, s: State, t: TaskId, fail: bool)
    requires ShapeInv(s) && t in s.tasks.all && !SubscribeInFlight(s.tasks.all[t], s.tasks.all[t].sid)
    requires
      var k := s.tasks.all[t];
      k.stage.Replying? || !(k.message.Frame? && k.message.frame.Publish? && k.stage.FanningOut? && !fail)
    ensures ShapeInv(AdvanceTask(env, s, t, s.tasks.all[t], fail))
  {
    hide AdvanceTask, SubsShape, HeldShape;
    var s' := AdvanceTask(env, s, t, s.tasks.all[t], fail);
    AdvanceFrame(env, s, t, fail);
    OtherMoves(env, s, t, fail);
    assert TaskShape(s, s.tasks.all[t]);
    hide TaskShape, TasksShape, ShapeInv;
    if t in s'.tasks.all && s'.tasks.all[t] == s.tasks.all[t] {
      assert s'.tasks.all == s.tasks.all;
      assert s.tasks.all[t := s.tasks.all[t]] == s.tasks.all;
    }
    TaskKeepsShape(s, s', t);
  }

  lemma AdvanceKeepsShape(env: Env, s: State, t: TaskId, fail: bool)
    requires ShapeInv(s) && t in s.tasks.all
    ensures ShapeInv(AdvanceTask(env, s, t, s.tasks.all[t], fail))
  {
    hide Broker.Wf, Broker.Broadcast, SubsShape, HeldShape;
    var k := s.tasks.all[t];
    var s' := AdvanceTask(env, s, t, k, fail);
    if SubscribeInFlight(k, k.sid) {
      hide ShapeInv, AdvanceSubscribe;
      SubscribeKeepsShape(env, s, t, k, fail);
    } else if !k.stage.Replying? && k.message.Frame? && k.message.frame.Publish? && k.stage.FanningOut? && !fail {
      hide ShapeInv, FanOut;
      FanOutKeepsShape(s, t, k, k.message.frame.channel, k.stage.publication);
    } else {
      OtherKeepsShape(env, s, t, fail);
    }
  }

  lemma RemoveKeepsShape(s: State, sid: SessionId, ch: Channel)
    requires ShapeInv(s) && sid in s.held.of && ch in HeldBy(s, sid)
    ensures ShapeInv(RemoveSubscription(s, sid, ch))
  {
    var s' := RemoveSubscription(s, sid, ch);
    forall x | x in s'.tasks.all ensures TaskShape(s', s'.tasks.all[x]) {
      assert TaskShape(s, s.tasks.all[x]);
    }
  }

  lemma BeginKeepsShape(env: Env, s: State, t: TaskId, sid: SessionId, m: Message)
    requires ShapeInv(s) && t !in s.tasks.all && sid in s.held.of
    ensures ShapeInv(Begin(env, s, t, sid, m))
  {
    var s' := Begin(env, s, t, sid, m);
    BeginFrame(env, s, t, sid, m);
    hide Begin, ShapeInv;
    if Removes(s, sid, m) {
      RemoveKeepsShape(s, sid, m.frame.channel);
      TaskKeepsShape(RemoveSubscription(s, sid, m.frame.channel), s', t);
    } else {
      TaskKeepsShape(s, s', t);
    }
  }

  lemma ReleaseKeepsShape(s: State, sid: SessionId)
    requires ShapeInv(s) && sid in s.held.of
    ensures ShapeInv(ReleaseSession(s, sid))
  {
    var s' := ReleaseSession(s, sid);
    forall x | x in s'.tasks.all ensures TaskShape(s', s'.tasks.all[x]) {
      assert TaskShape(s, s.tasks.all[x]);
    }
  }

  /** A forwarder's step on its running subscription. */
  lemma RunnerKeepsShape(s: State, s': State, sub: SubId, u: Subscription)
    requires ShapeInv(s) && sub in s.subs.all && s.subs.all[sub].running
    requires s'.tasks == s.tasks && s'.held == s.held
    requires s'.subs == SubTable(s.subs.all[sub := u], s.subs.next)
    requires u.running && SubShape(u)
    requires u.sid == s.subs.all[sub].sid && u.channel == s.subs.all[sub].channel
    requires Broker.Wf(s'.broker)
    requires forall x :: x in s'.broker.receivers ==>
      x in s.broker.receivers && s'.broker.receivers[x].topic == s.broker.receivers[x].topic
    requires forall x :: x in s.broker.receivers && x != sub ==> x in s'.broker.receivers
    ensures ShapeInv(s')
  {
    hide Broker.Wf, Exclusive;
    forall x | x in s'.tasks.all ensures TaskShape(s', s'.tasks.all[x]) {
      assert TaskShape(s, s.tasks.all[x]);
      assert !Uses(s.tasks.all[x], sub);
    }
  }

  lemma PollKeepsShape(env: Env, s: State, sub: SubId)
    requires ShapeInv(s) && Running(s, sub)
    ensures ShapeInv(PollReceiver(env, s, sub))
  {
    var s' := PollReceiver(env, s, sub);
    Broker.PollWf(env.capacity, s.broker, sub);
    PollFrame(env, s, sub);
    hide PollReceiver, Broker.Poll, Broker.Wf;
    assert SubShape(s.subs.all[sub]);
    RunnerKeepsShape(s, s', sub, s'.subs.all[sub]);
  }

  /** What a poll changes: the broker's receiver, and what the subscription was handed. */
  lemma PollFrame(env: Env, s: State, sub: SubId)
    requires Running(s, sub)
    ensures
      var s', u := PollReceiver(env, s, sub), s.subs.all[sub];
      && s'.tasks == s.tasks && s'.held == s.held && s'.broker == Broker.Poll(env.capacity, s.broker, sub)
      && sub in s'.subs.all && s'.subs == SubTable(s.subs.all[sub := s'.subs.all[sub]], s.subs.next)
      && s'.subs.all[sub] == u.(hand := s'.subs.all[sub].hand, picks := s'.subs.all[sub].picks, skipped := s'.subs.all[sub].skipped)
  {
    hide Broker.Poll, Broker.Peek;
    assert s.subs.all[sub := s.subs.all[sub]] == s.subs.all;
  }

  lemma ForwardKeepsShape(s: State, sub: SubId)
    requires ShapeInv(s) && Running(s, sub) && s.subs.all[sub].hand.Some?
    ensures ShapeInv(ForwardHand(s, sub))
  {
    var s' := ForwardHand(s, sub);
    RunnerKeepsShape(s, s', sub, s'.subs.all[sub]);
  }

  lemma IdleKeepsShape(s: State, s': State)
    requires ShapeInv(s)
    requires s'.subs == s.subs && s'.broker == s.broker && s'.tasks == s.tasks
    requires forall sid :: sid in s'.held.of ==>
      s'.held.of[sid] == map[] || (sid in s.held.of && s'.held.of[sid] == s.held.of[sid])
    ensures ShapeInv(s')
  {
    forall x | x in s'.tasks.all ensures TaskShape(s', s'.tasks.all[x]) {
      assert TaskShape(s, s.tasks.all[x]);
    }
  }

  lemma StepKeepsShape(env: Env, s: State, e: Event)
    requires ShapeInv(s) && HubIndex.IdsInv(s)
    ensures ShapeInv(Step(env, s, e))
  {
    hide ShapeInv;
    match e
    case Release(sid) => if Unused(s, sid) { ReleaseKeepsShape(s, sid); }
    case Receive(t, sid, m) =>
      if t !in s.tasks.all && Reads(s, sid) {
        IdleKeepsShape(s, Ask(s, sid, m));
        hide Begin;
        BeginKeepsShape(env, Ask(s, sid, m), t, sid, m);
      }
    case Advance(t, fail) => if t in s.tasks.all { hide AdvanceTask; AdvanceKeepsShape(env, s, t, fail); }
    case PollStream(sub) => if Running(s, sub) { PollKeepsShape(env, s, sub); }
    case Forward(sub) => if Running(s, sub) && s.subs.all[sub].hand.Some? { ForwardKeepsShape(s, sub); }
    case _ =>
      hide AdvanceTask, Begin, ReleaseSession;
      IdleKeepsShape(s, Step(env, s, e));
  }

  lemma InitShape()
    ensures ShapeInv(Init)
  {
    assert Init.held.of == map[] && Init.tasks.all == map[] && Init.subs == SubTable(map[], 0);
    assert Init.broker == Broker.BrokerState(map[], map[]);
  }

  lemma {:induction false} RunKeepsShape(env: Env, events: seq<Event>)
    ensures ShapeInv(Run(env, Init, events)) && HubIndex.IndexInv(Run(env, Init, events))
    decreases |events|
  {
    hide ShapeInv, Step;
    HubIndex.InitIndex();
    HubIndex.RunKeepsIndex(env, Init, events);
    if events == [] {
      InitShape();
    } else {
      RunKeepsShape(env, events[..|events| - 1]);
      StepKeepsShape(env, Run(env, Init, events[..|events| - 1]), events[|events| - 1]);
    }
  }
}
