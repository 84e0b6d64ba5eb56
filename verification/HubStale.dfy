/** Index entries of sessions that are gone: exactly when a close or kick can leave one behind. */
module HubStale {
  import opened Types
  import opened Frames
  import opened Registry
  import opened Hub
  import Broker
  import History
  import HubIndex
  import HubShape

  /**
   * A subscribe in flight that, if nothing it depends on fails, can go on to insert its
   * subscription. One that is replaying needs the session's outbox to be open.
   */
  predicate CanInsert(env: Env, s: State, k: Task) {
    && SubscribeInFlight(k, k.sid)
    && k.message.frame.channel !in HeldBy(s, k.sid)
    && match k.stage
       case Gate(claims) => k.message.frame.channel != [] && env.allows(claims, Subscribing, k.message.frame.channel)
       case Entering(_) => k.message.frame.channel != []
       case Attaching(_, _) => true
       case Reading(_, _) => true
       case Sending(_, _) => k.sid in s.outboxes.open
       case Inserting(_, _) => true
       case _ => false
  }

  predicate CanInsertFor(env: Env, s: State, sid: SessionId) {
    exists t :: t in s.tasks.all && s.tasks.all[t].sid == sid && CanInsert(env, s, s.tasks.all[t])
  }

  // --------------------------------------------------------------------
  // Nothing can insert: no entry is ever left
  // --------------------------------------------------------------------

  /** The session is gone, left no entry, and no handler of it can add one. */
  ghost predicate Sealed(env: Env, s: State, sid: SessionId) {
    && sid < s.sessions.nextId
    && sid !in s.sessions.registered
    && (forall ch :: (sid, ch) !in s.stale.late)
    && (forall t :: t in s.tasks.all && s.tasks.all[t].sid == sid ==> !CanInsert(env, s, s.tasks.all[t]))
  }

  /** A handler that cannot insert does not, and still cannot after its step. */
  lemma CannotStays(env: Env, s: State, t: TaskId, fail: bool)
    requires t in s.tasks.all && SubscribeInFlight(s.tasks.all[t], s.tasks.all[t].sid)
    requires !CanInsert(env, s, s.tasks.all[t])
    ensures !Inserts(s, s.tasks.all[t])
    ensures
      var s' := AdvanceSubscribe(env, s, t, s.tasks.all[t], fail);
      t in s'.tasks.all ==> !CanInsert(env, s', s'.tasks.all[t])
  {
    hide Broker.Attach, Broker.Detach, Registry.AddTo, CodeFor, RequestId, CursorOf, OutboxOf, ReadReplay, SendReplay;
    hide AttachStream;
    var k := s.tasks.all[t];
    if k.stage.Attaching? || k.stage.Reading? || (k.stage.Sending? && k.sid in s.outboxes.open) || k.stage.Inserting? {
      assert k.message.frame.channel in HeldBy(s, k.sid);
      SubscribeFrame(env, s, t, fail);
    }
  }

  lemma AdvanceKeepsSealed(env: Env, s: State, t: TaskId, fail: bool, sid: SessionId)
    requires Sealed(env, s, sid) && t in s.tasks.all
    ensures Sealed(env, AdvanceTask(env, s, t, s.tasks.all[t], fail), sid)
  {
    var k := s.tasks.all[t];
    var s' := AdvanceTask(env, s, t, k, fail);
    hide AdvanceSubscribe;
    if Inserts(s, k) {
      assert k.sid != sid by { assert CanInsert(env, s, k); }
      InsertSealed(env, s, t, fail, sid);
    } else {
      if !SubscribeInFlight(k, k.sid) {
        OwnStep(env, s, t, fail);
      } else if k.sid == sid {
        CannotStays(env, s, t, fail);
      }
      AdvanceFrame(env, s, t, fail);
      hide AdvanceTask;
    }
  }

  lemma InsertSealed(env: Env, s: State, t: TaskId, fail: bool, sid: SessionId)
    requires Sealed(env, s, sid) && t in s.tasks.all && Inserts(s, s.tasks.all[t]) && s.tasks.all[t].sid != sid
    ensures Sealed(env, AdvanceTask(env, s, t, s.tasks.all[t], fail), sid)
  {
    var k := s.tasks.all[t];
    var s' := InsertSubscription(s, t, k, k.stage.sub, k.stage.cursor, k.message.frame.channel);
    assert AdvanceTask(env, s, t, k, fail) == s';
    assert HeldBy(s', sid) == HeldBy(s, sid);
  }

  /** A handler that is not a subscribe in flight does not become one. */
  lemma OwnStep(env: Env, s: State, t: TaskId, fail: bool)
    requires t in s.tasks.all && !SubscribeInFlight(s.tasks.all[t], s.tasks.all[t].sid)
    ensures
      var s' := AdvanceTask(env, s, t, s.tasks.all[t], fail);
      t in s'.tasks.all ==> !SubscribeInFlight(s'.tasks.all[t], s'.tasks.all[t].sid)
  {
    hide AdvanceSubscribe;
  }

  lemma BeginKeepsSealed(env: Env, s: State, t: TaskId, who: SessionId, m: Message, sid: SessionId)
    requires Sealed(env, s, sid) && t !in s.tasks.all
    ensures Sealed(env, Begin(env, s, t, who, m), sid)
  {
    var s' := Begin(env, s, t, who, m);
    BeginFrame(env, s, t, who, m);
    if who == sid { assert s'.tasks.all[t].stage.Replying?; }
    hide Begin;
    assert who != sid ==> HeldBy(s', sid) == HeldBy(s, sid);
  }

  lemma StepKeepsSealed(env: Env, s: State, e: Event, sid: SessionId)
    requires Sealed(env, s, sid)
    ensures Sealed(env, Step(env, s, e), sid)
  {
    hide Begin, AdvanceTask;
    var s' := Step(env, s, e);
    match e
    case Receive(t, who, m) =>
      if t !in s.tasks.all && Reads(s, who) { BeginKeepsSealed(env, Ask(s, who, m), t, who, m, sid); }
    case Advance(t, fail) => if t in s.tasks.all { AdvanceKeepsSealed(env, s, t, fail, sid); }
    case Release(who) =>
      if Unused(s, who) && who == sid {
        assert forall t :: t in s'.tasks.all ==> s'.tasks.all[t].sid != sid;
      } else {
        assert HeldBy(s', sid) == HeldBy(s, sid);
      }
    case _ => assert HeldBy(s', sid) == HeldBy(s, sid);
  }

  lemma {:induction false} RunKeepsSealed(env: Env, s: State, events: seq<Event>, sid: SessionId)
    requires Sealed(env, s, sid)
    ensures Sealed(env, Run(env, s, events), sid)
    decreases |events|
  {
    hide Step, Sealed;
    if events != [] {
      RunKeepsSealed(env, s, events[..|events| - 1], sid);
      StepKeepsSealed(env, Run(env, s, events[..|events| - 1]), events[|events| - 1], sid);
    }
  }

  lemma CloseSeals(env: Env, s: State, sid: SessionId)
    requires HubIndex.IndexInv(s) && sid in s.sessions.registered && !CanInsertFor(env, s, sid)
    ensures Sealed(env, DeregisterSession(s, sid), sid)
  {
    var s' := DeregisterSession(s, sid);
    assert HeldBy(s', sid) == HeldBy(s, sid);
    forall ch ensures (sid, ch) !in s'.stale.late {
      assert (sid, ch) in s.stale.late ==> sid in s.stale.orphans;
    }
  }

  lemma SealedIsUnlisted(env: Env, s: State, sid: SessionId, ch: Channel)
    requires HubIndex.IndexInv(s) && Sealed(env, s, sid)
    ensures Listed(s.sessions.index, ch, sid) == 0
  {
  }

  /**
   * A session closed or kicked while none of its subscribes can still insert leaves no
   * trace: from then on, in every continuation, its id is not registered and no
   * channel lists it.
   */
  lemma CloseLeavesNoTrace(env: Env, before: seq<Event>, sid: SessionId, after: seq<Event>, ch: Channel)
    requires sid in Run(env, Init, before).sessions.registered
    requires !CanInsertFor(env, Run(env, Init, before), sid)
    ensures
      var s := Run(env, Run(env, Init, before + [Deregister(sid)]), after);
      sid !in s.sessions.registered && Listed(s.sessions.index, ch, sid) == 0
  {
    var s0 := Run(env, Init, before);
    HubIndex.InitIndex();
    HubIndex.RunKeepsIndex(env, Init, before);
    RunSnoc(env, Init, before, Deregister(sid));
    CloseSeals(env, s0, sid);
    var s1 := Step(env, s0, Deregister(sid));
    assert s1 == DeregisterSession(s0, sid);
    hide Step, DeregisterSession, HubIndex.IndexInv;
    HubIndex.StepKeepsIndex(env, s0, Deregister(sid));
    HubIndex.RunKeepsIndex(env, s1, after);
    RunKeepsSealed(env, s1, after, sid);
    SealedIsUnlisted(env, Run(env, s1, after), sid, ch);
  }

  // --------------------------------------------------------------------
  // Something can insert: some continuation leaves an entry, for good
  // --------------------------------------------------------------------

  lemma StepKeepsLate(env: Env, s: State, e: Event, sid: SessionId, ch: Channel)
    requires (sid, ch) in s.stale.late
    ensures (sid, ch) in Step(env, s, e).stale.late
  {
    hide Begin, AdvanceTask;
    match e
    case Receive(t, who, m) =>
      if t !in s.tasks.all && Reads(s, who) { BeginFrame(env, Ask(s, who, m), t, who, m); }
    case Advance(t, fail) => if t in s.tasks.all { AdvanceKeepsLate(env, s, t, fail, sid, ch); }
    case _ =>
  }

  lemma AdvanceKeepsLate(env: Env, s: State, t: TaskId, fail: bool, sid: SessionId, ch: Channel)
    requires (sid, ch) in s.stale.late && t in s.tasks.all
    ensures (sid, ch) in AdvanceTask(env, s, t, s.tasks.all[t], fail).stale.late
  {
    var k := s.tasks.all[t];
    if Inserts(s, k) {
      assert AdvanceTask(env, s, t, k, fail)
          == InsertSubscription(s, t, k, k.stage.sub, k.stage.cursor, k.message.frame.channel);
      hide AdvanceTask;
    } else {
      AdvanceFrame(env, s, t, fail);
      hide AdvanceTask;
    }
  }

  lemma {:induction false} RunKeepsLate(env: Env, s: State, events: seq<Event>, sid: SessionId, ch: Channel)
    requires (sid, ch) in s.stale.late
    ensures (sid, ch) in Run(env, s, events).stale.late
    decreases |events|
  {
    hide Step;
    if events != [] {
      RunKeepsLate(env, s, events[..|events| - 1], sid, ch);
      StepKeepsLate(env, Run(env, s, events[..|events| - 1]), events[|events| - 1], sid, ch);
    }
  }

  lemma LateIffListed(s: State, sid: SessionId, ch: Channel)
    requires HubIndex.IndexInv(s)
    ensures (sid, ch) in s.stale.late <==> sid !in s.sessions.registered && Listed(s.sessions.index, ch, sid) > 0
  {
  }

  /** An entry of a session that is gone stays in every continuation. */
  lemma StaleEntryStays(env: Env, before: seq<Event>, after: seq<Event>, sid: SessionId, ch: Channel)
    requires
      var s := Run(env, Init, before);
      sid !in s.sessions.registered && Listed(s.sessions.index, ch, sid) > 0
    ensures
      var s := Run(env, Run(env, Init, before), after);
      sid !in s.sessions.registered && Listed(s.sessions.index, ch, sid) == 1
  {
    hide Step, HubIndex.IndexInv;
    var s := Run(env, Init, before);
    HubIndex.InitIndex();
    HubIndex.RunKeepsIndex(env, Init, before);
    HubIndex.RunKeepsIndex(env, s, after);
    LateIffListed(s, sid, ch);
    RunKeepsLate(env, s, after, sid, ch);
    LateIffListed(Run(env, s, after), sid, ch);
    RunAppend(env, Init, before, after);
    HubIndex.IndexAgrees(env, before + after, sid, ch);
  }

  type BoundsOf = Channel -> History.Bounds

  /** Task `t` of a session that is gone is on its way to insert. */
  ghost predicate OnItsWay(env: Env, s: State, t: TaskId, sid: SessionId, ch: Channel) {
    && HubShape.ShapeInv(s) && HubIndex.IdsInv(s)
    && t in s.tasks.all && s.tasks.all[t].sid == sid && CanInsert(env, s, s.tasks.all[t])
    && s.tasks.all[t].message.frame.channel == ch
    && sid !in s.sessions.registered
  }

  /** A replay, if any, can be sent, or the history to replay grows old. */
  ghost predicate Unhindered(env: Env, bounds: BoundsOf, s: State, k: Task)
    requires SubscribeInFlight(k, k.sid)
  {
    k.sid in s.outboxes.open || k.message.frame.sinceOffset == 0 || IsPubSub(env.kind, bounds)
  }

  /** A replay read now would be empty. */
  predicate ReadsNothing(env: Env, s: State, ch: Channel, since: nat) {
    ch !in s.channels.of || env.kind.since(ch, env.kind.expire(ch, s.channels.of[ch], s.now), since) == []
  }

  /** With the outbox closed the handler reads its replay only once that is empty. */
  function Next(env: Env, s: State, t: TaskId): Event
    requires t in s.tasks.all && SubscribeInFlight(s.tasks.all[t], s.tasks.all[t].sid)
  {
    var k := s.tasks.all[t];
    if k.stage.Reading? && k.sid !in s.outboxes.open
       && !ReadsNothing(env, s, k.message.frame.channel, k.message.frame.sinceOffset)
    then Tick else Advance(t, false)
  }

  function Rank(stage: Stage): nat {
    match stage
    case Gate(_) => 6
    case Entering(_) => 5
    case Attaching(_, _) => 4
    case Reading(_, _) => 3
    case Sending(_, _) => 2
    case _ => 1
  }

  /** The time of the youngest entry. */
  function Latest(entries: seq<History.Entry>): nat {
    if entries == [] then 0
    else if entries[0].at > Latest(entries[1..]) then entries[0].at else Latest(entries[1..])
  }

  /** Ticks until the channel's history is too old. */
  function Wait(bounds: BoundsOf, s: State, ch: Channel): nat {
    if ch !in s.channels.of then 0
    else
      var end := Latest(s.channels.of[ch].entries) + bounds(ch).ttl + 1;
      if s.now < end then end - s.now else 0
  }

  lemma {:induction false} RetainedIsRecent(entries: seq<History.Entry>, now: nat, ttl: nat)
    requires History.Evict(entries, now, ttl) != []
    ensures now <= Latest(entries) + ttl
  {
    if History.Age(now, entries[0].at) > ttl { RetainedIsRecent(entries[1..], now, ttl); }
  }

  lemma OldReadsNothing(env: Env, bounds: BoundsOf, s: State, ch: Channel, since: nat)
    requires IsPubSub(env.kind, bounds) && !ReadsNothing(env, s, ch, since)
    ensures Wait(bounds, s, ch) > 0
  {
    var cs := s.channels.of[ch];
    var kept := History.Evict(cs.entries, s.now, bounds(ch).ttl);
    assert env.kind.expire(ch, cs, s.now) == History.Expire(bounds(ch), cs, s.now);
    assert env.kind.since(ch, cs.(entries := kept), since) == History.Since(ch, kept, since);
    RetainedIsRecent(cs.entries, s.now, bounds(ch).ttl);
  }

  /** Publications still to be replayed, or ticks to wait before reading them. */
  function Left(bounds: BoundsOf, s: State, k: Task): nat
    requires SubscribeInFlight(k, k.sid)
  {
    match k.stage
    case Reading(_, _) => Wait(bounds, s, k.message.frame.channel)
    case Sending(sub, _) =>
      if sub in s.subs.all && s.subs.all[sub].replayed <= |s.subs.all[sub].replay|
      then |s.subs.all[sub].replay| - s.subs.all[sub].replayed else 0
    case _ => 0
  }

  /** The handler came closer and can still insert. */
  ghost predicate StepsOn(env: Env, bounds: BoundsOf, s: State, s': State, t: TaskId)
    requires t in s.tasks.all && SubscribeInFlight(s.tasks.all[t], s.tasks.all[t].sid)
  {
    var k := s.tasks.all[t];
    && t in s'.tasks.all && s'.tasks.all[t].sid == k.sid && s'.tasks.all[t].message == k.message
    && CanInsert(env, s', s'.tasks.all[t])
    && s'.sessions == s.sessions && s'.outboxes.open == s.outboxes.open
    && (Rank(s'.tasks.all[t].stage) < Rank(k.stage)
        || (Rank(s'.tasks.all[t].stage) == Rank(k.stage) && Left(bounds, s', s'.tasks.all[t]) < Left(bounds, s, k)))
  }

  lemma EarlyStepOn(env: Env, bounds: BoundsOf, s: State, t: TaskId)
    requires t in s.tasks.all && CanInsert(env, s, s.tasks.all[t])
    requires s.tasks.all[t].stage.Gate? || s.tasks.all[t].stage.Entering? || s.tasks.all[t].stage.Attaching?
    ensures StepsOn(env, bounds, s, AdvanceSubscribe(env, s, t, s.tasks.all[t], false), t)
  {
    hide Broker.Attach, CodeFor, RequestId, CursorOf, InsertSubscription, ReadReplay, SendReplay, Unwind, Wait;
  }

  lemma ReadStepOn(env: Env, bounds: BoundsOf, s: State, t: TaskId)
    requires t in s.tasks.all && CanInsert(env, s, s.tasks.all[t]) && s.tasks.all[t].stage.Reading?
    requires s.tasks.all[t].stage.sub in s.subs.all
    requires
      var k := s.tasks.all[t];
      k.sid in s.outboxes.open || ReadsNothing(env, s, k.message.frame.channel, k.message.frame.sinceOffset)
    ensures StepsOn(env, bounds, s, AdvanceSubscribe(env, s, t, s.tasks.all[t], false), t)
  {
    hide InsertSubscription, SendReplay, Unwind, AttachStream, SubscribeGate, Enter, Wait;
  }

  lemma WaitStepOn(env: Env, bounds: BoundsOf, s: State, t: TaskId)
    requires t in s.tasks.all && CanInsert(env, s, s.tasks.all[t]) && s.tasks.all[t].stage.Reading?
    requires IsPubSub(env.kind, bounds)
    requires
      var k := s.tasks.all[t];
      !ReadsNothing(env, s, k.message.frame.channel, k.message.frame.sinceOffset)
    ensures StepsOn(env, bounds, s, Step(env, s, Tick), t)
  {
    var k := s.tasks.all[t];
    OldReadsNothing(env, bounds, s, k.message.frame.channel, k.message.frame.sinceOffset);
    assert Step(env, s, Tick) == s.(now := s.now + 1);
    hide Step, IsPubSub, Latest;
    assert HeldBy(s.(now := s.now + 1), k.sid) == HeldBy(s, k.sid);
  }

  lemma SendStepOn(env: Env, bounds: BoundsOf, s: State, t: TaskId)
    requires t in s.tasks.all && CanInsert(env, s, s.tasks.all[t]) && s.tasks.all[t].stage.Sending?
    requires s.tasks.all[t].stage.sub in s.subs.all
    requires var u := s.subs.all[s.tasks.all[t].stage.sub]; u.replayed < |u.replay|
    ensures StepsOn(env, bounds, s, AdvanceSubscribe(env, s, t, s.tasks.all[t], false), t)
  {
    hide InsertSubscription, ReadReplay, Unwind, AttachStream, SubscribeGate, Enter, OutboxOf, Wait;
  }

  lemma StepIsAdvance(env: Env, s: State, t: TaskId)
    requires t in s.tasks.all && SubscribeInFlight(s.tasks.all[t], s.tasks.all[t].sid)
    ensures Step(env, s, Advance(t, false)) == AdvanceSubscribe(env, s, t, s.tasks.all[t], false)
  {
    hide AdvanceSubscribe;
  }

  lemma InsertStep(env: Env, s: State, t: TaskId, sid: SessionId, ch: Channel)
    requires OnItsWay(env, s, t, sid, ch) && s.tasks.all[t].stage.Inserting?
    ensures (sid, ch) in Step(env, s, Next(env, s, t)).stale.late
  {
    assert HubShape.TaskShape(s, s.tasks.all[t]);
    StepIsAdvance(env, s, t);
    hide Step;
    hide HubShape.SubsShape, HubShape.HeldShape, HubShape.TasksShape, HubIndex.IdsInv;
    hide Unwind, AttachStream, SubscribeGate, Enter, ReadReplay, SendReplay, Registry.AddTo, RequestId;
  }

  lemma OneStepOn(env: Env, bounds: BoundsOf, s: State, t: TaskId, sid: SessionId, ch: Channel)
    requires OnItsWay(env, s, t, sid, ch) && Unhindered(env, bounds, s, s.tasks.all[t])
    requires !s.tasks.all[t].stage.Inserting?
    ensures StepsOn(env, bounds, s, Step(env, s, Next(env, s, t)), t)
  {
    var k := s.tasks.all[t];
    assert HubShape.TaskShape(s, k);
    hide HubShape.SubsShape, HubShape.HeldShape, HubShape.TasksShape, HubIndex.IdsInv, StepsOn, IsPubSub, ReadsNothing;
    hide Step, AdvanceSubscribe;
    if Next(env, s, t).Tick? {
      WaitStepOn(env, bounds, s, t);
    } else {
      StepIsAdvance(env, s, t);
      if k.stage.Reading? {
        ReadStepOn(env, bounds, s, t);
      } else if k.stage.Sending? {
        SendStepOn(env, bounds, s, t);
      } else {
        EarlyStepOn(env, bounds, s, t);
      }
    }
  }

  lemma IdsStay(env: Env, s: State, t: TaskId)
    requires HubIndex.IdsInv(s) && t in s.tasks.all && !Inserts(s, s.tasks.all[t])
    ensures HubIndex.IdsInv(Step(env, s, Tick)) && HubIndex.IdsInv(Step(env, s, Advance(t, false)))
  {
    AdvanceFrame(env, s, t, false);
    hide AdvanceTask;
  }

  lemma StillOnItsWay(env: Env, bounds: BoundsOf, s: State, t: TaskId, sid: SessionId, ch: Channel)
    requires OnItsWay(env, s, t, sid, ch) && Unhindered(env, bounds, s, s.tasks.all[t])
    requires !s.tasks.all[t].stage.Inserting?
    ensures
      var s' := Step(env, s, Next(env, s, t));
      && OnItsWay(env, s', t, sid, ch) && Unhindered(env, bounds, s', s'.tasks.all[t])
      && StepsOn(env, bounds, s, s', t)
  {
    OneStepOn(env, bounds, s, t, sid, ch);
    HubShape.StepKeepsShape(env, s, Next(env, s, t));
    IdsStay(env, s, t);
    hide Step, HubShape.ShapeInv, HubIndex.IdsInv, IsPubSub, ReadsNothing, HeldBy;
  }

  lemma RunCons(env: Env, s: State, e: Event, events: seq<Event>)
    ensures Run(env, s, [e] + events) == Run(env, Step(env, s, e), events)
  {
    hide Step;
    RunAppend(env, s, [e], events);
    assert Run(env, s, [e]) == Step(env, s, e) by { assert [e][..0] == []; }
  }

  /** Left to itself, a handler that can insert does. */
  lemma {:induction false} Arrives(env: Env, bounds: BoundsOf, s: State, t: TaskId, sid: SessionId, ch: Channel)
    returns (after: seq<Event>)
    requires OnItsWay(env, s, t, sid, ch) && Unhindered(env, bounds, s, s.tasks.all[t])
    ensures (sid, ch) in Run(env, s, after).stale.late
    ensures forall e <- after :: !e.Receive?
    decreases Rank(s.tasks.all[t].stage), Left(bounds, s, s.tasks.all[t])
  {
    var k := s.tasks.all[t];
    var e := Next(env, s, t);
    hide Step, HubShape.ShapeInv, HubIndex.IdsInv, IsPubSub;
    if k.stage.Inserting? {
      InsertStep(env, s, t, sid, ch);
      RunCons(env, s, e, []);
      after := [e] + [];
    } else {
      StillOnItsWay(env, bounds, s, t, sid, ch);
      hide OnItsWay, Unhindered, CanInsert, Left, Rank;
      var more := Arrives(env, bounds, Step(env, s, e), t, sid, ch);
      RunCons(env, s, e, more);
      after := [e] + more;
    }
  }

  lemma KickedIsOnItsWay(env: Env, s: State, t: TaskId)
    requires HubShape.ShapeInv(s) && HubIndex.IndexInv(s) && t in s.tasks.all && CanInsert(env, s, s.tasks.all[t])
    requires s.tasks.all[t].sid in s.sessions.registered
    ensures
      var k, s' := s.tasks.all[t], Step(env, s, Deregister(s.tasks.all[t].sid));
      && OnItsWay(env, s', t, k.sid, k.message.frame.channel)
      && s'.tasks.all[t] == k && s'.outboxes.open == s.outboxes.open
  {
    var k := s.tasks.all[t];
    var s' := Step(env, s, Deregister(k.sid));
    HubShape.StepKeepsShape(env, s, Deregister(k.sid));
    HubIndex.StepKeepsIndex(env, s, Deregister(k.sid));
    hide HubShape.ShapeInv;
    assert s' == DeregisterSession(s, k.sid);
    assert HeldBy(s', k.sid) == HeldBy(s, k.sid);
  }

  /** A kick while a subscribe can insert: left to itself, the subscribe then leaves an entry. */
  lemma KickLeavesEntry(env: Env, bounds: BoundsOf, before: seq<Event>, t: TaskId) returns (after: seq<Event>)
    requires
      var s := Run(env, Init, before);
      && t in s.tasks.all && CanInsert(env, s, s.tasks.all[t]) && s.tasks.all[t].sid in s.sessions.registered
      && Unhindered(env, bounds, s, s.tasks.all[t])
    ensures
      var k := Run(env, Init, before).tasks.all[t];
      var s := Run(env, Run(env, Init, before + [Deregister(k.sid)]), after);
      k.sid !in s.sessions.registered && Listed(s.sessions.index, k.message.frame.channel, k.sid) > 0
    ensures forall e <- after :: !e.Receive?
  {
    var s := Run(env, Init, before);
    var k := s.tasks.all[t];
    var ch := k.message.frame.channel;
    HubShape.RunKeepsShape(env, before);
    HubIndex.InitIndex();
    HubIndex.RunKeepsIndex(env, Init, before);
    KickedIsOnItsWay(env, s, t);
    RunSnoc(env, Init, before, Deregister(k.sid));
    hide Step, HubShape.ShapeInv, HubIndex.IndexInv, OnItsWay, CanInsert, IsPubSub;
    var s1 := Step(env, s, Deregister(k.sid));
    after := Arrives(env, bounds, s1, t, k.sid, ch);
    HubIndex.StepKeepsIndex(env, s, Deregister(k.sid));
    HubIndex.RunKeepsIndex(env, s1, after);
    LateIffListed(Run(env, s1, after), k.sid, ch);
  }

  /**
   * Exactly when closing or kicking a session can leave an index entry behind: some
   * continuation lists it if and only if one of its subscribes in flight can still insert.
   * With an open outbox this holds for every channel kind; with a closed one, for pub/sub.
   */
  lemma LeavesEntryIff(env: Env, bounds: BoundsOf, before: seq<Event>, sid: SessionId)
    requires var s := Run(env, Init, before); sid in s.sessions.registered
    requires var s := Run(env, Init, before); sid in s.outboxes.open || IsPubSub(env.kind, bounds)
    ensures
      (exists after, ch ::
        Listed(Run(env, Run(env, Init, before + [Deregister(sid)]), after).sessions.index, ch, sid) > 0)
      <==> CanInsertFor(env, Run(env, Init, before), sid)
  {
    hide Step, Run, IsPubSub;
    var s, s1 := Run(env, Init, before), Run(env, Init, before + [Deregister(sid)]);
    if CanInsertFor(env, s, sid) {
      var t :| t in s.tasks.all && s.tasks.all[t].sid == sid && CanInsert(env, s, s.tasks.all[t]);
      var after := KickLeavesEntry(env, bounds, before, t);
      assert Listed(Run(env, s1, after).sessions.index, s.tasks.all[t].message.frame.channel, sid) > 0;
    } else {
      forall after, ch ensures Listed(Run(env, s1, after).sessions.index, ch, sid) == 0 {
        CloseLeavesNoTrace(env, before, sid, after, ch);
      }
    }
  }
}
