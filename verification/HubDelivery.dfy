/** What reaches an outbox through one subscription, over every run. */
module HubDelivery {
  import opened Types
  import opened Frames
  import opened Hub
  import HubIndex
  import HubLive
  import HubShape
  import Broker
  import Registry

  /** The publications an outbox received through `sub`, in order. */
  function Through(out: seq<Out>, sub: SubId): seq<Publication> {
    if out == [] then []
    else
      var last := out[|out| - 1];
      Through(out[..|out| - 1], sub) + if last.Delivered? && last.sub == sub then [last.publication] else []
  }

  /** What the subscription passed on: the replay sent so far, then what its forwarder sent. */
  function Passed(u: Subscription): seq<Publication>
    requires u.replayed <= |u.replay|
  {
    u.replay[..u.replayed] + u.forwarded
  }

  /** `ps` are the elements of `sent` at the first of the ascending positions `picks`, all from `start` on. */
  ghost predicate InBroadcastOrder(ps: seq<Publication>, sent: seq<Publication>, start: nat, picks: seq<nat>) {
    && |ps| <= |picks|
    && (forall k :: 0 <= k < |ps| ==> start <= picks[k] < |sent| && ps[k] == sent[picks[k]])
    && (forall j, k :: 0 <= j < k < |ps| ==> picks[j] < picks[k])
  }

  ghost predicate OutInv(s: State) {
    && (forall sid :: sid in s.outboxes.of ==> sid < s.sessions.nextId)
    && (forall sub :: sub in s.subs.all ==>
          s.subs.all[sub].sid < s.sessions.nextId && s.subs.all[sub].replayed <= |s.subs.all[sub].replay|)
    && (forall sid, sub :: Flows(s, sid, sub))
  }

  /** The outbox of `sid` holds, through `sub`, exactly what `sub` passed on if it is the session's. */
  ghost predicate Flows(s: State, sid: SessionId, sub: SubId) {
    Through(OutboxOf(s, sid), sub)
    == if sub in s.subs.all && s.subs.all[sub].sid == sid && s.subs.all[sub].replayed <= |s.subs.all[sub].replay|
       then Passed(s.subs.all[sub]) else []
  }

  /** Outboxes are as before and each subscription passed on the same; new ones nothing. */
  ghost predicate SameFlow(s: State, s': State) {
    && s'.outboxes.of == s.outboxes.of
    && s'.sessions.nextId == s.sessions.nextId
    && (forall sub :: sub in s.subs.all ==>
          && sub in s'.subs.all
          && s'.subs.all[sub].sid == s.subs.all[sub].sid
          && s'.subs.all[sub].replayed == s.subs.all[sub].replayed <= |s'.subs.all[sub].replay|
          && (s.subs.all[sub].replayed <= |s.subs.all[sub].replay| ==> Passed(s'.subs.all[sub]) == Passed(s.subs.all[sub])))
    && (forall sub :: sub in s'.subs.all && sub !in s.subs.all ==>
          && s'.subs.all[sub].sid < s.sessions.nextId
          && s'.subs.all[sub].replayed == 0
          && s'.subs.all[sub].forwarded == [])
  }

  /** The subscription passed on nothing more. */
  ghost predicate SamePassed(s: State, s': State, sub: SubId)
    requires sub in s.subs.all
  {
    && sub in s'.subs.all
    && s'.subs.all[sub].sid == s.subs.all[sub].sid
    && s'.subs.all[sub].replay == s.subs.all[sub].replay
    && s'.subs.all[sub].replayed == s.subs.all[sub].replayed
    && s'.subs.all[sub].forwarded == s.subs.all[sub].forwarded
  }

  lemma SameFlowKeepsOut(s: State, s': State)
    requires OutInv(s) && SameFlow(s, s')
    ensures OutInv(s')
  {
    forall sid, sub ensures Flows(s', sid, sub) {
      assert Flows(s, sid, sub);
    }
  }

  /** One frame goes to the outbox of `sid`; through `sub` it is what the subscription passed on. */
  lemma PushKeepsOut(s: State, s': State, sid: SessionId, o: Out)
    requires OutInv(s) && sid < s.sessions.nextId
    requires s'.outboxes.of == s.outboxes.of[sid := OutboxOf(s, sid) + [o]] && s'.sessions.nextId == s.sessions.nextId
    requires s'.subs.all.Keys == s.subs.all.Keys
    requires forall x :: x in s.subs.all && (o.Replied? || x != o.sub) ==> s'.subs.all[x] == s.subs.all[x]
    requires o.Delivered? ==>
      && o.sub in s.subs.all
      && s.subs.all[o.sub].sid == sid && s'.subs.all[o.sub].sid == sid
      && s'.subs.all[o.sub].replayed <= |s'.subs.all[o.sub].replay|
      && Passed(s'.subs.all[o.sub]) == Passed(s.subs.all[o.sub]) + [o.publication]
    ensures OutInv(s')
  {
    ThroughSnoc(OutboxOf(s, sid), o);
    hide Through, Passed;
    forall x, sub ensures Flows(s', x, sub) {
      assert Flows(s, x, sub);
      assert OutboxOf(s', x) == if x == sid then OutboxOf(s, sid) + [o] else OutboxOf(s, x);
    }
  }

  lemma ThroughSnoc(out: seq<Out>, o: Out)
    ensures forall sub :: Through(out + [o], sub)
                       == Through(out, sub) + if o.Delivered? && o.sub == sub then [o.publication] else []
  {
    assert (out + [o])[..|out|] == out;
  }

  lemma ReadSameFlow(env: Env, s: State, t: TaskId, k: Task, sub: SubId, cursor: Cursor, ch: Channel, since: nat)
    requires sub in s.subs.all && s.subs.all[sub].replayed == 0 == |s.subs.all[sub].replay|
    requires forall x :: x in s.subs.all ==> HubShape.SubShape(s.subs.all[x])
    ensures SameFlow(s, ReadReplay(env, s, t, k, sub, cursor, ch, since))
  {
  }

  lemma AttachSameFlow(s: State, t: TaskId, k: Task, claims: Claims, cursor: Cursor, ch: Channel, since: nat)
    requires k.sid < s.sessions.nextId && s.subs.next !in s.subs.all
    requires forall x :: x in s.subs.all ==> HubShape.SubShape(s.subs.all[x])
    ensures SameFlow(s, AttachStream(s, t, k, claims, cursor, ch, since))
  {
  }

  lemma KeptSameFlow(s: State, s': State)
    requires forall x :: x in s.subs.all ==> HubShape.SubShape(s.subs.all[x])
    requires s'.outboxes.of == s.outboxes.of && s'.sessions.nextId == s.sessions.nextId && s'.subs == s.subs
    ensures SameFlow(s, s')
  {
  }

  lemma InsertSameFlow(s: State, t: TaskId, k: Task, sub: SubId, cursor: Cursor, ch: Channel)
    requires sub in s.subs.all && forall x :: x in s.subs.all ==> HubShape.SubShape(s.subs.all[x])
    ensures SameFlow(s, InsertSubscription(s, t, k, sub, cursor, ch))
  {
    hide Registry.AddTo, RequestId;
  }

  /** A subscribe's step that neither attaches, reads, sends nor inserts touches no subscription and no outbox. */
  lemma QuietFlow(env: Env, s: State, t: TaskId, k: Task, fail: bool)
    requires SubscribeInFlight(k, k.sid) && !Inserts(s, k)
    requires !((k.stage.Attaching? || k.stage.Reading?) && !fail) && (k.stage.Sending? ==> k.sid !in s.outboxes.open)
    ensures
      var s' := AdvanceSubscribe(env, s, t, k, fail);
      s'.outboxes == s.outboxes && s'.subs == s.subs && s'.sessions == s.sessions
  {
    hide Broker.Detach, CodeFor, RequestId, SendReplay, ReadReplay, AttachStream, InsertSubscription, CursorOf;
  }

  lemma SubscribeSameFlow(env: Env, s: State, t: TaskId, k: Task, fail: bool)
    requires t in s.tasks.all && k == s.tasks.all[t] && SubscribeInFlight(k, k.sid)
    requires HubShape.SubsShape(s) && HubShape.TaskShape(s, k) && k.sid < s.sessions.nextId
    requires k.stage.Sending? ==> k.sid !in s.outboxes.open
    ensures SameFlow(s, AdvanceSubscribe(env, s, t, k, fail))
  {
    var ch, since := k.message.frame.channel, k.message.frame.sinceOffset;
    hide Broker.Wf, SendReplay, ReadReplay, AttachStream, InsertSubscription, SameFlow;
    if k.stage.Reading? && !fail {
      assert HubShape.SubShape(s.subs.all[k.stage.sub]);
      ReadSameFlow(env, s, t, k, k.stage.sub, k.stage.cursor, ch, since);
    } else if k.stage.Attaching? && !fail {
      AttachSameFlow(s, t, k, k.stage.claims, k.stage.cursor, ch, since);
    } else if Inserts(s, k) {
      InsertSameFlow(s, t, k, k.stage.sub, k.stage.cursor, ch);
    } else {
      QuietFlow(env, s, t, k, fail);
      KeptSameFlow(s, AdvanceSubscribe(env, s, t, k, fail));
    }
  }

  lemma SendKeepsOut(s: State, t: TaskId, k: Task, sub: SubId, cursor: Cursor)
    requires OutInv(s) && k.sid < s.sessions.nextId && k.stage == Sending(sub, cursor)
    requires HubShape.TaskShape(s, k) && HubShape.SubShape(s.subs.all[sub])
    ensures OutInv(SendReplay(s, t, k, sub, cursor))
  {
    var s' := SendReplay(s, t, k, sub, cursor);
    var u := s.subs.all[sub];
    assert u.replay[..u.replayed + 1] == u.replay[..u.replayed] + [u.replay[u.replayed]];
    PushKeepsOut(s, s', k.sid, Delivered(sub, u.replay[u.replayed]));
  }

  lemma AdvanceKeepsOut(env: Env, s: State, t: TaskId, fail: bool)
    requires OutInv(s) && HubShape.ShapeInv(s) && HubIndex.IdsInv(s) && t in s.tasks.all
    ensures OutInv(AdvanceTask(env, s, t, s.tasks.all[t], fail))
  {
    var k := s.tasks.all[t];
    var s' := AdvanceTask(env, s, t, k, fail);
    assert HubShape.TaskShape(s, k);
    hide OutInv, HubShape.HeldShape, HubShape.TasksShape, Broker.Wf;
    if k.stage.Replying? {
      hide AdvanceSubscribe, AdvancePublish, HubShape.SubShape;
      DeliverKeepsOut(s, t, k);
    } else if SubscribeInFlight(k, k.sid) {
      if k.stage.Sending? && k.sid in s.outboxes.open {
        hide SendReplay;
        SendKeepsOut(s, t, k, k.stage.sub, k.stage.cursor);
      } else {
        hide AdvanceSubscribe, HubShape.SubShape;
        SubscribeSameFlow(env, s, t, k, fail);
        SameFlowKeepsOut(s, s');
      }
    } else {
      hide AdvanceTask, HubShape.SubShape, SameFlow;
      OtherQuiet(env, s, t, fail);
      KeptSameFlow(s, s');
      SameFlowKeepsOut(s, s');
    }
  }

  lemma DeliverKeepsOut(s: State, t: TaskId, k: Task)
    requires OutInv(s) && k.stage.Replying? && k.sid < s.sessions.nextId
    requires forall x :: x in s.subs.all ==> HubShape.SubShape(s.subs.all[x])
    ensures OutInv(Deliver(s, t, k.sid, k.stage.reply))
  {
    var s' := Deliver(s, t, k.sid, k.stage.reply);
    hide OutInv;
    if k.sid in s.sessions.registered && k.sid in s.outboxes.open {
      PushKeepsOut(s, s', k.sid, Replied(k.stage.reply));
    } else {
      KeptSameFlow(s, s');
      SameFlowKeepsOut(s, s');
    }
  }

  lemma OtherQuiet(env: Env, s: State, t: TaskId, fail: bool)
    requires t in s.tasks.all && !s.tasks.all[t].stage.Replying? && !SubscribeInFlight(s.tasks.all[t], s.tasks.all[t].sid)
    ensures
      var s' := AdvanceTask(env, s, t, s.tasks.all[t], fail);
      s'.outboxes == s.outboxes && s'.subs == s.subs && s'.sessions == s.sessions
  {
    hide AdvanceSubscribe, CodeFor, RequestId, Broker.Broadcast;
  }

  lemma ForwardKeepsOut(s: State, sub: SubId)
    requires OutInv(s) && HubShape.SubsShape(s) && Running(s, sub) && s.subs.all[sub].hand.Some?
    ensures OutInv(ForwardHand(s, sub))
  {
    var s' := ForwardHand(s, sub);
    var u := s.subs.all[sub];
    assert HubShape.SubShape(u);
    if u.sid in s.outboxes.open {
      PushKeepsOut(s, s', u.sid, Delivered(sub, u.hand.value));
    } else {
      SameFlowKeepsOut(s, s');
    }
  }

  lemma OpenKeepsOut(env: Env, s: State)
    requires OutInv(s)
    ensures OutInv(OpenSession(env, s))
  {
    var s' := OpenSession(env, s);
    forall sid, sub ensures Flows(s', sid, sub) { assert Flows(s, sid, sub); }
  }

  lemma IdleSameFlow(s: State, s': State)
    requires s'.outboxes.of == s.outboxes.of && s'.sessions.nextId == s.sessions.nextId
    requires s'.subs.all.Keys == s.subs.all.Keys
    requires forall x :: x in s.subs.all ==>
      HubShape.SubShape(s.subs.all[x]) && SamePassed(s, s', x)
    ensures SameFlow(s, s')
  {
  }

  lemma PollSamePassed(env: Env, s: State, sub: SubId)
    requires Running(s, sub)
    ensures
      var s' := PollReceiver(env, s, sub);
      && s'.outboxes == s.outboxes && s'.sessions == s.sessions
      && s'.subs.all.Keys == s.subs.all.Keys
      && forall x :: x in s.subs.all ==> SamePassed(s, s', x)
  {
    hide Broker.Poll, Broker.Peek;
  }

  lemma BeginQuiet(env: Env, s: State, t: TaskId, sid: SessionId, m: Message)
    ensures
      var s' := Begin(env, s, t, sid, m);
      s'.outboxes == s.outboxes && s'.subs == s.subs && s'.sessions.nextId == s.sessions.nextId
  {
    BeginFrame(env, s, t, sid, m);
    hide Begin, Registry.RemoveFrom, Broker.Detach;
  }

  lemma StepKeepsOut(env: Env, s: State, e: Event)
    requires OutInv(s) && HubShape.ShapeInv(s) && HubIndex.IdsInv(s)
    ensures OutInv(Step(env, s, e))
  {
    hide OutInv, HubShape.HeldShape, HubShape.TasksShape, Broker.Wf, HubShape.SubShape;
    hide AdvanceTask, Begin, PollReceiver, ForwardHand, SameFlow, RemoveSubscription;
    var s' := Step(env, s, e);
    match e
    case Open => OpenKeepsOut(env, s);
    case Receive(t, sid, m) =>
      if t !in s.tasks.all && Reads(s, sid) {
        BeginQuiet(env, Ask(s, sid, m), t, sid, m);
        KeptSameFlow(s, s');
        SameFlowKeepsOut(s, s');
      }
    case Advance(t, fail) => if t in s.tasks.all { AdvanceKeepsOut(env, s, t, fail); }
    case PollStream(sub) =>
      if Running(s, sub) { PollSamePassed(env, s, sub); }
      IdleSameFlow(s, s');
      SameFlowKeepsOut(s, s');
    case Forward(sub) =>
      if Running(s, sub) && s.subs.all[sub].hand.Some? { ForwardKeepsOut(s, sub); }
    case _ =>
      IdleSameFlow(s, s');
      SameFlowKeepsOut(s, s');
  }

  lemma {:induction false} RunKeepsOut(env: Env, events: seq<Event>)
    ensures OutInv(Run(env, Init, events))
    decreases |events|
  {
    if events == [] {
      assert Init.outboxes.of == map[] && Init.subs.all == map[];
    } else {
      hide OutInv, Step, HubShape.ShapeInv;
      var init := events[..|events| - 1];
      RunKeepsOut(env, init);
      HubShape.RunKeepsShape(env, init);
      StepKeepsOut(env, Run(env, Init, init), events[|events| - 1]);
    }
  }

  /**
   * In every reachable state, what a session's outbox received through one of its
   * subscriptions, attached or ended, is the replay so far and, only once the replay
   * is complete, broadcasts of its channel made after it attached, in broadcast order
   * and none twice; through anybody else's subscription it received nothing.
   */
  lemma ReplayThenLive(env: Env, events: seq<Event>, sid: SessionId, sub: SubId)
    ensures
      var s := Run(env, Init, events);
      if sub in s.subs.all && s.subs.all[sub].sid == sid then
        var u := s.subs.all[sub];
        && u.replayed <= |u.replay|
        && Through(OutboxOf(s, sid), sub) == u.replay[..u.replayed] + u.forwarded
        && (u.forwarded != [] ==> u.replayed == |u.replay|)
        && InBroadcastOrder(u.forwarded, BroadcastsOf(s, u.channel), u.attachedAt, u.picks)
      else Through(OutboxOf(s, sid), sub) == []
  {
    var s := Run(env, Init, events);
    RunKeepsOut(env, events);
    HubShape.RunKeepsShape(env, events);
    HubLive.RunKeepsLive(env, events);
    hide Step;
    assert Flows(s, sid, sub) && HubLive.LiveAt(s, sub);
    assert sub in s.subs.all ==> HubShape.SubShape(s.subs.all[sub]);
  }

  /**
   * Who can recover: a subscription that asks from offset 0 is never replayed anything. So a
   * client that has seen offset 0 and nothing above it has no way to ask for what it missed.
   */
  lemma ZeroIsNotReplayed(env: Env, events: seq<Event>, sub: SubId)
    requires var s := Run(env, Init, events); sub in s.subs.all && s.subs.all[sub].since == 0
    ensures
      var s := Run(env, Init, events);
      var u := s.subs.all[sub];
      Through(OutboxOf(s, u.sid), sub) == u.forwarded
  {
    hide Step, Run, Through, InBroadcastOrder, HubShape.HeldShape, HubShape.TasksShape, HubIndex.IndexInv, Broker.Wf;
    var s := Run(env, Init, events);
    ReplayThenLive(env, events, s.subs.all[sub].sid, sub);
    HubShape.RunKeepsShape(env, events);
    NoReplay(s.subs.all[sub]);
  }

  lemma NoReplay(u: Subscription)
    requires HubShape.SubShape(u) && u.since == 0 && u.replayed <= |u.replay|
    ensures u.replay[..u.replayed] + u.forwarded == u.forwarded
  {
  }

  // --------------------------------------------------------------------
  // A dropped stream is final
  // --------------------------------------------------------------------

  ghost predicate Dropped(s: State, sub: SubId) {
    sub in s.subs.all && sub !in s.broker.receivers
  }

  lemma SubscribeKeepsDropped(env: Env, s: State, t: TaskId, k: Task, fail: bool, sub: SubId)
    requires SubscribeInFlight(k, k.sid) && HubShape.TaskShape(s, k) && Dropped(s, sub)
    requires s.subs.next !in s.subs.all
    ensures
      var s' := AdvanceSubscribe(env, s, t, k, fail);
      Dropped(s', sub) && SamePassed(s, s', sub)
  {
  }

  lemma AdvanceKeepsDropped(env: Env, s: State, t: TaskId, fail: bool, sub: SubId)
    requires HubShape.ShapeInv(s) && Dropped(s, sub) && t in s.tasks.all
    ensures
      var s' := AdvanceTask(env, s, t, s.tasks.all[t], fail);
      Dropped(s', sub) && SamePassed(s, s', sub)
  {
    hide AdvanceSubscribe, HubShape.HeldShape, Broker.Wf, HubShape.SubShape;
    var k := s.tasks.all[t];
    assert HubShape.TaskShape(s, k);
    if SubscribeInFlight(k, k.sid) { SubscribeKeepsDropped(env, s, t, k, fail, sub); }
  }

  lemma StepKeepsDropped(env: Env, s: State, e: Event, sub: SubId)
    requires HubShape.ShapeInv(s) && Dropped(s, sub)
    ensures Dropped(Step(env, s, e), sub) && SamePassed(s, Step(env, s, e), sub)
  {
    hide HubShape.HeldShape, Broker.Wf, HubShape.SubShape;
    match e
    case Advance(t, fail) => if t in s.tasks.all { hide AdvanceTask; AdvanceKeepsDropped(env, s, t, fail, sub); }
    case Receive(t, sid, m) =>
      if t !in s.tasks.all && Reads(s, sid) { BeginFrame(env, Ask(s, sid, m), t, sid, m); }
      hide Begin;
    case _ => hide AdvanceTask, Begin;
  }

  lemma {:induction false} RunKeepsDropped(env: Env, before: seq<Event>, after: seq<Event>, sub: SubId)
    requires Dropped(Run(env, Init, before), sub)
    ensures
      var s, s' := Run(env, Init, before), Run(env, Init, before + after);
      Dropped(s', sub) && SamePassed(s, s', sub)
    decreases |after|
  {
    hide Step, HubShape.ShapeInv;
    if after == [] {
      assert before + after == before;
    } else {
      var all, init := before + after, before + after[..|after| - 1];
      assert all[..|all| - 1] == init;
      RunKeepsDropped(env, before, after[..|after| - 1], sub);
      HubShape.RunKeepsShape(env, init);
      StepKeepsDropped(env, Run(env, Init, init), all[|all| - 1], sub);
    }
  }

  /**
   * Once a subscription's stream is dropped - by unsubscribe, session teardown, a
   * closed outbox or a failed subscribe - nothing more is delivered through it, to
   * any outbox, in any continuation.
   */
  lemma NothingAfterDrop(env: Env, before: seq<Event>, after: seq<Event>, sub: SubId, sid: SessionId)
    requires Dropped(Run(env, Init, before), sub)
    ensures Through(OutboxOf(Run(env, Init, before + after), sid), sub)
         == Through(OutboxOf(Run(env, Init, before), sid), sub)
  {
    RunKeepsDropped(env, before, after, sub);
    ReplayThenLive(env, before, sid, sub);
    ReplayThenLive(env, before + after, sid, sub);
  }

  /** An unsubscribe that finds a subscription drops its stream in that very step. */
  lemma UnsubscribeDrops(env: Env, events: seq<Event>, t: TaskId, sid: SessionId, requestId: nat, ch: Channel)
    requires
      var s := Run(env, Init, events);
      t !in s.tasks.all && Reads(s, sid) && sid in s.sessions.registered && ch in HeldBy(s, sid)
    ensures
      var sub := HeldBy(Run(env, Init, events), sid)[ch];
      Dropped(Run(env, Init, events + [Receive(t, sid, Frame(Unsubscribe(requestId, ch)))]), sub)
  {
    hide Run, HubShape.SubsShape, HubShape.TasksShape, HubIndex.IndexInv;
    var s := Run(env, Init, events);
    var m := Frame(Unsubscribe(requestId, ch));
    RunSnoc(env, Init, events, Receive(t, sid, m));
    HubShape.RunKeepsShape(env, events);
    RemovalDrops(env, Ask(s, sid, m), t, sid, m);
  }

  lemma RemovalDrops(env: Env, s: State, t: TaskId, sid: SessionId, m: Message)
    requires Removes(s, sid, m) && HubShape.HeldShape(s)
    ensures Dropped(Begin(env, s, t, sid, m), HeldBy(s, sid)[m.frame.channel])
  {
    BeginFrame(env, s, t, sid, m);
    hide Begin, Registry.RemoveFrom;
  }
}
