/** What each subscription, attached or ended, took from its channel's broadcasts, over every run. */
module HubLive {
  import opened Types
  import opened Frames
  import opened Hub
  import opened Streams
  import Broker
  import HubShape

  /**
   * The subscription took broadcasts of its channel in broadcast order; while its receiver is
   * attached, its topic is the broadcasts since the attachment.
   */
  ghost predicate LiveAt(s: State, sub: SubId) {
    sub in s.subs.all ==>
      var u := s.subs.all[sub];
      && Follows(BroadcastsOf(s, u.channel), u)
      && (sub in s.broker.receivers ==>
            && u.channel in s.broker.topics
            && Linked(BroadcastsOf(s, u.channel), s.broker.topics[u.channel], s.broker.receivers[sub], u))
  }

  ghost predicate LiveInv(s: State) {
    forall sub :: LiveAt(s, sub)
  }

  /** The subscription took nothing more, and its receiver, if it has one, is where it was. */
  ghost predicate SameAt(s: State, s': State, sub: SubId) {
    sub in s'.subs.all ==>
      && sub in s.subs.all
      && SameOrigin(s.subs.all[sub], s'.subs.all[sub])
      && s'.subs.all[sub].hand == s.subs.all[sub].hand
      && s'.subs.all[sub].forwarded == s.subs.all[sub].forwarded
      && s'.subs.all[sub].picks == s.subs.all[sub].picks
      && s'.subs.all[sub].skipped == s.subs.all[sub].skipped
      && (sub in s'.broker.receivers ==> sub in s.broker.receivers && s'.broker.receivers[sub] == s.broker.receivers[sub])
  }

  lemma SameKeepsLive(s: State, s': State, sub: SubId)
    requires LiveAt(s, sub) && SameAt(s, s', sub)
    requires s'.log.broadcasts == s.log.broadcasts && s'.broker.topics == s.broker.topics
    ensures LiveAt(s', sub)
  {
  }

  lemma AllSameKeepsLive(s: State, s': State)
    requires LiveInv(s) && forall sub :: SameAt(s, s', sub)
    requires s'.log.broadcasts == s.log.broadcasts && s'.broker.topics == s.broker.topics
    ensures LiveInv(s')
  {
    hide LiveAt, SameAt;
    forall sub ensures LiveAt(s', sub) { SameKeepsLive(s, s', sub); }
  }

  // --------------------------------------------------------------------

  /** A subscribe's step that does not attach leaves the broker alone or drops a receiver. */
  lemma SubscribeBroker(env: Env, s: State, t: TaskId, fail: bool)
    requires t in s.tasks.all && SubscribeInFlight(s.tasks.all[t], s.tasks.all[t].sid)
    requires !(s.tasks.all[t].stage.Attaching? && !fail)
    ensures
      var s' := AdvanceSubscribe(env, s, t, s.tasks.all[t], fail);
      && s'.broker.topics == s.broker.topics
      && s'.subs.all.Keys == s.subs.all.Keys
      && (forall sub :: sub in s'.broker.receivers ==>
            sub in s.broker.receivers && s'.broker.receivers[sub] == s.broker.receivers[sub])
  {
    hide Registry.AddTo, CodeFor, RequestId, CursorOf, OutboxOf, AttachStream;
  }

  lemma AttachKeepsLive(s: State, t: TaskId, k: Task, claims: Claims, cursor: Cursor, ch: Channel, since: nat)
    requires LiveInv(s) && HubShape.SubsShape(s)
    ensures LiveInv(AttachStream(s, t, k, claims, cursor, ch, since))
  {
    var s' := AttachStream(s, t, k, claims, cursor, ch, since);
    hide HubShape.SubShape, Broker.Wf;
    forall sub ensures LiveAt(s', sub) {
      assert LiveAt(s, sub);
      if sub == s.subs.next {
        assert Ascends(s'.subs.all[sub]);
      } else if sub in s.subs.all {
        assert SameAt(s, s', sub);
        assert s.subs.all[sub].channel in s.broker.topics ==>
            s'.broker.topics[s.subs.all[sub].channel] == s.broker.topics[s.subs.all[sub].channel];
      }
    }
  }

  lemma SubscribeKeepsLive(env: Env, s: State, t: TaskId, k: Task, fail: bool)
    requires LiveInv(s) && HubShape.SubsShape(s)
    requires t in s.tasks.all && k == s.tasks.all[t] && SubscribeInFlight(k, k.sid)
    ensures LiveInv(AdvanceSubscribe(env, s, t, k, fail))
  {
    var s' := AdvanceSubscribe(env, s, t, k, fail);
    if k.stage.Attaching? && !fail {
      hide AttachStream, LiveInv, HubShape.SubsShape;
      AttachKeepsLive(s, t, k, k.stage.claims, k.stage.cursor, k.message.frame.channel, k.message.frame.sinceOffset);
    } else {
      SubscribeFrame(env, s, t, fail);
      SubscribeSubs(env, s, t, fail);
      SubscribeBroker(env, s, t, fail);
      hide AdvanceSubscribe, LiveInv, HubShape.SubsShape, OnlyTask;
      forall sub ensures SameAt(s, s', sub) {}
      AllSameKeepsLive(s, s');
    }
  }

  lemma FanOutKeepsLive(s: State, t: TaskId, k: Task, ch: Channel, p: Publication)
    requires LiveInv(s) && HubShape.SubsShape(s)
    ensures LiveInv(FanOut(s, t, k, ch, p))
  {
    var s' := FanOut(s, t, k, ch, p);
    Broker.BroadcastWf(s.broker, ch, p);
    forall sub ensures LiveAt(s', sub) {
      assert LiveAt(s, sub);
      if sub in s.subs.all && s.subs.all[sub].channel == ch {
        var u := s.subs.all[sub];
        var topic := Get(s.broker.topics, ch, []);
        var r := Get(s.broker.receivers, sub, Broker.Receiver(ch, 0, 0, [], 0));
        BroadcastKeepsLive(BroadcastsOf(s, ch), topic, r, u, p);
      }
    }
  }

  lemma AdvanceKeepsLive(env: Env, s: State, t: TaskId, fail: bool)
    requires LiveInv(s) && HubShape.SubsShape(s) && t in s.tasks.all
    ensures LiveInv(AdvanceTask(env, s, t, s.tasks.all[t], fail))
  {
    var k := s.tasks.all[t];
    var s' := AdvanceTask(env, s, t, k, fail);
    hide LiveInv, AdvanceSubscribe, HubShape.SubsShape;
    if SubscribeInFlight(k, k.sid) {
      SubscribeKeepsLive(env, s, t, k, fail);
    } else if !k.stage.Replying? && k.message.Frame? && k.message.frame.Publish? && k.stage.FanningOut? && !fail {
      hide FanOut;
      FanOutKeepsLive(s, t, k, k.message.frame.channel, k.stage.publication);
    } else {
      assert s'.log.broadcasts == s.log.broadcasts && s'.subs == s.subs && s'.broker == s.broker;
      hide AdvanceTask;
      forall sub ensures SameAt(s, s', sub) {}
      AllSameKeepsLive(s, s');
    }
  }

  lemma PollOthers(env: Env, s: State, sub: SubId)
    requires Running(s, sub) && HubShape.SubsShape(s)
    ensures
      var s' := PollReceiver(env, s, sub);
      && s'.log == s.log && s'.broker.topics == s.broker.topics
      && forall x :: x != sub ==> SameAt(s, s', x)
  {
    hide HubShape.SubShape, Broker.Wf, Broker.Peek;
  }

  /** What a poll does to the polled subscription and its receiver. */
  lemma PollOwn(env: Env, s: State, sub: SubId)
    requires Running(s, sub) && s.broker.receivers[sub].topic == s.subs.all[sub].channel
    ensures
      var s', u, r := PollReceiver(env, s, sub), s.subs.all[sub], s.broker.receivers[sub];
      && s'.log == s.log && s'.broker.topics == s.broker.topics
      && sub in s'.subs.all && sub in s'.broker.receivers
      && match Broker.Peek(env.capacity, s.broker, sub)
         case Pending => s'.subs.all[sub] == u && s'.broker.receivers[sub] == r
         case Lagged(n) =>
           && n > 0 && r.cursor + n <= |s.broker.topics[u.channel]|
           && s'.subs.all[sub] == u.(skipped := u.skipped + n)
           && s'.broker.receivers[sub] == r.(cursor := r.cursor + n, skipped := r.skipped + n)
         case Item(p) =>
           && r.cursor < |s.broker.topics[u.channel]| && p == s.broker.topics[u.channel][r.cursor]
           && s'.subs.all[sub] == u.(hand := Some(p), picks := u.picks + [Position(u)])
           && s'.broker.receivers[sub] == r.(cursor := r.cursor + 1, picks := r.picks + [r.cursor])
  {
  }

  lemma PollKeepsOwn(env: Env, s: State, sub: SubId)
    requires LiveAt(s, sub) && Running(s, sub) && s.subs.all[sub].hand.None?
    requires s.broker.receivers[sub].topic == s.subs.all[sub].channel
    ensures LiveAt(PollReceiver(env, s, sub), sub)
  {
    var s' := PollReceiver(env, s, sub);
    PollOwn(env, s, sub);
    hide PollReceiver, Broker.Peek, Follows, Linked;
    var u, r := s.subs.all[sub], s.broker.receivers[sub];
    var sent, topic := BroadcastsOf(s, u.channel), s.broker.topics[u.channel];
    match Broker.Peek(env.capacity, s.broker, sub)
    case Pending =>
    case Lagged(n) => LagKeepsLive(sent, topic, r, u, n);
    case Item(_) => ItemKeepsLive(sent, topic, r, u);
  }

  lemma PollKeepsLive(env: Env, s: State, sub: SubId)
    requires LiveInv(s) && HubShape.SubsShape(s) && Running(s, sub) && s.subs.all[sub].hand.None?
    ensures LiveInv(PollReceiver(env, s, sub))
  {
    var s' := PollReceiver(env, s, sub);
    PollOthers(env, s, sub);
    hide PollReceiver, LiveAt, SameAt, HubShape.SubShape, Broker.Wf;
    forall x ensures LiveAt(s', x) {
      if x == sub { PollKeepsOwn(env, s, sub); } else { SameKeepsLive(s, s', x); }
    }
  }

  lemma ForwardKeepsLiveInv(s: State, sub: SubId)
    requires LiveInv(s) && HubShape.SubsShape(s) && Running(s, sub) && s.subs.all[sub].hand.Some?
    ensures LiveInv(ForwardHand(s, sub))
  {
    var s' := ForwardHand(s, sub);
    hide HubShape.SubShape, Broker.Wf;
    forall x ensures LiveAt(s', x) {
      assert LiveAt(s, x);
      if x == sub {
        var u := s.subs.all[sub];
        ForwardKeepsLive(BroadcastsOf(s, u.channel), s.broker.topics[u.channel], s.broker.receivers[sub], u);
      } else {
        assert SameAt(s, s', x);
      }
    }
  }

  lemma StepKeepsLive(env: Env, s: State, e: Event)
    requires LiveInv(s) && HubShape.SubsShape(s)
    ensures LiveInv(Step(env, s, e))
  {
    hide LiveInv, HubShape.SubsShape;
    var s' := Step(env, s, e);
    match e
    case Receive(t, sid, m) =>
      if t !in s.tasks.all && Reads(s, sid) {
        BeginFrame(env, Ask(s, sid, m), t, sid, m);
        hide Begin;
        forall sub ensures SameAt(s, s', sub) {}
        AllSameKeepsLive(s, s');
      }
    case Advance(t, fail) => if t in s.tasks.all { hide AdvanceTask; AdvanceKeepsLive(env, s, t, fail); }
    case PollStream(sub) =>
      hide AdvanceTask, Begin, PollReceiver;
      if Running(s, sub) && s.subs.all[sub].hand.None? { PollKeepsLive(env, s, sub); }
    case Forward(sub) =>
      hide AdvanceTask, Begin, ForwardHand;
      if Running(s, sub) && s.subs.all[sub].hand.Some? { ForwardKeepsLiveInv(s, sub); }
    case _ =>
      hide AdvanceTask, Begin;
      forall sub ensures SameAt(s, s', sub) {}
      AllSameKeepsLive(s, s');
  }

  lemma {:induction false} RunKeepsLive(env: Env, events: seq<Event>)
    ensures LiveInv(Run(env, Init, events))
    decreases |events|
  {
    hide Step;
    if events == [] {
      assert Init.subs.all == map[];
    } else {
      hide LiveInv, HubShape.SubsShape, HubShape.HeldShape, HubShape.TasksShape;
      var init := events[..|events| - 1];
      RunKeepsLive(env, init);
      HubShape.RunKeepsShape(env, init);
      StepKeepsLive(env, Run(env, Init, init), events[|events| - 1]);
    }
  }
}
