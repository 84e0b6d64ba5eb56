/** Exactly-once recovery when publishes on a channel do not overlap. */
module HubOrder {
  import opened Types
  import opened Frames
  import opened Hub
  import opened Streams
  import opened HubRecovery
  import History
  import HubDelivery
  import HubLive
  import HubShape

  /**
   * Publishes on `ch` do not overlap: at most the newest accepted publication is still to be
   * broadcast. This also excludes a broadcast that failed, since its publication never reaches
   * the live streams.
   */
  ghost predicate NoOverlap(s: State, ch: Channel) {
    |LogOf(s, ch)| <= |BroadcastsOf(s, ch)| + 1
  }

  ghost predicate NoOverlapRun(env: Env, events: seq<Event>, ch: Channel)
    decreases |events|
  {
    && NoOverlap(Run(env, Init, events), ch)
    && (events != [] ==> NoOverlapRun(env, events[..|events| - 1], ch))
  }

  /** The broadcasts of `ch` are the log's first entries, in log order. */
  ghost predicate OrderInv(s: State, ch: Channel) {
    forall j :: 0 <= j < |BroadcastsOf(s, ch)| ==> BroadcastsOf(s, ch)[j].offset == j
  }

  lemma LowOffsetsAreSent(s: State, ch: Channel)
    requires OrderInv(s, ch)
    ensures forall i :: 0 <= i < |BroadcastsOf(s, ch)| ==> !Unsent(BroadcastsOf(s, ch), i)
  {
    forall i | 0 <= i < |BroadcastsOf(s, ch)| ensures !Unsent(BroadcastsOf(s, ch), i) {
      assert BroadcastsOf(s, ch)[i].offset == i;
    }
  }

  lemma FanOutKeepsOrder(s: State, t: TaskId, k: Task, c: Channel, p: Publication, ch: Channel)
    requires OrderInv(s, ch) && NoOverlap(s, ch)
    requires Genuine(c, LogOf(s, c), p) && Unsent(BroadcastsOf(s, c), p.offset)
    ensures OrderInv(FanOut(s, t, k, c, p), ch)
  {
    var s' := FanOut(s, t, k, c, p);
    var sent := BroadcastsOf(s, ch);
    if c == ch {
      assert BroadcastsOf(s', ch) == sent + [p];
      LowOffsetsAreSent(s, ch);
    } else {
      assert BroadcastsOf(s', ch) == sent;
    }
  }

  lemma AdvanceKeepsOrder(env: Env, s: State, t: TaskId, fail: bool, ch: Channel)
    requires OrderInv(s, ch) && NoOverlap(s, ch) && FanInv(s) && t in s.tasks.all
    ensures OrderInv(AdvanceTask(env, s, t, s.tasks.all[t], fail), ch)
  {
    var k := s.tasks.all[t];
    var s' := AdvanceTask(env, s, t, k, fail);
    assert FanTask(s, k);
    hide AdvanceSubscribe, FanInv;
    if SubscribeInFlight(k, k.sid) {
      SubscribeFrame(env, s, t, fail);
    } else if Publishes(k, fail) && k.stage.FanningOut? {
      hide FanOut, OrderInv;
      FanOutKeepsOrder(s, t, k, k.message.frame.channel, k.stage.publication, ch);
    } else {
      assert s'.log.broadcasts == s.log.broadcasts;
    }
  }

  lemma StepKeepsOrder(env: Env, s: State, e: Event, ch: Channel)
    requires OrderInv(s, ch) && NoOverlap(s, ch) && FanInv(s)
    ensures OrderInv(Step(env, s, e), ch)
  {
    hide FanInv, AdvanceTask;
    match e
    case Receive(t, sid, m) =>
      if t !in s.tasks.all && Reads(s, sid) { BeginFrame(env, Ask(s, sid, m), t, sid, m); }
      hide Begin;
    case Advance(t, fail) => if t in s.tasks.all { AdvanceKeepsOrder(env, s, t, fail, ch); }
    case _ => hide Begin;
  }

  /** Logs only grow, so an earlier state of a bounded run is bounded. */
  lemma StepBounded(env: Env, s: State, e: Event)
    requires Bounded(Step(env, s, e))
    ensures Bounded(s)
  {
    var s' := Step(env, s, e);
    if e.Advance? && e.t in s.tasks.all {
      var k := s.tasks.all[e.t];
      hide AdvanceSubscribe;
      if SubscribeInFlight(k, k.sid) { SubscribeFrame(env, s, e.t, e.fail); }
      assert forall ch :: |LogOf(s, ch)| <= |LogOf(s', ch)|;
    } else {
      hide AdvanceTask;
      assert s'.log == s.log;
      assert forall ch :: LogOf(s, ch) == LogOf(s', ch);
    }
  }

  lemma {:induction false} RunKeepsOrder(env: Env, bounds: BoundsOf, events: seq<Event>, ch: Channel)
    requires IsPubSub(env.kind, bounds) && Bounded(Run(env, Init, events)) && NoOverlapRun(env, events, ch)
    ensures OrderInv(Run(env, Init, events), ch)
    decreases |events|
  {
    hide IsPubSub;
    if events == [] {
      assert Init.log == LogAudit(map[], map[], map[]);
    } else {
      var init := events[..|events| - 1];
      var s := Run(env, Init, init);
      hide Step, OrderInv, NoOverlap, FanInv, EarlyInv, LogInv, ReadInv;
      StepBounded(env, s, events[|events| - 1]);
      RunKeepsOrder(env, bounds, init, ch);
      RunKeeps(env, bounds, init);
      StepKeepsOrder(env, s, events[|events| - 1], ch);
    }
  }

  /**
   * Exactly once: on a channel whose publishes never overlapped, a subscription with
   * `since > 0`, attached or ended, whose replay lost nothing to eviction and whose
   * receiver never lagged gave a client that drops frames not above the highest offset
   * seen exactly `log[since + 1 ..]`, in order, as far as frames were delivered to its outbox.
   */
  lemma ExactlyOnceRecovery(env: Env, bounds: BoundsOf, events: seq<Event>, sub: SubId)
    requires IsPubSub(env.kind, bounds)
    requires
      var s := Run(env, Init, events);
      && Bounded(s) && sub in s.subs.all
      && var u := s.subs.all[sub];
      && NoOverlapRun(env, events, u.channel)
      && NothingEvicted(bounds(u.channel), LogOf(s, u.channel), u)
      && u.skipped == 0
    ensures
      var s := Run(env, Init, events);
      var u := s.subs.all[sub];
      var log, reached := LogOf(s, u.channel), Reached(u);
      && reached <= Max(u.since + 1, |log|)
      && Dedup(u.since, HubDelivery.Through(OutboxOf(s, u.sid), sub)) == Range(u.channel, log, u.since + 1, reached)
  {
    hide Step, Run, IsPubSub, NothingEvicted, NoOverlapRun, Bounded, Follows, ReadRight, HubShape.SubShape, Early;
    hide HubLive.LiveAt, HubDelivery.InBroadcastOrder, OrderInv, SentRight;
    var s := Run(env, Init, events);
    var u := s.subs.all[sub];
    var log, sent := LogOf(s, u.channel), BroadcastsOf(s, u.channel);
    AnyStream(env, bounds, events, sub);
    RunKeepsOrder(env, bounds, events, u.channel);
    HubDelivery.ReplayThenLive(env, events, u.sid, sub);
    InOrderFrom(s, u, log);
    ExactlyOnce(bounds(u.channel), log, s.now, sent, u);
  }

  lemma InOrderFrom(s: State, u: Subscription, log: seq<History.Record>)
    requires OrderInv(s, u.channel) && SentRight(u.channel, log, BroadcastsOf(s, u.channel))
    requires Follows(BroadcastsOf(s, u.channel), u) && Early(BroadcastsOf(s, u.channel), u)
    ensures InOrder(u.channel, log, BroadcastsOf(s, u.channel)) && u.attachedAt <= u.logAtAttach
  {
    if u.attachedAt > 0 { assert BroadcastsOf(s, u.channel)[u.attachedAt - 1].offset < u.logAtAttach; }
  }
}
