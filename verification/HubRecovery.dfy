/** Recovery after a reconnect: replay and live stream together, over every run of a pub/sub hub. */
module HubRecovery {
  import opened Types
  import opened Frames
  import opened Hub
  import opened Streams
  import History
  import Broker
  import HubDelivery
  import HubLive
  import HubShape
  import Registry

  type BoundsOf = Channel -> History.Bounds

  ghost predicate Tracked(b: History.Bounds, cs: History.ChannelState, log: seq<History.Record>, now: nat) {
    exists first: nat :: History.Tracks(b, cs, log, now, first)
  }

  /** Each channel's ring stands for its log. */
  ghost predicate LogInv(bounds: BoundsOf, s: State) {
    forall ch :: Tracked(bounds(ch), Get(s.channels.of, ch, History.Fresh), LogOf(s, ch), s.now)
  }

  ghost predicate ReadInv(bounds: BoundsOf, s: State) {
    forall sub :: sub in s.subs.all ==>
      ReadRight(bounds(s.subs.all[sub].channel), LogOf(s, s.subs.all[sub].channel), s.now, s.subs.all[sub])
  }

  /** Fewer than 2^64 publications on any channel, so offsets have not saturated. */
  ghost predicate Bounded(s: State) {
    forall ch :: |LogOf(s, ch)| <= U64_MAX
  }

  predicate Unsent(sent: seq<Publication>, i: nat) {
    forall j :: 0 <= j < |sent| ==> sent[j].offset != i
  }

  /** A publication on its way to the broker is in the log and not yet sent; no other handler carries it. */
  ghost predicate FanTask(s: State, k: Task) {
    k.stage.FanningOut? ==>
      var p := k.stage.publication;
      && k.message.Frame? && k.message.frame.Publish? && k.message.frame.channel == p.channel
      && Genuine(p.channel, LogOf(s, p.channel), p)
      && Unsent(BroadcastsOf(s, p.channel), p.offset)
  }

  predicate Carries(k: Task, ch: Channel, i: nat) {
    k.stage.FanningOut? && k.stage.publication.channel == ch && k.stage.publication.offset == i
  }

  ghost predicate FanInv(s: State) {
    && (forall t :: t in s.tasks.all ==> FanTask(s, s.tasks.all[t]))
    && (forall t, t', ch, i ::
          t in s.tasks.all && t' in s.tasks.all && Carries(s.tasks.all[t], ch, i) && Carries(s.tasks.all[t'], ch, i)
          ==> t == t')
    && (forall ch :: SentRight(ch, LogOf(s, ch), BroadcastsOf(s, ch)))
  }

  /** Every broadcast is the log entry at its offset, and no offset was broadcast twice. */
  ghost predicate SentRight(ch: Channel, log: seq<History.Record>, sent: seq<Publication>) {
    Distinct(sent) && forall j :: 0 <= j < |sent| ==> Genuine(ch, log, sent[j])
  }

  /** What had been broadcast when a subscription attached had been accepted by then. */
  ghost predicate EarlyInv(s: State) {
    forall sub :: sub in s.subs.all ==>
      var u := s.subs.all[sub];
      u.attachedAt <= |BroadcastsOf(s, u.channel)| && Early(BroadcastsOf(s, u.channel), u)
  }

  ghost predicate RecoverInv(bounds: BoundsOf, s: State) {
    && LogInv(bounds, s)
    && ReadInv(bounds, s)
    && (Bounded(s) ==> FanInv(s) && EarlyInv(s))
  }

  // --------------------------------------------------------------------
  // Accepting a publication
  // --------------------------------------------------------------------

  lemma AcceptKeepsLog(env: Env, bounds: BoundsOf, s: State, t: TaskId, k: Task, claims: Claims, ch: Channel, data: Bytes)
    requires IsPubSub(env.kind, bounds) && LogInv(bounds, s)
    ensures LogInv(bounds, AcceptPublication(env, s, t, k, claims, ch, data))
  {
    var s' := AcceptPublication(env, s, t, k, claims, ch, data);
    hide IsPubSub;
    forall c ensures Tracked(bounds(c), Get(s'.channels.of, c, History.Fresh), LogOf(s', c), s'.now) {
      var cs := Get(s.channels.of, c, History.Fresh);
      assert Tracked(bounds(c), cs, LogOf(s, c), s.now);
      if c == ch {
        AppendIsPubSub(env, bounds, ch, cs, s.now, data);
        var first: nat :| History.Tracks(bounds(ch), cs, LogOf(s, ch), s.now, first);
        var first' := History.AppendTracks(bounds(ch), cs, LogOf(s, ch), s.now, s.now, first, data);
      }
    }
  }

  lemma AppendIsPubSub(env: Env, bounds: BoundsOf, ch: Channel, cs: History.ChannelState, now: nat, data: Bytes)
    requires IsPubSub(env.kind, bounds)
    ensures bounds(ch).size >= 1
    ensures env.kind.append(ch, cs, now, data) == History.Append(bounds(ch), cs, now, data)
  {
  }

  lemma AcceptKeepsRead(env: Env, bounds: BoundsOf, s: State, t: TaskId, k: Task, claims: Claims, ch: Channel, data: Bytes)
    requires ReadInv(bounds, s)
    ensures ReadInv(bounds, AcceptPublication(env, s, t, k, claims, ch, data))
  {
    var s' := AcceptPublication(env, s, t, k, claims, ch, data);
    forall sub | sub in s'.subs.all
      ensures ReadRight(bounds(s'.subs.all[sub].channel), LogOf(s', s'.subs.all[sub].channel), s'.now, s'.subs.all[sub])
    {
      var u := s.subs.all[sub];
      if u.channel == ch {
        AppendKeepsRead(bounds(ch), LogOf(s, ch), History.Record(s.now, data), s.now, u);
      }
    }
  }

  /** The ring's next offset is the log's length while offsets have not saturated. */
  lemma NextOffset(bounds: BoundsOf, s: State, ch: Channel)
    requires LogInv(bounds, s) && |LogOf(s, ch)| <= U64_MAX
    ensures Get(s.channels.of, ch, History.Fresh).next == |LogOf(s, ch)|
  {
    var cs := Get(s.channels.of, ch, History.Fresh);
    assert Tracked(bounds(ch), cs, LogOf(s, ch), s.now);
  }

  lemma AcceptKeepsFan(env: Env, bounds: BoundsOf, s: State, t: TaskId, k: Task, claims: Claims, ch: Channel, data: Bytes)
    requires FanInv(s) && LogInv(bounds, s) && |LogOf(s, ch)| < U64_MAX
    requires t in s.tasks.all && k == s.tasks.all[t] && k.stage.Accepting?
    requires k.message.Frame? && k.message.frame.Publish? && k.message.frame.channel == ch
    ensures FanInv(AcceptPublication(env, s, t, k, claims, ch, data))
  {
    var s' := AcceptPublication(env, s, t, k, claims, ch, data);
    NextOffset(bounds, s, ch);
    hide LogInv;
    var log := LogOf(s, ch);
    assert LogOf(s', ch) == log + [History.Record(s.now, data)];
    assert forall c :: BroadcastsOf(s', c) == BroadcastsOf(s, c) && LogOf(s, c) <= LogOf(s', c);
    assert Unsent(BroadcastsOf(s, ch), |log|) by { assert SentRight(ch, log, BroadcastsOf(s, ch)); }
    forall c ensures SentRight(c, LogOf(s', c), BroadcastsOf(s', c)) {
      assert SentRight(c, LogOf(s, c), BroadcastsOf(s, c));
      forall j | 0 <= j < |BroadcastsOf(s, c)| ensures Genuine(c, LogOf(s', c), BroadcastsOf(s, c)[j]) {
        assert Genuine(c, LogOf(s, c), BroadcastsOf(s, c)[j]);
      }
    }
    forall x | x in s'.tasks.all ensures FanTask(s', s'.tasks.all[x]) {
      if x != t {
        assert FanTask(s, s.tasks.all[x]);
      } else {
        assert Genuine(ch, LogOf(s', ch), Publication(ch, |log|, data));
      }
    }
    forall x, y, c, i | x in s'.tasks.all && y in s'.tasks.all
                        && Carries(s'.tasks.all[x], c, i) && Carries(s'.tasks.all[y], c, i)
      ensures x == y
    {
      if x != t { assert FanTask(s, s.tasks.all[x]); }
      if y != t { assert FanTask(s, s.tasks.all[y]); }
    }
  }

  // --------------------------------------------------------------------
  // Handing it to the broker
  // --------------------------------------------------------------------

  lemma FanOutKeepsFan(s: State, t: TaskId, k: Task, ch: Channel, p: Publication)
    requires FanInv(s) && t in s.tasks.all && k == s.tasks.all[t] && k.stage == FanningOut(p)
    requires k.message.Frame? && k.message.frame.Publish? && k.message.frame.channel == ch
    ensures FanInv(FanOut(s, t, k, ch, p))
  {
    var s' := FanOut(s, t, k, ch, p);
    assert FanTask(s, k) && Carries(k, ch, p.offset);
    forall x | x in s'.tasks.all ensures FanTask(s', s'.tasks.all[x]) {
      assert FanTask(s, s.tasks.all[x]);
      assert !Carries(s.tasks.all[x], ch, p.offset);
    }
    forall c ensures SentRight(c, LogOf(s', c), BroadcastsOf(s', c)) {
      assert SentRight(c, LogOf(s, c), BroadcastsOf(s, c));
    }
  }

  lemma FanOutKeepsEarly(s: State, t: TaskId, k: Task, ch: Channel, p: Publication)
    requires EarlyInv(s)
    ensures EarlyInv(FanOut(s, t, k, ch, p))
  {
    var s' := FanOut(s, t, k, ch, p);
    assert s'.subs == s.subs;
    assert forall c :: BroadcastsOf(s', c) == if c == ch then BroadcastsOf(s, ch) + [p] else BroadcastsOf(s, c);
  }

  // --------------------------------------------------------------------
  // Steps that leave log and broadcasts alone
  // --------------------------------------------------------------------

  /** No handler starts carrying a publication. */
  ghost predicate SameCarriers(s: State, s': State) {
    forall t :: t in s'.tasks.all && s'.tasks.all[t].stage.FanningOut? ==>
      t in s.tasks.all && s.tasks.all[t] == s'.tasks.all[t]
  }

  lemma SameKeepsFan(s: State, s': State)
    requires FanInv(s) && s'.log == s.log && SameCarriers(s, s')
    ensures FanInv(s')
  {
    forall t | t in s'.tasks.all ensures FanTask(s', s'.tasks.all[t]) {
      if s'.tasks.all[t].stage.FanningOut? { assert FanTask(s, s.tasks.all[t]); }
    }
    assert forall ch :: BroadcastsOf(s', ch) == BroadcastsOf(s, ch) && LogOf(s', ch) == LogOf(s, ch);
  }

  ghost predicate SameOrigins(s: State, s': State) {
    forall sub :: sub in s'.subs.all ==> sub in s.subs.all && SameOrigin(s.subs.all[sub], s'.subs.all[sub])
  }

  lemma SameKeepsEarly(s: State, s': State)
    requires EarlyInv(s) && s'.log.broadcasts == s.log.broadcasts && SameOrigins(s, s')
    ensures EarlyInv(s')
  {
    assert forall ch :: BroadcastsOf(s', ch) == BroadcastsOf(s, ch);
  }

  ghost predicate SameReads(s: State, s': State) {
    forall sub :: sub in s'.subs.all ==>
      || (s'.subs.all[sub].read.None? && s'.subs.all[sub].logAtAttach <= |LogOf(s, s'.subs.all[sub].channel)|)
      || (&& sub in s.subs.all
          && SameOrigin(s.subs.all[sub], s'.subs.all[sub])
          && s'.subs.all[sub].read == s.subs.all[sub].read
          && s'.subs.all[sub].replay == s.subs.all[sub].replay)
  }

  lemma SameKeepsReads(bounds: BoundsOf, s: State, s': State)
    requires ReadInv(bounds, s) && s'.log == s.log && s.now <= s'.now && SameReads(s, s')
    ensures ReadInv(bounds, s')
  {
    assert forall ch :: LogOf(s', ch) == LogOf(s, ch);
  }

  lemma SameKeepsLog(bounds: BoundsOf, s: State, s': State)
    requires LogInv(bounds, s) && s'.log == s.log && s'.channels == s.channels && s.now <= s'.now
    ensures LogInv(bounds, s')
  {
    forall ch ensures Tracked(bounds(ch), Get(s'.channels.of, ch, History.Fresh), LogOf(s', ch), s'.now) {
      var cs := Get(s.channels.of, ch, History.Fresh);
      assert Tracked(bounds(ch), cs, LogOf(s, ch), s.now);
      var first: nat :| History.Tracks(bounds(ch), cs, LogOf(s, ch), s.now, first);
      History.TickTracks(bounds(ch), cs, LogOf(s, ch), s.now, s'.now, first);
    }
  }

  // --------------------------------------------------------------------
  // Subscribe
  // --------------------------------------------------------------------

  lemma AttachKeepsEarly(s: State, t: TaskId, k: Task, claims: Claims, cursor: Cursor, ch: Channel, since: nat)
    requires EarlyInv(s) && FanInv(s)
    ensures EarlyInv(AttachStream(s, t, k, claims, cursor, ch, since))
  {
    var s' := AttachStream(s, t, k, claims, cursor, ch, since);
    assert forall c :: BroadcastsOf(s', c) == BroadcastsOf(s, c);
    assert SentRight(ch, LogOf(s, ch), BroadcastsOf(s, ch));
  }

  lemma ReadIsRight(env: Env, bounds: BoundsOf, s: State, t: TaskId, k: Task, sub: SubId, cursor: Cursor, ch: Channel,
                    since: nat)
    requires IsPubSub(env.kind, bounds) && LogInv(bounds, s) && sub in s.subs.all
    requires s.subs.all[sub].channel == ch && s.subs.all[sub].since == since && s.subs.all[sub].replay == []
    requires s.subs.all[sub].logAtAttach <= |LogOf(s, ch)|
    ensures
      var s' := ReadReplay(env, s, t, k, sub, cursor, ch, since);
      && ReadRight(bounds(ch), LogOf(s', ch), s'.now, s'.subs.all[sub])
      && Tracked(bounds(ch), Get(s'.channels.of, ch, History.Fresh), LogOf(s', ch), s'.now)
  {
    var cs, log := Get(s.channels.of, ch, History.Fresh), LogOf(s, ch);
    var b := bounds(ch);
    assert Tracked(b, cs, log, s.now);
    var first: nat :| History.Tracks(b, cs, log, s.now, first);
    var from := History.ReplayRefinesLog(b, ch, cs, log, s.now, s.now, first, since);
    var first' := History.ExpireTracks(b, cs, log, s.now, s.now, first);
    assert log[..|log|] == log;
    if ch in s.channels.of {
      assert env.kind.expire(ch, cs, s.now) == History.Expire(b, cs, s.now);
      assert env.kind.since(ch, History.Expire(b, cs, s.now), since)
          == History.Since(ch, History.Expire(b, cs, s.now).entries, since);
    }
  }

  lemma ReadKeepsLogAndReads(env: Env, bounds: BoundsOf, s: State, t: TaskId, k: Task, sub: SubId, cursor: Cursor,
                             ch: Channel, since: nat)
    requires IsPubSub(env.kind, bounds) && LogInv(bounds, s) && ReadInv(bounds, s) && sub in s.subs.all
    requires s.subs.all[sub].channel == ch && s.subs.all[sub].since == since && s.subs.all[sub].replay == []
    ensures
      var s' := ReadReplay(env, s, t, k, sub, cursor, ch, since);
      LogInv(bounds, s') && ReadInv(bounds, s')
  {
    var s' := ReadReplay(env, s, t, k, sub, cursor, ch, since);
    ReadIsRight(env, bounds, s, t, k, sub, cursor, ch, since);
    hide IsPubSub;
    assert s'.log == s.log;
    forall c ensures Tracked(bounds(c), Get(s'.channels.of, c, History.Fresh), LogOf(s', c), s'.now) {
      assert Tracked(bounds(c), Get(s.channels.of, c, History.Fresh), LogOf(s, c), s.now);
    }
    forall x | x in s'.subs.all
      ensures ReadRight(bounds(s'.subs.all[x].channel), LogOf(s', s'.subs.all[x].channel), s'.now, s'.subs.all[x])
    {
      assert x != sub ==> s'.subs.all[x] == s.subs.all[x];
    }
  }

  /** Log, channels and broadcasts untouched; subscriptions changed only in what recovery does not look at. */
  ghost predicate Untouched(s: State, s': State) {
    && s'.log == s.log && s'.channels == s.channels && s.now <= s'.now
    && SameReads(s, s') && SameOrigins(s, s') && SameCarriers(s, s')
  }

  lemma UntouchedKeeps(bounds: BoundsOf, s: State, s': State)
    requires RecoverInv(bounds, s) && Untouched(s, s')
    ensures RecoverInv(bounds, s')
  {
    SameKeepsLog(bounds, s, s');
    SameKeepsReads(bounds, s, s');
    hide LogInv, ReadInv;
    assert forall ch :: LogOf(s', ch) == LogOf(s, ch);
    if Bounded(s) {
      SameKeepsFan(s, s');
      SameKeepsEarly(s, s');
    }
  }

  lemma AttachKeeps(bounds: BoundsOf, s: State, t: TaskId, k: Task, claims: Claims, cursor: Cursor, ch: Channel, since: nat)
    requires RecoverInv(bounds, s) && HubShape.SubsShape(s)
    ensures RecoverInv(bounds, AttachStream(s, t, k, claims, cursor, ch, since))
  {
    var s' := AttachStream(s, t, k, claims, cursor, ch, since);
    assert forall c :: LogOf(s', c) == LogOf(s, c);
    assert SameCarriers(s, s');
    assert SameReads(s, s') by {
      forall sub | sub in s.subs.all ensures SameOrigin(s.subs.all[sub], s'.subs.all[sub]) {}
    }
    SameKeepsLog(bounds, s, s');
    SameKeepsReads(bounds, s, s');
    hide LogInv, ReadInv;
    if Bounded(s) {
      SameKeepsFan(s, s');
      AttachKeepsEarly(s, t, k, claims, cursor, ch, since);
    }
  }

  lemma ReadSameOrigins(env: Env, s: State, t: TaskId, k: Task, sub: SubId, cursor: Cursor, ch: Channel, since: nat)
    requires sub in s.subs.all
    ensures
      var s' := ReadReplay(env, s, t, k, sub, cursor, ch, since);
      s'.log == s.log && SameOrigins(s, s') && SameCarriers(s, s')
  {
  }

  lemma ReadKeeps(env: Env, bounds: BoundsOf, s: State, t: TaskId, k: Task, sub: SubId, cursor: Cursor,
                  ch: Channel, since: nat)
    requires IsPubSub(env.kind, bounds) && RecoverInv(bounds, s) && HubShape.SubsShape(s) && sub in s.subs.all
    requires s.subs.all[sub].channel == ch && s.subs.all[sub].since == since && s.subs.all[sub].replay == []
    ensures RecoverInv(bounds, ReadReplay(env, s, t, k, sub, cursor, ch, since))
  {
    var s' := ReadReplay(env, s, t, k, sub, cursor, ch, since);
    ReadKeepsLogAndReads(env, bounds, s, t, k, sub, cursor, ch, since);
    ReadSameOrigins(env, s, t, k, sub, cursor, ch, since);
    hide LogInv, ReadInv, IsPubSub, HubShape.SubsShape, ReadReplay, SameOrigins, SameCarriers, FanInv, EarlyInv;
    assert forall c :: LogOf(s', c) == LogOf(s, c);
    if Bounded(s) {
      SameKeepsFan(s, s');
      SameKeepsEarly(s, s');
    }
  }

  lemma SendUntouched(s: State, t: TaskId, k: Task, sub: SubId, cursor: Cursor)
    requires sub in s.subs.all && HubShape.SubsShape(s)
    ensures Untouched(s, SendReplay(s, t, k, sub, cursor))
  {
    hide HubShape.SubShape, Broker.Wf;
  }

  lemma InsertUntouched(s: State, t: TaskId, k: Task, sub: SubId, cursor: Cursor, ch: Channel)
    requires sub in s.subs.all && HubShape.SubsShape(s)
    ensures Untouched(s, InsertSubscription(s, t, k, sub, cursor, ch))
  {
    hide HubShape.SubShape, Broker.Wf, Registry.AddTo, RequestId;
    var s' := InsertSubscription(s, t, k, sub, cursor, ch);
    assert s'.subs.all == s.subs.all[sub := s.subs.all[sub].(running := true)] && s'.broker == s.broker;
    assert t in s'.tasks.all && s'.tasks.all == s.tasks.all[t := s'.tasks.all[t]] && s'.tasks.all[t].stage.Replying?;
    hide InsertSubscription;
  }

  /** Nothing recovery looks at changed but one task, and that carries nothing new. */
  lemma DropUntouched(s: State, s': State, t: TaskId)
    requires HubShape.SubsShape(s)
    requires s'.log == s.log && s'.channels == s.channels && s.now <= s'.now && s'.subs == s.subs
    requires OnlyTask(s, s', t) || s'.tasks == s.tasks || (t in s'.tasks.all && s'.tasks.all == s.tasks.all[t := s'.tasks.all[t]])
    requires t in s'.tasks.all ==> !s'.tasks.all[t].stage.FanningOut? || (t in s.tasks.all && s'.tasks.all[t] == s.tasks.all[t])
    ensures Untouched(s, s')
  {
    hide HubShape.SubShape, Broker.Wf;
  }

  predicate MovesSub(s: State, k: Task, fail: bool) {
    || (k.stage.Attaching? && !fail)
    || (k.stage.Reading? && !fail)
    || (k.stage.Sending? && k.sid in s.outboxes.open)
    || Inserts(s, k)
  }

  lemma QuietSubscribe(env: Env, s: State, t: TaskId, k: Task, fail: bool)
    requires t in s.tasks.all && k == s.tasks.all[t] && SubscribeInFlight(k, k.sid) && !MovesSub(s, k, fail)
    requires HubShape.SubsShape(s) && HubShape.TaskShape(s, k)
    ensures Untouched(s, AdvanceSubscribe(env, s, t, k, fail))
  {
    var s' := AdvanceSubscribe(env, s, t, k, fail);
    SubscribeFrame(env, s, t, fail);
    assert s'.subs == s.subs && s'.channels == s.channels;
    assert t in s'.tasks.all ==> !s'.tasks.all[t].stage.FanningOut? || s'.tasks.all[t] == k;
    hide Untouched, HubShape.SubsShape;
    DropUntouched(s, s', t);
  }

  lemma SubscribeKeeps(env: Env, bounds: BoundsOf, s: State, t: TaskId, k: Task, fail: bool)
    requires IsPubSub(env.kind, bounds) && RecoverInv(bounds, s)
    requires t in s.tasks.all && k == s.tasks.all[t] && SubscribeInFlight(k, k.sid)
    requires HubShape.SubsShape(s) && HubShape.TaskShape(s, k)
    ensures RecoverInv(bounds, AdvanceSubscribe(env, s, t, k, fail))
  {
    hide RecoverInv, Untouched, IsPubSub, HubShape.SubShape, Broker.Wf;
    var s' := AdvanceSubscribe(env, s, t, k, fail);
    var ch, since := k.message.frame.channel, k.message.frame.sinceOffset;
    if !MovesSub(s, k, fail) {
      hide AdvanceSubscribe, HubShape.SubsShape, HubShape.TaskShape;
      QuietSubscribe(env, s, t, k, fail);
      UntouchedKeeps(bounds, s, s');
    } else {
      match k.stage
      case Attaching(claims, cursor) =>
        hide AttachStream, HubShape.SubsShape;
        AttachKeeps(bounds, s, t, k, claims, cursor, ch, since);
      case Reading(sub, cursor) =>
        ReplayEmpty(s, sub);
        hide ReadReplay, HubShape.SubsShape;
        ReadKeeps(env, bounds, s, t, k, sub, cursor, ch, since);
      case Sending(sub, cursor) =>
        hide SendReplay, HubShape.SubsShape;
        SendUntouched(s, t, k, sub, cursor);
        UntouchedKeeps(bounds, s, s');
      case Inserting(sub, cursor) =>
        hide InsertSubscription, HubShape.SubsShape;
        InsertUntouched(s, t, k, sub, cursor, ch);
        UntouchedKeeps(bounds, s, s');
    }
  }

  lemma ReplayEmpty(s: State, sub: SubId)
    requires HubShape.SubsShape(s) && sub in s.subs.all && s.subs.all[sub].read.None?
    ensures s.subs.all[sub].replay == []
  {
    assert HubShape.SubShape(s.subs.all[sub]);
  }

  // --------------------------------------------------------------------
  // Publish
  // --------------------------------------------------------------------

  lemma AcceptKeeps(env: Env, bounds: BoundsOf, s: State, t: TaskId, k: Task, claims: Claims, ch: Channel, data: Bytes)
    requires IsPubSub(env.kind, bounds) && RecoverInv(bounds, s)
    requires t in s.tasks.all && k == s.tasks.all[t] && k.stage.Accepting?
    requires k.message.Frame? && k.message.frame.Publish? && k.message.frame.channel == ch
    ensures RecoverInv(bounds, AcceptPublication(env, s, t, k, claims, ch, data))
  {
    var s' := AcceptPublication(env, s, t, k, claims, ch, data);
    AcceptKeepsLog(env, bounds, s, t, k, claims, ch, data);
    AcceptKeepsRead(env, bounds, s, t, k, claims, ch, data);
    hide IsPubSub, ReadInv, LogInv, FanInv, EarlyInv;
    assert forall c :: |LogOf(s, c)| <= |LogOf(s', c)|;
    if Bounded(s') {
      assert Bounded(s);
      assert |LogOf(s', ch)| == |LogOf(s, ch)| + 1;
      AcceptKeepsFan(env, bounds, s, t, k, claims, ch, data);
      AcceptKeepsEarly(env, s, t, k, claims, ch, data);
    }
  }

  lemma AcceptKeepsEarly(env: Env, s: State, t: TaskId, k: Task, claims: Claims, ch: Channel, data: Bytes)
    requires EarlyInv(s)
    ensures EarlyInv(AcceptPublication(env, s, t, k, claims, ch, data))
  {
    var s' := AcceptPublication(env, s, t, k, claims, ch, data);
    assert s'.subs == s.subs && s'.log.broadcasts == s.log.broadcasts;
    SameKeepsEarly(s, s');
  }

  lemma FanOutKeeps(bounds: BoundsOf, s: State, t: TaskId, k: Task, ch: Channel, p: Publication)
    requires RecoverInv(bounds, s) && HubShape.SubsShape(s)
    requires t in s.tasks.all && k == s.tasks.all[t] && k.stage == FanningOut(p)
    requires k.message.Frame? && k.message.frame.Publish? && k.message.frame.channel == ch
    ensures RecoverInv(bounds, FanOut(s, t, k, ch, p))
  {
    var s' := FanOut(s, t, k, ch, p);
    assert forall c :: LogOf(s', c) == LogOf(s, c);
    assert LogInv(bounds, s') by {
      forall c ensures Tracked(bounds(c), Get(s'.channels.of, c, History.Fresh), LogOf(s', c), s'.now) {
        assert Tracked(bounds(c), Get(s.channels.of, c, History.Fresh), LogOf(s, c), s.now);
      }
    }
    assert ReadInv(bounds, s');
    hide LogInv, ReadInv;
    if Bounded(s) {
      assert FanTask(s, k);
      hide FanOut;
      FanOutKeepsFan(s, t, k, ch, p);
      FanOutKeepsEarly(s, t, k, ch, p);
    }
  }

  lemma AdvanceKeeps(env: Env, bounds: BoundsOf, s: State, t: TaskId, fail: bool)
    requires IsPubSub(env.kind, bounds) && RecoverInv(bounds, s) && HubShape.ShapeInv(s) && t in s.tasks.all
    ensures RecoverInv(bounds, AdvanceTask(env, s, t, s.tasks.all[t], fail))
  {
    var k := s.tasks.all[t];
    var s' := AdvanceTask(env, s, t, k, fail);
    assert HubShape.TaskShape(s, k);
    hide RecoverInv, IsPubSub, AdvanceSubscribe, HubShape.SubsShape, HubShape.HeldShape, HubShape.TasksShape;
    if SubscribeInFlight(k, k.sid) {
      hide AdvancePublish, AdvanceConnect, AdvanceUnsubscribe, Deliver;
      SubscribeKeeps(env, bounds, s, t, k, fail);
    } else if Publishes(k, fail) {
      hide AcceptPublication, FanOut, Fail, AdvanceConnect, AdvanceUnsubscribe, Deliver;
      if k.stage.Accepting? {
        AcceptKeeps(env, bounds, s, t, k, k.stage.claims, k.message.frame.channel, k.message.frame.data);
      } else {
        FanOutKeeps(bounds, s, t, k, k.message.frame.channel, k.stage.publication);
      }
    } else {
      hide AdvanceTask, Untouched;
      QuietAdvance(env, s, t, fail);
      UntouchedKeeps(bounds, s, s');
    }
  }

  predicate Publishes(k: Task, fail: bool) {
    && !k.stage.Replying? && k.message.Frame? && k.message.frame.Publish?
    && ((k.stage.Accepting? && k.message.frame.channel != []) || (k.stage.FanningOut? && !fail))
  }

  lemma QuietAdvance(env: Env, s: State, t: TaskId, fail: bool)
    requires t in s.tasks.all && HubShape.SubsShape(s)
    requires !SubscribeInFlight(s.tasks.all[t], s.tasks.all[t].sid) && !Publishes(s.tasks.all[t], fail)
    ensures Untouched(s, AdvanceTask(env, s, t, s.tasks.all[t], fail))
  {
    hide AdvanceSubscribe, Untouched, HubShape.SubsShape;
    var k := s.tasks.all[t];
    var s' := AdvanceTask(env, s, t, k, fail);
    AdvanceFrame(env, s, t, fail);
    assert s'.log == s.log && s'.channels == s.channels && s'.subs == s.subs;
    assert t in s'.tasks.all ==> !s'.tasks.all[t].stage.FanningOut? || s'.tasks.all[t] == k;
    hide AdvanceTask;
    DropUntouched(s, s', t);
  }

  // --------------------------------------------------------------------
  // Messages, forwarders and the rest
  // --------------------------------------------------------------------

  lemma BeginUntouched(env: Env, s: State, t: TaskId, sid: SessionId, m: Message)
    requires HubShape.SubsShape(s) && t !in s.tasks.all
    ensures Untouched(s, Begin(env, s, t, sid, m))
  {
    var s' := Begin(env, s, t, sid, m);
    BeginFrame(env, s, t, sid, m);
    hide Begin, HubShape.SubsShape, Untouched;
    DropUntouched(s, s', t);
  }

  lemma PollUntouched(env: Env, s: State, sub: SubId)
    requires Running(s, sub) && HubShape.SubsShape(s)
    ensures Untouched(s, PollReceiver(env, s, sub))
  {
    hide HubShape.SubShape, Broker.Wf, Broker.Peek, Broker.Poll;
  }

  lemma ForwardUntouched(s: State, sub: SubId)
    requires HubShape.SubsShape(s) && Running(s, sub) && s.subs.all[sub].hand.Some?
    ensures Untouched(s, ForwardHand(s, sub))
  {
    hide HubShape.SubShape, Broker.Wf;
  }

  lemma IdleUntouched(s: State, s': State)
    requires HubShape.SubsShape(s)
    requires s'.log == s.log && s'.channels == s.channels && s.now <= s'.now && s'.subs == s.subs && s'.tasks == s.tasks
    ensures Untouched(s, s')
  {
    hide HubShape.SubShape, Broker.Wf;
  }

  lemma StepKeeps(env: Env, bounds: BoundsOf, s: State, e: Event)
    requires IsPubSub(env.kind, bounds) && RecoverInv(bounds, s) && HubShape.ShapeInv(s)
    ensures RecoverInv(bounds, Step(env, s, e))
  {
    hide RecoverInv, IsPubSub, Untouched, HubShape.SubsShape, HubShape.HeldShape, HubShape.TasksShape;
    var s' := Step(env, s, e);
    match e
    case Receive(t, sid, m) =>
      if t !in s.tasks.all && Reads(s, sid) {
        var s1 := Ask(s, sid, m);
        IdleUntouched(s, s1);
        UntouchedKeeps(bounds, s, s1);
        SubsShapeOf(s, s1);
        hide Begin;
        BeginUntouched(env, s1, t, sid, m);
        UntouchedKeeps(bounds, s1, s');
      }
    case Advance(t, fail) => if t in s.tasks.all { hide AdvanceTask; AdvanceKeeps(env, bounds, s, t, fail); }
    case PollStream(sub) =>
      hide AdvanceTask, Begin, PollReceiver;
      if Running(s, sub) && s.subs.all[sub].hand.None? {
        PollUntouched(env, s, sub);
        UntouchedKeeps(bounds, s, s');
      }
    case Forward(sub) =>
      hide AdvanceTask, Begin, ForwardHand;
      if Running(s, sub) && s.subs.all[sub].hand.Some? {
        ForwardUntouched(s, sub);
        UntouchedKeeps(bounds, s, s');
      }
    case _ =>
      hide AdvanceTask, Begin;
      IdleUntouched(s, s');
      UntouchedKeeps(bounds, s, s');
  }

  lemma SubsShapeOf(s: State, s': State)
    requires HubShape.SubsShape(s) && s'.subs == s.subs && s'.broker == s.broker
    ensures HubShape.SubsShape(s')
  {
  }

  lemma {:induction false} RunKeeps(env: Env, bounds: BoundsOf, events: seq<Event>)
    requires IsPubSub(env.kind, bounds)
    ensures RecoverInv(bounds, Run(env, Init, events))
    decreases |events|
  {
    if events == [] {
      InitRecover(bounds);
    } else {
      hide RecoverInv, IsPubSub, Step, HubShape.ShapeInv;
      var init := events[..|events| - 1];
      RunKeeps(env, bounds, init);
      HubShape.RunKeepsShape(env, init);
      StepKeeps(env, bounds, Run(env, Init, init), events[|events| - 1]);
    }
  }

  lemma InitRecover(bounds: BoundsOf)
    ensures RecoverInv(bounds, Init)
  {
    assert Init.subs.all == map[] && Init.tasks.all == map[] && Init.log == LogAudit(map[], map[], map[]);
    assert Init.broker == Broker.BrokerState(map[], map[]) && Init.channels.of == map[];
    forall ch ensures Tracked(bounds(ch), Get(Init.channels.of, ch, History.Fresh), LogOf(Init, ch), Init.now) {
      assert History.Tracks(bounds(ch), History.Fresh, [], Init.now, 0);
    }
  }

  // --------------------------------------------------------------------
  // At-least-once recovery
  // --------------------------------------------------------------------

  /** A subscription's stream, attached or ended, whatever the interleaving. */
  lemma AnyStream(env: Env, bounds: BoundsOf, events: seq<Event>, sub: SubId)
    requires IsPubSub(env.kind, bounds)
    requires var s := Run(env, Init, events); Bounded(s) && sub in s.subs.all
    ensures
      var s := Run(env, Init, events);
      var u := s.subs.all[sub];
      var log, sent := LogOf(s, u.channel), BroadcastsOf(s, u.channel);
      && Follows(sent, u) && Early(sent, u) && SentRight(u.channel, log, sent) && HubLive.LiveAt(s, sub)
      && ReadRight(bounds(u.channel), log, s.now, u)
      && HubShape.SubShape(u)
      && |log| <= U64_MAX
  {
    hide IsPubSub;
    var s := Run(env, Init, events);
    RunKeeps(env, bounds, events);
    HubShape.RunKeepsShape(env, events);
    HubLive.RunKeepsLive(env, events);
    hide Step;
    assert HubLive.LiveAt(s, sub) && SentRight(s.subs.all[sub].channel, LogOf(s, s.subs.all[sub].channel),
                                               BroadcastsOf(s, s.subs.all[sub].channel));
  }

  /** Offset `i` lies in the topic at or past the receiver's position. */
  predicate Waiting(topic: seq<Publication>, r: Broker.Receiver, i: nat) {
    exists j :: r.cursor <= j < |topic| && topic[j].offset == i
  }

  /** For an attached receiver, what is ahead of it is in its topic. */
  lemma AheadIsWaiting(sent: seq<Publication>, topic: seq<Publication>, r: Broker.Receiver, u: Subscription, i: nat)
    requires Linked(sent, topic, r, u) && Ahead(sent, u, i)
    ensures Waiting(topic, r, i)
  {
    var p :| Position(u) <= p < |sent| && sent[p].offset == i;
    assert topic[r.start + (p - u.attachedAt)] == sent[p];
  }

  /** The handler has read offset `i` for replay and not sent it. */
  predicate Unreplayed(u: Subscription, i: nat) {
    u.replayed <= |u.replay| && In(u.replay[u.replayed..], i)
  }

  /** The forwarder has taken offset `i` from the stream and not sent it. */
  predicate InHand(u: Subscription, i: nat) {
    u.hand.Some? && u.hand.value.offset == i
  }

  /** What was read for replay or taken was sent, or is about to be. */
  lemma PassedOrHeld(u: Subscription, i: nat)
    requires u.replayed <= |u.replay| && (In(u.replay, i) || In(Taken(u), i))
    ensures In(HubDelivery.Passed(u), i) || Unreplayed(u, i) || InHand(u, i)
  {
    var passed := HubDelivery.Passed(u);
    if In(u.replay, i) {
      var k :| 0 <= k < |u.replay| && u.replay[k].offset == i;
      if k < u.replayed {
        assert passed[k] == u.replay[k];
      } else {
        assert u.replay[u.replayed..][k - u.replayed] == u.replay[k];
      }
    } else {
      var k :| 0 <= k < |Taken(u)| && Taken(u)[k].offset == i;
      if k < |u.forwarded| { assert passed[u.replayed + k] == u.forwarded[k]; }
    }
  }

  /**
   * At-least-once, under every interleaving of publishers, subscribers, kicks and
   * closes: once a subscription with `since > 0` has read its replay, every publication
   * past `since` that was broadcast has reached the session's outbox through it; or it is
   * read for replay and not yet sent, or in the forwarder's hand; or it was skipped by
   * lag, or had been evicted before the read; or the stream has not come to it: it waits
   * in the topic of an attached stream, or the stream ended before it or with it in hand.
   */
  lemma AtLeastOnceRecovery(env: Env, bounds: BoundsOf, events: seq<Event>, sub: SubId, p: nat)
    requires IsPubSub(env.kind, bounds)
    requires
      var s := Run(env, Init, events);
      && Bounded(s) && sub in s.subs.all && s.subs.all[sub].read.Some?
      && p < |BroadcastsOf(s, s.subs.all[sub].channel)|
      && BroadcastsOf(s, s.subs.all[sub].channel)[p].offset > s.subs.all[sub].since
    ensures
      var s := Run(env, Init, events);
      var u, attached := s.subs.all[sub], sub in s.broker.receivers;
      var sent := BroadcastsOf(s, u.channel);
      var i := sent[p].offset;
      || In(HubDelivery.Through(OutboxOf(s, u.sid), sub), i)
      || Unreplayed(u, i)
      || InHand(u, i)
      || Skipped(sent, u, i)
      || Evicted(bounds(u.channel), LogOf(s, u.channel), u, i)
      || (attached && Waiting(Get(s.broker.topics, u.channel, []), s.broker.receivers[sub], i))
      || (!attached && (Ahead(sent, u, i) || LostInHand(sent, u, i)))
  {
    AnyStream(env, bounds, events, sub);
    var s := Run(env, Init, events);
    var u := s.subs.all[sub];
    var sent := BroadcastsOf(s, u.channel);
    var i := sent[p].offset;
    Accounted(bounds(u.channel), LogOf(s, u.channel), s.now, sent, u, p);
    hide Step, Run, IsPubSub, Evicted, ReadRight, SentRight, HubDelivery.Through, HubDelivery.InBroadcastOrder;
    HubDelivery.ReplayThenLive(env, events, u.sid, sub);
    if In(u.replay, i) || In(Taken(u), i) {
      PassedOrHeld(u, i);
    } else if sub in s.broker.receivers && Ahead(sent, u, i) {
      AheadIsWaiting(sent, s.broker.topics[u.channel], s.broker.receivers[sub], u, i);
    }
  }

  /**
   * And at most twice: an offset comes twice through one subscription, attached or
   * ended, only if it was accepted before the replay read and broadcast after the
   * stream was attached.
   */
  lemma AtMostTwiceDelivered(env: Env, bounds: BoundsOf, events: seq<Event>, sub: SubId, i: nat)
    requires IsPubSub(env.kind, bounds)
    requires var s := Run(env, Init, events); Bounded(s) && sub in s.subs.all
    ensures
      var s := Run(env, Init, events);
      var u := s.subs.all[sub];
      var sent := BroadcastsOf(s, u.channel);
      var seen := multiset(Offsets(u.replay + Taken(u)))[i];
      && seen <= 2
      && (seen == 2 ==>
            && u.read.Some? && i < u.read.value.len
            && exists p :: u.attachedAt <= p < |sent| && sent[p].offset == i)
  {
    AnyStream(env, bounds, events, sub);
    var s := Run(env, Init, events);
    var u := s.subs.all[sub];
    hide Step, Run, IsPubSub, Follows, ReadRight, Distinct;
    AtMostTwice(bounds(u.channel), LogOf(s, u.channel), s.now, BroadcastsOf(s, u.channel), u, i);
  }
}
