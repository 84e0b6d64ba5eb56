/** Every subscription and every log entry was authorised, over every run. */
module HubAuth {
  import opened Types
  import opened Frames
  import opened Hub
  import History
  import HubShape
  import Broker

  /** A handler past a gate passed it. */
  predicate Cleared(env: Env, k: Task) {
    k.message.Frame? ==>
      match k.message.frame
      case Subscribe(_, ch, _) =>
        && (k.stage.Entering? ==> env.allows(k.stage.claims, Subscribing, ch))
        && (k.stage.Attaching? ==> env.allows(k.stage.claims, Subscribing, ch))
      case Publish(_, ch, data) =>
        && (k.stage.Validating? ==> env.allows(k.stage.claims, Publishing, ch))
        && (k.stage.Accepting? ==> env.allows(k.stage.claims, Publishing, ch) && env.accepts(ch, data))
      case _ => true
  }

  /** Each log entry of `ch`: its author's claims allow it and the validator accepts it. */
  ghost predicate EntriesCleared(env: Env, log: LogAudit, ch: Channel) {
    var entries, authors := Get(log.log, ch, []), Get(log.authors, ch, []);
    && |authors| == |entries|
    && (forall i :: 0 <= i < |entries| ==>
          env.allows(authors[i].claims, Publishing, ch) && env.accepts(ch, entries[i].data))
  }

  predicate SubCleared(env: Env, u: Subscription) {
    env.allows(u.claims, Subscribing, u.channel)
  }

  ghost predicate GateInv(env: Env, s: State) {
    && (forall sub :: sub in s.subs.all ==> SubCleared(env, s.subs.all[sub]))
    && (forall t :: t in s.tasks.all ==> Cleared(env, s.tasks.all[t]))
    && (forall ch :: EntriesCleared(env, s.log, ch))
  }

  lemma SubscribeStaysCleared(env: Env, s: State, t: TaskId, fail: bool)
    requires t in s.tasks.all && SubscribeInFlight(s.tasks.all[t], s.tasks.all[t].sid)
    requires Cleared(env, s.tasks.all[t])
    ensures
      var s' := AdvanceSubscribe(env, s, t, s.tasks.all[t], fail);
      t in s'.tasks.all && Cleared(env, s'.tasks.all[t])
  {
  }

  lemma SubscribeKeepsGate(env: Env, s: State, t: TaskId, fail: bool)
    requires GateInv(env, s) && s.subs.next !in s.subs.all
    requires t in s.tasks.all && SubscribeInFlight(s.tasks.all[t], s.tasks.all[t].sid)
    ensures GateInv(env, AdvanceSubscribe(env, s, t, s.tasks.all[t], fail))
  {
    hide AdvanceSubscribe;
    SubscribeFrame(env, s, t, fail);
    SubscribeSubs(env, s, t, fail);
    SubscribeStaysCleared(env, s, t, fail);
  }

  lemma PublishKeepsGate(env: Env, s: State, t: TaskId, fail: bool)
    requires GateInv(env, s) && t in s.tasks.all && !s.tasks.all[t].stage.Replying?
    requires s.tasks.all[t].message.Frame? && s.tasks.all[t].message.frame.Publish?
    ensures GateInv(env, AdvancePublish(env, s, t, s.tasks.all[t], fail))
  {
    var k := s.tasks.all[t];
    var s' := AdvancePublish(env, s, t, k, fail);
    assert Cleared(env, k);
    PublishFrame(env, s, t, fail);
    PublishDoes(env, s, t, fail);
    hide AdvancePublish;
    forall ch ensures EntriesCleared(env, s'.log, ch) {
      assert EntriesCleared(env, s.log, ch);
    }
  }

  /** A publish's step adds at most one entry to the log, with its author, or to the broadcasts. */
  lemma PublishDoes(env: Env, s: State, t: TaskId, fail: bool)
    requires t in s.tasks.all && !s.tasks.all[t].stage.Replying?
    requires s.tasks.all[t].message.Frame? && s.tasks.all[t].message.frame.Publish? && Cleared(env, s.tasks.all[t])
    ensures
      var k, s' := s.tasks.all[t], AdvancePublish(env, s, t, s.tasks.all[t], fail);
      var ch := k.message.frame.channel;
      && s'.subs == s.subs && s'.claims == s.claims
      && (t in s'.tasks.all ==> Cleared(env, s'.tasks.all[t]))
      && (|| (s'.log.log == s.log.log && s'.log.authors == s.log.authors)
          || (&& k.stage.Accepting?
              && s'.log.log == s.log.log[ch := LogOf(s, ch) + [History.Record(s.now, k.message.frame.data)]]
              && s'.log.authors == s.log.authors[ch := AuthorsOf(s, ch) + [Author(k.sid, k.stage.claims)]]))
  {
    hide CodeFor, RequestId, Broker.Broadcast;
  }

  lemma AdvanceKeepsGate(env: Env, s: State, t: TaskId, fail: bool)
    requires GateInv(env, s) && s.subs.next !in s.subs.all && t in s.tasks.all
    ensures GateInv(env, AdvanceTask(env, s, t, s.tasks.all[t], fail))
  {
    var k := s.tasks.all[t];
    var s' := AdvanceTask(env, s, t, k, fail);
    hide AdvanceSubscribe, AdvancePublish;
    if SubscribeInFlight(k, k.sid) {
      SubscribeKeepsGate(env, s, t, fail);
    } else if !k.stage.Replying? && k.message.Frame? && k.message.frame.Publish? {
      PublishKeepsGate(env, s, t, fail);
    } else {
      assert s'.subs == s.subs && s'.log == s.log;
      assert t in s'.tasks.all ==> Cleared(env, s'.tasks.all[t]);
    }
  }

  lemma StepKeepsGate(env: Env, s: State, e: Event)
    requires GateInv(env, s) && HubShape.SubsShape(s)
    ensures GateInv(env, Step(env, s, e))
  {
    hide AdvanceTask, Begin, HubShape.SubShape, Broker.Wf;
    match e
    case Receive(t, sid, m) =>
      if t !in s.tasks.all && Reads(s, sid) {
        var s1 := Ask(s, sid, m);
        BeginFrame(env, s1, t, sid, m);
        BeginKeepsGate(env, s, Begin(env, s1, t, sid, m), t);
      }
    case Advance(t, fail) => if t in s.tasks.all { hide GateInv; AdvanceKeepsGate(env, s, t, fail); }
    case _ =>
      StepKeepsOrigins(env, s, e);
      hide Step, EntriesCleared, Cleared;
  }

  lemma BeginKeepsGate(env: Env, s: State, s': State, t: TaskId)
    requires GateInv(env, s) && s'.subs == s.subs && s'.log == s.log && t in s'.tasks.all
    requires s'.tasks.all == s.tasks.all[t := s'.tasks.all[t]]
    requires s'.tasks.all[t].stage.Replying? || s'.tasks.all[t].stage.Authenticating? || s'.tasks.all[t].stage.Gate?
             || s'.tasks.all[t].stage.Leaving?
    ensures GateInv(env, s')
  {
    hide EntriesCleared;
  }

  /** An event that is no message and no handler's step changes no handler, no log and no subscription's origin. */
  lemma StepKeepsOrigins(env: Env, s: State, e: Event)
    requires !e.Receive? && !e.Advance? && HubShape.SubsShape(s)
    ensures
      var s' := Step(env, s, e);
      && s'.tasks == s.tasks && s'.log == s.log && s'.subs.all.Keys == s.subs.all.Keys
      && (forall sub :: sub in s.subs.all ==> SameOrigin(s.subs.all[sub], s'.subs.all[sub]))
      && (e.Open? || s'.claims == s.claims)
  {
    hide AdvanceTask, Begin, HubShape.SubShape, Broker.Wf, Broker.Poll, Broker.Peek;
  }

  // --------------------------------------------------------------------
  // With connect required and frames handled one at a time, claims are fixed
  // --------------------------------------------------------------------

  ghost predicate HasClaims(table: ClaimTable, sid: SessionId, c: Claims) {
    sid in table.of && table.of[sid] == c
  }

  /** The claims a handler works under are its session's; one that authenticates found none. */
  ghost predicate TaskFixed(table: ClaimTable, k: Task) {
    match k.stage
    case Gate(c) => HasClaims(table, k.sid, c)
    case Entering(c) => HasClaims(table, k.sid, c)
    case Attaching(c, _) => HasClaims(table, k.sid, c)
    case Validating(c) => HasClaims(table, k.sid, c)
    case Accepting(c) => HasClaims(table, k.sid, c)
    case Authenticating => k.sid !in table.of
    case _ => true
  }

  ghost predicate AuthorsFixed(table: ClaimTable, log: LogAudit, ch: Channel, sid: SessionId) {
    var authors := Get(log.authors, ch, []);
    forall i :: 0 <= i < |authors| && authors[i].sid == sid ==> HasClaims(table, sid, authors[i].claims)
  }

  /** All that one session did or is doing, it did under the claims it has. */
  ghost predicate FixedInv(s: State, sid: SessionId) {
    && (forall sub :: sub in s.subs.all && s.subs.all[sub].sid == sid ==> HasClaims(s.claims, sid, s.subs.all[sub].claims))
    && (forall t :: t in s.tasks.all && s.tasks.all[t].sid == sid ==> TaskFixed(s.claims, s.tasks.all[t]))
    && (forall ch :: AuthorsFixed(s.claims, s.log, ch, sid))
  }

  /** The session's claims, once set, are the same. */
  ghost predicate ClaimsKept(s: State, s': State, sid: SessionId) {
    sid in s.claims.of ==> HasClaims(s'.claims, sid, s.claims.of[sid])
  }

  lemma SubscribeStaysFixed(env: Env, s: State, t: TaskId, fail: bool)
    requires t in s.tasks.all && SubscribeInFlight(s.tasks.all[t], s.tasks.all[t].sid)
    requires TaskFixed(s.claims, s.tasks.all[t])
    ensures
      var s' := AdvanceSubscribe(env, s, t, s.tasks.all[t], fail);
      t in s'.tasks.all && TaskFixed(s.claims, s'.tasks.all[t])
  {
  }

  lemma SubscribeKeepsFixed(env: Env, s: State, t: TaskId, fail: bool, sid: SessionId)
    requires FixedInv(s, sid) && s.subs.next !in s.subs.all
    requires t in s.tasks.all && SubscribeInFlight(s.tasks.all[t], s.tasks.all[t].sid)
    ensures
      var s' := AdvanceSubscribe(env, s, t, s.tasks.all[t], fail);
      FixedInv(s', sid) && s'.claims == s.claims
  {
    hide AdvanceSubscribe;
    var k := s.tasks.all[t];
    var s' := AdvanceSubscribe(env, s, t, k, fail);
    SubscribeFrame(env, s, t, fail);
    SubscribeSubs(env, s, t, fail);
    if k.sid == sid { SubscribeStaysFixed(env, s, t, fail); }
    forall sub | sub in s'.subs.all && s'.subs.all[sub].sid == sid
      ensures HasClaims(s.claims, sid, s'.subs.all[sub].claims)
    {
      assert sub in s.subs.all ==> SameOrigin(s.subs.all[sub], s'.subs.all[sub]);
    }
  }

  lemma PublishKeepsFixed(env: Env, s: State, t: TaskId, fail: bool, sid: SessionId)
    requires FixedInv(s, sid) && t in s.tasks.all && !s.tasks.all[t].stage.Replying?
    requires s.tasks.all[t].message.Frame? && s.tasks.all[t].message.frame.Publish?
    ensures
      var s' := AdvancePublish(env, s, t, s.tasks.all[t], fail);
      FixedInv(s', sid) && s'.claims == s.claims
  {
    var k := s.tasks.all[t];
    var s' := AdvancePublish(env, s, t, k, fail);
    hide AdvancePublish;
    PublishFrame(env, s, t, fail);
    PublishIsFixed(env, s, t, fail);
    assert k.sid == sid ==> TaskFixed(s.claims, k);
    forall ch ensures AuthorsFixed(s'.claims, s'.log, ch, sid) {
      assert AuthorsFixed(s.claims, s.log, ch, sid);
      if s'.log.authors != s.log.authors { AuthorAdded(s, s', k, ch, sid); }
    }
  }

  lemma AuthorAdded(s: State, s': State, k: Task, ch: Channel, sid: SessionId)
    requires AuthorsFixed(s.claims, s.log, ch, sid) && s'.claims == s.claims && k.stage.Accepting?
    requires k.message.Frame? && k.message.frame.Publish? && (k.sid == sid ==> TaskFixed(s.claims, k))
    requires
      var c := k.message.frame.channel;
      s'.log.authors == s.log.authors[c := AuthorsOf(s, c) + [Author(k.sid, k.stage.claims)]]
    ensures AuthorsFixed(s'.claims, s'.log, ch, sid)
  {
    var authors, authors' := Get(s.log.authors, ch, []), Get(s'.log.authors, ch, []);
    var a := Author(k.sid, k.stage.claims);
    assert authors' == if ch == k.message.frame.channel then authors + [a] else authors;
    forall i | 0 <= i < |authors'| && authors'[i].sid == sid ensures HasClaims(s'.claims, sid, authors'[i].claims) {
      if i < |authors| {
        assert authors'[i] == authors[i];
      } else {
        assert authors'[i] == a;
      }
    }
  }

  lemma PublishIsFixed(env: Env, s: State, t: TaskId, fail: bool)
    requires t in s.tasks.all && !s.tasks.all[t].stage.Replying?
    requires s.tasks.all[t].message.Frame? && s.tasks.all[t].message.frame.Publish?
    ensures
      var k, s' := s.tasks.all[t], AdvancePublish(env, s, t, s.tasks.all[t], fail);
      var ch := k.message.frame.channel;
      && s'.subs == s.subs && s'.claims == s.claims
      && (TaskFixed(s.claims, k) && t in s'.tasks.all ==> TaskFixed(s.claims, s'.tasks.all[t]))
      && (|| s'.log.authors == s.log.authors
          || (k.stage.Accepting? && s'.log.authors == s.log.authors[ch := AuthorsOf(s, ch) + [Author(k.sid, k.stage.claims)]]))
  {
    hide CodeFor, RequestId, Broker.Broadcast;
  }

  lemma ConnectKeepsFixed(env: Env, s: State, t: TaskId, sid: SessionId)
    requires FixedInv(s, sid) && SerialAt(s, sid) && t in s.tasks.all
    requires s.tasks.all[t].message.Frame? && s.tasks.all[t].message.frame.Connect?
    ensures
      var s' := AdvanceConnect(env, s, t, s.tasks.all[t]);
      FixedInv(s', sid) && ClaimsKept(s, s', sid)
  {
    var k := s.tasks.all[t];
    var s' := AdvanceConnect(env, s, t, k);
    assert k.sid == sid ==> TaskFixed(s.claims, k);
    assert ClaimsKept(s, s', sid);
    forall x | x in s'.tasks.all && s'.tasks.all[x].sid == sid ensures TaskFixed(s'.claims, s'.tasks.all[x]) {
      assert x != t ==> TaskFixed(s.claims, s.tasks.all[x]);
    }
    forall ch ensures AuthorsFixed(s'.claims, s'.log, ch, sid) {
      assert AuthorsFixed(s.claims, s.log, ch, sid);
    }
  }

  lemma AdvanceKeepsFixed(env: Env, s: State, t: TaskId, fail: bool, sid: SessionId)
    requires FixedInv(s, sid) && SerialAt(s, sid) && s.subs.next !in s.subs.all && t in s.tasks.all
    ensures
      var s' := AdvanceTask(env, s, t, s.tasks.all[t], fail);
      FixedInv(s', sid) && ClaimsKept(s, s', sid)
  {
    var k := s.tasks.all[t];
    var s' := AdvanceTask(env, s, t, k, fail);
    hide AdvanceSubscribe, AdvancePublish, AdvanceConnect;
    if SubscribeInFlight(k, k.sid) {
      SubscribeKeepsFixed(env, s, t, fail, sid);
    } else if !k.stage.Replying? && k.message.Frame? && k.message.frame.Publish? {
      PublishKeepsFixed(env, s, t, fail, sid);
    } else if !k.stage.Replying? && k.message.Frame? && k.message.frame.Connect? {
      ConnectKeepsFixed(env, s, t, sid);
    }
  }

  lemma BeginKeepsFixed(env: Env, s: State, t: TaskId, who: SessionId, m: Message, sid: SessionId)
    requires !env.anonymous && FixedInv(s, sid)
    ensures FixedInv(Begin(env, s, t, who, m), sid) && Begin(env, s, t, who, m).claims == s.claims
  {
    var s' := Begin(env, s, t, who, m);
    BeginFrame(env, s, t, who, m);
    assert s'.claims == s.claims && TaskFixed(s.claims, s'.tasks.all[t]);
    hide Begin;
  }

  lemma StepKeepsFixed(env: Env, s: State, e: Event, sid: SessionId)
    requires !env.anonymous && FixedInv(s, sid) && SerialAt(s, sid) && HubShape.SubsShape(s)
    ensures FixedInv(Step(env, s, e), sid) && ClaimsKept(s, Step(env, s, e), sid)
  {
    hide AdvanceTask, Begin, HubShape.SubShape, Broker.Wf;
    match e
    case Advance(t, fail) => if t in s.tasks.all { hide FixedInv; AdvanceKeepsFixed(env, s, t, fail, sid); }
    case Receive(t, who, m) =>
      if t !in s.tasks.all && Reads(s, who) { BeginKeepsFixed(env, Ask(s, who, m), t, who, m, sid); }
    case _ =>
      StepKeepsOrigins(env, s, e);
      assert Step(env, s, e).claims == s.claims;
      hide Step, TaskFixed, AuthorsFixed;
  }

  lemma {:induction false} RunKeepsGate(env: Env, events: seq<Event>)
    ensures GateInv(env, Run(env, Init, events))
    decreases |events|
  {
    if events == [] {
      assert Init.subs.all == map[] && Init.tasks.all == map[] && Init.log == LogAudit(map[], map[], map[]);
    } else {
      hide GateInv, Step, HubShape.TasksShape, HubShape.SubsShape, HubShape.HeldShape;
      var init := events[..|events| - 1];
      RunKeepsGate(env, init);
      HubShape.RunKeepsShape(env, init);
      StepKeepsGate(env, Run(env, Init, init), events[|events| - 1]);
    }
  }

  lemma {:induction false} RunKeepsFixed(env: Env, events: seq<Event>, sid: SessionId)
    requires !env.anonymous && SerialRunAt(env, events, sid)
    ensures FixedInv(Run(env, Init, events), sid)
    decreases |events|
  {
    if events == [] {
      assert Init.subs.all == map[] && Init.tasks.all == map[] && Init.log == LogAudit(map[], map[], map[]);
    } else {
      hide FixedInv, Step, SerialAt, HubShape.TasksShape, HubShape.SubsShape, HubShape.HeldShape;
      var init := events[..|events| - 1];
      RunKeepsFixed(env, init, sid);
      HubShape.RunKeepsShape(env, init);
      StepKeepsFixed(env, Run(env, Init, init), events[|events| - 1], sid);
    }
  }

  /**
   * In every reachable state a held subscription was allowed by the ACL under the
   * claims it was requested with. When the hub requires Connect and the session's
   * frames are handled one at a time, those are the claims the session has now.
   */
  lemma SubscriptionsAuthorised(env: Env, events: seq<Event>, sid: SessionId, ch: Channel)
    requires ch in HeldBy(Run(env, Init, events), sid)
    ensures
      var s := Run(env, Init, events);
      var sub := HeldBy(s, sid)[ch];
      && sub in s.subs.all
      && env.allows(s.subs.all[sub].claims, Subscribing, ch)
      && (!env.anonymous && SerialRunAt(env, events, sid) ==>
            HasClaims(s.claims, sid, s.subs.all[sub].claims) && env.allows(s.claims.of[sid], Subscribing, ch))
  {
    var s := Run(env, Init, events);
    RunKeepsGate(env, events);
    HubShape.RunKeepsShape(env, events);
    if !env.anonymous && SerialRunAt(env, events, sid) { RunKeepsFixed(env, events, sid); }
    hide Step, SerialRunAt;
    assert SubCleared(env, s.subs.all[HeldBy(s, sid)[ch]]);
  }

  /**
   * In every reachable state each accepted publication was allowed for its author
   * and accepted by the validator for its channel; under the same conditions on the
   * author's session it still has the claims it was allowed under.
   */
  lemma PublicationsAuthorised(env: Env, events: seq<Event>, ch: Channel, i: nat)
    requires i < |LogOf(Run(env, Init, events), ch)|
    ensures
      var s := Run(env, Init, events);
      && i < |AuthorsOf(s, ch)|
      && env.accepts(ch, LogOf(s, ch)[i].data)
      && env.allows(AuthorsOf(s, ch)[i].claims, Publishing, ch)
      && (!env.anonymous && SerialRunAt(env, events, AuthorsOf(s, ch)[i].sid) ==>
            HasClaims(s.claims, AuthorsOf(s, ch)[i].sid, AuthorsOf(s, ch)[i].claims))
  {
    var s := Run(env, Init, events);
    RunKeepsGate(env, events);
    assert EntriesCleared(env, s.log, ch);
    var sid := AuthorsOf(s, ch)[i].sid;
    hide SerialAt, SerialRunAt;
    if !env.anonymous && SerialRunAt(env, events, sid) {
      RunKeepsFixed(env, events, sid);
      assert AuthorsFixed(s.claims, s.log, ch, sid);
    }
  }

  /** Under the same conditions a session's claims are set at most once, whatever follows. */
  lemma {:induction false} ClaimsSetOnce(env: Env, before: seq<Event>, after: seq<Event>, sid: SessionId)
    requires !env.anonymous && SerialRunAt(env, before + after, sid)
    ensures ClaimsKept(Run(env, Init, before), Run(env, Init, before + after), sid)
    decreases |after|
  {
    hide Step, SerialAt, FixedInv, HubShape.TasksShape, HubShape.SubsShape, HubShape.HeldShape;
    if after == [] {
      assert before + after == before;
    } else {
      var all, init := before + after, before + after[..|after| - 1];
      assert all[..|all| - 1] == init;
      ClaimsSetOnce(env, before, after[..|after| - 1], sid);
      RunKeepsFixed(env, init, sid);
      HubShape.RunKeepsShape(env, init);
      StepKeepsFixed(env, Run(env, Init, init), all[|all| - 1], sid);
    }
  }
}
