/** A publish answered with success was handed to the broker, over every run of a pub/sub hub. */
module HubFanOut {
  import opened Types
  import opened Frames
  import opened Hub
  import opened Streams
  import opened HubPublish
  import opened HubRecovery
  import Broker
  import History
  import HubIndex
  import HubOrder
  import HubShape

  /** How many broadcasts have the payload and belong to a log entry of the session. */
  function SentBy(sent: seq<Publication>, authors: seq<Author>, sid: SessionId, data: Bytes): nat {
    if sent == [] then 0
    else
      var p := sent[|sent| - 1];
      SentBy(sent[..|sent| - 1], authors, sid, data)
      + One(p.data == data && p.offset < |authors| && authors[p.offset].sid == sid)
  }

  /** A publication on its way is the handler's own: its payload, and its session the log entry's author. */
  ghost predicate CarrierAt(s: State, k: Task) {
    k.stage.FanningOut? ==>
      var p := k.stage.publication;
      && IsPublish(k.message, p.channel, p.data)
      && p.offset < |AuthorsOf(s, p.channel)| && AuthorsOf(s, p.channel)[p.offset].sid == k.sid
  }

  ghost predicate CarrierInv(s: State) {
    forall t :: t in s.tasks.all ==> CarrierAt(s, s.tasks.all[t])
  }

  ghost predicate CountAt(s: State, sid: SessionId, ch: Channel, data: Bytes) {
    SentBy(BroadcastsOf(s, ch), AuthorsOf(s, ch), sid, data) == Answered(AnsweredTo(s, sid), true, ch, data)
  }

  predicate WasSent(s: State, ch: Channel, i: nat) { !Unsent(BroadcastsOf(s, ch), i) }

  predicate IsCarried(s: State, ch: Channel, i: nat) {
    exists t :: t in s.tasks.all && Carries(s.tasks.all[t], ch, i)
  }

  /** The session was told that a publish of the payload failed. */
  predicate WasRefused(verdicts: seq<Verdict>, ch: Channel, data: Bytes) {
    exists j :: 0 <= j < |verdicts| && !verdicts[j].ok && IsPublish(verdicts[j].message, ch, data)
  }

  ghost predicate FateAt(s: State, ch: Channel, i: nat) {
    i < |LogOf(s, ch)| && i < |AuthorsOf(s, ch)| ==>
      || WasSent(s, ch, i)
      || IsCarried(s, ch, i)
      || WasRefused(AnsweredTo(s, AuthorsOf(s, ch)[i].sid), ch, LogOf(s, ch)[i].data)
  }

  // --------------------------------------------------------------------
  // Values
  // --------------------------------------------------------------------

  lemma SentSnoc(sent: seq<Publication>, authors: seq<Author>, p: Publication, sid: SessionId, data: Bytes)
    ensures SentBy(sent + [p], authors, sid, data)
         == SentBy(sent, authors, sid, data) + One(p.data == data && p.offset < |authors| && authors[p.offset].sid == sid)
  {
    assert (sent + [p])[..|sent|] == sent;
  }

  lemma {:induction false} SentMoreAuthors(sent: seq<Publication>, authors: seq<Author>, a: Author, sid: SessionId, data: Bytes)
    requires forall j :: 0 <= j < |sent| ==> sent[j].offset < |authors|
    ensures SentBy(sent, authors + [a], sid, data) == SentBy(sent, authors, sid, data)
  {
    if sent != [] {
      assert sent[|sent| - 1].offset < |authors|;
      SentMoreAuthors(sent[..|sent| - 1], authors, a, sid, data);
    }
  }

  lemma RefusedStays(verdicts: seq<Verdict>, more: seq<Verdict>, ch: Channel, data: Bytes)
    requires verdicts <= more && WasRefused(verdicts, ch, data)
    ensures WasRefused(more, ch, data)
  {
    var j :| 0 <= j < |verdicts| && !verdicts[j].ok && IsPublish(verdicts[j].message, ch, data);
    assert more[j] == verdicts[j];
  }

  lemma RefusedNow(verdicts: seq<Verdict>, v: Verdict, ch: Channel, data: Bytes)
    requires !v.ok && IsPublish(v.message, ch, data)
    ensures WasRefused(verdicts + [v], ch, data)
  {
    assert (verdicts + [v])[|verdicts|] == v;
  }

  // --------------------------------------------------------------------
  // Steps that leave log and broadcasts alone
  // --------------------------------------------------------------------

  /** Log and broadcasts stay; a publication on its way stays on its way, or its publish is refused. */
  ghost predicate Quiet(s: State, s': State) {
    && s'.log == s.log
    && (forall t :: t in s'.tasks.all && s'.tasks.all[t].stage.FanningOut? ==>
          t in s.tasks.all && s'.tasks.all[t] == s.tasks.all[t])
    && (forall sid :: AnsweredTo(s, sid) <= AnsweredTo(s', sid))
    && (forall sid, j :: |AnsweredTo(s, sid)| <= j < |AnsweredTo(s', sid)| ==>
          var v := AnsweredTo(s', sid)[j]; !v.ok || !(v.message.Frame? && v.message.frame.Publish?))
    && (forall t :: t in s.tasks.all && s.tasks.all[t].stage.FanningOut? ==>
          || (t in s'.tasks.all && s'.tasks.all[t] == s.tasks.all[t])
          || (var k := s.tasks.all[t]; AnsweredTo(s', k.sid) == AnsweredTo(s, k.sid) + [Verdict(k.message, false, 0)]))
  }

  lemma {:induction false} SuccessesStay(verdicts: seq<Verdict>, more: seq<Verdict>, ch: Channel, data: Bytes)
    requires verdicts <= more
    requires forall j :: |verdicts| <= j < |more| ==> !more[j].ok || !(more[j].message.Frame? && more[j].message.frame.Publish?)
    ensures Answered(more, true, ch, data) == Answered(verdicts, true, ch, data)
    decreases |more|
  {
    if |more| > |verdicts| {
      SuccessesStay(verdicts, more[..|more| - 1], ch, data);
    } else {
      assert more == verdicts;
    }
  }

  lemma QuietCarriers(s: State, s': State)
    requires CarrierInv(s) && Quiet(s, s')
    ensures CarrierInv(s')
  {
    forall t | t in s'.tasks.all ensures CarrierAt(s', s'.tasks.all[t]) {
      if s'.tasks.all[t].stage.FanningOut? { assert CarrierAt(s, s.tasks.all[t]); }
    }
  }

  lemma QuietCount(s: State, s': State, sid: SessionId, ch: Channel, data: Bytes)
    requires CountAt(s, sid, ch, data) && Quiet(s, s')
    ensures CountAt(s', sid, ch, data)
  {
    hide SentBy, Answered;
    SuccessesStay(AnsweredTo(s, sid), AnsweredTo(s', sid), ch, data);
  }

  lemma QuietFate(s: State, s': State, ch: Channel, i: nat)
    requires FateAt(s, ch, i) && CarrierInv(s) && FanInv(s) && Quiet(s, s')
    ensures FateAt(s', ch, i)
  {
    hide IsPublish;
    if i < |LogOf(s, ch)| && i < |AuthorsOf(s, ch)| {
      var sid, data := AuthorsOf(s, ch)[i].sid, LogOf(s, ch)[i].data;
      if IsCarried(s, ch, i) {
        var t :| t in s.tasks.all && Carries(s.tasks.all[t], ch, i);
        if !(t in s'.tasks.all && s'.tasks.all[t] == s.tasks.all[t]) {
          var k := s.tasks.all[t];
          assert CarrierAt(s, k) && FanTask(s, k);
          RefusedNow(AnsweredTo(s, sid), Verdict(k.message, false, 0), ch, data);
        }
      } else if WasRefused(AnsweredTo(s, sid), ch, data) {
        RefusedStays(AnsweredTo(s, sid), AnsweredTo(s', sid), ch, data);
      }
    }
  }

  // --------------------------------------------------------------------
  // Accepting a publication
  // --------------------------------------------------------------------

  /** The log grows by the handler's publication, which the handler now carries. */
  ghost predicate Accepts(s: State, s': State, t: TaskId, k: Task, a: Author) {
    && k.message.Frame? && k.message.frame.Publish? && t in s.tasks.all && s.tasks.all[t] == k && k.stage.Accepting?
    && var ch, data := k.message.frame.channel, k.message.frame.data;
    && a.sid == k.sid
    && s'.log.broadcasts == s.log.broadcasts && s'.talk == s.talk
    && s'.log.log == s.log.log[ch := LogOf(s, ch) + [History.Record(s.now, data)]]
    && s'.log.authors == s.log.authors[ch := AuthorsOf(s, ch) + [a]]
    && s'.tasks.all == s.tasks.all[t := k.(stage := FanningOut(Publication(ch, |LogOf(s, ch)|, data)))]
  }

  lemma AcceptDoes(env: Env, bounds: BoundsOf, s: State, t: TaskId, k: Task, claims: Claims)
    requires LogInv(bounds, s) && t in s.tasks.all && k == s.tasks.all[t] && k.stage == Accepting(claims)
    requires k.message.Frame? && k.message.frame.Publish? && |LogOf(s, k.message.frame.channel)| <= U64_MAX
    ensures
      var s' := AcceptPublication(env, s, t, k, claims, k.message.frame.channel, k.message.frame.data);
      Accepts(s, s', t, k, Author(k.sid, claims))
  {
    NextOffset(bounds, s, k.message.frame.channel);
    hide LogInv;
  }

  lemma AcceptCarriers(s: State, s': State, t: TaskId, k: Task, a: Author)
    requires CarrierInv(s) && Accepts(s, s', t, k, a) && |AuthorsOf(s, k.message.frame.channel)| == |LogOf(s, k.message.frame.channel)|
    ensures CarrierInv(s')
  {
    forall x | x in s'.tasks.all ensures CarrierAt(s', s'.tasks.all[x]) {
      if x != t { assert CarrierAt(s, s.tasks.all[x]); }
    }
  }

  lemma AcceptCount(s: State, s': State, t: TaskId, k: Task, a: Author, sid: SessionId, ch: Channel, data: Bytes)
    requires CountAt(s, sid, ch, data) && FanInv(s) && Accepts(s, s', t, k, a) && |AuthorsOf(s, ch)| == |LogOf(s, ch)|
    ensures CountAt(s', sid, ch, data)
  {
    hide SentBy, Answered;
    assert SentRight(ch, LogOf(s, ch), BroadcastsOf(s, ch));
    if k.message.frame.channel == ch { SentMoreAuthors(BroadcastsOf(s, ch), AuthorsOf(s, ch), a, sid, data); }
  }

  lemma AcceptFate(s: State, s': State, t: TaskId, k: Task, a: Author, ch: Channel, i: nat)
    requires FateAt(s, ch, i) && Accepts(s, s', t, k, a) && |AuthorsOf(s, ch)| == |LogOf(s, ch)|
    ensures FateAt(s', ch, i)
  {
    hide IsPublish, Unsent;
    if i < |LogOf(s, ch)| {
      assert LogOf(s', ch)[i] == LogOf(s, ch)[i] && AuthorsOf(s', ch)[i] == AuthorsOf(s, ch)[i];
      if IsCarried(s, ch, i) {
        var x :| x in s.tasks.all && Carries(s.tasks.all[x], ch, i);
        assert x in s'.tasks.all && s'.tasks.all[x] == s.tasks.all[x];
      }
    } else if i < |LogOf(s', ch)| {
      assert t in s'.tasks.all && Carries(s'.tasks.all[t], ch, i);
    }
  }

  // --------------------------------------------------------------------
  // Handing it to the broker
  // --------------------------------------------------------------------

  lemma FanOutCarriers(s: State, t: TaskId, k: Task, ch: Channel, p: Publication)
    requires CarrierInv(s)
    ensures CarrierInv(FanOut(s, t, k, ch, p))
  {
    var s' := FanOut(s, t, k, ch, p);
    forall x | x in s'.tasks.all ensures CarrierAt(s', s'.tasks.all[x]) { assert CarrierAt(s, s.tasks.all[x]); }
  }

  lemma FanOutCount(s: State, t: TaskId, k: Task, sid: SessionId, ch: Channel, data: Bytes)
    requires CountAt(s, sid, ch, data) && k.stage.FanningOut? && CarrierAt(s, k)
    ensures CountAt(FanOut(s, t, k, k.stage.publication.channel, k.stage.publication), sid, ch, data)
  {
    hide SentBy, Answered, Broker.Broadcast;
    var p, v := k.stage.publication, Verdict(k.message, true, 0);
    var s' := FanOut(s, t, k, p.channel, p);
    assert AnsweredTo(s', k.sid) == AnsweredTo(s, k.sid) + [v];
    AnsweredSnoc(AnsweredTo(s, k.sid), v, true, ch, data);
    SentSnoc(BroadcastsOf(s, p.channel), AuthorsOf(s, p.channel), p, sid, data);
  }

  lemma FanOutFate(s: State, t: TaskId, k: Task, ch: Channel, i: nat)
    requires FateAt(s, ch, i) && t in s.tasks.all && s.tasks.all[t] == k && k.stage.FanningOut?
    ensures FateAt(FanOut(s, t, k, k.stage.publication.channel, k.stage.publication), ch, i)
  {
    hide IsPublish, Broker.Broadcast;
    var p := k.stage.publication;
    var s' := FanOut(s, t, k, p.channel, p);
    if i < |LogOf(s, ch)| && i < |AuthorsOf(s, ch)| {
      var sid, data := AuthorsOf(s, ch)[i].sid, LogOf(s, ch)[i].data;
      if WasSent(s, ch, i) {
        var j :| 0 <= j < |BroadcastsOf(s, ch)| && BroadcastsOf(s, ch)[j].offset == i;
        assert BroadcastsOf(s', ch)[j] == BroadcastsOf(s, ch)[j];
      } else if IsCarried(s, ch, i) {
        var x :| x in s.tasks.all && Carries(s.tasks.all[x], ch, i);
        if x == t {
          assert BroadcastsOf(s', ch)[|BroadcastsOf(s, ch)|] == p;
        } else {
          assert x in s'.tasks.all && s'.tasks.all[x] == s.tasks.all[x];
        }
      } else {
        assert AnsweredTo(s, sid) <= AnsweredTo(s', sid);
        RefusedStays(AnsweredTo(s, sid), AnsweredTo(s', sid), ch, data);
      }
    }
  }

  // --------------------------------------------------------------------
  // Every step
  // --------------------------------------------------------------------

  lemma OwnVerdictIsQuiet(s: State, s': State, t: TaskId, v: Verdict)
    requires OnlyTask(s, s', t) && s'.log == s.log && v.message == s.tasks.all[t].message
    requires s'.talk.answered == s.talk.answered
          || s'.talk.answered == s.talk.answered[s.tasks.all[t].sid := AnsweredTo(s, s.tasks.all[t].sid) + [v]]
    requires !v.ok || !(v.message.Frame? && v.message.frame.Publish?)
    requires t in s'.tasks.all && s'.tasks.all[t].stage.FanningOut? ==> s'.tasks.all[t] == s.tasks.all[t]
    requires s.tasks.all[t].stage.FanningOut? ==>
               || (t in s'.tasks.all && s'.tasks.all[t] == s.tasks.all[t])
               || (&& v == Verdict(s.tasks.all[t].message, false, 0)
                   && s'.talk.answered == s.talk.answered[s.tasks.all[t].sid := AnsweredTo(s, s.tasks.all[t].sid) + [v]])
    ensures Quiet(s, s')
  {
  }

  /** The step accepts a publication. */
  predicate IsAccepting(k: Task) {
    !k.stage.Replying? && k.message.Frame? && k.message.frame.Publish? && k.stage.Accepting? && k.message.frame.channel != []
  }

  /** The step hands one to the broker. */
  predicate IsSending(k: Task, fail: bool) {
    !k.stage.Replying? && k.message.Frame? && k.message.frame.Publish? && k.stage.FanningOut? && !fail
  }

  lemma PublishIsQuiet(env: Env, s: State, t: TaskId, fail: bool)
    requires t in s.tasks.all && !s.tasks.all[t].stage.Replying?
    requires s.tasks.all[t].message.Frame? && s.tasks.all[t].message.frame.Publish?
    requires !IsAccepting(s.tasks.all[t]) && !IsSending(s.tasks.all[t], fail)
    ensures Quiet(s, AdvancePublish(env, s, t, s.tasks.all[t], fail))
  {
    hide Quiet, CodeFor, RequestId, FanOut, AcceptPublication, OnlyTask;
    var k := s.tasks.all[t];
    PublishFrame(env, s, t, fail);
    FailGrows(env, s, t, k, BrokerFailed);
    OwnVerdictIsQuiet(s, AdvancePublish(env, s, t, k, fail), t, Verdict(k.message, false, 0));
  }

  lemma FailGrows(env: Env, s: State, t: TaskId, k: Task, e: HubError)
    ensures
      var s' := Fail(env, s, t, k.sid, k.message, e);
      s'.talk.answered == s.talk.answered[k.sid := AnsweredTo(s, k.sid) + [Verdict(k.message, false, 0)]]
  {
  }

  lemma AdvanceIsQuiet(env: Env, s: State, t: TaskId, fail: bool)
    requires t in s.tasks.all && !IsAccepting(s.tasks.all[t]) && !IsSending(s.tasks.all[t], fail) && CarrierAt(s, s.tasks.all[t])
    ensures Quiet(s, AdvanceTask(env, s, t, s.tasks.all[t], fail))
  {
    var k := s.tasks.all[t];
    var s' := AdvanceTask(env, s, t, k, fail);
    hide Quiet, AdvancePublish, AdvanceSubscribe, AdvanceConnect, AdvanceUnsubscribe, OnlyTask;
    if !k.stage.Replying? && k.message.Frame? && k.message.frame.Publish? {
      PublishIsQuiet(env, s, t, fail);
    } else {
      OtherVerdict(env, s, t, fail);
      NewStage(env, s, t, fail);
      hide AdvanceTask;
      if s'.talk.answered == s.talk.answered {
        OwnVerdictIsQuiet(s, s', t, Verdict(k.message, false, 0));
      } else {
        var v: Verdict :| v.message == k.message && s'.talk.answered == s.talk.answered[k.sid := AnsweredTo(s, k.sid) + [v]];
        OwnVerdictIsQuiet(s, s', t, v);
      }
    }
  }

  lemma NewStage(env: Env, s: State, t: TaskId, fail: bool)
    requires t in s.tasks.all && CarrierAt(s, s.tasks.all[t])
    requires var k := s.tasks.all[t]; k.stage.Replying? || k.message.Undecodable? || !k.message.frame.Publish?
    ensures
      var s' := AdvanceTask(env, s, t, s.tasks.all[t], fail);
      !s.tasks.all[t].stage.FanningOut? && (t in s'.tasks.all ==> !s'.tasks.all[t].stage.FanningOut?)
  {
    hide Broker.Attach, Broker.Detach, CursorOf, OutboxOf, CodeFor, RequestId;
  }

  lemma StepIsQuiet(env: Env, s: State, e: Event)
    requires HubIndex.IdsInv(s) && (forall x: SessionId :: x in s.talk.answered ==> x < s.sessions.nextId)
    requires e.Advance? ==> e.t !in s.tasks.all
    ensures Quiet(s, Step(env, s, e))
  {
    hide AdvanceTask, Begin;
    var s' := Step(env, s, e);
    if e.Receive? && e.t !in s.tasks.all && Reads(s, e.sid) {
      var s1 := Ask(s, e.sid, e.message);
      BeginFrame(env, s1, e.t, e.sid, e.message);
      BeginVerdict(env, s1, e.t, e.sid, e.message);
      assert s1.talk.answered == s.talk.answered && AnsweredTo(s1, e.sid) == AnsweredTo(s, e.sid);
      hide Step, RemoveSubscription;
      BeginIsQuiet(s, s', e.t, e.sid, e.message);
    } else {
      assert s'.tasks == s.tasks && s'.log == s.log && forall x :: AnsweredTo(s', x) == AnsweredTo(s, x);
      hide Step;
    }
  }

  lemma BeginIsQuiet(s: State, s': State, t: TaskId, sid: SessionId, m: Message)
    requires t !in s.tasks.all && t in s'.tasks.all && s'.tasks.all == s.tasks.all[t := s'.tasks.all[t]] && s'.log == s.log
    requires !s'.tasks.all[t].stage.FanningOut?
    requires || s'.talk.answered == s.talk.answered
             || s'.talk.answered == s.talk.answered[sid := AnsweredTo(s, sid) + [Verdict(m, false, 0)]]
    ensures Quiet(s, s')
  {
  }

  ghost predicate FanOutInv(s: State, sid: SessionId, ch: Channel, data: Bytes, i: nat) {
    CarrierInv(s) && CountAt(s, sid, ch, data) && FateAt(s, ch, i)
  }

  lemma QuietKeeps(s: State, s': State, sid: SessionId, ch: Channel, data: Bytes, i: nat)
    requires FanOutInv(s, sid, ch, data, i) && FanInv(s) && Quiet(s, s')
    ensures FanOutInv(s', sid, ch, data, i)
  {
    hide CarrierInv, CountAt, FateAt, Quiet, FanInv;
    QuietCarriers(s, s');
    QuietCount(s, s', sid, ch, data);
    QuietFate(s, s', ch, i);
  }

  lemma StepFansOut(env: Env, bounds: BoundsOf, s: State, e: Event, sid: SessionId, ch: Channel, data: Bytes, i: nat)
    requires FanOutInv(s, sid, ch, data, i) && FanInv(s) && LogInv(bounds, s) && Bounded(s) && HubIndex.IdsInv(s)
    requires forall x: SessionId :: x in s.talk.answered ==> x < s.sessions.nextId
    requires forall c :: |AuthorsOf(s, c)| == |LogOf(s, c)|
    ensures FanOutInv(Step(env, s, e), sid, ch, data, i)
  {
    var s' := Step(env, s, e);
    if e.Advance? && e.t in s.tasks.all {
      var k := s.tasks.all[e.t];
      assert CarrierAt(s, k) && FanTask(s, k);
      if IsAccepting(k) {
        AcceptIs(env, s, e.t, k, e.fail);
        hide Step, CarrierInv, CountAt, FateAt, Accepts, FanInv, LogInv, AcceptPublication;
        AcceptDoes(env, bounds, s, e.t, k, k.stage.claims);
        var a := Author(k.sid, k.stage.claims);
        AcceptCarriers(s, s', e.t, k, a);
        AcceptCount(s, s', e.t, k, a, sid, ch, data);
        AcceptFate(s, s', e.t, k, a, ch, i);
      } else if IsSending(k, e.fail) {
        SendIs(env, s, e.t, k, e.fail);
        hide Step, CarrierInv, CountAt, FateAt, FanInv, LogInv, FanOut, IsPublish;
        FanOutCarriers(s, e.t, k, k.stage.publication.channel, k.stage.publication);
        FanOutCount(s, e.t, k, sid, ch, data);
        FanOutFate(s, e.t, k, ch, i);
      } else {
        hide AdvanceTask, FanOutInv, FanInv, LogInv, Quiet;
        AdvanceIsQuiet(env, s, e.t, e.fail);
        QuietKeeps(s, s', sid, ch, data, i);
      }
    } else {
      hide Step, FanOutInv, FanInv, LogInv, Quiet;
      StepIsQuiet(env, s, e);
      QuietKeeps(s, s', sid, ch, data, i);
    }
  }

  lemma AcceptIs(env: Env, s: State, t: TaskId, k: Task, fail: bool)
    requires t in s.tasks.all && s.tasks.all[t] == k && IsAccepting(k)
    ensures Step(env, s, Advance(t, fail))
         == AcceptPublication(env, s, t, k, k.stage.claims, k.message.frame.channel, k.message.frame.data)
  {
  }

  lemma SendIs(env: Env, s: State, t: TaskId, k: Task, fail: bool)
    requires t in s.tasks.all && s.tasks.all[t] == k && IsSending(k, fail)
    ensures Step(env, s, Advance(t, fail)) == FanOut(s, t, k, k.message.frame.channel, k.stage.publication)
  {
  }

  lemma Records(env: Env, events: seq<Event>)
    ensures
      var s := Run(env, Init, events);
      && (forall x: SessionId :: x in s.talk.answered ==> x < s.sessions.nextId)
      && (forall c :: |AuthorsOf(s, c)| == |LogOf(s, c)|)
  {
    hide Run;
    var s := Run(env, Init, events);
    forall c ensures |AuthorsOf(s, c)| == |LogOf(s, c)| { PublishesAccounted(env, events, 0, c, []); }
    PublishesAccounted(env, events, 0, [], []);
  }

  lemma {:induction false} RunFansOut(env: Env, bounds: BoundsOf, events: seq<Event>, sid: SessionId, ch: Channel, data: Bytes, i: nat)
    requires IsPubSub(env.kind, bounds) && Bounded(Run(env, Init, events))
    ensures FanOutInv(Run(env, Init, events), sid, ch, data, i)
    decreases |events|
  {
    hide IsPubSub, Step;
    if events == [] {
      assert Init.log == LogAudit(map[], map[], map[]) && Init.talk.answered == map[] && Init.tasks.all == map[];
    } else {
      hide FanOutInv, LogInv, ReadInv, FanInv, EarlyInv, Bounded;
      var init, e := events[..|events| - 1], events[|events| - 1];
      var s := Run(env, Init, init);
      HubOrder.StepBounded(env, s, e);
      RunFansOut(env, bounds, init, sid, ch, data, i);
      RunKeeps(env, bounds, init);
      Records(env, init);
      HubIndex.InitIndex();
      HubIndex.RunKeepsIndex(env, Init, init);
      StepFansOut(env, bounds, s, e, sid, ch, data, i);
    }
  }

  /**
   * Each publish answered with success has a broadcast of its own: in every reachable state
   * of a pub/sub hub, for every session, channel and payload, as many broadcasts of the
   * payload belong to log entries of the session as publishes of it were answered so.
   */
  lemma SuccessIsBroadcast(env: Env, bounds: BoundsOf, events: seq<Event>, sid: SessionId, ch: Channel, data: Bytes)
    requires IsPubSub(env.kind, bounds) && Bounded(Run(env, Init, events))
    ensures
      var s := Run(env, Init, events);
      SentBy(BroadcastsOf(s, ch), AuthorsOf(s, ch), sid, data) == Answered(AnsweredTo(s, sid), true, ch, data)
  {
    hide IsPubSub, Bounded, Run, SentBy, Answered;
    RunFansOut(env, bounds, events, sid, ch, data, 0);
  }

  /**
   * What becomes of a log entry: it was broadcast, or a handler is carrying it to the
   * broker, or its author was told that the publish failed.
   */
  lemma EntryHasFate(env: Env, bounds: BoundsOf, events: seq<Event>, ch: Channel, i: nat)
    requires IsPubSub(env.kind, bounds) && Bounded(Run(env, Init, events))
    requires i < |LogOf(Run(env, Init, events), ch)|
    ensures
      var s := Run(env, Init, events);
      && i < |AuthorsOf(s, ch)|
      && (|| WasSent(s, ch, i)
          || IsCarried(s, ch, i)
          || WasRefused(AnsweredTo(s, AuthorsOf(s, ch)[i].sid), ch, LogOf(s, ch)[i].data))
  {
    hide IsPubSub, Bounded, Run, SentBy, Answered;
    RunFansOut(env, bounds, events, 0, ch, [], i);
    Records(env, events);
  }
}
