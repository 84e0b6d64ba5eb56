/** Where claims come from: the tokens a session presented, over every run. */
module HubTokens {
  import opened Types
  import opened Frames
  import opened Hub
  import Broker
  import History
  import HubAuth
  import HubIndex
  import HubShape

  /** The message presents a token that stands for the claims. */
  predicate Presents(env: Env, m: Message, c: Claims) {
    m.Frame? && m.frame.Connect? && env.authenticate(m.frame.token) == Some(c)
  }

  /** The session presented such a token, or the hub admits anonymous sessions and these are their claims. */
  ghost predicate Sourced(env: Env, s: State, sid: SessionId, c: Claims) {
    || (env.anonymous && c == Anonymous)
    || exists i :: 0 <= i < |AskedBy(s, sid)| && Presents(env, AskedBy(s, sid)[i], c)
  }

  ghost predicate TaskSourced(env: Env, s: State, k: Task) {
    && k.message in AskedBy(s, k.sid)
    && match k.stage
       case Gate(c) => Sourced(env, s, k.sid, c)
       case Entering(c) => Sourced(env, s, k.sid, c)
       case Attaching(c, _) => Sourced(env, s, k.sid, c)
       case Validating(c) => Sourced(env, s, k.sid, c)
       case Accepting(c) => Sourced(env, s, k.sid, c)
       case _ => true
  }

  ghost predicate AuthorsSourced(env: Env, s: State, ch: Channel) {
    forall i :: 0 <= i < |AuthorsOf(s, ch)| ==> Sourced(env, s, AuthorsOf(s, ch)[i].sid, AuthorsOf(s, ch)[i].claims)
  }

  ghost predicate SourceInv(env: Env, s: State) {
    && (forall sid :: sid in s.claims.of ==> Sourced(env, s, sid, s.claims.of[sid]))
    && (forall t :: t in s.tasks.all ==> TaskSourced(env, s, s.tasks.all[t]))
    && (forall sub :: sub in s.subs.all ==> Sourced(env, s, s.subs.all[sub].sid, s.subs.all[sub].claims))
    && (forall ch :: AuthorsSourced(env, s, ch))
  }

  /** What was read stays read. */
  ghost predicate AskedStays(s: State, s': State) {
    forall sid :: AskedBy(s, sid) <= AskedBy(s', sid)
  }

  lemma SourcedStays(env: Env, s: State, s': State, sid: SessionId, c: Claims)
    requires Sourced(env, s, sid, c) && AskedBy(s, sid) <= AskedBy(s', sid)
    ensures Sourced(env, s', sid, c)
  {
    if !(env.anonymous && c == Anonymous) {
      var i :| 0 <= i < |AskedBy(s, sid)| && Presents(env, AskedBy(s, sid)[i], c);
      assert AskedBy(s', sid)[i] == AskedBy(s, sid)[i];
    }
  }

  lemma TaskStays(env: Env, s: State, s': State, k: Task)
    requires TaskSourced(env, s, k) && AskedBy(s, k.sid) <= AskedBy(s', k.sid)
    ensures TaskSourced(env, s', k)
  {
    hide Sourced;
    match k.stage
    case Gate(c) => SourcedStays(env, s, s', k.sid, c);
    case Entering(c) => SourcedStays(env, s, s', k.sid, c);
    case Attaching(c, _) => SourcedStays(env, s, s', k.sid, c);
    case Validating(c) => SourcedStays(env, s, s', k.sid, c);
    case Accepting(c) => SourcedStays(env, s, s', k.sid, c);
    case _ =>
  }

  /** Whatever is new in the state is sourced there. */
  ghost predicate SourcedStep(env: Env, s: State, s': State, t: TaskId) {
    && AskedStays(s, s')
    && (forall sid :: sid in s'.claims.of ==>
          (sid in s.claims.of && s'.claims.of[sid] == s.claims.of[sid]) || Sourced(env, s', sid, s'.claims.of[sid]))
    && (forall x :: x in s'.tasks.all ==>
          (x in s.tasks.all && s'.tasks.all[x] == s.tasks.all[x]) || (x == t && TaskSourced(env, s', s'.tasks.all[x])))
    && (forall sub :: sub in s'.subs.all ==>
          || (sub in s.subs.all && SameOrigin(s.subs.all[sub], s'.subs.all[sub]))
          || Sourced(env, s', s'.subs.all[sub].sid, s'.subs.all[sub].claims))
    && (forall ch ::
          || AuthorsOf(s', ch) == AuthorsOf(s, ch)
          || exists a: Author :: AuthorsOf(s', ch) == AuthorsOf(s, ch) + [a] && Sourced(env, s', a.sid, a.claims))
  }

  lemma StepSources(env: Env, s: State, s': State, t: TaskId)
    requires SourceInv(env, s) && SourcedStep(env, s, s', t)
    ensures SourceInv(env, s')
  {
    hide Sourced, TaskSourced;
    forall sid | sid in s'.claims.of ensures Sourced(env, s', sid, s'.claims.of[sid]) {
      if sid in s.claims.of && s'.claims.of[sid] == s.claims.of[sid] { SourcedStays(env, s, s', sid, s.claims.of[sid]); }
    }
    forall x | x in s'.tasks.all ensures TaskSourced(env, s', s'.tasks.all[x]) {
      if x in s.tasks.all && s'.tasks.all[x] == s.tasks.all[x] { TaskStays(env, s, s', s.tasks.all[x]); }
    }
    forall sub | sub in s'.subs.all ensures Sourced(env, s', s'.subs.all[sub].sid, s'.subs.all[sub].claims) {
      if sub in s.subs.all && SameOrigin(s.subs.all[sub], s'.subs.all[sub]) {
        SourcedStays(env, s, s', s.subs.all[sub].sid, s.subs.all[sub].claims);
      }
    }
    forall ch ensures AuthorsSourced(env, s', ch) { AuthorsStay(env, s, s', ch); }
  }

  lemma AuthorsStay(env: Env, s: State, s': State, ch: Channel)
    requires AuthorsSourced(env, s, ch) && AskedStays(s, s')
    requires AuthorsOf(s', ch) == AuthorsOf(s, ch)
          || exists a: Author :: AuthorsOf(s', ch) == AuthorsOf(s, ch) + [a] && Sourced(env, s', a.sid, a.claims)
    ensures AuthorsSourced(env, s', ch)
  {
    hide Sourced;
    forall i | 0 <= i < |AuthorsOf(s', ch)|
      ensures Sourced(env, s', AuthorsOf(s', ch)[i].sid, AuthorsOf(s', ch)[i].claims)
    {
      if i < |AuthorsOf(s, ch)| {
        SourcedStays(env, s, s', AuthorsOf(s, ch)[i].sid, AuthorsOf(s, ch)[i].claims);
      }
    }
  }

  // --------------------------------------------------------------------

  /** The session has the claims it had, or new ones that are sourced. */
  ghost predicate ClaimsStep(env: Env, s: State, s': State, sid: SessionId) {
    || s'.claims == s.claims
    || exists c :: s'.claims.of == s.claims.of[sid := c] && Sourced(env, s', sid, c)
  }

  lemma HandlerSources(env: Env, s: State, s': State, t: TaskId, sid: SessionId)
    requires AskedStays(s, s') && ClaimsStep(env, s, s', sid) && s'.subs == s.subs && s'.log.authors == s.log.authors
    requires || s'.tasks.all == s.tasks.all - {t}
             || s'.tasks == s.tasks
             || (&& t in s'.tasks.all && s'.tasks.all == s.tasks.all[t := s'.tasks.all[t]]
                 && TaskSourced(env, s', s'.tasks.all[t]))
    ensures SourcedStep(env, s, s', t)
  {
    hide Sourced, TaskSourced, AskedBy;
  }

  lemma SubscribeTask(env: Env, s: State, t: TaskId, fail: bool)
    requires t in s.tasks.all && SubscribeInFlight(s.tasks.all[t], s.tasks.all[t].sid)
    requires TaskSourced(env, s, s.tasks.all[t])
    ensures
      var s' := AdvanceSubscribe(env, s, t, s.tasks.all[t], fail);
      t in s'.tasks.all && TaskSourced(env, s, s'.tasks.all[t])
  {
    hide Sourced, AskedBy, Broker.Attach, Broker.Detach, CursorOf, OutboxOf, CodeFor;
  }

  lemma SubscribeSources(env: Env, s: State, t: TaskId, fail: bool)
    requires SourceInv(env, s) && s.subs.next !in s.subs.all
    requires t in s.tasks.all && SubscribeInFlight(s.tasks.all[t], s.tasks.all[t].sid)
    ensures SourcedStep(env, s, AdvanceSubscribe(env, s, t, s.tasks.all[t], fail), t)
  {
    hide AdvanceSubscribe;
    var k := s.tasks.all[t];
    var s' := AdvanceSubscribe(env, s, t, k, fail);
    SubscribeFrame(env, s, t, fail);
    SubscribeSubs(env, s, t, fail);
    assert TaskSourced(env, s, k);
    SubscribeTask(env, s, t, fail);
    TaskStays(env, s, s', s'.tasks.all[t]);
    hide TaskSourced, Sourced;
    forall sub | sub in s'.subs.all && sub !in s.subs.all
      ensures Sourced(env, s', s'.subs.all[sub].sid, s'.subs.all[sub].claims)
    {
      AttachingSourced(env, s, k);
      SourcedStays(env, s, s', k.sid, k.stage.claims);
    }
  }

  lemma AttachingSourced(env: Env, s: State, k: Task)
    requires TaskSourced(env, s, k) && (k.stage.Attaching? || k.stage.Accepting?)
    ensures Sourced(env, s, k.sid, k.stage.claims)
  {
  }

  lemma PublishTask(env: Env, s: State, t: TaskId, fail: bool)
    requires t in s.tasks.all && !s.tasks.all[t].stage.Replying? && TaskSourced(env, s, s.tasks.all[t])
    requires s.tasks.all[t].message.Frame? && s.tasks.all[t].message.frame.Publish?
    ensures
      var s' := AdvancePublish(env, s, t, s.tasks.all[t], fail);
      t in s'.tasks.all ==> TaskSourced(env, s, s'.tasks.all[t])
  {
    hide Sourced, AskedBy, Broker.Broadcast, CodeFor;
  }

  lemma PublishSources(env: Env, s: State, t: TaskId, fail: bool)
    requires SourceInv(env, s) && t in s.tasks.all && !s.tasks.all[t].stage.Replying?
    requires s.tasks.all[t].message.Frame? && s.tasks.all[t].message.frame.Publish?
    ensures SourcedStep(env, s, AdvancePublish(env, s, t, s.tasks.all[t], fail), t)
  {
    hide SourcedStep, AdvancePublish;
    var k := s.tasks.all[t];
    var s' := AdvancePublish(env, s, t, k, fail);
    PublishFrame(env, s, t, fail);
    HubAuth.PublishIsFixed(env, s, t, fail);
    assert TaskSourced(env, s, k);
    PublishTask(env, s, t, fail);
    hide Sourced;
    if t in s'.tasks.all { TaskStays(env, s, s', s'.tasks.all[t]); }
    if s'.log.authors == s.log.authors {
      HandlerSources(env, s, s', t, k.sid);
    } else {
      AttachingSourced(env, s, k);
      SourcedStays(env, s, s', k.sid, k.stage.claims);
      AuthorSources(env, s, s', t, k.message.frame.channel, Author(k.sid, k.stage.claims));
    }
  }

  lemma AuthorSources(env: Env, s: State, s': State, t: TaskId, ch: Channel, a: Author)
    requires AskedStays(s, s') && s'.claims == s.claims && s'.subs == s.subs && Sourced(env, s', a.sid, a.claims)
    requires s'.log.authors == s.log.authors[ch := AuthorsOf(s, ch) + [a]]
    requires OnlyTask(s, s', t) && (t in s'.tasks.all ==> TaskSourced(env, s', s'.tasks.all[t]))
    ensures SourcedStep(env, s, s', t)
  {
    hide Sourced, TaskSourced, AskedBy;
    forall c ensures AuthorsOf(s', c) == AuthorsOf(s, c)
      || exists x: Author :: AuthorsOf(s', c) == AuthorsOf(s, c) + [x] && Sourced(env, s', x.sid, x.claims)
    {
      if c == ch { assert AuthorsOf(s', c) == AuthorsOf(s, c) + [a]; }
    }
  }

  lemma ConnectSources(env: Env, s: State, t: TaskId)
    requires SourceInv(env, s) && t in s.tasks.all && !s.tasks.all[t].stage.Replying?
    requires s.tasks.all[t].message.Frame? && s.tasks.all[t].message.frame.Connect?
    ensures SourcedStep(env, s, AdvanceConnect(env, s, t, s.tasks.all[t]), t)
  {
    hide SourcedStep;
    var k := s.tasks.all[t];
    var s' := AdvanceConnect(env, s, t, k);
    assert TaskSourced(env, s, k);
    assert s'.talk.asked == s.talk.asked;
    var c := env.authenticate(k.message.frame.token);
    if k.stage.Authenticating? && c.Some? {
      var i :| 0 <= i < |AskedBy(s, k.sid)| && AskedBy(s, k.sid)[i] == k.message;
      assert AskedBy(s', k.sid)[i] == k.message && Presents(env, k.message, c.value);
      assert Sourced(env, s', k.sid, c.value) && s'.claims.of == s.claims.of[k.sid := c.value];
    }
    hide Presents, Sourced;
    HandlerSources(env, s, s', t, k.sid);
  }

  lemma AdvanceSources(env: Env, s: State, t: TaskId, fail: bool)
    requires SourceInv(env, s) && s.subs.next !in s.subs.all && t in s.tasks.all
    ensures SourcedStep(env, s, AdvanceTask(env, s, t, s.tasks.all[t], fail), t)
  {
    var k := s.tasks.all[t];
    hide AdvanceSubscribe, AdvancePublish, AdvanceConnect, Sourced;
    if SubscribeInFlight(k, k.sid) {
      SubscribeSources(env, s, t, fail);
    } else if !k.stage.Replying? && k.message.Frame? && k.message.frame.Publish? {
      PublishSources(env, s, t, fail);
    } else if !k.stage.Replying? && k.message.Frame? && k.message.frame.Connect? {
      ConnectSources(env, s, t);
    } else {
      RestSources(env, s, t, fail);
    }
  }

  lemma RestSources(env: Env, s: State, t: TaskId, fail: bool)
    requires SourceInv(env, s) && t in s.tasks.all
    requires
      var k := s.tasks.all[t];
      k.stage.Replying? || k.message.Undecodable? || k.message.frame.Unsubscribe?
    ensures SourcedStep(env, s, AdvanceTask(env, s, t, s.tasks.all[t], fail), t)
  {
    hide AdvanceSubscribe, AdvancePublish, AdvanceConnect, Sourced, OutboxOf;
    var k := s.tasks.all[t];
    var s' := AdvanceTask(env, s, t, k, fail);
    assert TaskSourced(env, s, k);
    assert s'.claims == s.claims && s'.subs == s.subs && s'.log == s.log && s'.talk.asked == s.talk.asked;
  }

  lemma BeginSources(env: Env, s: State, t: TaskId, sid: SessionId, m: Message)
    requires SourceInv(env, s)
    ensures SourcedStep(env, s, Begin(env, Ask(s, sid, m), t, sid, m), t)
  {
    hide Begin, SourcedStep, RemoveSubscription;
    var s1 := Ask(s, sid, m);
    var s' := Begin(env, s1, t, sid, m);
    BeginFrame(env, s1, t, sid, m);
    BeginClaims(env, s1, t, sid, m);
    assert s'.talk.asked == s1.talk.asked && s'.subs == s.subs && s'.log == s.log;
    BeginAsked(s, s', sid, m);
    AnonymousSourced(env, s', sid);
    BeginTask(env, s, s', t, sid);
    assert s'.claims == s.claims || s'.claims.of == s.claims.of[sid := Anonymous];
    hide Sourced, TaskSourced, Begins;
    HandlerSources(env, s, s', t, sid);
  }

  lemma BeginAsked(s: State, s': State, sid: SessionId, m: Message)
    requires s'.talk.asked == Ask(s, sid, m).talk.asked
    ensures AskedBy(s', sid) == AskedBy(s, sid) + [m] && m in AskedBy(s', sid) && AskedStays(s, s')
  {
    assert AskedBy(s', sid)[|AskedBy(s, sid)|] == m;
  }

  lemma BeginTask(env: Env, s: State, s': State, t: TaskId, sid: SessionId)
    requires SourceInv(env, s) && AskedStays(s, s') && t in s'.tasks.all
    requires s'.tasks.all[t].sid == sid && s'.tasks.all[t].message in AskedBy(s', sid)
    requires var stage := s'.tasks.all[t].stage; stage.Replying? || stage.Authenticating? || stage.Gate? || stage.Leaving?
    requires s'.tasks.all[t].stage.Gate? ==>
               || (sid in s.claims.of && s'.tasks.all[t].stage.claims == s.claims.of[sid])
               || (env.anonymous && s'.tasks.all[t].stage.claims == Anonymous)
    ensures TaskSourced(env, s', s'.tasks.all[t])
  {
    hide Sourced;
    AnonymousSourced(env, s', sid);
    if s'.tasks.all[t].stage.Gate? && sid in s.claims.of { SourcedStays(env, s, s', sid, s.claims.of[sid]); }
  }

  lemma AnonymousSourced(env: Env, s: State, sid: SessionId)
    ensures env.anonymous ==> Sourced(env, s, sid, Anonymous)
  {
  }

  lemma BeginClaims(env: Env, s: State, t: TaskId, sid: SessionId, m: Message)
    ensures
      var s' := Begin(env, s, t, sid, m);
      && (s'.claims == s.claims || (env.anonymous && s'.claims.of == s.claims.of[sid := Anonymous]))
      && (s'.tasks.all[t].stage.Gate? ==>
            || (sid in s.claims.of && s'.tasks.all[t].stage.claims == s.claims.of[sid])
            || (env.anonymous && s'.tasks.all[t].stage.claims == Anonymous))
  {
    hide Broker.Detach, CodeFor;
  }

  lemma OpenSources(env: Env, s: State)
    requires SourceInv(env, s) && HubIndex.IdsInv(s)
    ensures SourcedStep(env, s, OpenSession(env, s), 0)
  {
    hide Sourced;
    var s' := OpenSession(env, s);
    AnonymousSourced(env, s', s.sessions.nextId);
    forall sid ensures AskedBy(s, sid) <= AskedBy(s', sid) {}
  }

  lemma StepKeepsSources(env: Env, s: State, e: Event)
    requires SourceInv(env, s) && HubIndex.IdsInv(s) && HubShape.SubsShape(s)
    ensures SourceInv(env, Step(env, s, e))
  {
    hide AdvanceTask, Begin, HubShape.SubShape, Broker.Wf, SourceInv, SourcedStep, OpenSession, Sourced;
    var s' := Step(env, s, e);
    match e
    case Advance(t, fail) =>
      if t in s.tasks.all {
        AdvanceSources(env, s, t, fail);
        StepSources(env, s, s', t);
      }
    case Receive(t, sid, m) =>
      if t !in s.tasks.all && Reads(s, sid) {
        BeginSources(env, s, t, sid, m);
        StepSources(env, s, s', t);
      }
    case Open =>
      OpenSources(env, s);
      StepSources(env, s, s', 0);
    case _ =>
      HubAuth.StepKeepsOrigins(env, s, e);
      assert s'.talk == s.talk;
      hide Step, HubShape.SubsShape, HubIndex.IdsInv;
      QuietSources(env, s, s');
      StepSources(env, s, s', 0);
  }

  lemma QuietSources(env: Env, s: State, s': State)
    requires s'.tasks == s.tasks && s'.log == s.log && s'.talk == s.talk && s'.claims == s.claims
    requires s'.subs.all.Keys == s.subs.all.Keys
    requires forall sub :: sub in s.subs.all ==> SameOrigin(s.subs.all[sub], s'.subs.all[sub])
    ensures SourcedStep(env, s, s', 0)
  {
    hide Sourced, TaskSourced;
  }

  lemma {:induction false} RunKeepsSources(env: Env, events: seq<Event>)
    ensures SourceInv(env, Run(env, Init, events))
    decreases |events|
  {
    hide Step, HubShape.TasksShape, HubShape.SubsShape, HubShape.HeldShape;
    if events == [] {
      assert Init.claims.of == map[] && Init.tasks.all == map[] && Init.subs.all == map[] && Init.log.authors == map[];
    } else {
      hide SourceInv;
      var init := events[..|events| - 1];
      RunKeepsSources(env, init);
      HubShape.RunKeepsShape(env, init);
      HubIndex.InitIndex();
      HubIndex.RunKeepsIndex(env, Init, init);
      StepKeepsSources(env, Run(env, Init, init), events[|events| - 1]);
    }
  }

  /**
   * In every reachable state a session has claims only if it presented a token that the
   * authenticator takes for exactly these claims, or the hub admits anonymous sessions and
   * they are the anonymous ones. The same holds for the claims of every subscription and
   * of every log entry's author.
   */
  lemma ClaimsComeFromTokens(env: Env, events: seq<Event>)
    ensures
      var s := Run(env, Init, events);
      && (forall sid :: sid in s.claims.of ==> Sourced(env, s, sid, s.claims.of[sid]))
      && (forall sub :: sub in s.subs.all ==> Sourced(env, s, s.subs.all[sub].sid, s.subs.all[sub].claims))
      && (forall ch, i :: 0 <= i < |AuthorsOf(s, ch)| ==>
            Sourced(env, s, AuthorsOf(s, ch)[i].sid, AuthorsOf(s, ch)[i].claims))
  {
    RunKeepsSources(env, events);
    hide Run, Sourced;
    var s := Run(env, Init, events);
    forall ch, i | 0 <= i < |AuthorsOf(s, ch)| ensures Sourced(env, s, AuthorsOf(s, ch)[i].sid, AuthorsOf(s, ch)[i].claims) {
      assert AuthorsSourced(env, s, ch);
    }
  }

  // --------------------------------------------------------------------
  // The claims a session has are those of its last successful Connect
  // --------------------------------------------------------------------

  predicate IsConnect(v: Verdict) { v.ok && v.message.Frame? && v.message.frame.Connect? }

  /** What the session was last told its token stands for. */
  function LastConnected(env: Env, verdicts: seq<Verdict>): Option<Claims> {
    if verdicts == [] then None
    else
      var v := verdicts[|verdicts| - 1];
      if IsConnect(v) then env.authenticate(v.message.frame.token) else LastConnected(env, verdicts[..|verdicts| - 1])
  }

  /** The claims a session must have, by what it was answered. */
  function Earned(env: Env, verdicts: seq<Verdict>): Option<Claims> {
    var c := LastConnected(env, verdicts);
    if c.None? && env.anonymous then Some(Claims(Ascii("anonymous"), [], 0)) else c
  }

  lemma AnonymousIs()
    ensures Anonymous == Claims(Ascii("anonymous"), [], 0)
  {
    assert Anonymous.subject == Ascii("anonymous");
  }

  function Claimed(s: State, sid: SessionId): Option<Claims> {
    if sid in s.claims.of then Some(s.claims.of[sid]) else None
  }

  ghost predicate EarnedInv(env: Env, s: State) {
    && (forall sid: SessionId :: sid in s.claims.of ==> sid < s.sessions.nextId)
    && (forall sid: SessionId :: sid < s.sessions.nextId ==> Claimed(s, sid) == Earned(env, AnsweredTo(s, sid)))
  }

  lemma EarnedSnoc(env: Env, verdicts: seq<Verdict>, v: Verdict)
    requires !IsConnect(v)
    ensures Earned(env, verdicts + [v]) == Earned(env, verdicts)
  {
    assert (verdicts + [v])[..|verdicts|] == verdicts;
  }

  /** A step that leaves claims alone, and answers at most one message of `sid`, not with a Connect. */
  ghost predicate EarnsNothing(s: State, s': State, sid: SessionId) {
    && s'.claims == s.claims && s'.sessions.nextId == s.sessions.nextId
    && (|| s'.talk.answered == s.talk.answered
        || exists v :: !IsConnect(v) && s'.talk.answered == s.talk.answered[sid := AnsweredTo(s, sid) + [v]])
  }

  lemma NothingEarned(env: Env, s: State, s': State, sid: SessionId)
    requires EarnedInv(env, s) && EarnsNothing(s, s', sid)
    ensures EarnedInv(env, s')
  {
    hide Earned, IsConnect;
    forall x: SessionId | x < s'.sessions.nextId ensures Claimed(s', x) == Earned(env, AnsweredTo(s', x)) {
      if AnsweredTo(s', x) != AnsweredTo(s, x) {
        var v :| !IsConnect(v) && s'.talk.answered == s.talk.answered[sid := AnsweredTo(s, sid) + [v]];
        EarnedSnoc(env, AnsweredTo(s, x), v);
      }
    }
  }

  lemma SubscribeEarns(env: Env, s: State, t: TaskId, fail: bool)
    requires t in s.tasks.all && SubscribeInFlight(s.tasks.all[t], s.tasks.all[t].sid)
    ensures EarnsNothing(s, AdvanceSubscribe(env, s, t, s.tasks.all[t], fail), s.tasks.all[t].sid)
  {
    hide Broker.Attach, Broker.Detach, CursorOf, OutboxOf, CodeFor, RequestId;
    var k := s.tasks.all[t];
    assert !IsConnect(Verdict(k.message, false, 0));
    if k.stage.Inserting? { assert !IsConnect(Verdict(k.message, true, k.stage.cursor.seen)); }
  }

  lemma RestEarns(env: Env, s: State, t: TaskId, fail: bool)
    requires t in s.tasks.all && !SubscribeInFlight(s.tasks.all[t], s.tasks.all[t].sid)
    requires var k := s.tasks.all[t]; !(!k.stage.Replying? && k.message.Frame? && k.message.frame.Connect?)
    ensures EarnsNothing(s, AdvanceTask(env, s, t, s.tasks.all[t], fail), s.tasks.all[t].sid)
  {
    hide AdvanceSubscribe, Broker.Broadcast, OutboxOf, CodeFor, RequestId;
    var k := s.tasks.all[t];
    assert !IsConnect(Verdict(k.message, false, 0));
    if k.message.Frame? && !k.message.frame.Connect? { assert !IsConnect(Verdict(k.message, true, 0)); }
  }

  lemma ConnectEarns(env: Env, s: State, t: TaskId)
    requires EarnedInv(env, s) && t in s.tasks.all && !s.tasks.all[t].stage.Replying?
    requires s.tasks.all[t].message.Frame? && s.tasks.all[t].message.frame.Connect?
    requires s.tasks.all[t].sid < s.sessions.nextId
    ensures EarnedInv(env, AdvanceConnect(env, s, t, s.tasks.all[t]))
  {
    var k := s.tasks.all[t];
    var s' := AdvanceConnect(env, s, t, k);
    var c := env.authenticate(k.message.frame.token);
    if k.stage.Authenticating? && c.Some? {
      var v := Verdict(k.message, true, 0);
      assert AnsweredTo(s', k.sid) == AnsweredTo(s, k.sid) + [v] && IsConnect(v);
      assert Earned(env, AnsweredTo(s', k.sid)) == c;
      assert s'.claims.of == s.claims.of[k.sid := c.value];
      assert forall x :: x != k.sid ==> AnsweredTo(s', x) == AnsweredTo(s, x);
    } else {
      assert !IsConnect(Verdict(k.message, false, 0));
      assert EarnsNothing(s, s', k.sid);
      NothingEarned(env, s, s', k.sid);
    }
  }

  lemma BeginEarns(env: Env, s: State, t: TaskId, sid: SessionId, m: Message)
    requires EarnedInv(env, s) && sid < s.sessions.nextId
    ensures EarnsNothing(s, Begin(env, Ask(s, sid, m), t, sid, m), sid)
  {
    assert !IsConnect(Verdict(m, false, 0));
    assert env.anonymous ==> sid in s.claims.of by { assert Claimed(s, sid) == Earned(env, AnsweredTo(s, sid)); }
    hide Earned, IsConnect;
    var s1 := Ask(s, sid, m);
    BeginFrame(env, s1, t, sid, m);
    BeginTalks(env, s1, t, sid, m);
    hide Begin;
  }

  lemma BeginTalks(env: Env, s: State, t: TaskId, sid: SessionId, m: Message)
    ensures
      var s' := Begin(env, s, t, sid, m);
      && (s'.talk == s.talk || s'.talk == Record(s, sid, m, false).talk)
      && (s'.claims == s.claims || sid !in s.claims.of)
      && s'.sessions.nextId == s.sessions.nextId
      && (s'.claims == s.claims || env.anonymous)
  {
    hide Broker.Detach, CodeFor;
  }

  lemma AdvanceKeepsEarned(env: Env, s: State, t: TaskId, fail: bool)
    requires EarnedInv(env, s) && HubIndex.IdsInv(s) && t in s.tasks.all
    ensures EarnedInv(env, AdvanceTask(env, s, t, s.tasks.all[t], fail))
  {
    var k := s.tasks.all[t];
    var s' := AdvanceTask(env, s, t, k, fail);
    if SubscribeInFlight(k, k.sid) {
      hide AdvanceSubscribe, EarnedInv, EarnsNothing;
      SubscribeEarns(env, s, t, fail);
      NothingEarned(env, s, s', k.sid);
    } else if !k.stage.Replying? && k.message.Frame? && k.message.frame.Connect? {
      hide AdvanceConnect, EarnedInv;
      ConnectEarns(env, s, t);
    } else {
      hide AdvanceTask, EarnedInv, EarnsNothing;
      RestEarns(env, s, t, fail);
      NothingEarned(env, s, s', k.sid);
    }
  }

  lemma StepKeepsEarned(env: Env, s: State, e: Event)
    requires EarnedInv(env, s) && HubIndex.IdsInv(s)
    ensures EarnedInv(env, Step(env, s, e))
  {
    hide AdvanceTask, Begin;
    var s' := Step(env, s, e);
    match e
    case Advance(t, fail) =>
      if t in s.tasks.all { hide EarnedInv, HubIndex.IdsInv; AdvanceKeepsEarned(env, s, t, fail); }
    case Receive(t, sid, m) =>
      if t !in s.tasks.all && Reads(s, sid) {
        BeginEarns(env, s, t, sid, m);
        hide EarnedInv, EarnsNothing, HubIndex.IdsInv;
        NothingEarned(env, s, s', sid);
      }
    case Open =>
      hide HubIndex.IdsInv;
      OpenEarns(env, s);
    case _ =>
      assert s'.claims == s.claims && s'.talk == s.talk && s'.sessions.nextId == s.sessions.nextId;
      assert EarnsNothing(s, s', 0);
      hide Step, EarnedInv, EarnsNothing, HubIndex.IdsInv;
      NothingEarned(env, s, s', 0);
  }

  lemma OpenEarns(env: Env, s: State)
    requires EarnedInv(env, s)
    ensures EarnedInv(env, OpenSession(env, s))
  {
    AnonymousIs();
    var s', sid := OpenSession(env, s), s.sessions.nextId;
    assert AnsweredTo(s', sid) == [] && forall x :: x != sid ==> AnsweredTo(s', x) == AnsweredTo(s, x);
    assert sid !in s.claims.of;
  }

  /**
   * In every reachable state a session's claims are exactly those its last successful
   * Connect was for; without one it has none, or the anonymous ones in a hub that admits
   * anonymous sessions.
   */
  lemma {:induction false} ClaimsAreEarned(env: Env, events: seq<Event>)
    ensures EarnedInv(env, Run(env, Init, events))
    decreases |events|
  {
    hide Step, EarnedInv;
    if events == [] {
      InitEarned(env);
    } else {
      var init := events[..|events| - 1];
      ClaimsAreEarned(env, init);
      HubIndex.InitIndex();
      HubIndex.RunKeepsIndex(env, Init, init);
      StepKeepsEarned(env, Run(env, Init, init), events[|events| - 1]);
    }
  }

  lemma InitEarned(env: Env)
    ensures EarnedInv(env, Init)
  {
    assert Init.claims.of == map[] && Init.sessions.nextId == 0;
  }
}
