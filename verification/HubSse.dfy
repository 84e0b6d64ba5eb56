/**
 * The server-sent events handler: a session of its own, one call per channel, the next
 * only after the last succeeded, and a rollback on the first failure. The rest of the
 * server, kicks included, goes on between its steps.
 */
module HubSse {
  import opened Types
  import opened Frames
  import opened Registry
  import opened Hub
  import opened HubReplies
  import opened HubGrants
  import opened HubStale
  import Broker
  import History
  import HubIndex
  import HubProgress

  /** The calls the handler makes on the hub, in order. */
  function Requests(token: Option<Bytes>, channels: seq<Channel>): seq<Message> {
    (if token.Some? then [Frame(Connect(0, token.value))] else [])
    + seq(|channels|, i requires 0 <= i < |channels| => Frame(Subscribe(i, channels[i], 0)))
  }

  /** Before the session is opened; refused for want of a channel; `asked` calls made; rolled back; streaming. */
  datatype Phase = Waiting | Refused | Calling(sid: SessionId, asked: nat) | Failed(sid: SessionId) | Succeeded(sid: SessionId)

  /** A step of the handler, which may use `t` for its next call, or any event of the rest of the server. */
  datatype Move = Handler(t: TaskId) | Other(e: Event)

  /** The hub events so far and where the handler is. */
  datatype Served = Served(trace: seq<Event>, phase: Phase)

  function After(env: Env, v: Served): State { Run(env, Init, v.trace) }

  predicate LastSucceeded(answers: seq<Verdict>) { answers != [] && answers[|answers| - 1].ok }

  function HandlerMove(env: Env, token: Option<Bytes>, channels: seq<Channel>, v: Served, t: TaskId): Served {
    var s, requests := After(env, v), Requests(token, channels);
    match v.phase
    case Waiting =>
      if channels == [] then v.(phase := Refused)
      else if token.None? && !env.anonymous then
        Served(v.trace + [Open] + [Deregister(s.sessions.nextId)], Failed(s.sessions.nextId))
      else Served(v.trace + [Open], Calling(s.sessions.nextId, 0))
    case Calling(sid, n) =>
      if Busy(s, sid) then v
      else if n > 0 && !LastSucceeded(AnsweredTo(s, sid)) then Served(v.trace + [Deregister(sid)], Failed(sid))
      else if n >= |requests| then v.(phase := Succeeded(sid))
      else if t in s.tasks.all then v
      else Served(v.trace + [Receive(t, sid, requests[n])], Calling(sid, n + 1))
    case _ => v
  }

  predicate Owns(phase: Phase, sid: SessionId) {
    (phase.Calling? || phase.Failed? || phase.Succeeded?) && phase.sid == sid
  }

  /** Nobody else sends frames on the handler's session. */
  function Moved(env: Env, token: Option<Bytes>, channels: seq<Channel>, v: Served, m: Move): Served {
    match m
    case Handler(t) => HandlerMove(env, token, channels, v, t)
    case Other(e) => if e.Receive? && Owns(v.phase, e.sid) then v else Served(v.trace + [e], v.phase)
  }

  function Serve(env: Env, token: Option<Bytes>, channels: seq<Channel>, moves: seq<Move>): Served {
    if moves == [] then Served([], Waiting)
    else Moved(env, token, channels, Serve(env, token, channels, moves[..|moves| - 1]), moves[|moves| - 1])
  }

  // --------------------------------------------------------------------
  // What any event does to a session's conversation
  // --------------------------------------------------------------------

  /** No new handler, no new message; answers only grow. */
  ghost predicate OnlyAnswers(s: State, s': State, sid: SessionId) {
    && AskedBy(s', sid) == AskedBy(s, sid)
    && AnsweredTo(s, sid) <= AnsweredTo(s', sid)
    && s.sessions.nextId <= s'.sessions.nextId
    && (forall t :: t in s'.tasks.all && s'.tasks.all[t].sid == sid ==> t in s.tasks.all && s.tasks.all[t].sid == sid)
  }

  lemma AdvanceOnlyAnswers(env: Env, s: State, t: TaskId, fail: bool, sid: SessionId)
    requires t in s.tasks.all
    ensures OnlyAnswers(s, AdvanceTask(env, s, t, s.tasks.all[t], fail), sid)
  {
    var k := s.tasks.all[t];
    var s' := AdvanceTask(env, s, t, k, fail);
    AdvanceFrame(env, s, t, fail);
    IdsGrowByOpen(env, s, Advance(t, fail));
    assert s' == Step(env, s, Advance(t, fail));
    if Inserts(s, k) {
      assert s'.talk == Record(s, k.sid, k.message, true, k.stage.cursor.seen).talk;
    } else {
      AdvanceAnswers(env, s, t, fail);
    }
    hide AdvanceTask, Step;
  }

  lemma OtherOnlyAnswers(env: Env, s: State, e: Event, sid: SessionId)
    requires sid < s.sessions.nextId && !(e.Receive? && e.sid == sid)
    ensures OnlyAnswers(s, Step(env, s, e), sid)
  {
    hide AdvanceTask, Begin, PollReceiver, ForwardHand, RemoveSubscription;
    match e
    case Advance(t, fail) => if t in s.tasks.all { AdvanceOnlyAnswers(env, s, t, fail, sid); }
    case Receive(t, who, m) =>
      IdsGrowByOpen(env, s, e);
      if t !in s.tasks.all && Reads(s, who) {
        BeginFrame(env, Ask(s, who, m), t, who, m);
        BeginAnswers(env, Ask(s, who, m), t, who, m);
      }
    case PollStream(sub) => if Running(s, sub) { RunnerTalksNot(env, s, sub); }
    case Forward(sub) => if Running(s, sub) && s.subs.all[sub].hand.Some? { RunnerTalksNot(env, s, sub); }
    case _ =>
  }

  lemma RunnerTalksNot(env: Env, s: State, sub: SubId)
    requires Running(s, sub)
    ensures var s' := PollReceiver(env, s, sub); s'.tasks == s.tasks && s'.talk == s.talk && s'.sessions == s.sessions
    ensures s.subs.all[sub].hand.Some? ==>
              var s' := ForwardHand(s, sub);
              s'.tasks == s.tasks && s'.talk == s.talk && s'.sessions == s.sessions
  {
    hide Broker.Poll, Broker.Peek, OutboxOf;
  }

  lemma SerialStays(env: Env, trace: seq<Event>, e: Event, sid: SessionId)
    requires SerialRunAt(env, trace, sid) && OnlyAnswers(Run(env, Init, trace), Run(env, Init, trace + [e]), sid)
    ensures SerialRunAt(env, trace + [e], sid)
  {
    hide Step, Run;
    assert (trace + [e])[..|trace|] == trace;
  }

  /** A session not yet opened has had no handlers. */
  lemma {:induction false} FreshIsSerial(env: Env, trace: seq<Event>, sid: SessionId)
    requires sid >= Run(env, Init, trace).sessions.nextId
    ensures SerialRunAt(env, trace, sid)
    decreases |trace|
  {
    hide Step;
    HubIndex.InitIndex();
    HubIndex.RunKeepsIndex(env, Init, trace);
    if trace != [] {
      var init := trace[..|trace| - 1];
      IdsGrowByOpen(env, Run(env, Init, init), trace[|trace| - 1]);
      FreshIsSerial(env, init, sid);
    }
  }

  // --------------------------------------------------------------------
  // The handler's conversation
  // --------------------------------------------------------------------

  predicate AllSucceeded(answers: seq<Verdict>) {
    forall i :: 0 <= i < |answers| ==> answers[i].ok
  }

  /** The first `n` requests were made, each after all before it had succeeded. */
  ghost predicate Talking(s: State, sid: SessionId, requests: seq<Message>, n: nat) {
    && sid < s.sessions.nextId
    && n <= |requests|
    && AskedBy(s, sid) == requests[..n]
    && (n > 0 ==> n - 1 <= |AnsweredTo(s, sid)| && AllSucceeded(AnsweredTo(s, sid)[..n - 1]))
  }

  ghost predicate HandlerInv(env: Env, token: Option<Bytes>, channels: seq<Channel>, v: Served) {
    var s, requests := After(env, v), Requests(token, channels);
    match v.phase
    case Waiting => true
    case Refused => channels == []
    case Calling(sid, n) => Talking(s, sid, requests, n) && SerialRunAt(env, v.trace, sid)
    case Failed(sid) =>
      && sid < s.sessions.nextId && sid !in s.sessions.registered
      && ((token.None? && !env.anonymous) || !AllSucceeded(AnsweredTo(s, sid)))
    case Succeeded(sid) =>
      && Talking(s, sid, requests, |requests|) && SerialRunAt(env, v.trace, sid)
      && !Busy(s, sid) && AllSucceeded(AnsweredTo(s, sid)) && |AnsweredTo(s, sid)| == |requests|
  }

  /** A call that has returned is answered. */
  lemma ReturnedIsAnswered(env: Env, trace: seq<Event>, sid: SessionId)
    requires SerialRunAt(env, trace, sid)
    requires var s := Run(env, Init, trace); sid < s.sessions.nextId && !Busy(s, sid)
    ensures var s := Run(env, Init, trace); Messages(AnsweredTo(s, sid)) == AskedBy(s, sid)
  {
    RunKeepsTalk(env, trace, sid);
  }

  lemma TalkingStays(s: State, s': State, sid: SessionId, requests: seq<Message>, n: nat)
    requires Talking(s, sid, requests, n) && OnlyAnswers(s, s', sid)
    ensures Talking(s', sid, requests, n)
    ensures Busy(s', sid) ==> Busy(s, sid)
  {
    if n > 0 { assert AnsweredTo(s', sid)[..n - 1] == AnsweredTo(s, sid)[..n - 1]; }
  }

  lemma StaysUnregistered(env: Env, s: State, e: Event, sid: SessionId)
    requires sid < s.sessions.nextId
    ensures sid !in s.sessions.registered ==> sid !in Step(env, s, e).sessions.registered
    ensures sid in s.sessions.registered && e != Deregister(sid) ==> sid in Step(env, s, e).sessions.registered
  {
    hide AdvanceTask, Begin;
    match e
    case Advance(t, fail) => if t in s.tasks.all { AdvanceSameRegistered(env, s, t, fail); }
    case Receive(t, who, m) =>
      if t !in s.tasks.all && Reads(s, who) { BeginFrame(env, Ask(s, who, m), t, who, m); }
    case _ =>
  }

  lemma AdvanceSameRegistered(env: Env, s: State, t: TaskId, fail: bool)
    requires t in s.tasks.all
    ensures AdvanceTask(env, s, t, s.tasks.all[t], fail).sessions.registered == s.sessions.registered
  {
    var k := s.tasks.all[t];
    AdvanceFrame(env, s, t, fail);
    if Inserts(s, k) {
      assert AdvanceTask(env, s, t, k, fail)
          == InsertSubscription(s, t, k, k.stage.sub, k.stage.cursor, k.message.frame.channel);
    }
    hide AdvanceTask;
  }

  lemma OtherKeepsHandler(env: Env, token: Option<Bytes>, channels: seq<Channel>, v: Served, e: Event)
    requires HandlerInv(env, token, channels, v) && !(e.Receive? && Owns(v.phase, e.sid))
    ensures HandlerInv(env, token, channels, Served(v.trace + [e], v.phase))
  {
    hide Step, Run;
    var s, s' := Run(env, Init, v.trace), Run(env, Init, v.trace + [e]);
    RunSnoc(env, Init, v.trace, e);
    if v.phase.Calling? || v.phase.Failed? || v.phase.Succeeded? {
      var sid := v.phase.sid;
      OtherOnlyAnswers(env, s, e, sid);
      StaysUnregistered(env, s, e, sid);
      if !v.phase.Failed? {
        SerialStays(env, v.trace, e, sid);
        TalkingStays(s, s', sid, Requests(token, channels), if v.phase.Calling? then v.phase.asked else |Requests(token, channels)|);
      } else if !AllSucceeded(AnsweredTo(s, sid)) {
        var i :| 0 <= i < |AnsweredTo(s, sid)| && !AnsweredTo(s, sid)[i].ok;
        assert AnsweredTo(s', sid)[i] == AnsweredTo(s, sid)[i];
      }
      if v.phase.Succeeded? {
        ReturnedIsAnswered(env, v.trace + [e], sid);
        assert |AnsweredTo(s', sid)| == |Messages(AnsweredTo(s', sid))|;
      }
    }
  }

  lemma OpenStarts(env: Env, trace: seq<Event>, requests: seq<Message>)
    ensures
      var sid, s' := Run(env, Init, trace).sessions.nextId, Run(env, Init, trace + [Open]);
      && Talking(s', sid, requests, 0) && SerialRunAt(env, trace + [Open], sid)
      && !Busy(s', sid) && sid in s'.sessions.registered
  {
    var s := Run(env, Init, trace);
    RunSnoc(env, Init, trace, Open);
    HubIndex.InitIndex();
    HubIndex.RunKeepsIndex(env, Init, trace);
    FreshIsSerial(env, trace, s.sessions.nextId);
    assert (trace + [Open])[..|trace|] == trace;
    hide Run;
    var s' := Step(env, s, Open);
    assert s' == OpenSession(env, s) && s'.tasks == s.tasks;
    assert AskedBy(s', s.sessions.nextId) == [];
  }

  /** The session's connection is still read: every request so far was a frame. */
  lemma StillReads(s: State, sid: SessionId, token: Option<Bytes>, channels: seq<Channel>, n: nat)
    requires HubIndex.IdsInv(s) && Talking(s, sid, Requests(token, channels), n)
    ensures Reads(s, sid)
  {
    assert forall i :: 0 <= i < |Requests(token, channels)| ==> Requests(token, channels)[i].Frame?;
  }

  lemma ReceiveAsks(env: Env, s: State, t: TaskId, sid: SessionId, m: Message)
    requires t !in s.tasks.all && Reads(s, sid) && !Busy(s, sid)
    ensures
      var s' := Step(env, s, Receive(t, sid, m));
      && AskedBy(s', sid) == AskedBy(s, sid) + [m]
      && AnsweredTo(s, sid) <= AnsweredTo(s', sid)
      && s'.sessions.nextId == s.sessions.nextId
      && SerialAt(s', sid)
  {
    var s1 := Ask(s, sid, m);
    BeginFrame(env, s1, t, sid, m);
    BeginAnswers(env, s1, t, sid, m);
    IdsGrowByOpen(env, s, Receive(t, sid, m));
    var s' := Step(env, s, Receive(t, sid, m));
    assert s' == Begin(env, s1, t, sid, m);
    hide Begin, Step;
  }

  lemma AllBefore(answers: seq<Verdict>, n: nat)
    requires |answers| == n && (n > 0 ==> LastSucceeded(answers) && AllSucceeded(answers[..n - 1]))
    ensures AllSucceeded(answers)
  {
    forall i | 0 <= i < n ensures answers[i].ok {
      if i < n - 1 { assert answers[..n - 1][i] == answers[i]; }
    }
  }

  lemma TalkingNext(s: State, s': State, sid: SessionId, requests: seq<Message>, n: nat)
    requires Talking(s, sid, requests, n) && n < |requests| && |AnsweredTo(s, sid)| == n
    requires n > 0 ==> LastSucceeded(AnsweredTo(s, sid))
    requires AskedBy(s', sid) == AskedBy(s, sid) + [requests[n]] && AnsweredTo(s, sid) <= AnsweredTo(s', sid)
    requires s'.sessions.nextId == s.sessions.nextId
    ensures Talking(s', sid, requests, n + 1)
  {
    AllBefore(AnsweredTo(s, sid), n);
    assert requests[..n + 1] == requests[..n] + [requests[n]];
    assert AnsweredTo(s', sid)[..n] == AnsweredTo(s, sid);
  }

  lemma IdsHold(env: Env, trace: seq<Event>)
    ensures HubIndex.IdsInv(Run(env, Init, trace))
  {
    HubIndex.InitIndex();
    HubIndex.RunKeepsIndex(env, Init, trace);
  }

  lemma NextCall(env: Env, token: Option<Bytes>, channels: seq<Channel>, trace: seq<Event>, sid: SessionId, n: nat, t: TaskId)
    requires
      var s, requests := Run(env, Init, trace), Requests(token, channels);
      && Talking(s, sid, requests, n) && SerialRunAt(env, trace, sid) && !Busy(s, sid) && t !in s.tasks.all
      && n < |requests| && (n > 0 ==> LastSucceeded(AnsweredTo(s, sid)))
    ensures
      var requests := Requests(token, channels);
      var trace' := trace + [Receive(t, sid, requests[n])];
      Talking(Run(env, Init, trace'), sid, requests, n + 1) && SerialRunAt(env, trace', sid)
  {
    var s, requests := Run(env, Init, trace), Requests(token, channels);
    var e := Receive(t, sid, requests[n]);
    RunSnoc(env, Init, trace, e);
    IdsHold(env, trace);
    assert (trace + [e])[..|trace|] == trace;
    hide Run, Step, HubIndex.IdsInv, Requests;
    StillReads(s, sid, token, channels, n);
    ReceiveAsks(env, s, t, sid, requests[n]);
    ReturnedIsAnswered(env, trace, sid);
    assert |AskedBy(s, sid)| == n;
    assert |AnsweredTo(s, sid)| == |Messages(AnsweredTo(s, sid))| == n;
    TalkingNext(s, Run(env, Init, trace + [e]), sid, requests, n);
  }

  lemma HandlerKeeps(env: Env, token: Option<Bytes>, channels: seq<Channel>, v: Served, t: TaskId)
    requires HandlerInv(env, token, channels, v)
    ensures HandlerInv(env, token, channels, HandlerMove(env, token, channels, v, t))
  {
    hide Step, Run, Requests, Busy, SerialRunAt;
    var s, requests := After(env, v), Requests(token, channels);
    match v.phase
    case Waiting =>
      hide Talking;
      if channels != [] {
        OpenStarts(env, v.trace, requests);
        if token.None? && !env.anonymous {
          Closes(env, v.trace + [Open], s.sessions.nextId);
        }
      }
    case Calling(sid, n) => CallKeeps(env, token, channels, v, sid, n, t);
    case _ =>
  }

  lemma CallKeeps(env: Env, token: Option<Bytes>, channels: seq<Channel>, v: Served, sid: SessionId, n: nat, t: TaskId)
    requires HandlerInv(env, token, channels, v) && v.phase == Calling(sid, n)
    ensures HandlerInv(env, token, channels, HandlerMove(env, token, channels, v, t))
  {
    hide Step, Run, Requests, Busy, SerialRunAt;
    var s, requests := After(env, v), Requests(token, channels);
    if !Busy(s, sid) {
      ReturnedIsAnswered(env, v.trace, sid);
      var answers := AnsweredTo(s, sid);
      assert |answers| == |Messages(answers)| == n;
      if n > 0 && !LastSucceeded(answers) {
        Closes(env, v.trace, sid);
        assert !answers[n - 1].ok;
      } else if n == |requests| {
        AllBefore(answers, n);
      } else if t !in s.tasks.all {
        NextCall(env, token, channels, v.trace, sid, n, t);
        hide Talking;
      }
    }
  }

  lemma Closes(env: Env, trace: seq<Event>, sid: SessionId)
    ensures
      var s, s' := Run(env, Init, trace), Run(env, Init, trace + [Deregister(sid)]);
      && sid !in s'.sessions.registered && s'.sessions.nextId == s.sessions.nextId
      && AnsweredTo(s', sid) == AnsweredTo(s, sid)
  {
    RunSnoc(env, Init, trace, Deregister(sid));
  }

  lemma {:induction false} ServeKeeps(env: Env, token: Option<Bytes>, channels: seq<Channel>, moves: seq<Move>)
    ensures HandlerInv(env, token, channels, Serve(env, token, channels, moves))
    decreases |moves|
  {
    hide HandlerInv, HandlerMove;
    if moves == [] {
      StartsWaiting(env, token, channels);
    } else {
      var v := Serve(env, token, channels, moves[..|moves| - 1]);
      ServeKeeps(env, token, channels, moves[..|moves| - 1]);
      match moves[|moves| - 1]
      case Handler(t) => HandlerKeeps(env, token, channels, v, t);
      case Other(e) => if !(e.Receive? && Owns(v.phase, e.sid)) { OtherKeepsHandler(env, token, channels, v, e); }
    }
  }

  lemma StartsWaiting(env: Env, token: Option<Bytes>, channels: seq<Channel>)
    ensures HandlerInv(env, token, channels, Served([], Waiting))
  {
  }

  // --------------------------------------------------------------------
  // All or nothing
  // --------------------------------------------------------------------

  /** If the move kicks the handler's session, none of its subscribes can still insert. */
  predicate CleanMove(env: Env, v: Served, m: Move) {
    Kicks(env, v, m) ==> !CanInsertFor(env, After(env, v), m.e.sid)
  }

  predicate Kicks(env: Env, v: Served, m: Move) {
    m.Other? && m.e.Deregister? && Owns(v.phase, m.e.sid) && m.e.sid in After(env, v).sessions.registered
  }

  predicate Clean(env: Env, token: Option<Bytes>, channels: seq<Channel>, moves: seq<Move>) {
    moves == [] ||
    (Clean(env, token, channels, moves[..|moves| - 1])
     && CleanMove(env, Serve(env, token, channels, moves[..|moves| - 1]), moves[|moves| - 1]))
  }

  ghost predicate SealedIfGone(env: Env, trace: seq<Event>, sid: SessionId) {
    var s := Run(env, Init, trace);
    sid !in s.sessions.registered ==> Sealed(env, s, sid)
  }

  ghost predicate SealInv(env: Env, v: Served) {
    v.phase.Calling? || v.phase.Failed? || v.phase.Succeeded? ==> SealedIfGone(env, v.trace, v.phase.sid)
  }

  lemma EventKeepsSeal(env: Env, trace: seq<Event>, e: Event, sid: SessionId)
    requires SealedIfGone(env, trace, sid) && sid < Run(env, Init, trace).sessions.nextId
    requires
      var s := Run(env, Init, trace);
      e == Deregister(sid) && sid in s.sessions.registered ==> !CanInsertFor(env, s, sid)
    ensures SealedIfGone(env, trace + [e], sid)
  {
    var s := Run(env, Init, trace);
    RunSnoc(env, Init, trace, e);
    HubIndex.InitIndex();
    HubIndex.RunKeepsIndex(env, Init, trace);
    hide Run, Sealed, HubIndex.IndexInv;
    if sid !in s.sessions.registered {
      hide Step;
      StepKeepsSealed(env, s, e, sid);
    } else if e == Deregister(sid) {
      CloseSeals(env, s, sid);
    } else {
      hide Step;
      StaysUnregistered(env, s, e, sid);
    }
  }

  /** No handler of the session is in flight, so none can insert. */
  lemma IdleCannotInsert(env: Env, s: State, sid: SessionId)
    requires !Busy(s, sid)
    ensures !CanInsertFor(env, s, sid)
  {
  }

  lemma HandlerKeepsSeal(env: Env, token: Option<Bytes>, channels: seq<Channel>, v: Served, t: TaskId)
    requires HandlerInv(env, token, channels, v) && SealInv(env, v)
    ensures SealInv(env, HandlerMove(env, token, channels, v, t))
  {
    hide Step, Run, Requests, Sealed;
    var s, requests := After(env, v), Requests(token, channels);
    match v.phase
    case Waiting =>
      if channels != [] {
        OpenStarts(env, v.trace, requests);
        var sid := s.sessions.nextId;
        if token.None? && !env.anonymous {
          IdleCannotInsert(env, Run(env, Init, v.trace + [Open]), sid);
          EventKeepsSeal(env, v.trace + [Open], Deregister(sid), sid);
        }
      }
    case Calling(sid, n) =>
      if !Busy(s, sid) {
        IdleCannotInsert(env, s, sid);
        if n > 0 && !LastSucceeded(AnsweredTo(s, sid)) {
          EventKeepsSeal(env, v.trace, Deregister(sid), sid);
        } else if n < |requests| && t !in s.tasks.all {
          EventKeepsSeal(env, v.trace, Receive(t, sid, requests[n]), sid);
        }
      }
    case _ =>
  }

  lemma OtherKeepsSeal(env: Env, token: Option<Bytes>, channels: seq<Channel>, v: Served, e: Event)
    requires HandlerInv(env, token, channels, v) && SealInv(env, v) && CleanMove(env, v, Other(e))
    ensures SealInv(env, Served(v.trace + [e], v.phase))
  {
    hide Step, Run, Requests, Sealed;
    if v.phase.Calling? || v.phase.Failed? || v.phase.Succeeded? {
      EventKeepsSeal(env, v.trace, e, v.phase.sid);
    }
  }

  lemma {:induction false} ServeKeepsSeal(env: Env, token: Option<Bytes>, channels: seq<Channel>, moves: seq<Move>)
    requires Clean(env, token, channels, moves)
    ensures SealInv(env, Serve(env, token, channels, moves))
    decreases |moves|
  {
    hide HandlerInv, HandlerMove, CleanMove, SealedIfGone;
    if moves != [] {
      var v := Serve(env, token, channels, moves[..|moves| - 1]);
      ServeKeeps(env, token, channels, moves[..|moves| - 1]);
      ServeKeepsSeal(env, token, channels, moves[..|moves| - 1]);
      match moves[|moves| - 1]
      case Handler(t) => HandlerKeepsSeal(env, token, channels, v, t);
      case Other(e) => if !(e.Receive? && Owns(v.phase, e.sid)) { OtherKeepsSeal(env, token, channels, v, e); }
    }
  }

  lemma GrantedIffRequested(token: Option<Bytes>, channels: seq<Channel>, answers: seq<Verdict>, ch: Channel)
    requires Messages(answers) == Requests(token, channels) && AllSucceeded(answers)
    ensures Granted(answers, ch) <==> ch in channels
  {
    var requests, n := Requests(token, channels), if token.Some? then 1 else 0;
    assert forall i :: 0 <= i < |answers| ==> answers[i].message == requests[i];
    if ch in channels {
      var j :| 0 <= j < |channels| && channels[j] == ch;
      assert requests[n + j] == Frame(Subscribe(j, ch, 0));
      assert IsSubscribe(answers[n + j].message, ch);
    }
    if Granted(answers, ch) {
      var i :| 0 <= i < |answers| && answers[i].ok && IsSubscribe(answers[i].message, ch);
      assert i >= n && requests[i] == Frame(Subscribe(i - n, channels[i - n], 0));
    }
  }

  /** The session is registered, holds the channels asked for and no other, and is listed once for each. */
  ghost predicate AllOf(s: State, sid: SessionId, channels: seq<Channel>) {
    && sid in s.sessions.registered
    && (forall ch :: ch in HeldBy(s, sid) <==> ch in channels)
    && (forall ch :: Listed(s.sessions.index, ch, sid) == if ch in channels then 1 else 0)
  }

  /** The session is not registered and not listed, now and in every continuation. */
  ghost predicate NothingOf(env: Env, s: State, sid: SessionId) {
    forall after :: Unseen(Run(env, s, after), sid)
  }

  ghost predicate Unseen(s: State, sid: SessionId) {
    sid !in s.sessions.registered && forall ch :: Listed(s.sessions.index, ch, sid) == 0
  }

  lemma GoneIsNothing(env: Env, trace: seq<Event>, sid: SessionId)
    requires SealedIfGone(env, trace, sid) && sid !in Run(env, Init, trace).sessions.registered
    ensures NothingOf(env, Run(env, Init, trace), sid)
  {
    hide Step, HubIndex.IndexInv;
    var s := Run(env, Init, trace);
    HubIndex.InitIndex();
    HubIndex.RunKeepsIndex(env, Init, trace);
    forall after ensures Unseen(Run(env, s, after), sid) {
      RunKeepsSealed(env, s, after, sid);
      HubIndex.RunKeepsIndex(env, s, after);
      forall ch ensures Listed(Run(env, s, after).sessions.index, ch, sid) == 0 {
        SealedIsUnlisted(env, Run(env, s, after), sid, ch);
      }
    }
  }

  lemma SucceededHasAll(env: Env, token: Option<Bytes>, channels: seq<Channel>, v: Served)
    requires HandlerInv(env, token, channels, v) && v.phase.Succeeded? && v.phase.sid in After(env, v).sessions.registered
    ensures AllOf(After(env, v), v.phase.sid, channels)
  {
    var s, sid := After(env, v), v.phase.sid;
    hide Run, Step;
    ReturnedIsAnswered(env, v.trace, sid);
    RunKeepsGrants(env, v.trace);
    var requests := Requests(token, channels);
    assert requests[..|requests|] == requests;
    assert NeverLeaves(s, sid) by {
      assert forall i :: 0 <= i < |requests| ==> !IsUnsubscribe(requests[i]);
    }
    forall ch ensures ch in HeldBy(s, sid) <==> ch in channels {
      GrantedIffRequested(token, channels, AnsweredTo(s, sid), ch);
    }
    forall ch ensures Listed(s.sessions.index, ch, sid) == if ch in channels then 1 else 0 {
      HubIndex.IndexAgrees(env, v.trace, sid, ch);
    }
  }

  /**
   * All or nothing, whatever the rest of the server does between the handler's steps, as
   * long as the session is not kicked while one of its subscribes can still insert. A
   * request that succeeds has all its channels; one that fails, because a call failed or
   * a token was missing, leaves nothing; and a session that was kicked leaves nothing.
   */
  lemma AllOrNothing(env: Env, token: Option<Bytes>, channels: seq<Channel>, moves: seq<Move>)
    requires Clean(env, token, channels, moves)
    ensures
      var v := Serve(env, token, channels, moves);
      var s := After(env, v);
      match v.phase
      case Waiting => true
      case Refused => channels == []
      case Calling(sid, _) => sid in s.sessions.registered || NothingOf(env, s, sid)
      case Failed(sid) =>
        && NothingOf(env, s, sid)
        && ((token.None? && !env.anonymous) || !AllSucceeded(AnsweredTo(s, sid)))
      case Succeeded(sid) =>
        && AllSucceeded(AnsweredTo(s, sid)) && Messages(AnsweredTo(s, sid)) == Requests(token, channels)
        && (AllOf(s, sid, channels) || NothingOf(env, s, sid))
  {
    var v := Serve(env, token, channels, moves);
    ServeKeeps(env, token, channels, moves);
    ServeKeepsSeal(env, token, channels, moves);
    hide Step, Run, Serve, Clean, SealedIfGone;
    var requests := Requests(token, channels);
    assert requests[..|requests|] == requests;
    match v.phase
    case Waiting =>
    case Refused =>
    case Calling(sid, _) => if sid !in After(env, v).sessions.registered { GoneIsNothing(env, v.trace, sid); }
    case Failed(sid) => GoneIsNothing(env, v.trace, sid);
    case Succeeded(sid) =>
      ReturnedIsAnswered(env, v.trace, sid);
      if sid in After(env, v).sessions.registered {
        SucceededHasAll(env, token, channels, v);
      } else {
        GoneIsNothing(env, v.trace, sid);
      }
  }

  // --------------------------------------------------------------------
  // The condition is exact
  // --------------------------------------------------------------------

  function Others(events: seq<Event>): seq<Move> {
    seq(|events|, i requires 0 <= i < |events| => Other(events[i]))
  }

  lemma ServeSnoc(env: Env, token: Option<Bytes>, channels: seq<Channel>, moves: seq<Move>, m: Move)
    ensures Serve(env, token, channels, moves + [m]) == Moved(env, token, channels, Serve(env, token, channels, moves), m)
  {
    hide Moved;
    assert (moves + [m])[..|moves|] == moves;
  }

  /** Events of the rest of the server that send no frames just happen. */
  lemma {:induction false} ServeOthers(env: Env, token: Option<Bytes>, channels: seq<Channel>, moves: seq<Move>, events: seq<Event>)
    requires forall e <- events :: !e.Receive?
    ensures
      var v := Serve(env, token, channels, moves);
      Serve(env, token, channels, moves + Others(events)) == Served(v.trace + events, v.phase)
    decreases |events|
  {
    hide HandlerMove, Serve;
    var v := Serve(env, token, channels, moves);
    if events == [] {
      assert moves + Others(events) == moves && v.trace + events == v.trace;
    } else {
      var init, e := events[..|events| - 1], events[|events| - 1];
      ServeOthers(env, token, channels, moves, init);
      assert moves + Others(events) == (moves + Others(init)) + [Other(e)];
      ServeSnoc(env, token, channels, moves + Others(init), Other(e));
      assert v.trace + init + [e] == v.trace + events;
    }
  }

  lemma MoveKeepsSealed(env: Env, token: Option<Bytes>, channels: seq<Channel>, v: Served, m: Move, sid: SessionId)
    requires Sealed(env, After(env, v), sid)
    ensures Sealed(env, After(env, Moved(env, token, channels, v, m)), sid)
  {
    hide Run, Step, Sealed, Busy, LastSucceeded, Requests;
    var v' := Moved(env, token, channels, v, m);
    if |v'.trace| == |v.trace| + 1 {
      var e := v'.trace[|v.trace|];
      assert v'.trace == v.trace + [e];
      RunSnoc(env, Init, v.trace, e);
      StepKeepsSealed(env, After(env, v), e, sid);
    } else if v'.trace != v.trace {
      var e := Deregister(After(env, v).sessions.nextId);
      RunSnoc(env, Init, v.trace, Open);
      RunSnoc(env, Init, v.trace + [Open], e);
      StepKeepsSealed(env, After(env, v), Open, sid);
      StepKeepsSealed(env, Run(env, Init, v.trace + [Open]), e, sid);
    }
  }

  lemma {:induction false} MovesKeepSealed(env: Env, token: Option<Bytes>, channels: seq<Channel>, moves: seq<Move>,
                                           more: seq<Move>, sid: SessionId)
    requires Sealed(env, After(env, Serve(env, token, channels, moves)), sid)
    ensures Sealed(env, After(env, Serve(env, token, channels, moves + more)), sid)
    decreases |more|
  {
    hide Sealed, After, Moved, Serve;
    if more == [] {
      assert moves + more == moves;
    } else {
      var init, m := more[..|more| - 1], more[|more| - 1];
      MovesKeepSealed(env, token, channels, moves, init, sid);
      assert moves + more == (moves + init) + [m];
      ServeSnoc(env, token, channels, moves + init, m);
      MoveKeepsSealed(env, token, channels, Serve(env, token, channels, moves + init), m, sid);
    }
  }

  ghost predicate Unlisted(s: State, sid: SessionId) {
    forall ch :: Listed(s.sessions.index, ch, sid) == 0
  }

  /**
   * The condition of `AllOrNothing` is exact: while the session is registered, a kick
   * leaves nothing however the handler and the server go on if and only if none of the
   * session's subscribes can still insert. None of them asks for a replay, so this holds
   * for every channel kind and whether or not the outbox is open.
   */
  lemma KickIsSafeIff(env: Env, token: Option<Bytes>, channels: seq<Channel>, moves: seq<Move>, sid: SessionId)
    requires
      var v := Serve(env, token, channels, moves);
      Owns(v.phase, sid) && sid in After(env, v).sessions.registered
    ensures
      (forall more :: Unlisted(After(env, Serve(env, token, channels, moves + [Other(Deregister(sid))] + more)), sid))
      <==> !CanInsertFor(env, After(env, Serve(env, token, channels, moves)), sid)
  {
    hide Step, Run, Serve, Moved, HandlerMove;
    if CanInsertFor(env, After(env, Serve(env, token, channels, moves)), sid) {
      UnsafeKick(env, token, channels, moves, sid);
    } else {
      SafeKick(env, token, channels, moves, sid);
    }
  }

  lemma KickServed(env: Env, token: Option<Bytes>, channels: seq<Channel>, moves: seq<Move>, sid: SessionId)
    ensures
      var v := Serve(env, token, channels, moves);
      Serve(env, token, channels, moves + [Other(Deregister(sid))]) == Served(v.trace + [Deregister(sid)], v.phase)
  {
    ServeSnoc(env, token, channels, moves, Other(Deregister(sid)));
  }

  lemma SafeKick(env: Env, token: Option<Bytes>, channels: seq<Channel>, moves: seq<Move>, sid: SessionId)
    requires
      var s := After(env, Serve(env, token, channels, moves));
      sid in s.sessions.registered && !CanInsertFor(env, s, sid)
    ensures forall more :: Unlisted(After(env, Serve(env, token, channels, moves + [Other(Deregister(sid))] + more)), sid)
  {
    var v := Serve(env, token, channels, moves);
    HubIndex.InitIndex();
    HubIndex.RunKeepsIndex(env, Init, v.trace);
    KickServed(env, token, channels, moves, sid);
    CloseSeals(env, After(env, v), sid);
    RunSnoc(env, Init, v.trace, Deregister(sid));
    hide Run, Sealed, Serve, HubIndex.IndexInv;
    forall more ensures Unlisted(After(env, Serve(env, token, channels, moves + [Other(Deregister(sid))] + more)), sid) {
      MovesKeepSealed(env, token, channels, moves + [Other(Deregister(sid))], more, sid);
      var v' := Serve(env, token, channels, moves + [Other(Deregister(sid))] + more);
      HubIndex.RunKeepsIndex(env, Init, v'.trace);
      forall ch ensures Listed(After(env, v').sessions.index, ch, sid) == 0 {
        SealedIsUnlisted(env, After(env, v'), sid, ch);
      }
    }
  }

  /** The subscribes the handler makes ask for no replay. */
  lemma AsksNoReplay(env: Env, token: Option<Bytes>, channels: seq<Channel>, v: Served, sid: SessionId, t: TaskId)
    requires HandlerInv(env, token, channels, v) && Owns(v.phase, sid) && sid in After(env, v).sessions.registered
    requires var s := After(env, v); t in s.tasks.all && SubscribeInFlight(s.tasks.all[t], sid)
    ensures After(env, v).tasks.all[t].message.frame.sinceOffset == 0
  {
    hide Run, Step;
    var s := After(env, v);
    var k := s.tasks.all[t];
    RunKeepsTalk(env, v.trace, sid);
    assert Pending(env, s, sid, k);
    var asked := AskedBy(s, sid);
    assert asked[|asked| - 1] == k.message;
    assert k.message in Requests(token, channels);
  }

  lemma UnsafeKick(env: Env, token: Option<Bytes>, channels: seq<Channel>, moves: seq<Move>, sid: SessionId)
    requires
      var v := Serve(env, token, channels, moves);
      Owns(v.phase, sid) && sid in After(env, v).sessions.registered && CanInsertFor(env, After(env, v), sid)
    ensures exists more :: !Unlisted(After(env, Serve(env, token, channels, moves + [Other(Deregister(sid))] + more)), sid)
  {
    hide Step, Run, Serve;
    var v := Serve(env, token, channels, moves);
    var s := After(env, v);
    var t :| t in s.tasks.all && s.tasks.all[t].sid == sid && CanInsert(env, s, s.tasks.all[t]);
    ServeKeeps(env, token, channels, moves);
    AsksNoReplay(env, token, channels, v, sid, t);
    var after := KickLeavesEntry(env, _ => History.Bounds(1, 0), v.trace, t);
    var kicked, more := moves + [Other(Deregister(sid))], Others(after);
    KickServed(env, token, channels, moves, sid);
    ServeOthers(env, token, channels, kicked, after);
    RunAppend(env, Init, v.trace + [Deregister(sid)], after);
    var s' := After(env, Serve(env, token, channels, kicked + more));
    assert Listed(s'.sessions.index, s.tasks.all[t].message.frame.channel, sid) > 0;
    assert !Unlisted(s', sid);
  }

  // --------------------------------------------------------------------
  // Every request can be brought to its end
  // --------------------------------------------------------------------

  predicate Ended(phase: Phase) { phase.Refused? || phase.Failed? || phase.Succeeded? }

  lemma FreshTask(tasks: map<TaskId, Task>) returns (t: TaskId)
    ensures t !in tasks
  {
    t := Above(tasks.Keys);
  }

  lemma {:induction false} Above(ids: set<TaskId>) returns (t: TaskId)
    ensures forall x :: x in ids ==> x < t
    decreases ids
  {
    if ids == {} {
      t := 0;
    } else {
      var x :| x in ids;
      var u := Above(ids - {x});
      t := if x < u then u else x + 1;
      assert forall y :: y in ids ==> y == x || y in ids - {x};
    }
  }

  /** A call in flight returns. */
  lemma CallReturns(env: Env, token: Option<Bytes>, channels: seq<Channel>, moves: seq<Move>) returns (more: seq<Move>)
    requires
      var v := Serve(env, token, channels, moves);
      v.phase.Calling? && Busy(After(env, v), v.phase.sid)
    ensures forall m <- more :: m.Other? && m.e.Advance?
    ensures
      var v, v' := Serve(env, token, channels, moves), Serve(env, token, channels, moves + more);
      v'.phase == v.phase && !Busy(After(env, v'), v.phase.sid)
  {
    hide Step, Serve, Requests;
    var v := Serve(env, token, channels, moves);
    ServeKeeps(env, token, channels, moves);
    var s, sid := After(env, v), v.phase.sid;
    var t :| t in s.tasks.all && s.tasks.all[t].sid == sid;
    hide Run;
    var n := HubProgress.TaskEnds(env, v.trace, t);
    more := Others(HubProgress.Steps(t, n));
    ServeOthers(env, token, channels, moves, HubProgress.Steps(t, n));
  }

  /** The handler's next step, when no call is in flight. */
  lemma HandlerGoesOn(env: Env, token: Option<Bytes>, channels: seq<Channel>, moves: seq<Move>) returns (t: TaskId)
    requires
      var v := Serve(env, token, channels, moves);
      v.phase.Calling? && !Busy(After(env, v), v.phase.sid)
    ensures
      var v, v' := Serve(env, token, channels, moves), Serve(env, token, channels, moves + [Handler(t)]);
      Ended(v'.phase) || (v'.phase == Calling(v.phase.sid, v.phase.asked + 1) && v.phase.asked < |Requests(token, channels)|)
  {
    hide Run, Serve, Busy, Requests;
    var v := Serve(env, token, channels, moves);
    t := FreshTask(After(env, v).tasks.all);
    ServeSnoc(env, token, channels, moves, Handler(t));
  }

  /** However it stands, some continuation without kicks brings the request to an end: refused, failed or succeeded. */
  lemma {:induction false} RequestEnds(env: Env, token: Option<Bytes>, channels: seq<Channel>, moves: seq<Move>)
    returns (more: seq<Move>)
    ensures Ended(Serve(env, token, channels, moves + more).phase)
    ensures forall m <- more :: m.Other? ==> m.e.Advance?
    decreases
      var v := Serve(env, token, channels, moves);
      if v.phase.Waiting? then 2 else if v.phase.Calling? then 1 else 0,
      var v := Serve(env, token, channels, moves);
      if v.phase.Calling? && v.phase.asked <= |Requests(token, channels)| then |Requests(token, channels)| - v.phase.asked else 0,
      var v := Serve(env, token, channels, moves);
      v.phase.Calling? && Busy(After(env, v), v.phase.sid)
  {
    hide Run, Serve, Busy, Requests;
    var v := Serve(env, token, channels, moves);
    match v.phase
    case Waiting =>
      ServeSnoc(env, token, channels, moves, Handler(0));
      var rest := RequestEnds(env, token, channels, moves + [Handler(0)]);
      more := [Handler(0)] + rest;
      assert moves + more == moves + [Handler(0)] + rest;
    case Calling(sid, n) =>
      var first: seq<Move>;
      if Busy(After(env, v), sid) {
        first := CallReturns(env, token, channels, moves);
      } else {
        var t := HandlerGoesOn(env, token, channels, moves);
        first := [Handler(t)];
      }
      var rest := RequestEnds(env, token, channels, moves + first);
      more := first + rest;
      assert moves + more == moves + first + rest;
    case _ =>
      more := [];
      assert moves + more == moves;
  }

  // --------------------------------------------------------------------
  // A run that breaks it
  // --------------------------------------------------------------------

  const ONE: Channel := [1]

  const ASK: Message := Frame(Subscribe(0, ONE, 0))

  /** Session 0 is open, holds nothing, and its only handler is task 0, at `stage`. */
  ghost predicate Underway(s: State, stage: Stage) {
    && s.tasks.all == map[0 := Task(0, ASK, stage)]
    && s.held.of == map[0 := map[]] && s.sessions.index == map[] && s.sessions.nextId == 1
    && s.subs.next == 0 && s.subs.all == map[]
    && AskedBy(s, 0) == [ASK] && AnsweredTo(s, 0) == []
  }

  lemma Opened(env: Env)
    requires env.anonymous
    ensures
      var s := Step(env, Init, Open);
      && s.tasks.all == map[] && s.held.of == map[0 := map[]] && s.claims.of == map[0 := Anonymous]
      && s.sessions == Hub.Sessions(1, {0}, map[]) && s.subs == SubTable(map[], 0)
      && s.talk.asked == map[0 := []] && s.talk.answered == map[0 := []]
  {
  }

  lemma Asked(env: Env, s: State)
    requires s.tasks.all == map[] && s.held.of == map[0 := map[]] && s.claims.of == map[0 := Anonymous]
    requires s.sessions == Hub.Sessions(1, {0}, map[]) && s.subs == SubTable(map[], 0)
    requires s.talk.asked == map[0 := []] && s.talk.answered == map[0 := []]
    ensures
      var s' := Step(env, s, Receive(0, 0, ASK));
      Underway(s', Gate(Anonymous)) && s'.sessions.registered == {0}
  {
    var none: seq<Message> := [];
    assert none + [ASK] == [ASK];
    assert Ask(s, 0, ASK).talk.asked == map[0 := [ASK]];
  }

  lemma Allowed(env: Env, s: State)
    requires env.allows(Anonymous, Subscribing, ONE) && Underway(s, Gate(Anonymous))
    ensures
      var s' := Step(env, s, Advance(0, false));
      Underway(s', Entering(Anonymous)) && s'.sessions == s.sessions
  {
    assert HeldBy(s, 0) == map[];
  }

  lemma Entered(env: Env, s: State)
    requires Underway(s, Entering(Anonymous))
    ensures
      var s' := Step(env, s, Advance(0, false));
      Underway(s', Attaching(Anonymous, CursorOf(s, ONE))) && s'.sessions == s.sessions
  {
  }

  lemma Attached(env: Env, s: State, cursor: Cursor)
    requires Underway(s, Attaching(Anonymous, cursor))
    ensures
      var s' := Step(env, s, Advance(0, false));
      && s'.tasks.all == map[0 := Task(0, ASK, Inserting(0, cursor))] && 0 in s'.subs.all
      && s'.held == s.held && s'.sessions == s.sessions && s'.talk == s.talk
  {
  }

  /** Kicked now, the handler still inserts, answers, and is done. */
  lemma KickedAndDone(env: Env, s: State, cursor: Cursor)
    requires s.tasks.all == map[0 := Task(0, ASK, Inserting(0, cursor))] && 0 in s.subs.all
    requires s.held.of == map[0 := map[]] && s.sessions == Hub.Sessions(1, {0}, map[])
    requires AnsweredTo(s, 0) == []
    ensures
      var s1 := Step(env, s, Deregister(0));
      var s2 := Step(env, s1, Advance(0, false));
      var s3 := Step(env, s2, Advance(0, false));
      && 0 !in s3.sessions.registered && s3.tasks.all == map[] && AnsweredTo(s3, 0) == [Verdict(ASK, true, cursor.seen)]
      && s3.sessions.index == map[ONE := [0]]
  {
    var s1 := Step(env, s, Deregister(0));
    assert s1.tasks == s.tasks && s1.held == s.held && s1.subs == s.subs && s1.talk == s.talk;
    assert s1.sessions.index == map[] && s1.sessions.registered == {};
    var s2 := Step(env, s1, Advance(0, false));
    assert s2 == InsertSubscription(s1, 0, s1.tasks.all[0], 0, cursor, ONE);
    var none: seq<SessionId> := [];
    assert none + [0] == [0];
    assert s2.sessions.index == map[ONE := [0]];
    assert s2.tasks.all.Keys == {0} && s2.tasks.all[0].stage.Replying?;
    var s3 := Step(env, s2, Advance(0, false));
    assert s3.tasks.all == s2.tasks.all - {0};
  }

  /** The rest of the server advances the call three times, kicks the session, and lets the call finish. */
  const MEANWHILE: seq<Event> :=
    [Advance(0, false), Advance(0, false), Advance(0, false), Deregister(0), Advance(0, false), Advance(0, false)]

  lemma MeanwhileRuns(env: Env)
    requires env.anonymous && env.allows(Anonymous, Subscribing, ONE)
    ensures
      var s := Run(env, Init, [Open, Receive(0, 0, ASK)] + MEANWHILE);
      && 0 !in s.sessions.registered && s.tasks.all == map[] && |AnsweredTo(s, 0)| == 1 && AnsweredTo(s, 0)[0].message == ASK && AnsweredTo(s, 0)[0].ok
      && s.sessions.index == map[ONE := [0]]
  {
    hide Underway, Step;
    Opened(env);
    var s1 := Step(env, Init, Open);
    Asked(env, s1);
    var s2 := Step(env, s1, Receive(0, 0, ASK));
    Allowed(env, s2);
    var s3 := Step(env, s2, Advance(0, false));
    Entered(env, s3);
    var s4 := Step(env, s3, Advance(0, false));
    var cursor := CursorOf(s3, ONE);
    Attached(env, s4, cursor);
    var s5 := Step(env, s4, Advance(0, false));
    UnderwayGives(s4, Attaching(Anonymous, cursor));
    KickedAndDone(env, s5, cursor);
    RunEight(env, Open, Receive(0, 0, ASK), MEANWHILE);
  }

  lemma UnderwayGives(s: State, stage: Stage)
    requires Underway(s, stage)
    ensures s.held.of == map[0 := map[]] && s.sessions.index == map[] && s.sessions.nextId == 1 && AnsweredTo(s, 0) == []
  {
  }

  lemma RunEight(env: Env, a: Event, b: Event, more: seq<Event>)
    requires |more| == 6
    ensures Run(env, Init, [a, b] + more)
         == Step(env, Step(env, Step(env, Step(env, Step(env, Step(env, Step(env, Step(env, Init, a), b),
              more[0]), more[1]), more[2]), more[3]), more[4]), more[5])
  {
    hide Step;
    var all := [a, b] + more;
    assert forall i :: 0 <= i < 6 ==> all[i + 2] == more[i];
    assert all[..8] == all && all[..0] == [];
    forall i | 0 <= i < 8 ensures Run(env, Init, all[..i + 1]) == Step(env, Run(env, Init, all[..i]), all[i]) {
      RunSnoc(env, Init, all[..i], all[i]);
      assert all[..i + 1] == all[..i] + [all[i]];
    }
    assert Run(env, Init, []) == Init;
    hide Run;
    assert Run(env, Init, all[..1]) == Step(env, Init, a) && Run(env, Init, all[..2]) == Step(env, Step(env, Init, a), b);
    assert Run(env, Init, all[..3]) == Step(env, Run(env, Init, all[..2]), more[0]);
    assert Run(env, Init, all[..4]) == Step(env, Run(env, Init, all[..3]), more[1]);
    assert Run(env, Init, all[..5]) == Step(env, Run(env, Init, all[..4]), more[2]);
    assert Run(env, Init, all[..6]) == Step(env, Run(env, Init, all[..5]), more[3]);
    assert Run(env, Init, all[..7]) == Step(env, Run(env, Init, all[..6]), more[4]);
    assert Run(env, Init, all[..8]) == Step(env, Run(env, Init, all[..7]), more[5]);
  }

  /**
   * For any hub that lets anonymous sessions subscribe to a channel: a request for it
   * whose session is kicked just before its subscription is inserted succeeds, with its
   * session gone and an index entry left behind for good.
   */
  lemma KickedRequestSucceeds(env: Env, after: seq<Event>)
    requires env.anonymous && env.allows(Anonymous, Subscribing, ONE)
    ensures
      var v := Serve(env, None, [ONE], [Handler(0), Handler(0)] + Others(MEANWHILE) + [Handler(0)]);
      && v.phase == Succeeded(0)
      && var s := Run(env, After(env, v), after);
      0 !in s.sessions.registered && Listed(s.sessions.index, ONE, 0) == 1
  {
    hide Step, Run, Serve, Requests;
    MeanwhileRuns(env);
    var trace := [Open, Receive(0, 0, ASK)];
    OneRequest();
    Calls(env);
    var calls := [Handler(0), Handler(0)];
    ServeOthers(env, None, [ONE], calls, MEANWHILE);
    var s := Run(env, Init, trace + MEANWHILE);
    assert !Busy(s, 0);
    ServeSnoc(env, None, [ONE], calls + Others(MEANWHILE), Handler(0));
    assert calls + Others(MEANWHILE) + [Handler(0)] == (calls + Others(MEANWHILE)) + [Handler(0)];
    StaleEntryStays(env, trace + MEANWHILE, after, 0, ONE);
  }

  lemma OneRequest()
    ensures Requests(None, [ONE]) == [ASK]
  {
  }

  lemma Calls(env: Env)
    requires env.anonymous
    ensures Serve(env, None, [ONE], [Handler(0), Handler(0)]) == Served([Open, Receive(0, 0, ASK)], Calling(0, 1))
  {
    assert Requests(None, [ONE]) == [ASK];
    var v0, v1 := Served([], Waiting), Served([Open], Calling(0, 0));
    ServeSnoc(env, None, [ONE], [], Handler(0));
    assert [] + [Handler(0)] == [Handler(0)] && [] + [Open] == [Open];
    assert HandlerMove(env, None, [ONE], v0, 0) == v1;
    Opened(env);
    RunSnoc(env, Init, [], Open);
    assert After(env, v1) == Step(env, Init, Open);
    hide Step, Run, Requests;
    assert HandlerMove(env, None, [ONE], v1, 0) == Served([Open] + [Receive(0, 0, ASK)], Calling(0, 1));
    ServeSnoc(env, None, [ONE], [Handler(0)], Handler(0));
    assert [Handler(0)] + [Handler(0)] == [Handler(0), Handler(0)];
    assert [Open] + [Receive(0, 0, ASK)] == [Open, Receive(0, 0, ASK)];
  }
}
