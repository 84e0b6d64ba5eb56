/** Replies answer requests one for one and in order, when each session's frames are handled one at a time. */
module HubReplies {
  import opened Types
  import opened Frames
  import opened Hub
  import Broker
  import History
  import HubCursor
  import HubIndex
  import Registry

  /** The frames in an outbox that are not publications. */
  function Replies(out: seq<Out>): seq<ServerFrame> {
    if out == [] then []
    else
      var last := out[|out| - 1];
      Replies(out[..|out| - 1]) + if last.Replied? then [last.reply] else []
  }

  // --------------------------------------------------------------------
  // The answer a message calls for
  // --------------------------------------------------------------------

  /** Code and text of an error reply. */
  datatype Refusal = Refusal(code: nat, text: Bytes)

  /** The claims a session acts under: its own, or those an anonymous hub supplies. */
  function ActingAs(env: Env, st: Standing): Option<Claims> {
    if st.claims.Some? then st.claims else if env.anonymous then Some(Anonymous) else None
  }

  /**
   * The refusal due to a message, by its cause: what the pluggable parts say and how the
   * session stood when it was read. The codes are 1 for a frame that does not decode, 4 for
   * an internal error, 5 for a payload the schema rejects, 6 for a token, 7 for a denied
   * access, 8 for a session without claims.
   */
  function Due(env: Env, m: Message, st: Standing): Option<Refusal> {
    match m
    case Undecodable => Some(Refusal(1, env.garbled))
    case Frame(f) =>
      if !st.registered then Some(Refusal(4, env.describe(SessionGone)))
      else
        match f
        case Unsubscribe(_, _) => if st.held then None else Some(Refusal(4, env.describe(NotSubscribed)))
        case Connect(_, token) =>
          if st.claims.Some? && !env.anonymous then Some(Refusal(4, env.describe(AlreadyConnected)))
          else if env.authenticate(token).None? then Some(Refusal(6, env.describe(BadToken)))
          else None
        case Subscribe(_, ch, _) =>
          if ActingAs(env, st).None? then Some(Refusal(8, env.describe(NotConnected)))
          else if !env.allows(ActingAs(env, st).value, Subscribing, ch) then Some(Refusal(7, env.describe(Denied)))
          else if st.held then Some(Refusal(4, env.describe(AlreadySubscribed)))
          else if ch == [] then Some(Refusal(4, env.describe(BadChannel)))
          else None
        case Publish(_, ch, data) =>
          if ActingAs(env, st).None? then Some(Refusal(8, env.describe(NotConnected)))
          else if !env.allows(ActingAs(env, st).value, Publishing, ch) then Some(Refusal(7, env.describe(Denied)))
          else if !env.accepts(ch, data) then Some(Refusal(5, env.describe(Rejected)))
          else if ch == [] then Some(Refusal(4, env.describe(BadChannel)))
          else None
  }

  /** A publish that succeeds is the only message without a reply. */
  predicate Silent(v: Verdict) {
    v.ok && v.message.Frame? && v.message.frame.Publish?
  }

  /**
   * The reply a message with this verdict calls for. A message to which a refusal is due
   * gets that refusal. Otherwise it succeeds, or one of the parts a subscribe or publish
   * depends on fails it.
   */
  ghost predicate Answers(env: Env, st: Standing, v: Verdict, reply: ServerFrame) {
    if !v.ok then
      && reply.Error?
      && reply.requestId == (if v.message.Undecodable? then 0 else v.message.frame.requestId)
      && match Due(env, v.message, st)
         case Some(r) => reply.code == r.code && reply.message == r.text
         case None => (v.message.frame.Subscribe? || v.message.frame.Publish?) && reply.code == 4
    else
      && Due(env, v.message, st).None?
      && match v.message.frame
         case Subscribe(id, ch, _) =>
           && st.length <= v.seen
           && reply.SubscribeOk? && reply.requestId == id && reply.channel == ch && reply.epoch == 1
           && (HubCursor.PubSub(env) ==> reply.offset == History.Newest(v.seen))
         case Unsubscribe(id, ch) => reply == UnsubscribeOk(id, ch)
         case Connect(id, token) =>
           reply == ConnectOk(id, env.authenticate(token).value.subject, env.authenticate(token).value.expiresAt)
         case Publish(_, _, _) => false
  }

  /** `replies` answers `verdicts` one for one, in order, with nothing for the silent ones, to which no refusal was due. */
  ghost predicate Correlates(env: Env, sts: seq<Standing>, verdicts: seq<Verdict>, replies: seq<ServerFrame>)
    decreases |verdicts|
  {
    if verdicts == [] then replies == []
    else
      var n := |verdicts| - 1;
      && n < |sts|
      && if Silent(verdicts[n]) then Due(env, verdicts[n].message, sts[n]).None? && Correlates(env, sts, verdicts[..n], replies)
         else
           && replies != []
           && Answers(env, sts[n], verdicts[n], replies[|replies| - 1])
           && Correlates(env, sts, verdicts[..n], replies[..|replies| - 1])
  }

  lemma {:induction false} CorrelatesMore(env: Env, sts: seq<Standing>, st: Standing, verdicts: seq<Verdict>, replies: seq<ServerFrame>)
    requires Correlates(env, sts, verdicts, replies)
    ensures Correlates(env, sts + [st], verdicts, replies)
    decreases |verdicts|
  {
    hide Answers, Due;
    if verdicts != [] {
      var n := |verdicts| - 1;
      CorrelatesMore(env, sts, st, verdicts[..n], if Silent(verdicts[n]) then replies else replies[..|replies| - 1]);
    }
  }

  function Messages(verdicts: seq<Verdict>): seq<Message> {
    seq(|verdicts|, i requires 0 <= i < |verdicts| => verdicts[i].message)
  }

  predicate Reachable(s: State, sid: SessionId) {
    sid in s.sessions.registered && sid in s.outboxes.open
  }

  /** How the session stood when its last message was read. */
  function LastStanding(s: State, sid: SessionId): Standing {
    var sts := StandingsOf(s, sid);
    if sts == [] then Standing(false, None, false, 0) else sts[|sts| - 1]
  }

  /** No handler in flight: every message read was answered, and the outbox holds the answers. */
  ghost predicate Settled(env: Env, s: State, sid: SessionId) {
    && AskedBy(s, sid) == Messages(AnsweredTo(s, sid))
    && |StandingsOf(s, sid)| == |AskedBy(s, sid)|
    && (Reachable(s, sid) ==> Correlates(env, StandingsOf(s, sid), AnsweredTo(s, sid), Replies(OutboxOf(s, sid))))
  }

  /** The subscribe came this far for want of a reason to refuse it. */
  predicate Admitted(env: Env, st: Standing, k: Task)
    requires k.message.Frame?
  {
    Due(env, k.message, st).None?
  }

  /** How far a subscribe is. */
  ghost predicate Subscribes(env: Env, s: State, st: Standing, k: Task)
    requires k.message.Frame? && k.message.frame.Subscribe?
  {
    var ch := k.message.frame.channel;
    && ActingAs(env, st).Some?
    && match k.stage
       case Gate(claims) =>
         claims == ActingAs(env, st).value && (st.held <==> ch in HeldBy(s, k.sid)) && st.length <= |LogOf(s, ch)|
       case Entering(claims) =>
         && env.allows(ActingAs(env, st).value, Subscribing, ch) && !st.held && st.length <= |LogOf(s, ch)|
         && ch !in HeldBy(s, k.sid)
       case Attaching(_, cursor) => Admitted(env, st, k) && st.length <= cursor.seen && ch !in HeldBy(s, k.sid)
       case Reading(_, cursor) => Admitted(env, st, k) && st.length <= cursor.seen && ch !in HeldBy(s, k.sid)
       case Sending(_, cursor) => Admitted(env, st, k) && st.length <= cursor.seen && ch !in HeldBy(s, k.sid)
       case Inserting(_, cursor) => Admitted(env, st, k) && st.length <= cursor.seen && ch !in HeldBy(s, k.sid)
       case Unwinding(error, _) => Admitted(env, st, k) && CodeFor(error) == INTERNAL
       case _ => false
  }

  /** How far a publish is. */
  ghost predicate Publishes(env: Env, st: Standing, k: Task)
    requires k.message.Frame? && k.message.frame.Publish?
  {
    var f := k.message.frame;
    && ActingAs(env, st).Some?
    && match k.stage
       case Gate(claims) => claims == ActingAs(env, st).value
       case Validating(_) => env.allows(ActingAs(env, st).value, Publishing, f.channel)
       case Accepting(_) => env.allows(ActingAs(env, st).value, Publishing, f.channel) && env.accepts(f.channel, f.data)
       case FanningOut(_) => Admitted(env, st, k)
       case _ => false
  }

  /** The handler, at its stage, found nothing so far that calls for a refusal. */
  ghost predicate InProgress(env: Env, s: State, st: Standing, k: Task) {
    && k.message.Frame? && st.registered
    && match k.message.frame
       case Subscribe(_, _, _) => Subscribes(env, s, st, k)
       case Publish(_, _, _) => Publishes(env, st, k)
       case Unsubscribe(_, _) => k.stage.Leaving? && st.held
       case Connect(_, _) => k.stage.Authenticating? && (st.claims.None? || env.anonymous)
  }

  /** The handler in flight has the last message read; the rest is answered, its reply perhaps on the way. */
  ghost predicate Pending(env: Env, s: State, sid: SessionId, k: Task) {
    var done, sts := AnsweredTo(s, sid), StandingsOf(s, sid);
    && |sts| == |AskedBy(s, sid)|
    && if k.stage.Replying? then
         && AskedBy(s, sid) == Messages(done)
         && done != []
         && done[|done| - 1].message == k.message
         && !Silent(done[|done| - 1])
         && Answers(env, LastStanding(s, sid), done[|done| - 1], k.stage.reply)
         && (Reachable(s, sid) ==> Correlates(env, sts, done[..|done| - 1], Replies(OutboxOf(s, sid))))
       else
         && AskedBy(s, sid) == Messages(done) + [k.message]
         && InProgress(env, s, LastStanding(s, sid), k)
         && (Reachable(s, sid) ==> Correlates(env, sts, done, Replies(OutboxOf(s, sid))))
  }

  predicate Busy(s: State, sid: SessionId) {
    exists t :: t in s.tasks.all && s.tasks.all[t].sid == sid
  }

  ghost predicate TalkAt(env: Env, s: State, sid: SessionId) {
    && (forall t :: t in s.tasks.all && s.tasks.all[t].sid == sid ==> Pending(env, s, sid, s.tasks.all[t]))
    && (!Busy(s, sid) ==> Settled(env, s, sid))
  }

  /** Nothing that this session's conversation shows changed, except that it may have been cut off or its handler gone on. */
  ghost predicate SameTalk(env: Env, s: State, s': State, sid: SessionId) {
    && AskedBy(s', sid) == AskedBy(s, sid)
    && StandingsOf(s', sid) == StandingsOf(s, sid)
    && AnsweredTo(s', sid) == AnsweredTo(s, sid)
    && Replies(OutboxOf(s', sid)) == Replies(OutboxOf(s, sid))
    && (Reachable(s', sid) ==> Reachable(s, sid))
    && (forall t :: t in s'.tasks.all && s'.tasks.all[t].sid == sid ==>
          t in s.tasks.all && s.tasks.all[t].sid == sid && s.tasks.all[t].message == s'.tasks.all[t].message
          && (if s'.tasks.all[t].stage.Replying? then s.tasks.all[t] == s'.tasks.all[t]
              else !s.tasks.all[t].stage.Replying? && InProgress(env, s', LastStanding(s, sid), s'.tasks.all[t])))
    && (Busy(s, sid) ==> Busy(s', sid))
  }

  lemma SameTalkKeeps(env: Env, s: State, s': State, sid: SessionId)
    requires TalkAt(env, s, sid) && SameTalk(env, s, s', sid)
    ensures TalkAt(env, s', sid)
  {
    hide InProgress, Answers, Correlates, Replies;
    forall t | t in s'.tasks.all && s'.tasks.all[t].sid == sid ensures Pending(env, s', sid, s'.tasks.all[t]) {
      assert Pending(env, s, sid, s.tasks.all[t]);
    }
  }

  /** Logs only grow. */
  ghost predicate LogsGrow(s: State, s': State) {
    forall ch :: |LogOf(s, ch)| <= |LogOf(s', ch)|
  }

  lemma ProgressStays(env: Env, s: State, s': State, st: Standing, k: Task)
    requires InProgress(env, s, st, k) && HeldBy(s', k.sid) == HeldBy(s, k.sid) && LogsGrow(s, s')
    ensures InProgress(env, s', st, k)
  {
    hide Due, ActingAs;
    if k.message.frame.Subscribe? { assert |LogOf(s, k.message.frame.channel)| <= |LogOf(s', k.message.frame.channel)|; }
  }

  /** The session's handlers are where they were. */
  lemma QuietTalk(env: Env, s: State, s': State, sid: SessionId)
    requires TalkAt(env, s, sid)
    requires AskedBy(s', sid) == AskedBy(s, sid) && StandingsOf(s', sid) == StandingsOf(s, sid)
    requires AnsweredTo(s', sid) == AnsweredTo(s, sid) && Replies(OutboxOf(s', sid)) == Replies(OutboxOf(s, sid))
    requires Reachable(s', sid) ==> Reachable(s, sid)
    requires forall t :: t in s'.tasks.all && s'.tasks.all[t].sid == sid ==> t in s.tasks.all && s'.tasks.all[t] == s.tasks.all[t]
    requires Busy(s, sid) ==> Busy(s', sid) && HeldBy(s', sid) == HeldBy(s, sid) && LogsGrow(s, s')
    ensures TalkAt(env, s', sid)
  {
    hide InProgress, Answers, Correlates, Replies, LogsGrow, HeldBy;
    forall t | t in s'.tasks.all && s'.tasks.all[t].sid == sid && !s'.tasks.all[t].stage.Replying?
      ensures InProgress(env, s', LastStanding(s, sid), s'.tasks.all[t])
    {
      var k := s.tasks.all[t];
      assert Pending(env, s, sid, k) && Busy(s, sid);
      ProgressStays(env, s, s', LastStanding(s, sid), k);
    }
    SameTalkKeeps(env, s, s', sid);
  }

  lemma MessagesAppend(verdicts: seq<Verdict>, v: Verdict)
    ensures Messages(verdicts + [v]) == Messages(verdicts) + [v.message]
  {
  }

  /** A handler of `sid` returns: verdict recorded, reply on its way. */
  lemma ReturnKeeps(env: Env, s: State, s': State, t: TaskId, k: Task, v: Verdict, reply: ServerFrame)
    requires Pending(env, s, k.sid, k) && !k.stage.Replying? && t in s.tasks.all && s.tasks.all[t] == k && SerialAt(s, k.sid)
    requires AskedBy(s', k.sid) == AskedBy(s, k.sid) && StandingsOf(s', k.sid) == StandingsOf(s, k.sid)
    requires AnsweredTo(s', k.sid) == AnsweredTo(s, k.sid) + [v] && v.message == k.message
    requires OutboxOf(s', k.sid) == OutboxOf(s, k.sid)
    requires Reachable(s', k.sid) ==> Reachable(s, k.sid)
    requires s'.tasks.all == s.tasks.all[t := Task(k.sid, k.message, Replying(reply))]
    requires !Silent(v) && Answers(env, LastStanding(s, k.sid), v, reply)
    ensures TalkAt(env, s', k.sid)
  {
    hide InProgress, Answers, Correlates, Replies;
    MessagesAppend(AnsweredTo(s, k.sid), v);
    var done := AnsweredTo(s', k.sid);
    assert done[..|done| - 1] == AnsweredTo(s, k.sid);
    assert Busy(s', k.sid) by { assert t in s'.tasks.all; }
  }

  // --------------------------------------------------------------------
  // What a handler's step does to the conversation
  // --------------------------------------------------------------------

  /** Nobody else's conversation changes. */
  ghost predicate OthersSame(s: State, s': State, sid: SessionId) {
    && s'.talk.asked == s.talk.asked && s'.talk.standings == s.talk.standings
    && s'.outboxes.open == s.outboxes.open
    && s'.sessions.registered == s.sessions.registered
    && LogsGrow(s, s')
    && (forall x :: x != sid ==>
          AnsweredTo(s', x) == AnsweredTo(s, x) && OutboxOf(s', x) == OutboxOf(s, x) && HeldBy(s', x) == HeldBy(s, x))
  }

  /** The handler goes on, having sent at most a publication. */
  ghost predicate GoesOn(env: Env, s: State, s': State, t: TaskId, k: Task) {
    && AnsweredTo(s', k.sid) == AnsweredTo(s, k.sid)
    && (|| OutboxOf(s', k.sid) == OutboxOf(s, k.sid)
        || (&& |OutboxOf(s', k.sid)| == |OutboxOf(s, k.sid)| + 1
            && OutboxOf(s', k.sid)[..|OutboxOf(s, k.sid)|] == OutboxOf(s, k.sid)
            && OutboxOf(s', k.sid)[|OutboxOf(s, k.sid)|].Delivered?))
    && t in s'.tasks.all
    && s'.tasks.all == s.tasks.all[t := s'.tasks.all[t]]
    && s'.tasks.all[t].sid == k.sid && s'.tasks.all[t].message == k.message && !s'.tasks.all[t].stage.Replying?
    && InProgress(env, s', LastStanding(s, k.sid), s'.tasks.all[t])
  }

  /** The handler returns with a reply that fits its verdict. */
  ghost predicate Returns(env: Env, s: State, s': State, t: TaskId, k: Task) {
    && OutboxOf(s', k.sid) == OutboxOf(s, k.sid)
    && t in s'.tasks.all
    && s'.tasks.all[t].stage.Replying?
    && s'.tasks.all == s.tasks.all[t := Task(k.sid, k.message, s'.tasks.all[t].stage)]
    && AnsweredTo(s', k.sid) != []
    && var v := AnsweredTo(s', k.sid)[|AnsweredTo(s', k.sid)| - 1];
    && AnsweredTo(s', k.sid) == AnsweredTo(s, k.sid) + [v]
    && v.message == k.message && !Silent(v) && Answers(env, LastStanding(s, k.sid), v, s'.tasks.all[t].stage.reply)
  }

  /** The error is the refusal due, or an internal one where none is due. */
  predicate Refuses(env: Env, st: Standing, m: Message, e: HubError) {
    m.Frame?
    && match Due(env, m, st)
       case Some(r) => CodeFor(e) == r.code && env.describe(e) == r.text
       case None => (m.frame.Subscribe? || m.frame.Publish?) && CodeFor(e) == INTERNAL
  }

  lemma FailReturns(env: Env, s: State, s1: State, t: TaskId, k: Task, e: HubError)
    requires s1.talk == s.talk && s1.outboxes == s.outboxes && s1.tasks == s.tasks && s1.log == s.log && s1.held == s.held
    requires s1.sessions.registered == s.sessions.registered && Refuses(env, LastStanding(s, k.sid), k.message, e)
    ensures
      var s' := Fail(env, s1, t, k.sid, k.message, e);
      OthersSame(s, s', k.sid) && Returns(env, s, s', t, k)
  {
    hide Due, CodeFor;
  }

  lemma SucceedReturns(env: Env, s: State, s1: State, t: TaskId, k: Task, reply: ServerFrame, seen: nat)
    requires k.message.Frame? && s1.talk == s.talk && s1.outboxes == s.outboxes && s1.tasks == s.tasks && s1.log == s.log
    requires s1.sessions.registered == s.sessions.registered
    requires forall x :: x != k.sid ==> HeldBy(s1, x) == HeldBy(s, x)
    requires !k.message.frame.Publish? && Answers(env, LastStanding(s, k.sid), Verdict(k.message, true, seen), reply)
    ensures
      var s' := Succeed(s1, t, k.sid, k.message, reply, seen);
      OthersSame(s, s', k.sid) && Returns(env, s, s', t, k)
  {
    hide Answers, Due;
  }

  lemma MovesOn(env: Env, s: State, s1: State, t: TaskId, k: Task, stage: Stage)
    requires t in s.tasks.all && k == s.tasks.all[t] && !stage.Replying?
    requires s1.talk == s.talk && s1.outboxes == s.outboxes && s1.tasks == s.tasks && s1.sessions == s.sessions
    requires s1.held == s.held && LogsGrow(s, s1) && InProgress(env, s1, LastStanding(s, k.sid), k.(stage := stage))
    ensures
      var s' := Put(s1, t, k.(stage := stage));
      OthersSame(s, s', k.sid) && GoesOn(env, s, s', t, k)
  {
    hide InProgress, LogsGrow;
    var s' := Put(s1, t, k.(stage := stage));
    SameLogs(s, s1, s');
    SameProgress(env, s1, s', LastStanding(s, k.sid), k.(stage := stage));
  }

  lemma SameLogs(s: State, s1: State, s': State)
    requires LogsGrow(s, s1) && s'.log == s1.log
    ensures LogsGrow(s, s')
  {
  }

  lemma SameProgress(env: Env, s: State, s': State, st: Standing, k: Task)
    requires InProgress(env, s, st, k) && s'.held == s.held && s'.log.log == s.log.log
    ensures InProgress(env, s', st, k)
  {
    ProgressStays(env, s, s', st, k);
  }

  lemma NoLogs(s: State)
    ensures LogsGrow(s, s)
  {
  }

  /** The cursor goes with the subscribe from stage to stage. */
  lemma CursorGoesOn(env: Env, s: State, st: Standing, k: Task, stage: Stage)
    requires InProgress(env, s, st, k) && k.message.frame.Subscribe?
    requires k.stage.Attaching? || k.stage.Reading? || k.stage.Sending? || k.stage.Inserting?
    requires (stage.Reading? || stage.Sending? || stage.Inserting?) && stage.cursor == k.stage.cursor
    ensures InProgress(env, s, st, k.(stage := stage))
  {
    hide Due, ActingAs;
  }

  lemma UnwindGoesOn(env: Env, s: State, st: Standing, k: Task, error: HubError, stream: Option<SubId>)
    requires InProgress(env, s, st, k) && k.message.frame.Subscribe? && CodeFor(error) == INTERNAL
    requires k.stage.Attaching? || k.stage.Reading? || k.stage.Sending? || k.stage.Inserting?
    ensures InProgress(env, s, st, k.(stage := Unwinding(error, stream)))
  {
    hide Due, ActingAs;
  }

  lemma ReadTalk(env: Env, s: State, t: TaskId, k: Task, sub: SubId, cursor: Cursor)
    requires t in s.tasks.all && k == s.tasks.all[t] && sub in s.subs.all && k.stage == Reading(sub, cursor)
    requires k.message.Frame? && k.message.frame.Subscribe? && InProgress(env, s, LastStanding(s, k.sid), k)
    ensures
      var s' := ReadReplay(env, s, t, k, sub, cursor, k.message.frame.channel, k.message.frame.sinceOffset);
      OthersSame(s, s', k.sid) && GoesOn(env, s, s', t, k)
  {
    hide InProgress;
    var s' := ReadReplay(env, s, t, k, sub, cursor, k.message.frame.channel, k.message.frame.sinceOffset);
    var stage := s'.tasks.all[t].stage;
    CursorGoesOn(env, s, LastStanding(s, k.sid), k, stage);
    SameProgress(env, s, s', LastStanding(s, k.sid), k.(stage := stage));
  }

  lemma SendTalk(env: Env, s: State, t: TaskId, k: Task, sub: SubId, cursor: Cursor)
    requires t in s.tasks.all && k == s.tasks.all[t] && sub in s.subs.all && k.stage == Sending(sub, cursor)
    requires k.message.Frame? && k.message.frame.Subscribe? && InProgress(env, s, LastStanding(s, k.sid), k)
    ensures
      var s' := SendReplay(s, t, k, sub, cursor);
      OthersSame(s, s', k.sid) && GoesOn(env, s, s', t, k)
  {
    hide InProgress;
    var s' := SendReplay(s, t, k, sub, cursor);
    var stage := s'.tasks.all[t].stage;
    CursorGoesOn(env, s, LastStanding(s, k.sid), k, stage);
    SameProgress(env, s, s', LastStanding(s, k.sid), k.(stage := stage));
  }

  lemma AttachTalk(env: Env, s: State, t: TaskId, k: Task, claims: Claims, cursor: Cursor)
    requires t in s.tasks.all && k == s.tasks.all[t] && k.stage == Attaching(claims, cursor)
    requires k.message.Frame? && k.message.frame.Subscribe? && InProgress(env, s, LastStanding(s, k.sid), k)
    ensures
      var s' := AttachStream(s, t, k, claims, cursor, k.message.frame.channel, k.message.frame.sinceOffset);
      OthersSame(s, s', k.sid) && GoesOn(env, s, s', t, k)
  {
    hide Broker.Attach, InProgress;
    var s' := AttachStream(s, t, k, claims, cursor, k.message.frame.channel, k.message.frame.sinceOffset);
    var stage := s'.tasks.all[t].stage;
    CursorGoesOn(env, s, LastStanding(s, k.sid), k, stage);
    SameProgress(env, s, s', LastStanding(s, k.sid), k.(stage := stage));
  }

  /** The subscribe's reply, when it has come this far. */
  lemma SubscribeAnswer(env: Env, s: State, st: Standing, k: Task)
    requires InProgress(env, s, st, k) && k.message.frame.Subscribe? && k.stage.Inserting?
    requires HubCursor.PubSub(env) ==> HubCursor.CursorAt(s, k)
    ensures Answers(env, st, Verdict(k.message, true, k.stage.cursor.seen),
                    SubscribeOk(k.message.frame.requestId, k.message.frame.channel, 1, k.stage.cursor.offset))
  {
    hide Due, ActingAs, HubCursor.PubSub;
  }

  lemma InsertTalk(env: Env, s: State, t: TaskId, k: Task, sub: SubId, cursor: Cursor)
    requires t in s.tasks.all && k == s.tasks.all[t] && sub in s.subs.all && k.stage == Inserting(sub, cursor)
    requires k.message.Frame? && k.message.frame.Subscribe? && InProgress(env, s, LastStanding(s, k.sid), k)
    requires HubCursor.PubSub(env) ==> HubCursor.CursorAt(s, k)
    ensures
      var s' := InsertSubscription(s, t, k, sub, cursor, k.message.frame.channel);
      OthersSame(s, s', k.sid) && Returns(env, s, s', t, k)
  {
    hide Succeed, Registry.AddTo, OthersSame, Returns, InProgress, Answers;
    SubscribeAnswer(env, s, LastStanding(s, k.sid), k);
    var ch := k.message.frame.channel;
    SucceedReturns(env, s, SetSub(Hold(s, k.sid, ch, sub), sub, s.subs.all[sub].(running := true)), t, k,
                   SubscribeOk(RequestId(k.message), ch, 1, cursor.offset), cursor.seen);
  }

  lemma GateTalk(env: Env, s: State, t: TaskId, k: Task, claims: Claims)
    requires t in s.tasks.all && k == s.tasks.all[t] && k.stage == Gate(claims)
    requires k.message.Frame? && k.message.frame.Subscribe? && InProgress(env, s, LastStanding(s, k.sid), k)
    ensures
      var s' := SubscribeGate(env, s, t, k, k.message.frame.channel, claims);
      OthersSame(s, s', k.sid) && (GoesOn(env, s, s', t, k) || Returns(env, s, s', t, k))
  {
    hide Fail, Put, OthersSame, GoesOn, Returns;
    var ch := k.message.frame.channel;
    if !env.allows(claims, Subscribing, ch) {
      FailReturns(env, s, s, t, k, Denied);
    } else if ch in HeldBy(s, k.sid) {
      FailReturns(env, s, s, t, k, AlreadySubscribed);
    } else {
      NoLogs(s);
      MovesOn(env, s, s, t, k, Entering(claims));
    }
  }

  lemma EnterTalk(env: Env, s: State, t: TaskId, k: Task, claims: Claims)
    requires t in s.tasks.all && k == s.tasks.all[t] && k.stage == Entering(claims)
    requires k.message.Frame? && k.message.frame.Subscribe? && InProgress(env, s, LastStanding(s, k.sid), k)
    ensures
      var s' := Enter(env, s, t, k, k.message.frame.channel, claims);
      OthersSame(s, s', k.sid) && (GoesOn(env, s, s', t, k) || Returns(env, s, s', t, k))
  {
    hide Fail, Put, OthersSame, GoesOn, Returns;
    var ch := k.message.frame.channel;
    if ch == [] {
      FailReturns(env, s, s, t, k, BadChannel);
    } else {
      var s1 := s.(hooks := s.hooks.(entered := Bump(s.hooks.entered, ch)));
      NoLogs(s);
      SameLogs(s, s, s1);
      MovesOn(env, s, s1, t, k, Attaching(claims, CursorOf(s, ch)));
    }
  }

  lemma UnwindTalk(env: Env, s: State, t: TaskId, k: Task, error: HubError, stream: Option<SubId>)
    requires t in s.tasks.all && k == s.tasks.all[t] && k.stage == Unwinding(error, stream)
    requires k.message.Frame? && k.message.frame.Subscribe? && InProgress(env, s, LastStanding(s, k.sid), k)
    ensures
      var s' := Unwind(env, s, t, k, k.message.frame.channel, error, stream);
      OthersSame(s, s', k.sid) && Returns(env, s, s', t, k)
  {
    hide Fail, Put, OthersSame, GoesOn, Returns, Broker.Detach;
    var s1 := if stream.Some? then DropReceiver(s, stream.value) else s;
    FailReturns(env, s, s1.(hooks := s.hooks.(left := Bump(s.hooks.left, k.message.frame.channel))), t, k, error);
  }

  lemma SubscribeTalk(env: Env, s: State, t: TaskId, k: Task, fail: bool)
    requires t in s.tasks.all && k == s.tasks.all[t] && SubscribeInFlight(k, k.sid)
    requires InProgress(env, s, LastStanding(s, k.sid), k) && (HubCursor.PubSub(env) ==> HubCursor.CursorAt(s, k))
    ensures
      var s' := AdvanceSubscribe(env, s, t, k, fail);
      OthersSame(s, s', k.sid) && (GoesOn(env, s, s', t, k) || Returns(env, s, s', t, k))
  {
    hide Fail, Broker.Attach, Broker.Detach, ReadReplay, SendReplay, AttachStream, InsertSubscription, SubscribeGate, Enter;
    hide Unwind, Put, OthersSame, GoesOn, Returns, HubCursor.PubSub, HubCursor.CursorAt, InProgress, LogsGrow, LastStanding;
    var st := LastStanding(s, k.sid);
    NoLogs(s);
    match k.stage
    case Gate(claims) => GateTalk(env, s, t, k, claims);
    case Entering(claims) => EnterTalk(env, s, t, k, claims);
    case Attaching(claims, cursor) =>
      UnwindGoesOn(env, s, st, k, BrokerFailed, None);
      MovesOn(env, s, s, t, k, Unwinding(BrokerFailed, None));
      AttachTalk(env, s, t, k, claims, cursor);
    case Reading(sub, cursor) =>
      UnwindGoesOn(env, s, st, k, BadChannel, Some(sub));
      MovesOn(env, s, s, t, k, Unwinding(BadChannel, Some(sub)));
      if sub in s.subs.all { ReadTalk(env, s, t, k, sub, cursor); }
    case Sending(sub, cursor) =>
      UnwindGoesOn(env, s, st, k, SessionGone, Some(sub));
      MovesOn(env, s, s, t, k, Unwinding(SessionGone, Some(sub)));
      if sub in s.subs.all { SendTalk(env, s, t, k, sub, cursor); }
    case Inserting(sub, cursor) =>
      UnwindGoesOn(env, s, st, k, AlreadySubscribed, None);
      StrayTalk(env, s, t, k, sub);
      if sub in s.subs.all { InsertTalk(env, s, t, k, sub, cursor); }
    case Unwinding(error, stream) => UnwindTalk(env, s, t, k, error, stream);
    case _ => Elsewhere(env, s, st, k);
  }

  lemma StrayTalk(env: Env, s: State, t: TaskId, k: Task, sub: SubId)
    requires t in s.tasks.all && k == s.tasks.all[t]
    requires InProgress(env, s, LastStanding(s, k.sid), k.(stage := Unwinding(AlreadySubscribed, None)))
    ensures
      var s' := Put(DropReceiver(s, sub), t, k.(stage := Unwinding(AlreadySubscribed, None)));
      OthersSame(s, s', k.sid) && GoesOn(env, s, s', t, k)
  {
    hide Put, OthersSame, GoesOn, Broker.Detach, InProgress, LogsGrow;
    var s1 := DropReceiver(s, sub);
    NoLogs(s);
    SameLogs(s, s, s1);
    SameProgress(env, s, s1, LastStanding(s, k.sid), k.(stage := Unwinding(AlreadySubscribed, None)));
    MovesOn(env, s, s1, t, k, Unwinding(AlreadySubscribed, None));
  }

  /** A subscribe in progress is at one of its own stages. */
  lemma Elsewhere(env: Env, s: State, st: Standing, k: Task)
    requires InProgress(env, s, st, k) && k.message.frame.Subscribe?
    ensures k.stage.Gate? || k.stage.Entering? || k.stage.Attaching? || k.stage.Reading? || k.stage.Sending?
         || k.stage.Inserting? || k.stage.Unwinding?
  {
  }

  lemma PublishTalk(env: Env, s: State, t: TaskId, k: Task, fail: bool)
    requires t in s.tasks.all && k == s.tasks.all[t] && !k.stage.Replying?
    requires k.message.Frame? && k.message.frame.Publish? && !(k.stage.FanningOut? && !fail)
    requires InProgress(env, s, LastStanding(s, k.sid), k)
    ensures
      var s' := AdvancePublish(env, s, t, k, fail);
      OthersSame(s, s', k.sid) && (GoesOn(env, s, s', t, k) || Returns(env, s, s', t, k))
  {
    hide Fail, Put, OthersSame, GoesOn, Returns, LogsGrow, AcceptPublication;
    var ch, data := k.message.frame.channel, k.message.frame.data;
    NoLogs(s);
    match k.stage
    case Gate(claims) =>
      if env.allows(claims, Publishing, ch) { MovesOn(env, s, s, t, k, Validating(claims)); }
      else { FailReturns(env, s, s, t, k, Denied); }
    case Validating(claims) =>
      if env.accepts(ch, data) { MovesOn(env, s, s, t, k, Accepting(claims)); }
      else { FailReturns(env, s, s, t, k, Rejected); }
    case Accepting(claims) =>
      if ch == [] { FailReturns(env, s, s, t, k, BadChannel); } else { AcceptTalk(env, s, t, k, claims); }
    case FanningOut(_) => FailReturns(env, s, s, t, k, BrokerFailed);
  }

  lemma AcceptTalk(env: Env, s: State, t: TaskId, k: Task, claims: Claims)
    requires t in s.tasks.all && k == s.tasks.all[t] && k.stage == Accepting(claims)
    requires InProgress(env, s, LastStanding(s, k.sid), k) && k.message.frame.Publish? && k.message.frame.channel != []
    ensures
      var s' := AcceptPublication(env, s, t, k, claims, k.message.frame.channel, k.message.frame.data);
      OthersSame(s, s', k.sid) && GoesOn(env, s, s', t, k)
  {
    var s' := AcceptPublication(env, s, t, k, claims, k.message.frame.channel, k.message.frame.data);
    assert InProgress(env, s', LastStanding(s, k.sid), s'.tasks.all[t]);
    hide InProgress;
  }

  lemma ConnectTalk(env: Env, s: State, t: TaskId, k: Task)
    requires t in s.tasks.all && k == s.tasks.all[t] && !k.stage.Replying?
    requires k.message.Frame? && k.message.frame.Connect? && InProgress(env, s, LastStanding(s, k.sid), k)
    ensures
      var s' := AdvanceConnect(env, s, t, k);
      OthersSame(s, s', k.sid) && Returns(env, s, s', t, k)
  {
    hide Fail, Succeed, OthersSame, Returns;
    var c := env.authenticate(k.message.frame.token);
    if c.Some? {
      SucceedReturns(env, s, s.(claims := ClaimTable(s.claims.of[k.sid := c.value])), t, k,
                     ConnectOk(RequestId(k.message), c.value.subject, c.value.expiresAt), 0);
    } else {
      FailReturns(env, s, s, t, k, BadToken);
    }
  }

  lemma UnsubscribeTalk(env: Env, s: State, t: TaskId, k: Task)
    requires t in s.tasks.all && k == s.tasks.all[t] && !k.stage.Replying?
    requires k.message.Frame? && k.message.frame.Unsubscribe? && InProgress(env, s, LastStanding(s, k.sid), k)
    ensures
      var s' := AdvanceUnsubscribe(s, t, k);
      OthersSame(s, s', k.sid) && Returns(env, s, s', t, k)
  {
    hide Fail, Succeed, OthersSame, Returns;
    var ch := k.message.frame.channel;
    SucceedReturns(env, s, s.(hooks := s.hooks.(left := Bump(s.hooks.left, ch))), t, k,
                   UnsubscribeOk(RequestId(k.message), ch), 0);
  }

  lemma AdvanceTalk(env: Env, s: State, t: TaskId, k: Task, fail: bool)
    requires t in s.tasks.all && k == s.tasks.all[t] && !k.stage.Replying?
    requires !(k.message.Frame? && k.message.frame.Publish? && k.stage.FanningOut? && !fail)
    requires InProgress(env, s, LastStanding(s, k.sid), k) && (HubCursor.PubSub(env) ==> HubCursor.CursorAt(s, k))
    ensures
      var s' := AdvanceTask(env, s, t, k, fail);
      OthersSame(s, s', k.sid) && (GoesOn(env, s, s', t, k) || Returns(env, s, s', t, k))
  {
    hide AdvanceSubscribe, AdvancePublish, AdvanceConnect, AdvanceUnsubscribe, GoesOn, Returns, OthersSame;
    hide HubCursor.PubSub, HubCursor.CursorAt, LastStanding, Subscribes, Publishes;
    match k.message.frame
    case Subscribe(_, _, _) => SubscribeTalk(env, s, t, k, fail);
    case Unsubscribe(_, _) => UnsubscribeTalk(env, s, t, k);
    case Publish(_, _, _) => PublishTalk(env, s, t, k, fail);
    case Connect(_, _) => ConnectTalk(env, s, t, k);
  }

  // --------------------------------------------------------------------
  // Every step keeps the conversation in order
  // --------------------------------------------------------------------

  lemma RepliesAfterPublication(out: seq<Out>, out': seq<Out>)
    requires |out'| == |out| + 1 && out'[..|out|] == out && out'[|out|].Delivered?
    ensures Replies(out') == Replies(out)
  {
  }

  lemma OthersKeepTalk(env: Env, s: State, s': State, t: TaskId, sid: SessionId)
    requires t in s.tasks.all && s.tasks.all[t].sid != sid && OthersSame(s, s', s.tasks.all[t].sid) && TalkAt(env, s, sid)
    requires OnlyTask(s, s', t)
    ensures TalkAt(env, s', sid)
  {
    hide TalkAt, Replies, LogsGrow;
    if Busy(s, sid) {
      var x :| x in s.tasks.all && s.tasks.all[x].sid == sid;
      assert x in s'.tasks.all && s'.tasks.all[x].sid == sid;
    }
    QuietTalk(env, s, s', sid);
  }

  lemma OwnKeepsTalk(env: Env, s: State, s': State, t: TaskId, k: Task)
    requires t in s.tasks.all && s.tasks.all[t] == k && !k.stage.Replying? && TalkAt(env, s, k.sid) && SerialAt(s, k.sid)
    requires OthersSame(s, s', k.sid) && (GoesOn(env, s, s', t, k) || Returns(env, s, s', t, k))
    ensures TalkAt(env, s', k.sid)
  {
    hide InProgress, Answers, Correlates;
    assert Pending(env, s, k.sid, k);
    if GoesOn(env, s, s', t, k) {
      if OutboxOf(s', k.sid) != OutboxOf(s, k.sid) {
        RepliesAfterPublication(OutboxOf(s, k.sid), OutboxOf(s', k.sid));
      }
      hide Replies;
      assert Busy(s', k.sid) by { assert t in s'.tasks.all && s'.tasks.all[t].sid == k.sid; }
      SameTalkKeeps(env, s, s', k.sid);
    } else {
      var v := AnsweredTo(s', k.sid)[|AnsweredTo(s', k.sid)| - 1];
      ReturnKeeps(env, s, s', t, k, v, s'.tasks.all[t].stage.reply);
    }
  }

  lemma FanOutTalk(env: Env, s: State, t: TaskId, k: Task, ch: Channel, p: Publication)
    requires t in s.tasks.all && s.tasks.all[t] == k && k.stage.FanningOut? && TalkAt(env, s, k.sid) && SerialAt(s, k.sid)
    requires k.message.Frame? && k.message.frame.Publish?
    ensures TalkAt(env, FanOut(s, t, k, ch, p), k.sid)
  {
    hide Answers, Due, ActingAs, Replies, Broker.Broadcast;
    var s' := FanOut(s, t, k, ch, p);
    assert Pending(env, s, k.sid, k);
    var v := Verdict(k.message, true, 0);
    MessagesAppend(AnsweredTo(s, k.sid), v);
    var done := AnsweredTo(s', k.sid);
    assert done[..|done| - 1] == AnsweredTo(s, k.sid) && done[|done| - 1] == v;
    assert |Messages(AnsweredTo(s, k.sid))| == |AnsweredTo(s, k.sid)|;
  }

  lemma DeliverTalk(env: Env, s: State, t: TaskId, k: Task)
    requires t in s.tasks.all && s.tasks.all[t] == k && k.stage.Replying? && TalkAt(env, s, k.sid) && SerialAt(s, k.sid)
    ensures TalkAt(env, Deliver(s, t, k.sid, k.stage.reply), k.sid)
  {
    hide Answers, InProgress;
    var s' := Deliver(s, t, k.sid, k.stage.reply);
    assert Pending(env, s, k.sid, k);
    var done := AnsweredTo(s, k.sid);
    assert |Messages(done)| == |done|;
    if Reachable(s, k.sid) {
      var out := OutboxOf(s', k.sid);
      assert out[..|out| - 1] == OutboxOf(s, k.sid);
      var replies := Replies(out);
      assert replies[..|replies| - 1] == Replies(OutboxOf(s, k.sid));
    }
  }

  lemma DeliverOthers(s: State, t: TaskId, sid: SessionId, reply: ServerFrame)
    ensures OthersSame(s, Deliver(s, t, sid, reply), sid)
  {
  }

  lemma FanOutOthers(s: State, t: TaskId, k: Task, ch: Channel, p: Publication)
    ensures OthersSame(s, FanOut(s, t, k, ch, p), k.sid)
  {
  }

  lemma AdvanceKeepsTalk(env: Env, s: State, t: TaskId, fail: bool, sid: SessionId)
    requires TalkAt(env, s, sid) && SerialAt(s, sid) && t in s.tasks.all
    requires HubCursor.PubSub(env) ==> HubCursor.CursorInv(s)
    ensures TalkAt(env, AdvanceTask(env, s, t, s.tasks.all[t], fail), sid)
  {
    hide AdvanceSubscribe, AdvancePublish, AdvanceConnect, AdvanceUnsubscribe, GoesOn, Returns, Replies, OthersSame;
    hide HubCursor.PubSub, HubCursor.CursorAt, HubCursor.NextInv, HubCursor.VerdictsAt, InProgress, Deliver, FanOut;
    var k := s.tasks.all[t];
    var s' := AdvanceTask(env, s, t, k, fail);
    AdvanceFrame(env, s, t, fail);
    if k.sid != sid {
      AdvanceOthers(env, s, t, fail);
      hide TalkAt, AdvanceTask, OnlyTask;
      OthersKeepTalk(env, s, s', t, sid);
    } else if k.stage.Replying? {
      hide TalkAt;
      DeliverTalk(env, s, t, k);
    } else if k.message.Frame? && k.message.frame.Publish? && k.stage.FanningOut? && !fail {
      FansOut(env, s, t, k, fail);
      hide TalkAt;
      FanOutTalk(env, s, t, k, k.message.frame.channel, k.stage.publication);
    } else {
      assert Pending(env, s, sid, k);
      hide TalkAt, AdvanceTask, OnlyTask;
      AdvanceTalk(env, s, t, k, fail);
      OwnKeepsTalk(env, s, s', t, k);
    }
  }

  lemma FansOut(env: Env, s: State, t: TaskId, k: Task, fail: bool)
    requires k.message.Frame? && k.message.frame.Publish? && k.stage.FanningOut? && !fail
    ensures AdvanceTask(env, s, t, k, fail) == FanOut(s, t, k, k.message.frame.channel, k.stage.publication)
  {
  }

  /** Whatever a handler does, nobody else's conversation changes. */
  lemma AdvanceOthers(env: Env, s: State, t: TaskId, fail: bool)
    requires t in s.tasks.all
    ensures OthersSame(s, AdvanceTask(env, s, t, s.tasks.all[t], fail), s.tasks.all[t].sid)
  {
    hide AdvanceSubscribe, AdvancePublish, Deliver, OthersSame;
    var k := s.tasks.all[t];
    if k.stage.Replying? {
      DeliverOthers(s, t, k.sid, k.stage.reply);
    } else if k.message.Undecodable? {
      SameParts(s, s, k.sid);
    } else {
      match k.message.frame
      case Subscribe(_, _, _) => SubscribeOthers(env, s, t, fail);
      case Publish(_, _, _) => PublishOthers(env, s, t, k, fail);
      case Unsubscribe(_, _) =>
        SameParts(s, s, k.sid);
        SucceedOthers(s, s.(hooks := s.hooks.(left := Bump(s.hooks.left, k.message.frame.channel))), t, k,
                      UnsubscribeOk(RequestId(k.message), k.message.frame.channel));
      case Connect(_, _) =>
        SameParts(s, s, k.sid);
        FailOthers(env, s, s, t, k, BadToken);
        var c := env.authenticate(k.message.frame.token);
        if c.Some? {
          SucceedOthers(s, s.(claims := ClaimTable(s.claims.of[k.sid := c.value])), t, k,
                        ConnectOk(RequestId(k.message), c.value.subject, c.value.expiresAt));
        }
    }
  }

  lemma FailOthers(env: Env, s: State, s1: State, t: TaskId, k: Task, e: HubError)
    requires s1.talk == s.talk && s1.outboxes == s.outboxes && s1.log == s.log && s1.held == s.held && s1.sessions == s.sessions
    ensures OthersSame(s, Fail(env, s1, t, k.sid, k.message, e), k.sid)
  {
    hide CodeFor, RequestId;
  }

  lemma SucceedOthers(s: State, s1: State, t: TaskId, k: Task, reply: ServerFrame)
    requires s1.talk == s.talk && s1.outboxes == s.outboxes && s1.log == s.log && s1.held == s.held && s1.sessions == s.sessions
    ensures OthersSame(s, Succeed(s1, t, k.sid, k.message, reply), k.sid)
  {
  }

  lemma PutOthers(s: State, s1: State, t: TaskId, k: Task)
    requires OthersSame(s, s1, k.sid)
    ensures OthersSame(s, Put(s1, t, k), k.sid)
  {
  }

  lemma AttachOthers(s: State, t: TaskId, k: Task, claims: Claims, cursor: Cursor, ch: Channel, since: nat)
    ensures OthersSame(s, AttachStream(s, t, k, claims, cursor, ch, since), k.sid)
  {
    hide Broker.Attach;
  }

  lemma ReadOthers(env: Env, s: State, t: TaskId, k: Task, sub: SubId, cursor: Cursor, ch: Channel, since: nat)
    requires sub in s.subs.all
    ensures OthersSame(s, ReadReplay(env, s, t, k, sub, cursor, ch, since), k.sid)
  {
  }

  lemma SendOthers(s: State, t: TaskId, k: Task, sub: SubId, cursor: Cursor)
    requires sub in s.subs.all
    ensures OthersSame(s, SendReplay(s, t, k, sub, cursor), k.sid)
  {
  }

  lemma InsertOthers(s: State, t: TaskId, k: Task, sub: SubId, cursor: Cursor, ch: Channel)
    requires sub in s.subs.all
    ensures OthersSame(s, InsertSubscription(s, t, k, sub, cursor, ch), k.sid)
  {
    hide Registry.AddTo, RequestId;
  }

  lemma SameParts(s: State, s1: State, sid: SessionId)
    requires s1.talk == s.talk && s1.outboxes == s.outboxes && s1.log == s.log && s1.held == s.held && s1.sessions == s.sessions
    ensures OthersSame(s, s1, sid)
  {
  }

  lemma SubscribeOthers(env: Env, s: State, t: TaskId, fail: bool)
    requires t in s.tasks.all && SubscribeInFlight(s.tasks.all[t], s.tasks.all[t].sid)
    ensures OthersSame(s, AdvanceSubscribe(env, s, t, s.tasks.all[t], fail), s.tasks.all[t].sid)
  {
    hide Fail, Put, AttachStream, ReadReplay, SendReplay, InsertSubscription, OthersSame, CursorOf, Broker.Detach;
    var k := s.tasks.all[t];
    var ch, since := k.message.frame.channel, k.message.frame.sinceOffset;
    SameParts(s, s, k.sid);
    match k.stage
    case Gate(claims) =>
      FailOthers(env, s, s, t, k, Denied);
      FailOthers(env, s, s, t, k, AlreadySubscribed);
      PutOthers(s, s, t, k.(stage := Entering(claims)));
    case Entering(claims) =>
      FailOthers(env, s, s, t, k, BadChannel);
      var s1 := s.(hooks := s.hooks.(entered := Bump(s.hooks.entered, ch)));
      SameParts(s, s1, k.sid);
      PutOthers(s, s1, t, k.(stage := Attaching(claims, CursorOf(s, ch))));
    case Attaching(claims, cursor) =>
      PutOthers(s, s, t, k.(stage := Unwinding(BrokerFailed, None)));
      AttachOthers(s, t, k, claims, cursor, ch, since);
    case Reading(sub, cursor) =>
      PutOthers(s, s, t, k.(stage := Unwinding(BadChannel, Some(sub))));
      if sub in s.subs.all { ReadOthers(env, s, t, k, sub, cursor, ch, since); }
    case Sending(sub, cursor) =>
      PutOthers(s, s, t, k.(stage := Unwinding(SessionGone, Some(sub))));
      if sub in s.subs.all { SendOthers(s, t, k, sub, cursor); }
    case Inserting(sub, cursor) =>
      SameParts(s, DropReceiver(s, sub), k.sid);
      PutOthers(s, DropReceiver(s, sub), t, k.(stage := Unwinding(AlreadySubscribed, None)));
      if sub in s.subs.all { InsertOthers(s, t, k, sub, cursor, ch); }
    case Unwinding(error, stream) =>
      var s1 := if stream.Some? then DropReceiver(s, stream.value) else s;
      FailOthers(env, s, s1.(hooks := s.hooks.(left := Bump(s.hooks.left, ch))), t, k, error);
    case _ =>
  }

  lemma AcceptOthers(env: Env, s: State, t: TaskId, k: Task, claims: Claims, ch: Channel, data: Bytes)
    ensures OthersSame(s, AcceptPublication(env, s, t, k, claims, ch, data), k.sid)
  {
  }

  lemma PublishOthers(env: Env, s: State, t: TaskId, k: Task, fail: bool)
    requires k.message.Frame? && k.message.frame.Publish?
    ensures OthersSame(s, AdvancePublish(env, s, t, k, fail), k.sid)
  {
    hide Fail, Put, FanOut, AcceptPublication, OthersSame;
    var ch, data := k.message.frame.channel, k.message.frame.data;
    SameParts(s, s, k.sid);
    match k.stage
    case Gate(claims) =>
      FailOthers(env, s, s, t, k, Denied);
      PutOthers(s, s, t, k.(stage := Validating(claims)));
    case Validating(claims) =>
      FailOthers(env, s, s, t, k, Rejected);
      PutOthers(s, s, t, k.(stage := Accepting(claims)));
    case Accepting(claims) =>
      FailOthers(env, s, s, t, k, BadChannel);
      AcceptOthers(env, s, t, k, claims, ch, data);
    case FanningOut(p) =>
      FailOthers(env, s, s, t, k, BrokerFailed);
      FanOutOthers(s, t, k, ch, p);
    case _ =>
  }

  /** The handler began; if it replies at once, the message got the refusal due to it. */
  ghost predicate BeginsTalk(env: Env, s: State, s': State, t: TaskId, sid: SessionId, m: Message) {
    && OthersSame(s, s', sid)
    && t in s'.tasks.all
    && (if s'.tasks.all[t].stage.Replying? then
          && AnsweredTo(s', sid) == AnsweredTo(s, sid) + [Verdict(m, false, 0)]
          && Answers(env, LastStanding(s, sid), Verdict(m, false, 0), s'.tasks.all[t].stage.reply)
        else AnsweredTo(s', sid) == AnsweredTo(s, sid) && InProgress(env, s', LastStanding(s, sid), s'.tasks.all[t]))
  }

  lemma FailTalk(env: Env, s: State, t: TaskId, sid: SessionId, m: Message, e: HubError)
    requires Refuses(env, LastStanding(s, sid), m, e)
    ensures BeginsTalk(env, s, Fail(env, s, t, sid, m, e), t, sid, m)
  {
    hide Due, CodeFor, InProgress;
  }

  lemma GatedTalk(env: Env, s: State, t: TaskId, sid: SessionId, m: Message)
    requires m.Frame? && (m.frame.Subscribe? || m.frame.Publish?)
    requires LastStanding(s, sid) == StandingOf(s, sid, m) && sid in s.sessions.registered
    ensures BeginsTalk(env, s, BeginGated(env, s, t, sid, m), t, sid, m)
  {
    var s' := BeginGated(env, s, t, sid, m);
    if sid !in s.claims.of && !env.anonymous {
      hide Fail, BeginsTalk;
      FailTalk(env, s, t, sid, m, NotConnected);
    } else {
      assert InProgress(env, s', LastStanding(s, sid), s'.tasks.all[t]);
      hide InProgress;
    }
  }

  lemma ConnectBegins(env: Env, s: State, t: TaskId, sid: SessionId, m: Message)
    requires m.Frame? && m.frame.Connect?
    requires LastStanding(s, sid) == StandingOf(s, sid, m) && sid in s.sessions.registered
    ensures BeginsTalk(env, s, BeginConnect(env, s, t, sid, m), t, sid, m)
  {
    if sid in s.claims.of && !env.anonymous {
      hide Fail, BeginsTalk;
      FailTalk(env, s, t, sid, m, AlreadyConnected);
    }
  }

  lemma UnsubscribeBegins(env: Env, s: State, t: TaskId, sid: SessionId, m: Message)
    requires m.Frame? && m.frame.Unsubscribe?
    requires LastStanding(s, sid) == StandingOf(s, sid, m) && sid in s.sessions.registered
    ensures BeginsTalk(env, s, BeginUnsubscribe(env, s, t, sid, m, m.frame.channel), t, sid, m)
  {
    hide Registry.RemoveFrom, Broker.Detach;
    if m.frame.channel !in HeldBy(s, sid) {
      hide Fail, BeginsTalk;
      FailTalk(env, s, t, sid, m, NotSubscribed);
    }
  }

  lemma BeginTalk(env: Env, s: State, t: TaskId, sid: SessionId, m: Message)
    requires LastStanding(s, sid) == StandingOf(s, sid, m)
    ensures BeginsTalk(env, s, Begin(env, s, t, sid, m), t, sid, m)
  {
    if m.Frame? {
      hide Fail, BeginGated, BeginConnect, BeginUnsubscribe, BeginsTalk, LastStanding;
      if sid !in s.sessions.registered {
        FailTalk(env, s, t, sid, m, SessionGone);
      } else if m.frame.Unsubscribe? {
        UnsubscribeBegins(env, s, t, sid, m);
      } else if m.frame.Connect? {
        ConnectBegins(env, s, t, sid, m);
      } else {
        GatedTalk(env, s, t, sid, m);
      }
    }
  }

  lemma AskStands(s: State, sid: SessionId, m: Message)
    ensures
      var s1 := Ask(s, sid, m);
      && AskedBy(s1, sid) == AskedBy(s, sid) + [m]
      && StandingsOf(s1, sid) == StandingsOf(s, sid) + [StandingOf(s, sid, m)]
      && LastStanding(s1, sid) == StandingOf(s1, sid, m)
  {
  }

  lemma ReceiveKeepsTalk(env: Env, s: State, t: TaskId, who: SessionId, m: Message, sid: SessionId)
    requires TalkAt(env, s, sid) && t !in s.tasks.all && SerialAt(Begin(env, Ask(s, who, m), t, who, m), sid)
    ensures TalkAt(env, Begin(env, Ask(s, who, m), t, who, m), sid)
  {
    hide Begin, RemoveSubscription, Replies, Answers, Correlates, InProgress, LogsGrow;
    var s1 := Ask(s, who, m);
    var s' := Begin(env, s1, t, who, m);
    AskStands(s, who, m);
    BeginFrame(env, s1, t, who, m);
    BeginTalk(env, s1, t, who, m);
    if sid == who {
      OwnBegins(env, s, s1, s', t, sid, m);
    } else {
      if Busy(s, sid) {
        var x :| x in s.tasks.all && s.tasks.all[x].sid == sid;
        assert x in s'.tasks.all && s'.tasks.all[x].sid == sid;
      }
      assert LogsGrow(s, s') by { SameLogs(s1, s1, s'); AskLogs(s, who, m, s'); }
      QuietTalk(env, s, s', sid);
    }
  }

  lemma AskLogs(s: State, sid: SessionId, m: Message, s': State)
    requires LogsGrow(Ask(s, sid, m), s')
    ensures LogsGrow(s, s')
  {
    assert forall ch :: LogOf(Ask(s, sid, m), ch) == LogOf(s, ch);
  }

  lemma OwnBegins(env: Env, s: State, s1: State, s': State, t: TaskId, sid: SessionId, m: Message)
    requires TalkAt(env, s, sid) && t !in s.tasks.all && SerialAt(s', sid) && s1 == Ask(s, sid, m)
    requires Begins(s1, s', t, sid, m) && BeginsTalk(env, s1, s', t, sid, m)
    ensures TalkAt(env, s', sid)
  {
    hide Replies, Answers, Correlates, RemoveSubscription, InProgress, StandingOf;
    assert !Busy(s, sid) by {
      forall x | x in s.tasks.all ensures s.tasks.all[x].sid != sid {
        assert x in s'.tasks.all && s'.tasks.all[x] == s.tasks.all[x] && x != t;
      }
    }
    AskStands(s, sid, m);
    var done := AnsweredTo(s', sid);
    assert Busy(s', sid) by { assert s'.tasks.all[t].sid == sid; }
    if s'.tasks.all[t].stage.Replying? {
      MessagesAppend(AnsweredTo(s, sid), Verdict(m, false, 0));
      assert done[..|done| - 1] == AnsweredTo(s, sid);
    }
    if Reachable(s, sid) {
      CorrelatesMore(env, StandingsOf(s, sid), StandingOf(s, sid, m), AnsweredTo(s, sid), Replies(OutboxOf(s, sid)));
    }
    forall x | x in s'.tasks.all && s'.tasks.all[x].sid == sid ensures Pending(env, s', sid, s'.tasks.all[x]) {
      assert x == t;
    }
  }

  lemma ForwardTalk(env: Env, s: State, sub: SubId, sid: SessionId)
    requires TalkAt(env, s, sid) && sub in s.subs.all && s.subs.all[sub].hand.Some?
    ensures TalkAt(env, ForwardHand(s, sub), sid)
  {
    hide TalkAt;
    var s' := ForwardHand(s, sub);
    if OutboxOf(s', sid) != OutboxOf(s, sid) {
      RepliesAfterPublication(OutboxOf(s, sid), OutboxOf(s', sid));
    }
    hide Replies;
    assert Busy(s, sid) ==> Busy(s', sid);
    QuietTalk(env, s, s', sid);
  }

  lemma PollQuiet(env: Env, s: State, sub: SubId)
    requires Running(s, sub)
    ensures
      var s' := PollReceiver(env, s, sub);
      && s'.tasks == s.tasks && s'.talk == s.talk && s'.outboxes == s.outboxes && s'.sessions == s.sessions
      && s'.held == s.held && s'.log == s.log
  {
    hide Broker.Poll, Broker.Peek;
  }

  lemma StepKeepsTalk(env: Env, s: State, e: Event, sid: SessionId)
    requires TalkAt(env, s, sid) && SerialAt(s, sid) && SerialAt(Step(env, s, e), sid)
    requires HubIndex.IdsInv(s) && sid < s.sessions.nextId && (HubCursor.PubSub(env) ==> HubCursor.CursorInv(s))
    ensures TalkAt(env, Step(env, s, e), sid)
  {
    hide TalkAt, Replies, AdvanceTask, Begin, ForwardHand, PollReceiver, HubCursor.PubSub, HubCursor.CursorInv;
    var s' := Step(env, s, e);
    match e
    case Receive(t, who, m) =>
      if t !in s.tasks.all && Reads(s, who) { ReceiveKeepsTalk(env, s, t, who, m, sid); }
    case Advance(t, fail) => if t in s.tasks.all { AdvanceKeepsTalk(env, s, t, fail, sid); }
    case Forward(sub) => if Running(s, sub) && s.subs.all[sub].hand.Some? { ForwardTalk(env, s, sub, sid); }
    case PollStream(sub) =>
      if Running(s, sub) {
        PollQuiet(env, s, sub);
        assert Busy(s, sid) ==> Busy(s', sid);
        QuietTalk(env, s, s', sid);
      }
    case _ =>
      assert s'.tasks == s.tasks && s'.log == s.log;
      assert Busy(s, sid) ==> Busy(s', sid) && HeldBy(s', sid) == HeldBy(s, sid);
      QuietTalk(env, s, s', sid);
  }

  lemma OpenSettles(env: Env, s: State)
    requires HubIndex.IdsInv(s)
    ensures TalkAt(env, Step(env, s, Open), s.sessions.nextId)
  {
    hide AdvanceTask, Begin;
    var s' := OpenSession(env, s);
    assert !Busy(s', s.sessions.nextId);
  }

  lemma {:induction false} RunKeepsTalk(env: Env, events: seq<Event>, sid: SessionId)
    requires SerialRunAt(env, events, sid) && sid < Run(env, Init, events).sessions.nextId
    ensures TalkAt(env, Run(env, Init, events), sid)
    decreases |events|
  {
    hide TalkAt, SerialAt, Step, HubCursor.PubSub, HubCursor.CursorInv;
    if events != [] {
      var init, e := events[..|events| - 1], events[|events| - 1];
      var s := Run(env, Init, init);
      HubIndex.InitIndex();
      HubIndex.RunKeepsIndex(env, Init, init);
      if HubCursor.PubSub(env) { HubCursor.RunKeepsCursors(env, init); }
      IdsGrowByOpen(env, s, e);
      if sid < s.sessions.nextId {
        RunKeepsTalk(env, init, sid);
        StepKeepsTalk(env, s, e, sid);
      } else {
        OpenSettles(env, s);
      }
    }
  }

  lemma IdsGrowByOpen(env: Env, s: State, e: Event)
    ensures Step(env, s, e).sessions.nextId == if e.Open? then s.sessions.nextId + 1 else s.sessions.nextId
  {
    if e.Advance? && e.t in s.tasks.all {
      hide AdvanceSubscribe;
      if SubscribeInFlight(s.tasks.all[e.t], s.tasks.all[e.t].sid) {
        if !Inserts(s, s.tasks.all[e.t]) { SubscribeFrame(env, s, e.t, e.fail); }
        else { InsertKeepsNextId(env, s, e.t, e.fail); }
      }
    } else {
      hide AdvanceTask;
    }
  }

  lemma InsertKeepsNextId(env: Env, s: State, t: TaskId, fail: bool)
    requires t in s.tasks.all && Inserts(s, s.tasks.all[t])
    ensures AdvanceSubscribe(env, s, t, s.tasks.all[t], fail).sessions.nextId == s.sessions.nextId
  {
  }

  /** Nothing is read from a connection after an undecodable message. */
  lemma {:induction false} UndecodableIsFinal(env: Env, events: seq<Event>, sid: SessionId, i: nat)
    requires i + 1 < |AskedBy(Run(env, Init, events), sid)|
    ensures AskedBy(Run(env, Init, events), sid)[i].Frame?
    decreases |events|
  {
    hide Step;
    if events != [] {
      var init, e := events[..|events| - 1], events[|events| - 1];
      var s := Run(env, Init, init);
      AskedGrows(env, s, e, sid);
      if i + 1 < |AskedBy(s, sid)| { UndecodableIsFinal(env, init, sid, i); }
    }
  }

  lemma AskedGrows(env: Env, s: State, e: Event, sid: SessionId)
    ensures
      var s' := Step(env, s, e);
      || AskedBy(s', sid) == AskedBy(s, sid)
      || AskedBy(s', sid) == []
      || (&& |AskedBy(s', sid)| == |AskedBy(s, sid)| + 1
          && AskedBy(s', sid)[..|AskedBy(s, sid)|] == AskedBy(s, sid)
          && Reads(s, sid))
  {
    if e.Advance? && e.t in s.tasks.all {
      AdvanceFrame(env, s, e.t, e.fail);
      hide AdvanceTask;
    } else if e.Receive? && e.t !in s.tasks.all && Reads(s, e.sid) {
      BeginFrame(env, Ask(s, e.sid, e.message), e.t, e.sid, e.message);
      hide Begin;
    } else {
      hide AdvanceTask, Begin;
    }
  }

  /**
   * Reply correlation: when the session's frames are handled one at a time, all messages
   * read from it but perhaps the last are answered, only the last can be undecodable, and
   * while it is registered with its outbox open the frames in the outbox other than
   * publications answer the messages in order, the newest reply perhaps still on its way:
   * one reply with the same request id per Subscribe, Unsubscribe and Connect, one Error
   * per failed Publish, none per successful Publish, one Error with id 0 for an
   * undecodable message. Every error has the code and text of its cause, and no message
   * with a cause for one succeeds; a Connect is answered with the subject and expiry its
   * token stands for, a Subscribe to pub/sub with epoch 1 and the position of the log.
   */
  lemma RepliesCorrelate(env: Env, events: seq<Event>, sid: SessionId)
    requires SerialRunAt(env, events, sid) && sid < Run(env, Init, events).sessions.nextId
    ensures
      var s := Run(env, Init, events);
      && (!Busy(s, sid) ==> Settled(env, s, sid))
      && (forall t :: t in s.tasks.all && s.tasks.all[t].sid == sid ==> Pending(env, s, sid, s.tasks.all[t]))
      && (forall i :: 0 <= i < |AskedBy(s, sid)| - 1 ==> AskedBy(s, sid)[i].Frame?)
      && (HubCursor.PubSub(env) ==> HubCursor.VerdictsAt(s, sid))
  {
    RunKeepsTalk(env, events, sid);
    if HubCursor.PubSub(env) { HubCursor.RunKeepsCursors(env, events); }
    hide Run, SerialRunAt, HubCursor.PubSub;
    var s := Run(env, Init, events);
    forall i | 0 <= i < |AskedBy(s, sid)| - 1 ensures AskedBy(s, sid)[i].Frame? {
      UndecodableIsFinal(env, events, sid, i);
    }
  }
}
