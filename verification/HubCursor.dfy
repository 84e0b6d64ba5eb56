/** The position a subscribe is answered with, over every run of a pub/sub hub. */
module HubCursor {
  import opened Types
  import opened Frames
  import opened Hub
  import Broker
  import History
  import Registry

  ghost predicate PubSub(env: Env) {
    exists bounds: Channel -> History.Bounds :: IsPubSub(env.kind, bounds)
  }

  /** Each channel's next offset counts its log. */
  ghost predicate NextInv(s: State) {
    forall ch :: Get(s.channels.of, ch, History.Fresh).next == History.OffsetOf(|LogOf(s, ch)|)
  }

  /** The cursor was read from the log as it was when it had the length recorded. */
  ghost predicate Reads(s: State, ch: Channel, cursor: Cursor) {
    cursor.seen <= |LogOf(s, ch)| && cursor.offset == History.Newest(cursor.seen)
  }

  ghost predicate CursorAt(s: State, k: Task) {
    k.message.Frame? && k.message.frame.Subscribe?
    && (k.stage.Attaching? || k.stage.Reading? || k.stage.Sending? || k.stage.Inserting?)
    ==> Reads(s, k.message.frame.channel, k.stage.cursor)
  }

  ghost predicate VerdictAt(s: State, v: Verdict) {
    v.ok && v.message.Frame? && v.message.frame.Subscribe? ==> v.seen <= |LogOf(s, v.message.frame.channel)|
  }

  ghost predicate VerdictsAt(s: State, sid: SessionId) {
    forall i :: 0 <= i < |AnsweredTo(s, sid)| ==> VerdictAt(s, AnsweredTo(s, sid)[i])
  }

  ghost predicate CursorInv(s: State) {
    && NextInv(s)
    && (forall t :: t in s.tasks.all ==> CursorAt(s, s.tasks.all[t]))
    && (forall sid :: VerdictsAt(s, sid))
  }

  // --------------------------------------------------------------------

  ghost predicate SameNext(s: State, s': State) {
    forall ch :: Get(s'.channels.of, ch, History.Fresh).next == Get(s.channels.of, ch, History.Fresh).next
  }

  /** At most one verdict more, a right one. */
  ghost predicate MoreVerdicts(s: State, s': State, sid: SessionId) {
    || s'.talk.answered == s.talk.answered
    || exists v :: VerdictAt(s', v) && s'.talk.answered == s.talk.answered[sid := AnsweredTo(s, sid) + [v]]
  }

  /** What a step does to the cursors, other than accepting a publication. */
  ghost predicate Carries(s: State, s': State, t: TaskId, sid: SessionId) {
    && s'.log.log == s.log.log && SameNext(s, s') && MoreVerdicts(s, s', sid)
    && (forall x :: x in s'.tasks.all && x != t ==> x in s.tasks.all && s'.tasks.all[x] == s.tasks.all[x])
    && (t in s'.tasks.all ==> CursorAt(s', s'.tasks.all[t]))
  }

  lemma CarriesKeeps(s: State, s': State, t: TaskId, sid: SessionId)
    requires CursorInv(s) && Carries(s, s', t, sid)
    ensures CursorInv(s')
  {
    forall x | x in s'.tasks.all ensures CursorAt(s', s'.tasks.all[x]) {
      if x != t { assert CursorAt(s, s.tasks.all[x]); }
    }
    forall x ensures VerdictsAt(s', x) {
      assert VerdictsAt(s, x);
      forall i | 0 <= i < |AnsweredTo(s', x)| ensures VerdictAt(s', AnsweredTo(s', x)[i]) {
        if i < |AnsweredTo(s, x)| { assert VerdictAt(s, AnsweredTo(s, x)[i]); }
      }
    }
  }

  lemma FailCarries(env: Env, s: State, s1: State, t: TaskId, k: Task, e: HubError)
    requires s1.log.log == s.log.log && s1.channels == s.channels && s1.talk == s.talk && s1.tasks == s.tasks
    ensures Carries(s, Fail(env, s1, t, k.sid, k.message, e), t, k.sid)
  {
    var s' := Fail(env, s1, t, k.sid, k.message, e);
    assert VerdictAt(s', Verdict(k.message, false, 0));
  }

  lemma SucceedCarries(s: State, s1: State, t: TaskId, k: Task, reply: ServerFrame, seen: nat)
    requires s1.log.log == s.log.log && s1.channels == s.channels && s1.talk == s.talk && s1.tasks == s.tasks
    requires VerdictAt(s, Verdict(k.message, true, seen))
    ensures Carries(s, Succeed(s1, t, k.sid, k.message, reply, seen), t, k.sid)
  {
    var s' := Succeed(s1, t, k.sid, k.message, reply, seen);
    assert VerdictAt(s', Verdict(k.message, true, seen));
  }

  lemma MoveCarries(s: State, s1: State, t: TaskId, k: Task, stage: Stage)
    requires s1.log.log == s.log.log && s1.channels == s.channels && s1.talk == s.talk && s1.tasks == s.tasks
    requires CursorAt(s, k.(stage := stage))
    ensures Carries(s, Put(s1, t, k.(stage := stage)), t, k.sid)
  {
  }

  lemma EnterReads(s: State, ch: Channel)
    requires NextInv(s)
    ensures Reads(s, ch, CursorOf(s, ch))
  {
    assert Get(s.channels.of, ch, History.Fresh).next == History.OffsetOf(|LogOf(s, ch)|);
  }

  lemma ReadCarries(env: Env, bounds: Channel -> History.Bounds, s: State, t: TaskId, k: Task, sub: SubId, cursor: Cursor)
    requires IsPubSub(env.kind, bounds) && sub in s.subs.all && SubscribeInFlight(k, k.sid)
    requires Reads(s, k.message.frame.channel, cursor)
    ensures Carries(s, ReadReplay(env, s, t, k, sub, cursor, k.message.frame.channel, k.message.frame.sinceOffset), t, k.sid)
  {
    var ch := k.message.frame.channel;
    var s' := ReadReplay(env, s, t, k, sub, cursor, ch, k.message.frame.sinceOffset);
    if ch in s.channels.of {
      var cs := s.channels.of[ch];
      assert env.kind.expire(ch, cs, s.now) == History.Expire(bounds(ch), cs, s.now);
    }
    assert SameNext(s, s');
    hide History.Since, IsPubSub, SameNext;
  }

  lemma SubscribeCarries(env: Env, s: State, t: TaskId, fail: bool)
    requires PubSub(env) && NextInv(s) && t in s.tasks.all && CursorAt(s, s.tasks.all[t])
    requires SubscribeInFlight(s.tasks.all[t], s.tasks.all[t].sid)
    ensures Carries(s, AdvanceSubscribe(env, s, t, s.tasks.all[t], fail), t, s.tasks.all[t].sid)
  {
    hide IsPubSub, Fail, ReadReplay, SendReplay, AttachStream, Broker.Detach, Registry.AddTo, CursorOf, NextInv, RequestId;
    hide Carries, Put, Reads, Succeed;
    var bounds :| IsPubSub(env.kind, bounds);
    var k := s.tasks.all[t];
    var ch, since := k.message.frame.channel, k.message.frame.sinceOffset;
    match k.stage
    case Gate(claims) =>
      FailCarries(env, s, s, t, k, Denied);
      FailCarries(env, s, s, t, k, AlreadySubscribed);
      MoveCarries(s, s, t, k, Entering(claims));
    case Entering(claims) =>
      FailCarries(env, s, s, t, k, BadChannel);
      EnterReads(s, ch);
      MoveCarries(s, s.(hooks := s.hooks.(entered := Bump(s.hooks.entered, ch))), t, k, Attaching(claims, CursorOf(s, ch)));
    case Attaching(claims, cursor) =>
      MoveCarries(s, s, t, k, Unwinding(BrokerFailed, None));
      AttachCarries(s, t, k, claims, cursor);
    case Reading(sub, cursor) =>
      MoveCarries(s, s, t, k, Unwinding(BadChannel, Some(sub)));
      if sub in s.subs.all { ReadCarries(env, bounds, s, t, k, sub, cursor); }
    case Sending(sub, cursor) =>
      MoveCarries(s, s, t, k, Unwinding(SessionGone, Some(sub)));
      if sub in s.subs.all { SendCarries(s, t, k, sub, cursor); }
    case Inserting(sub, cursor) =>
      MoveCarries(s, DropReceiver(s, sub), t, k, Unwinding(AlreadySubscribed, None));
      if Inserts(s, k) {
        assert VerdictAt(s, Verdict(k.message, true, cursor.seen)) by { CursorIsSeen(s, k); }
        SucceedCarries(s, SetSub(Hold(s, k.sid, ch, sub), sub, s.subs.all[sub].(running := true)), t, k,
                       SubscribeOk(RequestId(k.message), ch, 1, cursor.offset), cursor.seen);
      }
    case Unwinding(error, stream) =>
      var s1 := if stream.Some? then DropReceiver(s, stream.value) else s;
      FailCarries(env, s, s1.(hooks := s.hooks.(left := Bump(s.hooks.left, ch))), t, k, error);
    case _ => StaysCarries(s, t, k.sid);
  }

  lemma CursorIsSeen(s: State, k: Task)
    requires SubscribeInFlight(k, k.sid) && k.stage.Inserting? && CursorAt(s, k)
    ensures VerdictAt(s, Verdict(k.message, true, k.stage.cursor.seen))
  {
  }

  lemma StaysCarries(s: State, t: TaskId, sid: SessionId)
    requires t in s.tasks.all && CursorAt(s, s.tasks.all[t])
    ensures Carries(s, s, t, sid)
  {
  }

  lemma AttachCarries(s: State, t: TaskId, k: Task, claims: Claims, cursor: Cursor)
    requires SubscribeInFlight(k, k.sid) && Reads(s, k.message.frame.channel, cursor)
    ensures Carries(s, AttachStream(s, t, k, claims, cursor, k.message.frame.channel, k.message.frame.sinceOffset), t, k.sid)
  {
    hide Broker.Attach;
  }

  lemma SendCarries(s: State, t: TaskId, k: Task, sub: SubId, cursor: Cursor)
    requires SubscribeInFlight(k, k.sid) && Reads(s, k.message.frame.channel, cursor) && sub in s.subs.all
    ensures Carries(s, SendReplay(s, t, k, sub, cursor), t, k.sid)
  {
    hide OutboxOf;
  }

  lemma AcceptKeeps(env: Env, bounds: Channel -> History.Bounds, s: State, t: TaskId, k: Task, claims: Claims)
    requires IsPubSub(env.kind, bounds) && CursorInv(s) && k.message.Frame? && k.message.frame.Publish?
    ensures CursorInv(AcceptPublication(env, s, t, k, claims, k.message.frame.channel, k.message.frame.data))
  {
    var ch, data := k.message.frame.channel, k.message.frame.data;
    var s' := AcceptPublication(env, s, t, k, claims, ch, data);
    var cs := Get(s.channels.of, ch, History.Fresh);
    assert env.kind.append(ch, cs, s.now, data) == History.Append(bounds(ch), cs, s.now, data);
    hide IsPubSub;
    assert cs.next == History.OffsetOf(|LogOf(s, ch)|);
    forall c ensures Get(s'.channels.of, c, History.Fresh).next == History.OffsetOf(|LogOf(s', c)|) {
      assert Get(s.channels.of, c, History.Fresh).next == History.OffsetOf(|LogOf(s, c)|);
    }
    forall c ensures |LogOf(s, c)| <= |LogOf(s', c)| {}
    forall x | x in s'.tasks.all ensures CursorAt(s', s'.tasks.all[x]) {
      if x != t { assert CursorAt(s, s.tasks.all[x]); }
    }
    forall sid ensures VerdictsAt(s', sid) {
      assert VerdictsAt(s, sid);
      forall i | 0 <= i < |AnsweredTo(s', sid)| ensures VerdictAt(s', AnsweredTo(s', sid)[i]) {
        assert VerdictAt(s, AnsweredTo(s, sid)[i]);
      }
    }
  }

  /** The other handlers neither read nor carry a cursor. */
  lemma OtherCarries(env: Env, s: State, t: TaskId, fail: bool)
    requires t in s.tasks.all && CursorAt(s, s.tasks.all[t])
    requires !SubscribeInFlight(s.tasks.all[t], s.tasks.all[t].sid)
    requires
      var k := s.tasks.all[t];
      !(k.message.Frame? && k.message.frame.Publish? && k.stage.Accepting? && k.message.frame.channel != [])
    ensures Carries(s, AdvanceTask(env, s, t, s.tasks.all[t], fail), t, s.tasks.all[t].sid)
  {
    hide AdvanceSubscribe, Broker.Broadcast, OutboxOf, CodeFor, RequestId, CursorAt, VerdictAt;
    var k := s.tasks.all[t];
    var s' := AdvanceTask(env, s, t, k, fail);
    if t in s'.tasks.all { Uncarried(s', s'.tasks.all[t], s, k); }
    if !(k.message.Frame? && k.message.frame.Subscribe?) { NoCursor(s', k.message, true); }
    NoCursor(s', k.message, false);
  }

  lemma NoCursor(s: State, m: Message, ok: bool)
    requires !(ok && m.Frame? && m.frame.Subscribe?)
    ensures VerdictAt(s, Verdict(m, ok, 0))
  {
  }

  lemma Uncarried(s': State, k': Task, s: State, k: Task)
    requires CursorAt(s, k) && k'.message == k.message && s'.log.log == s.log.log
    requires k' == k || !(k.message.Frame? && k.message.frame.Subscribe? && !k'.stage.Replying?)
    ensures CursorAt(s', k')
  {
  }

  lemma AdvanceKeeps(env: Env, s: State, t: TaskId, fail: bool)
    requires PubSub(env) && CursorInv(s) && t in s.tasks.all
    ensures CursorInv(AdvanceTask(env, s, t, s.tasks.all[t], fail))
  {
    var k := s.tasks.all[t];
    var s' := AdvanceTask(env, s, t, k, fail);
    assert CursorAt(s, k);
    if SubscribeInFlight(k, k.sid) {
      hide AdvanceSubscribe, CursorAt, PubSub;
      SubscribeCarries(env, s, t, fail);
      hide CursorInv, Carries;
      CarriesKeeps(s, s', t, k.sid);
    } else if k.message.Frame? && k.message.frame.Publish? && k.stage.Accepting? && k.message.frame.channel != [] {
      var bounds :| IsPubSub(env.kind, bounds);
      hide IsPubSub, CursorInv, AcceptPublication, PubSub;
      AcceptKeeps(env, bounds, s, t, k, k.stage.claims);
    } else {
      hide AdvanceTask, CursorInv, Carries, PubSub;
      OtherCarries(env, s, t, fail);
      CarriesKeeps(s, s', t, k.sid);
    }
  }

  lemma BeginKeeps(env: Env, s: State, t: TaskId, sid: SessionId, m: Message)
    requires CursorInv(s)
    ensures CursorInv(Begin(env, Ask(s, sid, m), t, sid, m))
  {
    var s1 := Ask(s, sid, m);
    var s' := Begin(env, s1, t, sid, m);
    BeginFrame(env, s1, t, sid, m);
    assert MoreVerdicts(s, s', sid) by {
      assert VerdictAt(s', Verdict(m, false, 0));
      BeginVerdict(env, s1, t, sid, m);
    }
    hide Begin;
    assert Carries(s, s', t, sid);
    hide CursorInv, Carries;
    CarriesKeeps(s, s', t, sid);
  }

  lemma BeginVerdict(env: Env, s: State, t: TaskId, sid: SessionId, m: Message)
    ensures
      var s' := Begin(env, s, t, sid, m);
      s'.talk == s.talk || s'.talk == Record(s, sid, m, false).talk
  {
  }

  lemma StepKeeps(env: Env, s: State, e: Event)
    requires PubSub(env) && CursorInv(s)
    ensures CursorInv(Step(env, s, e))
  {
    hide Begin, AdvanceTask, PubSub;
    var s' := Step(env, s, e);
    match e
    case Advance(t, fail) => if t in s.tasks.all { hide CursorInv; AdvanceKeeps(env, s, t, fail); }
    case Receive(t, sid, m) => if t !in s.tasks.all && Hub.Reads(s, sid) { hide CursorInv; BeginKeeps(env, s, t, sid, m); }
    case _ =>
      assert s'.log == s.log && s'.channels == s.channels && s'.tasks == s.tasks;
      assert forall sid :: AnsweredTo(s', sid) == AnsweredTo(s, sid) || AnsweredTo(s', sid) == [];
      hide Step, CursorInv;
      QuietKeeps(s, s');
  }

  lemma QuietKeeps(s: State, s': State)
    requires CursorInv(s) && s'.log == s.log && s'.channels == s.channels && s'.tasks == s.tasks
    requires forall sid :: AnsweredTo(s', sid) == AnsweredTo(s, sid) || AnsweredTo(s', sid) == []
    ensures CursorInv(s')
  {
    forall t | t in s'.tasks.all ensures CursorAt(s', s'.tasks.all[t]) { assert CursorAt(s, s.tasks.all[t]); }
    forall sid ensures VerdictsAt(s', sid) {
      assert VerdictsAt(s, sid);
      if AnsweredTo(s', sid) == AnsweredTo(s, sid) {
        forall i | 0 <= i < |AnsweredTo(s', sid)| ensures VerdictAt(s', AnsweredTo(s', sid)[i]) {
          assert VerdictAt(s, AnsweredTo(s, sid)[i]);
        }
      }
    }
  }

  /**
   * In every reachable state of a pub/sub hub, the position a subscribe carries from the
   * moment it entered is one less than the next offset of a log as long as the channel's was
   * then, and so not longer than the log is now; and the same length is on record for every
   * subscribe that was answered.
   */
  lemma {:induction false} RunKeepsCursors(env: Env, events: seq<Event>)
    requires PubSub(env)
    ensures CursorInv(Run(env, Init, events))
    decreases |events|
  {
    hide Step, PubSub;
    if events == [] {
      assert Init.tasks.all == map[] && Init.channels.of == map[] && Init.log.log == map[] && Init.talk.answered == map[];
    } else {
      hide CursorInv;
      RunKeepsCursors(env, events[..|events| - 1]);
      StepKeeps(env, Run(env, Init, events[..|events| - 1]), events[|events| - 1]);
    }
  }
}
