/**
 * The hub as a machine of interleaved steps.
 *
 * A handler is split at its awaits; the code between two awaits is one step. A
 * run is any sequence of events: frames arriving, handlers advancing, forwarders
 * polling the broker and filling outboxes, sessions opening and being closed or
 * kicked, and the clock. An event that is not enabled changes nothing.
 */
module Hub {
  import opened Types
  import opened Frames
  import History
  import Registry
  import Broker

  type SessionId = Registry.SessionId
  type TaskId = nat
  type SubId = Broker.ReceiverId

  datatype Claims = Claims(subject: Bytes, permissions: seq<Bytes>, expiresAt: nat)

  const Anonymous :=
    Claims(['a' as int, 'n' as int, 'o' as int, 'n' as int, 'y' as int, 'm' as int, 'o' as int, 'u' as int, 's' as int], [], 0)

  datatype Action = Subscribing | Publishing

  datatype HubError =
    | SessionGone
    | AlreadySubscribed
    | NotSubscribed
    | BadChannel
    | BrokerFailed
    | Rejected
    | BadToken
    | Denied
    | NotConnected
    | AlreadyConnected

  /** A channel kind with a history: what it does to one channel's state. */
  datatype Kind = Kind(
    append: (Channel, History.ChannelState, nat, Bytes) -> History.ChannelState,  // on_publish
    expire: (Channel, History.ChannelState, nat) -> History.ChannelState,         // replay_since, before scanning
    since: (Channel, History.ChannelState, nat) -> seq<Publication>)              // replay_since, the scan

  /** The pub/sub kind, with each namespace's bounds. */
  ghost predicate IsPubSub(kind: Kind, bounds: Channel -> History.Bounds) {
    && (forall ch :: bounds(ch).size >= 1)
    && (forall ch, cs, now, data :: kind.append(ch, cs, now, data) == History.Append(bounds(ch), cs, now, data))
    && (forall ch, cs, now :: kind.expire(ch, cs, now) == History.Expire(bounds(ch), cs, now))
    && (forall ch, cs, since :: kind.since(ch, cs, since) == History.Since(ch, cs.entries, since))
  }

  /** The pluggable parts, as fixed pure functions. */
  datatype Env = Env(
    anonymous: bool,
    authenticate: Bytes -> Option<Claims>,
    allows: (Claims, Action, Channel) -> bool,
    accepts: (Channel, Bytes) -> bool,
    kind: Kind,
    capacity: nat,
    describe: HubError -> Bytes,   // text of an error reply
    garbled: Bytes)                // text of the reply to an undecodable message

  function CodeFor(e: HubError): nat {
    match e
    case Rejected => VALIDATION_FAILED
    case BadToken => INVALID_TOKEN
    case Denied => ACL_DENIED
    case NotConnected => NOT_CONNECTED
    case _ => INTERNAL
  }

  /** What a transport reads from a connection. */
  datatype Message = Frame(frame: ClientFrame) | Undecodable

  function RequestId(m: Message): nat {
    if m.Frame? then m.frame.requestId else 0
  }

  /** The offset a subscribe will be answered with and, for the record, the length of the channel's log when it was read. */
  datatype Cursor = Cursor(offset: nat, seen: nat)

  /** Where an in-flight handler is suspended. */
  datatype Stage =
    | Gate(claims: Claims)                               // ACL check
    | Entering(claims: Claims)                           // on_subscribe
    | Attaching(claims: Claims, cursor: Cursor)             // broker subscribe
    | Reading(sub: SubId, cursor: Cursor)                   // replay read
    | Sending(sub: SubId, cursor: Cursor)                   // replay sends
    | Inserting(sub: SubId, cursor: Cursor)                 // insert and index
    | Unwinding(error: HubError, stream: Option<SubId>)  // on_unsubscribe after a failed subscribe
    | Leaving                                            // on_unsubscribe
    | Validating(claims: Claims)                         // schema check
    | Accepting(claims: Claims)                          // on_publish
    | FanningOut(publication: Publication)               // broker publish
    | Authenticating                                     // authenticator
    | Replying(reply: ServerFrame)                       // deliver to the outbox

  datatype Task = Task(sid: SessionId, message: Message, stage: Stage)

  /** What went into an outbox, and through which subscription. */
  datatype Out = Delivered(sub: SubId, publication: Publication) | Replied(reply: ServerFrame)

  /** The log length and the time at which a replay was read. */
  datatype ReadPoint = ReadPoint(len: nat, time: nat)

  /**
   * A subscription from broker attach on. `logAtAttach` and `attachedAt` are the
   * lengths of the channel's log and of its broadcasts at that moment; `picks` are
   * the positions among the broadcasts it was handed, `skipped` how many it lost to lag.
   */
  datatype Subscription = Subscription(
    sid: SessionId,
    channel: Channel,
    since: nat,
    claims: Claims,
    logAtAttach: nat,
    attachedAt: nat,
    read: Option<ReadPoint>,
    replay: seq<Publication>,
    replayed: nat,
    running: bool,
    hand: Option<Publication>,
    forwarded: seq<Publication>,
    picks: seq<nat>,
    skipped: nat)

  /** `SessionRegistry`: id counter, registered sessions, reverse index. */
  datatype Sessions = Sessions(nextId: nat, registered: set<SessionId>, index: Registry.Index)

  /** `Session.claims`, for the sessions whose claims are set. */
  datatype ClaimTable = ClaimTable(of: map<SessionId, Claims>)

  /** `Session.subscriptions`: the forwarder per held channel. */
  datatype HeldTable = HeldTable(of: map<SessionId, map<Channel, SubId>>)

  /** Everything ever sent to each session's outbox, and which still accept frames. */
  datatype Outboxes = Outboxes(of: map<SessionId, seq<Out>>, open: set<SessionId>)

  /** The channel kind's per-channel state. */
  datatype Channels = Channels(of: map<Channel, History.ChannelState>)

  /** The handlers in flight. */
  datatype TaskTable = TaskTable(all: map<TaskId, Task>)

  datatype SubTable = SubTable(all: map<SubId, Subscription>, next: SubId)

  // The rest records the run so that properties can be stated; no step's effect
  // on the fields above depends on it, except that a connection is read no
  // further after an undecodable message.

  datatype Author = Author(sid: SessionId, claims: Claims)

  /** Every accepted publication, who published it under which claims, and the order they were handed to the broker in. */
  datatype LogAudit = LogAudit(log: map<Channel, seq<History.Record>>, authors: map<Channel, seq<Author>>,
                               broadcasts: map<Channel, seq<Publication>>)

  /** Successful `on_subscribe` calls, `on_unsubscribe` calls, subscriptions dropped with their session. */
  datatype HookAudit = HookAudit(entered: map<Channel, nat>, left: map<Channel, nat>, abandoned: map<Channel, nat>)

  /** Sessions deregistered with a subscribe in flight; index entries added after deregistration. */
  datatype StaleAudit = StaleAudit(orphans: set<SessionId>, late: set<(SessionId, Channel)>)

  /** A session when one of its messages is read: what decides the answer. */
  datatype Standing = Standing(
    registered: bool,
    claims: Option<Claims>,
    held: bool,    // the message's channel
    length: nat)   // of the channel's log

  /** A message handled; for a subscribe that succeeded, the length of the log its position was read from. */
  datatype Verdict = Verdict(message: Message, ok: bool, seen: nat)

  /** Messages read, how the session stood each time, and messages handled with their verdict, in order. */
  datatype TalkAudit = TalkAudit(asked: map<SessionId, seq<Message>>, standings: map<SessionId, seq<Standing>>,
                                 answered: map<SessionId, seq<Verdict>>)

  datatype State = State(
    now: nat,
    sessions: Sessions,
    claims: ClaimTable,
    held: HeldTable,
    outboxes: Outboxes,
    channels: Channels,
    broker: Broker.BrokerState,
    tasks: TaskTable,
    subs: SubTable,
    log: LogAudit,
    hooks: HookAudit,
    stale: StaleAudit,
    talk: TalkAudit)

  const Init := State(0, Sessions(0, {}, map[]), ClaimTable(map[]), HeldTable(map[]), Outboxes(map[], {}),
                      Channels(map[]), Broker.Empty, TaskTable(map[]), SubTable(map[], 0),
                      LogAudit(map[], map[], map[]), HookAudit(map[], map[], map[]), StaleAudit({}, {}),
                      TalkAudit(map[], map[], map[]))

  datatype Event =
    | Open
    | Deregister(sid: SessionId)          // close or kick
    | Release(sid: SessionId)             // the last handle to a deregistered session goes
    | CloseOutbox(sid: SessionId)         // the connection's writer is gone
    | Tick
    | Receive(t: TaskId, sid: SessionId, message: Message)
    | Advance(t: TaskId, fail: bool)
    | PollStream(sub: SubId)
    | Forward(sub: SubId)

  // --------------------------------------------------------------------
  // Small reads and updates
  // --------------------------------------------------------------------

  function LogOf(s: State, ch: Channel): seq<History.Record> { Get(s.log.log, ch, []) }

  function AuthorsOf(s: State, ch: Channel): seq<Author> { Get(s.log.authors, ch, []) }

  function BroadcastsOf(s: State, ch: Channel): seq<Publication> { Get(s.log.broadcasts, ch, []) }

  function HeldBy(s: State, sid: SessionId): map<Channel, SubId> { Get(s.held.of, sid, map[]) }

  function OutboxOf(s: State, sid: SessionId): seq<Out> { Get(s.outboxes.of, sid, []) }

  function AskedBy(s: State, sid: SessionId): seq<Message> { Get(s.talk.asked, sid, []) }

  function StandingsOf(s: State, sid: SessionId): seq<Standing> { Get(s.talk.standings, sid, []) }

  function AnsweredTo(s: State, sid: SessionId): seq<Verdict> { Get(s.talk.answered, sid, []) }

  function Bump(m: map<Channel, nat>, ch: Channel): map<Channel, nat> { m[ch := Get(m, ch, 0) + 1] }

  function Push(s: State, sid: SessionId, o: Out): State {
    s.(outboxes := s.outboxes.(of := s.outboxes.of[sid := OutboxOf(s, sid) + [o]]))
  }

  function Put(s: State, t: TaskId, k: Task): State {
    s.(tasks := TaskTable(s.tasks.all[t := k]))
  }

  function SetSub(s: State, sub: SubId, u: Subscription): State {
    s.(subs := s.subs.(all := s.subs.all[sub := u]))
  }

  function DropReceiver(s: State, sub: SubId): State {
    s.(broker := Broker.Detach(s.broker, sub))
  }

  function Record(s: State, sid: SessionId, m: Message, ok: bool, seen: nat := 0): State {
    s.(talk := s.talk.(answered := s.talk.answered[sid := AnsweredTo(s, sid) + [Verdict(m, ok, seen)]]))
  }

  /** A handler returns an error, which becomes the reply. */
  function Fail(env: Env, s: State, t: TaskId, sid: SessionId, m: Message, e: HubError): State {
    Put(Record(s, sid, m, false), t, Task(sid, m, Replying(Error(RequestId(m), CodeFor(e), env.describe(e)))))
  }

  /** A handler returns a success reply. */
  function Succeed(s: State, t: TaskId, sid: SessionId, m: Message, reply: ServerFrame, seen: nat := 0): State {
    Put(Record(s, sid, m, true, seen), t, Task(sid, m, Replying(reply)))
  }

  function CursorOf(s: State, ch: Channel): Cursor {
    Cursor(if ch in s.channels.of && s.channels.of[ch].next > 0 then s.channels.of[ch].next - 1 else 0, |LogOf(s, ch)|)
  }

  // --------------------------------------------------------------------
  // Sessions
  // --------------------------------------------------------------------

  function OpenSession(env: Env, s: State): State {
    var sid := s.sessions.nextId;
    s.(sessions := s.sessions.(nextId := sid + 1, registered := s.sessions.registered + {sid}),
       claims := if env.anonymous then ClaimTable(s.claims.of[sid := Anonymous]) else s.claims,
       held := HeldTable(s.held.of[sid := map[]]),
       outboxes := Outboxes(s.outboxes.of[sid := []], s.outboxes.open + {sid}),
       talk := TalkAudit(s.talk.asked[sid := []], s.talk.standings[sid := []], s.talk.answered[sid := []]))
  }

  /** A handler that looked the session up and may still insert a subscription. */
  predicate SubscribeInFlight(k: Task, sid: SessionId) {
    k.sid == sid && k.message.Frame? && k.message.frame.Subscribe? && !k.stage.Replying?
  }

  predicate SubscribeInFlightFor(s: State, sid: SessionId) {
    exists t :: t in s.tasks.all && SubscribeInFlight(s.tasks.all[t], sid)
  }

  function DeregisterSession(s: State, sid: SessionId): State {
    if sid !in s.sessions.registered then s
    else
      s.(sessions := s.sessions.(registered := s.sessions.registered - {sid},
                                 index := Registry.Scrub(s.sessions.index, sid)),
         stale := if SubscribeInFlightFor(s, sid) then s.stale.(orphans := s.stale.orphans + {sid}) else s.stale)
  }

  /** Dropping the session aborts its forwarders; `on_unsubscribe` is not called. */
  function ReleaseSession(s: State, sid: SessionId): State {
    var gone := HeldBy(s, sid);
    s.(held := HeldTable(s.held.of[sid := map[]]),
       broker := s.broker.(receivers := s.broker.receivers - gone.Values),
       hooks := s.hooks.(abandoned :=
         map ch | ch in s.hooks.abandoned.Keys + gone.Keys ::
           Get(s.hooks.abandoned, ch, 0) + if ch in gone then 1 else 0))
  }

  // --------------------------------------------------------------------
  // A message arrives: everything up to the handler's first await
  // --------------------------------------------------------------------

  function Begin(env: Env, s: State, t: TaskId, sid: SessionId, m: Message): State {
    match m
    case Undecodable =>
      Put(Record(s, sid, m, false), t, Task(sid, m, Replying(Error(0, INVALID_FRAME, env.garbled))))
    case Frame(f) =>
      if sid !in s.sessions.registered then Fail(env, s, t, sid, m, SessionGone)
      else
        match f
        case Unsubscribe(_, ch) => BeginUnsubscribe(env, s, t, sid, m, ch)
        case Connect(_, _) => BeginConnect(env, s, t, sid, m)
        case _ => BeginGated(env, s, t, sid, m)
  }

  function BeginUnsubscribe(env: Env, s: State, t: TaskId, sid: SessionId, m: Message, ch: Channel): State {
    var mine := HeldBy(s, sid);
    if ch !in mine then Fail(env, s, t, sid, m, NotSubscribed)
    else Put(RemoveSubscription(s, sid, ch), t, Task(sid, m, Leaving))
  }

  function RemoveSubscription(s: State, sid: SessionId, ch: Channel): State
    requires ch in HeldBy(s, sid)
  {
    s.(held := HeldTable(s.held.of[sid := HeldBy(s, sid) - {ch}]),
       broker := Broker.Detach(s.broker, HeldBy(s, sid)[ch]),
       sessions := s.sessions.(index := Registry.RemoveFrom(s.sessions.index, sid, ch)))
  }

  function BeginConnect(env: Env, s: State, t: TaskId, sid: SessionId, m: Message): State {
    if sid in s.claims.of && !env.anonymous then Fail(env, s, t, sid, m, AlreadyConnected)
    else Put(s, t, Task(sid, m, Authenticating))
  }

  /** Subscribe and publish need claims; an anonymous hub supplies them. */
  function BeginGated(env: Env, s: State, t: TaskId, sid: SessionId, m: Message): State {
    if sid in s.claims.of then Put(s, t, Task(sid, m, Gate(s.claims.of[sid])))
    else if env.anonymous then
      Put(s.(claims := ClaimTable(s.claims.of[sid := Anonymous])), t, Task(sid, m, Gate(Anonymous)))
    else Fail(env, s, t, sid, m, NotConnected)
  }

  // --------------------------------------------------------------------
  // Subscribe, one segment at a time
  // --------------------------------------------------------------------

  function SubscribeGate(env: Env, s: State, t: TaskId, k: Task, ch: Channel, claims: Claims): State {
    if !env.allows(claims, Subscribing, ch) then Fail(env, s, t, k.sid, k.message, Denied)
    else if ch in HeldBy(s, k.sid) then Fail(env, s, t, k.sid, k.message, AlreadySubscribed)
    else Put(s, t, k.(stage := Entering(claims)))
  }

  function Enter(env: Env, s: State, t: TaskId, k: Task, ch: Channel, claims: Claims): State {
    if ch == [] then Fail(env, s, t, k.sid, k.message, BadChannel)
    else
      Put(s.(hooks := s.hooks.(entered := Bump(s.hooks.entered, ch))), t,
          k.(stage := Attaching(claims, CursorOf(s, ch))))
  }

  function AttachStream(s: State, t: TaskId, k: Task, claims: Claims, cursor: Cursor, ch: Channel, since: nat): State {
    var sub := s.subs.next;
    var u := Subscription(k.sid, ch, since, claims, |LogOf(s, ch)|, |BroadcastsOf(s, ch)|, None, [], 0, false, None, [], [], 0);
    Put(s.(broker := Broker.Attach(s.broker, sub, ch), subs := SubTable(s.subs.all[sub := u], sub + 1)),
        t, k.(stage := if since > 0 then Reading(sub, cursor) else Inserting(sub, cursor)))
  }

  function ReadReplay(env: Env, s: State, t: TaskId, k: Task, sub: SubId, cursor: Cursor, ch: Channel, since: nat): State
    requires sub in s.subs.all
  {
    var point := Some(ReadPoint(|LogOf(s, ch)|, s.now));
    if ch !in s.channels.of then
      Put(SetSub(s, sub, s.subs.all[sub].(read := point)), t, k.(stage := Inserting(sub, cursor)))
    else
      var cs := env.kind.expire(ch, s.channels.of[ch], s.now);
      var replay := env.kind.since(ch, cs, since);
      Put(SetSub(s, sub, s.subs.all[sub].(read := point, replay := replay)).(
            channels := Channels(s.channels.of[ch := cs])),
          t, k.(stage := if replay == [] then Inserting(sub, cursor) else Sending(sub, cursor)))
  }

  function SendReplay(s: State, t: TaskId, k: Task, sub: SubId, cursor: Cursor): State
    requires sub in s.subs.all
  {
    var u := s.subs.all[sub];
    if u.replayed >= |u.replay| then Put(s, t, k.(stage := Inserting(sub, cursor)))
    else
      Put(SetSub(Push(s, k.sid, Delivered(sub, u.replay[u.replayed])), sub, u.(replayed := u.replayed + 1)),
          t, k.(stage := if u.replayed + 1 == |u.replay| then Inserting(sub, cursor) else Sending(sub, cursor)))
  }

  function InsertSubscription(s: State, t: TaskId, k: Task, sub: SubId, cursor: Cursor, ch: Channel): State
    requires sub in s.subs.all
  {
    Succeed(SetSub(Hold(s, k.sid, ch, sub), sub, s.subs.all[sub].(running := true)),
            t, k.sid, k.message, SubscribeOk(RequestId(k.message), ch, 1, cursor.offset), cursor.seen)
  }

  /** The session's own map and the reverse index, whether or not the session is still registered. */
  function Hold(s: State, sid: SessionId, ch: Channel, sub: SubId): State {
    s.(held := HeldTable(s.held.of[sid := HeldBy(s, sid)[ch := sub]]),
       sessions := s.sessions.(index := Registry.AddTo(s.sessions.index, sid, ch)),
       stale := if sid in s.sessions.registered then s.stale else s.stale.(late := s.stale.late + {(sid, ch)}))
  }

  function Unwind(env: Env, s: State, t: TaskId, k: Task, ch: Channel, error: HubError, stream: Option<SubId>): State {
    var s' := if stream.Some? then DropReceiver(s, stream.value) else s;
    Fail(env, s'.(hooks := s.hooks.(left := Bump(s.hooks.left, ch))), t, k.sid, k.message, error)
  }

  function AdvanceSubscribe(env: Env, s: State, t: TaskId, k: Task, fail: bool): State
    requires k.message.Frame? && k.message.frame.Subscribe?
  {
    var ch, since := k.message.frame.channel, k.message.frame.sinceOffset;
    match k.stage
    case Gate(claims) => SubscribeGate(env, s, t, k, ch, claims)
    case Entering(claims) => Enter(env, s, t, k, ch, claims)
    case Attaching(claims, cursor) =>
      if fail then Put(s, t, k.(stage := Unwinding(BrokerFailed, None)))
      else AttachStream(s, t, k, claims, cursor, ch, since)
    case Reading(sub, cursor) =>
      if fail || sub !in s.subs.all then Put(s, t, k.(stage := Unwinding(BadChannel, Some(sub))))
      else ReadReplay(env, s, t, k, sub, cursor, ch, since)
    case Sending(sub, cursor) =>
      if sub !in s.subs.all || k.sid !in s.outboxes.open then
        Put(s, t, k.(stage := Unwinding(SessionGone, Some(sub))))
      else SendReplay(s, t, k, sub, cursor)
    case Inserting(sub, cursor) =>
      if sub !in s.subs.all || ch in HeldBy(s, k.sid) then
        Put(DropReceiver(s, sub), t, k.(stage := Unwinding(AlreadySubscribed, None)))
      else InsertSubscription(s, t, k, sub, cursor, ch)
    case Unwinding(error, stream) => Unwind(env, s, t, k, ch, error, stream)
    case _ => s
  }

  // --------------------------------------------------------------------
  // Publish, unsubscribe, connect
  // --------------------------------------------------------------------

  function AdvancePublish(env: Env, s: State, t: TaskId, k: Task, fail: bool): State
    requires k.message.Frame? && k.message.frame.Publish?
  {
    var ch, data := k.message.frame.channel, k.message.frame.data;
    match k.stage
    case Gate(claims) =>
      if !env.allows(claims, Publishing, ch) then Fail(env, s, t, k.sid, k.message, Denied)
      else Put(s, t, k.(stage := Validating(claims)))
    case Validating(claims) =>
      if !env.accepts(ch, data) then Fail(env, s, t, k.sid, k.message, Rejected)
      else Put(s, t, k.(stage := Accepting(claims)))
    case Accepting(claims) =>
      if ch == [] then Fail(env, s, t, k.sid, k.message, BadChannel)
      else AcceptPublication(env, s, t, k, claims, ch, data)
    case FanningOut(p) =>
      if fail then Fail(env, s, t, k.sid, k.message, BrokerFailed) else FanOut(s, t, k, ch, p)
    case _ => s
  }

  function AcceptPublication(env: Env, s: State, t: TaskId, k: Task, claims: Claims, ch: Channel, data: Bytes): State {
    var cs := Get(s.channels.of, ch, History.Fresh);
    Put(s.(channels := Channels(s.channels.of[ch := env.kind.append(ch, cs, s.now, data)]),
           log := s.log.(log := s.log.log[ch := LogOf(s, ch) + [History.Record(s.now, data)]],
                         authors := s.log.authors[ch := AuthorsOf(s, ch) + [Author(k.sid, claims)]])),
        t, k.(stage := FanningOut(Publication(ch, cs.next, data))))
  }

  /** A publish that succeeds is not replied to. */
  function FanOut(s: State, t: TaskId, k: Task, ch: Channel, p: Publication): State {
    Record(s, k.sid, k.message, true).(
      broker := Broker.Broadcast(s.broker, ch, p),
      log := s.log.(broadcasts := s.log.broadcasts[ch := BroadcastsOf(s, ch) + [p]]),
      tasks := TaskTable(s.tasks.all - {t}))
  }

  function AdvanceConnect(env: Env, s: State, t: TaskId, k: Task): State
    requires k.message.Frame? && k.message.frame.Connect?
  {
    if !k.stage.Authenticating? then s
    else
      match env.authenticate(k.message.frame.token)
      case None => Fail(env, s, t, k.sid, k.message, BadToken)
      case Some(c) =>
        Succeed(s.(claims := ClaimTable(s.claims.of[k.sid := c])), t, k.sid, k.message,
                ConnectOk(RequestId(k.message), c.subject, c.expiresAt))
  }

  function AdvanceUnsubscribe(s: State, t: TaskId, k: Task): State
    requires k.message.Frame? && k.message.frame.Unsubscribe?
  {
    var ch := k.message.frame.channel;
    if !k.stage.Leaving? then s
    else
      Succeed(s.(hooks := s.hooks.(left := Bump(s.hooks.left, ch))), t, k.sid, k.message,
              UnsubscribeOk(RequestId(k.message), ch))
  }

  /** The reply goes to the outbox if the session is still registered and open. */
  function Deliver(s: State, t: TaskId, sid: SessionId, reply: ServerFrame): State {
    var s' := if sid in s.sessions.registered && sid in s.outboxes.open then Push(s, sid, Replied(reply)) else s;
    s'.(tasks := TaskTable(s.tasks.all - {t}))
  }

  function AdvanceTask(env: Env, s: State, t: TaskId, k: Task, fail: bool): State {
    if k.stage.Replying? then Deliver(s, t, k.sid, k.stage.reply)
    else if k.message.Undecodable? then s
    else
      match k.message.frame
      case Subscribe(_, _, _) => AdvanceSubscribe(env, s, t, k, fail)
      case Unsubscribe(_, _) => AdvanceUnsubscribe(s, t, k)
      case Publish(_, _, _) => AdvancePublish(env, s, t, k, fail)
      case Connect(_, _) => AdvanceConnect(env, s, t, k)
  }

  // --------------------------------------------------------------------
  // Forwarders
  // --------------------------------------------------------------------

  /** The subscription's forwarder runs and its receiver is still on a topic. */
  predicate Running(s: State, sub: SubId) {
    && sub in s.subs.all
    && s.subs.all[sub].running
    && sub in s.broker.receivers
    && Broker.Readable(s.broker, sub)
  }

  function PollReceiver(env: Env, s: State, sub: SubId): State
    requires Running(s, sub)
  {
    var polled := Broker.Peek(env.capacity, s.broker, sub);
    var s' := s.(broker := Broker.Poll(env.capacity, s.broker, sub));
    var u := s.subs.all[sub];
    match polled
    case Pending => s'
    case Lagged(n) => SetSub(s', sub, u.(skipped := u.skipped + n))
    case Item(p) =>
      SetSub(s', sub, u.(hand := Some(p), picks := u.picks + [u.attachedAt + |u.picks| + u.skipped]))
  }

  /** The publication in hand goes out, or the closed outbox ends the forwarder. */
  function ForwardHand(s: State, sub: SubId): State
    requires sub in s.subs.all && s.subs.all[sub].hand.Some?
  {
    var u := s.subs.all[sub];
    if u.sid in s.outboxes.open then
      SetSub(Push(s, u.sid, Delivered(sub, u.hand.value)), sub,
             u.(hand := None, forwarded := u.forwarded + [u.hand.value]))
    else SetSub(DropReceiver(s, sub), sub, u.(hand := None))
  }

  // --------------------------------------------------------------------
  // Steps and runs
  // --------------------------------------------------------------------

  /** A connection is read until a message fails to decode. */
  predicate Reads(s: State, sid: SessionId) {
    && sid in s.talk.asked
    && (s.talk.asked[sid] == [] || s.talk.asked[sid][|s.talk.asked[sid]| - 1].Frame?)
  }

  function StandingOf(s: State, sid: SessionId, m: Message): Standing {
    var claims := if sid in s.claims.of then Some(s.claims.of[sid]) else None;
    if m.Undecodable? || m.frame.Connect? then Standing(sid in s.sessions.registered, claims, false, 0)
    else Standing(sid in s.sessions.registered, claims, m.frame.channel in HeldBy(s, sid), |LogOf(s, m.frame.channel)|)
  }

  function Ask(s: State, sid: SessionId, m: Message): State {
    s.(talk := s.talk.(asked := s.talk.asked[sid := AskedBy(s, sid) + [m]],
                       standings := s.talk.standings[sid := StandingsOf(s, sid) + [StandingOf(s, sid, m)]]))
  }

  predicate Unused(s: State, sid: SessionId) {
    && sid in s.held.of
    && sid !in s.sessions.registered
    && (forall t :: t in s.tasks.all ==> s.tasks.all[t].sid != sid)
  }

  function Step(env: Env, s: State, e: Event): State {
    match e
    case Open => OpenSession(env, s)
    case Deregister(sid) => DeregisterSession(s, sid)
    case Release(sid) => if Unused(s, sid) then ReleaseSession(s, sid) else s
    case CloseOutbox(sid) => s.(outboxes := s.outboxes.(open := s.outboxes.open - {sid}))
    case Tick => s.(now := s.now + 1)
    case Receive(t, sid, m) =>
      if t in s.tasks.all || !Reads(s, sid) then s else Begin(env, Ask(s, sid, m), t, sid, m)
    case Advance(t, fail) => if t in s.tasks.all then AdvanceTask(env, s, t, s.tasks.all[t], fail) else s
    case PollStream(sub) => if Running(s, sub) && s.subs.all[sub].hand.None? then PollReceiver(env, s, sub) else s
    case Forward(sub) => if Running(s, sub) && s.subs.all[sub].hand.Some? then ForwardHand(s, sub) else s
  }

  function Run(env: Env, s: State, events: seq<Event>): State
    decreases |events|
  {
    if events == [] then s else Step(env, Run(env, s, events[..|events| - 1]), events[|events| - 1])
  }

  lemma RunSnoc(env: Env, s: State, events: seq<Event>, e: Event)
    ensures Run(env, s, events + [e]) == Step(env, Run(env, s, events), e)
  {
    hide Step;
    assert (events + [e])[..|events|] == events;
  }

  lemma {:induction false} RunAppend(env: Env, s: State, before: seq<Event>, after: seq<Event>)
    ensures Run(env, s, before + after) == Run(env, Run(env, s, before), after)
    decreases |after|
  {
    hide Step;
    if after == [] {
      assert before + after == before;
    } else {
      var all := before + after;
      assert all[..|all| - 1] == before + after[..|after| - 1];
      RunAppend(env, s, before, after[..|after| - 1]);
    }
  }

  // --------------------------------------------------------------------
  // What a handler's step leaves alone
  // --------------------------------------------------------------------

  /** The handler is about to add its subscription to the session and the index. */
  predicate Inserts(s: State, k: Task) {
    && SubscribeInFlight(k, k.sid)
    && k.stage.Inserting?
    && k.stage.sub in s.subs.all
    && k.message.frame.channel !in HeldBy(s, k.sid)
  }

  /** Task `t` went on, with the same session and message, or ended; no other task changed. */
  predicate OnlyTask(s: State, s': State, t: TaskId) {
    && t in s.tasks.all
    && (|| s'.tasks == s.tasks
        || s'.tasks.all == s.tasks.all - {t}
        || (&& t in s'.tasks.all
            && !s.tasks.all[t].stage.Replying?
            && s'.tasks.all == s.tasks.all[t := s'.tasks.all[t]]
            && s'.tasks.all[t].sid == s.tasks.all[t].sid
            && s'.tasks.all[t].message == s.tasks.all[t].message))
  }

  /** What a subscribe's step leaves alone; sessions and held subscriptions too, unless it inserts. */
  predicate SubscribeLeaves(s: State, s': State, t: TaskId, inserts: bool) {
    && OnlyTask(s, s', t)
    && s'.now == s.now && s'.claims == s.claims && s'.log == s.log && s'.talk.asked == s.talk.asked
    && s'.talk.standings == s.talk.standings
    && s'.outboxes.open == s.outboxes.open
    && (!inserts ==> s'.sessions == s.sessions && s'.held == s.held && s'.stale == s.stale)
  }

  lemma FailLeaves(env: Env, s: State, s1: State, t: TaskId, e: HubError)
    requires t in s.tasks.all && !s.tasks.all[t].stage.Replying? && SubscribeLeaves(s, s1, t, false) && s1.tasks == s.tasks
    ensures SubscribeLeaves(s, Fail(env, s1, t, s.tasks.all[t].sid, s.tasks.all[t].message, e), t, false)
  {
    hide CodeFor, RequestId;
  }

  lemma ReadLeaves(env: Env, s: State, t: TaskId, sub: SubId, cursor: Cursor, ch: Channel, since: nat)
    requires t in s.tasks.all && !s.tasks.all[t].stage.Replying? && sub in s.subs.all
    ensures SubscribeLeaves(s, ReadReplay(env, s, t, s.tasks.all[t], sub, cursor, ch, since), t, false)
  {
  }

  lemma SendLeaves(s: State, t: TaskId, sub: SubId, cursor: Cursor)
    requires t in s.tasks.all && !s.tasks.all[t].stage.Replying? && sub in s.subs.all
    ensures SubscribeLeaves(s, SendReplay(s, t, s.tasks.all[t], sub, cursor), t, false)
  {
    hide OutboxOf;
  }

  lemma InsertLeaves(s: State, t: TaskId, sub: SubId, cursor: Cursor, ch: Channel)
    requires t in s.tasks.all && !s.tasks.all[t].stage.Replying? && sub in s.subs.all
    ensures SubscribeLeaves(s, InsertSubscription(s, t, s.tasks.all[t], sub, cursor, ch), t, true)
  {
    hide Registry.AddTo, RequestId;
  }

  lemma SubscribeFrame(env: Env, s: State, t: TaskId, fail: bool)
    requires t in s.tasks.all && SubscribeInFlight(s.tasks.all[t], s.tasks.all[t].sid)
    ensures SubscribeLeaves(s, AdvanceSubscribe(env, s, t, s.tasks.all[t], fail), t, Inserts(s, s.tasks.all[t]))
  {
    hide Fail, Broker.Attach, Broker.Detach, ReadReplay, SendReplay, InsertSubscription, CursorOf;
    var k := s.tasks.all[t];
    var ch, since := k.message.frame.channel, k.message.frame.sinceOffset;
    var s' := AdvanceSubscribe(env, s, t, k, fail);
    match k.stage
    case Gate(_) =>
      FailLeaves(env, s, s, t, Denied);
      FailLeaves(env, s, s, t, AlreadySubscribed);
    case Entering(_) => FailLeaves(env, s, s, t, BadChannel);
    case Attaching(_, _) =>
    case Reading(sub, cursor) => if sub in s.subs.all { ReadLeaves(env, s, t, sub, cursor, ch, since); }
    case Sending(sub, cursor) => if sub in s.subs.all { SendLeaves(s, t, sub, cursor); }
    case Inserting(sub, cursor) => if Inserts(s, k) { InsertLeaves(s, t, sub, cursor, ch); }
    case Unwinding(error, stream) =>
      var s1 := if stream.Some? then DropReceiver(s, stream.value) else s;
      FailLeaves(env, s, s1.(hooks := s.hooks.(left := Bump(s.hooks.left, ch))), t, error);
    case _ =>
  }

  /** What any handler's step leaves alone. */
  predicate AdvanceLeaves(s: State, s': State, t: TaskId, inserts: bool) {
    && OnlyTask(s, s', t)
    && s'.now == s.now && s'.talk.asked == s.talk.asked
    && s'.talk.standings == s.talk.standings
    && s'.outboxes.open == s.outboxes.open
    && (!inserts ==> s'.sessions == s.sessions && s'.held == s.held && s'.stale == s.stale)
  }

  lemma FailKeepsRest(env: Env, s: State, t: TaskId, e: HubError)
    requires t in s.tasks.all && !s.tasks.all[t].stage.Replying?
    ensures AdvanceLeaves(s, Fail(env, s, t, s.tasks.all[t].sid, s.tasks.all[t].message, e), t, false)
  {
    hide CodeFor, RequestId;
  }

  lemma PublishFrame(env: Env, s: State, t: TaskId, fail: bool)
    requires t in s.tasks.all && !s.tasks.all[t].stage.Replying?
    requires s.tasks.all[t].message.Frame? && s.tasks.all[t].message.frame.Publish?
    ensures AdvanceLeaves(s, AdvancePublish(env, s, t, s.tasks.all[t], fail), t, false)
  {
    hide Fail, Broker.Broadcast;
    FailKeepsRest(env, s, t, Denied);
    FailKeepsRest(env, s, t, Rejected);
    FailKeepsRest(env, s, t, BadChannel);
    FailKeepsRest(env, s, t, BrokerFailed);
  }

  lemma ConnectFrame(env: Env, s: State, t: TaskId)
    requires t in s.tasks.all && !s.tasks.all[t].stage.Replying?
    requires s.tasks.all[t].message.Frame? && s.tasks.all[t].message.frame.Connect?
    ensures AdvanceLeaves(s, AdvanceConnect(env, s, t, s.tasks.all[t]), t, false)
  {
    hide Fail, RequestId;
    FailKeepsRest(env, s, t, BadToken);
  }

  lemma UnsubscribeFrame(s: State, t: TaskId)
    requires t in s.tasks.all && !s.tasks.all[t].stage.Replying?
    requires s.tasks.all[t].message.Frame? && s.tasks.all[t].message.frame.Unsubscribe?
    ensures AdvanceLeaves(s, AdvanceUnsubscribe(s, t, s.tasks.all[t]), t, false)
  {
    hide RequestId;
  }

  lemma DeliverFrame(s: State, t: TaskId, reply: ServerFrame)
    requires t in s.tasks.all
    ensures AdvanceLeaves(s, Deliver(s, t, s.tasks.all[t].sid, reply), t, false)
  {
    hide OutboxOf;
  }

  lemma AdvanceFrame(env: Env, s: State, t: TaskId, fail: bool)
    requires t in s.tasks.all
    ensures AdvanceLeaves(s, AdvanceTask(env, s, t, s.tasks.all[t], fail), t, Inserts(s, s.tasks.all[t]))
  {
    hide AdvanceSubscribe, AdvancePublish, AdvanceConnect, AdvanceUnsubscribe, Deliver, OnlyTask;
    var k := s.tasks.all[t];
    if k.stage.Replying? {
      DeliverFrame(s, t, k.stage.reply);
    } else if k.message.Undecodable? {
      NothingMoves(s, t);
    } else {
      match k.message.frame
      case Subscribe(_, _, _) => SubscribeFrame(env, s, t, fail);
      case Unsubscribe(_, _) => UnsubscribeFrame(s, t);
      case Publish(_, _, _) => PublishFrame(env, s, t, fail);
      case Connect(_, _) => ConnectFrame(env, s, t);
    }
  }

  lemma NothingMoves(s: State, t: TaskId)
    requires t in s.tasks.all
    ensures AdvanceLeaves(s, s, t, false)
  {
  }

  /** The message is an unsubscribe that finds a subscription to remove. */
  predicate Removes(s: State, sid: SessionId, m: Message) {
    m.Frame? && m.frame.Unsubscribe? && sid in s.sessions.registered && m.frame.channel in HeldBy(s, sid)
  }

  /** A handler `t` for message `m` of `sid` began, and nothing else changed but what an unsubscribe removes. */
  predicate Begins(s: State, s': State, t: TaskId, sid: SessionId, m: Message) {
    && t in s'.tasks.all
    && s'.tasks.all == s.tasks.all[t := s'.tasks.all[t]]
    && s'.tasks.all[t].sid == sid && s'.tasks.all[t].message == m
    && (s'.tasks.all[t].stage.Replying? || s'.tasks.all[t].stage.Authenticating? || s'.tasks.all[t].stage.Gate?
        || s'.tasks.all[t].stage.Leaving?)
    && (s'.tasks.all[t].stage.Leaving? <==> Removes(s, sid, m))
    && s'.now == s.now && s'.outboxes == s.outboxes && s'.channels == s.channels && s'.subs == s.subs
    && s'.log == s.log && s'.hooks == s.hooks && s'.stale == s.stale && s'.talk.asked == s.talk.asked
    && s'.talk.standings == s.talk.standings
    && (!Removes(s, sid, m) ==> s'.sessions == s.sessions && s'.held == s.held && s'.broker == s.broker)
    && (Removes(s, sid, m) ==>
          var s1 := RemoveSubscription(s, sid, m.frame.channel);
          s'.sessions == s1.sessions && s'.held == s1.held && s'.broker == s1.broker)
  }

  lemma FailBegins(env: Env, s: State, t: TaskId, sid: SessionId, m: Message, e: HubError)
    requires !Removes(s, sid, m)
    ensures Begins(s, Fail(env, s, t, sid, m, e), t, sid, m)
  {
    hide CodeFor, RequestId, RemoveSubscription;
  }

  lemma GatedBegins(env: Env, s: State, t: TaskId, sid: SessionId, m: Message)
    requires !Removes(s, sid, m)
    ensures Begins(s, BeginGated(env, s, t, sid, m), t, sid, m)
    ensures Begins(s, BeginConnect(env, s, t, sid, m), t, sid, m)
  {
    hide Fail, RemoveSubscription;
    FailBegins(env, s, t, sid, m, NotConnected);
    FailBegins(env, s, t, sid, m, AlreadyConnected);
  }

  lemma RemoveBegins(s: State, t: TaskId, sid: SessionId, m: Message)
    requires Removes(s, sid, m)
    ensures Begins(s, Put(RemoveSubscription(s, sid, m.frame.channel), t, Task(sid, m, Leaving)), t, sid, m)
  {
    hide Registry.RemoveFrom, Broker.Detach;
  }

  lemma BeginFrame(env: Env, s: State, t: TaskId, sid: SessionId, m: Message)
    ensures Begins(s, Begin(env, s, t, sid, m), t, sid, m)
  {
    if m.Undecodable? {
      hide RemoveSubscription;
    } else {
      hide Fail, BeginGated, BeginConnect, RemoveSubscription, Begins;
      if Removes(s, sid, m) {
        RemoveBegins(s, t, sid, m);
      } else {
        FailBegins(env, s, t, sid, m, SessionGone);
        FailBegins(env, s, t, sid, m, NotSubscribed);
        GatedBegins(env, s, t, sid, m);
      }
    }
  }

  /** `u'` is `u` further on: what was fixed at attachment is unchanged. */
  predicate SameOrigin(u: Subscription, u': Subscription) {
    && u'.sid == u.sid && u'.channel == u.channel && u'.since == u.since && u'.claims == u.claims
    && u'.logAtAttach == u.logAtAttach && u'.attachedAt == u.attachedAt
  }

  /** A subscription the handler `k` makes when it attaches. */
  predicate NewSub(s: State, k: Task, u: Subscription) {
    && SubscribeInFlight(k, k.sid) && k.stage.Attaching?
    && u == Subscription(k.sid, k.message.frame.channel, k.message.frame.sinceOffset, k.stage.claims,
                         |LogOf(s, k.message.frame.channel)|, |BroadcastsOf(s, k.message.frame.channel)|,
                         None, [], 0, false, None, [], [], 0)
  }

  /** Old subscriptions keep their origin and what was forwarded; a new one is the handler's own. */
  predicate SubsFollow(s: State, s': State, k: Task) {
    && (forall sub :: sub in s.subs.all ==>
          && sub in s'.subs.all
          && SameOrigin(s.subs.all[sub], s'.subs.all[sub])
          && s'.subs.all[sub].hand == s.subs.all[sub].hand
          && s'.subs.all[sub].forwarded == s.subs.all[sub].forwarded
          && s'.subs.all[sub].picks == s.subs.all[sub].picks
          && s'.subs.all[sub].skipped == s.subs.all[sub].skipped)
    && (forall sub :: sub in s'.subs.all && sub !in s.subs.all ==>
          sub == s.subs.next && NewSub(s, k, s'.subs.all[sub]))
  }

  lemma SetSubFollows(s: State, s': State, k: Task, sub: SubId, u: Subscription)
    requires sub in s.subs.all && s'.subs == s.subs.(all := s.subs.all[sub := u])
    requires SameOrigin(s.subs.all[sub], u) && u.hand == s.subs.all[sub].hand && u.forwarded == s.subs.all[sub].forwarded
    requires u.picks == s.subs.all[sub].picks && u.skipped == s.subs.all[sub].skipped
    ensures SubsFollow(s, s', k)
  {
  }

  lemma AttachFollows(s: State, t: TaskId, k: Task)
    requires SubscribeInFlight(k, k.sid) && k.stage.Attaching? && s.subs.next !in s.subs.all
    ensures
      var f := k.message.frame;
      SubsFollow(s, AttachStream(s, t, k, k.stage.claims, k.stage.cursor, f.channel, f.sinceOffset), k)
  {
    hide Broker.Attach;
  }

  lemma SubscribeSubs(env: Env, s: State, t: TaskId, fail: bool)
    requires t in s.tasks.all && SubscribeInFlight(s.tasks.all[t], s.tasks.all[t].sid)
    requires s.subs.next !in s.subs.all
    ensures SubsFollow(s, AdvanceSubscribe(env, s, t, s.tasks.all[t], fail), s.tasks.all[t])
  {
    hide Broker.Attach, Broker.Detach, Registry.AddTo, CodeFor, RequestId, CursorOf, OutboxOf, AttachStream, SubsFollow;
    var k := s.tasks.all[t];
    var s' := AdvanceSubscribe(env, s, t, k, fail);
    if k.stage.Attaching? && !fail {
      AttachFollows(s, t, k);
    } else if s'.subs != s.subs {
      SetSubFollows(s, s', k, k.stage.sub, s'.subs.all[k.stage.sub]);
    } else {
      SameSubsFollow(s, s', k);
    }
  }

  lemma SameSubsFollow(s: State, s': State, k: Task)
    requires s'.subs == s.subs
    ensures SubsFollow(s, s', k)
  {
  }

  /** The session's frames are handled one at a time. */
  ghost predicate SerialAt(s: State, sid: SessionId) {
    forall t, t' :: t in s.tasks.all && t' in s.tasks.all && s.tasks.all[t].sid == s.tasks.all[t'].sid == sid ==> t == t'
  }

  /** In every state of the run. */
  ghost predicate SerialRunAt(env: Env, events: seq<Event>, sid: SessionId)
    decreases |events|
  {
    && SerialAt(Run(env, Init, events), sid)
    && (events != [] ==> SerialRunAt(env, events[..|events| - 1], sid))
  }
}
