/**
 * The in-process broker: one broadcast topic per channel, created by the first
 * subscriber and reaped by a publish that finds no receiver. Here a topic is the
 * unbounded sequence of everything sent to it; a receiver more than `cap` behind
 * has lost the overwritten part and is told so by its next poll.
 */
module Broker {
  import opened Types

  type ReceiverId = nat

  /**
   * `start` is the topic length at attachment, `cursor` the next position to read,
   * `picks` the positions it was handed, `skipped` the count it lost to lag.
   */
  datatype Receiver = Receiver(topic: Channel, start: nat, cursor: nat, picks: seq<nat>, skipped: nat)

  datatype BrokerState = BrokerState(topics: map<Channel, seq<Publication>>, receivers: map<ReceiverId, Receiver>)

  datatype Polled = Pending | Lagged(count: nat) | Item(publication: Publication)

  const Empty := BrokerState(map[], map[])

  predicate HasReceiver(bs: BrokerState, ch: Channel) {
    exists id :: id in bs.receivers && bs.receivers[id].topic == ch
  }

  function Attach(bs: BrokerState, id: ReceiverId, ch: Channel): BrokerState {
    var sent := Get(bs.topics, ch, []);
    BrokerState(bs.topics[ch := sent], bs.receivers[id := Receiver(ch, |sent|, |sent|, [], 0)])
  }

  function Detach(bs: BrokerState, id: ReceiverId): BrokerState {
    bs.(receivers := bs.receivers - {id})
  }

  function Broadcast(bs: BrokerState, ch: Channel, p: Publication): BrokerState {
    if ch !in bs.topics then bs
    else if HasReceiver(bs, ch) then bs.(topics := bs.topics[ch := bs.topics[ch] + [p]])
    else bs.(topics := bs.topics - {ch})
  }

  /** The receiver's cursor lies on its topic. */
  predicate Readable(bs: BrokerState, id: ReceiverId)
    requires id in bs.receivers
  {
    var r := bs.receivers[id];
    r.topic in bs.topics && r.cursor <= |bs.topics[r.topic]|
  }

  /** What receiver `id` would get from the ring now. */
  function Peek(cap: nat, bs: BrokerState, id: ReceiverId): Polled
    requires id in bs.receivers && Readable(bs, id)
  {
    var r := bs.receivers[id];
    var sent := bs.topics[r.topic];
    if r.cursor == |sent| then Pending
    else if |sent| - r.cursor > cap then Lagged(|sent| - cap - r.cursor)
    else Item(sent[r.cursor])
  }

  function Poll(cap: nat, bs: BrokerState, id: ReceiverId): BrokerState
    requires id in bs.receivers && Readable(bs, id)
  {
    var r := bs.receivers[id];
    match Peek(cap, bs, id)
    case Pending => bs
    case Lagged(n) => bs.(receivers := bs.receivers[id := r.(cursor := r.cursor + n, skipped := r.skipped + n)])
    case Item(_) => bs.(receivers := bs.receivers[id := r.(cursor := r.cursor + 1, picks := r.picks + [r.cursor])])
  }

  /** One receiver's bookkeeping against the topic it reads. */
  predicate Consistent(r: Receiver, sent: seq<Publication>) {
    && r.start <= r.cursor <= |sent|
    && r.cursor - r.start == |r.picks| + r.skipped
    && (forall k :: 0 <= k < |r.picks| ==> r.start <= r.picks[k] < r.cursor)
    && (forall j, k :: 0 <= j < k < |r.picks| ==> r.picks[j] < r.picks[k])
  }

  /** A topic with a receiver exists, and every receiver's bookkeeping adds up. */
  predicate Wf(bs: BrokerState) {
    forall id :: id in bs.receivers ==>
      && bs.receivers[id].topic in bs.topics
      && Consistent(bs.receivers[id], bs.topics[bs.receivers[id].topic])
  }

  lemma AttachWf(bs: BrokerState, id: ReceiverId, ch: Channel)
    requires Wf(bs)
    ensures Wf(Attach(bs, id, ch))
    ensures Attach(bs, id, ch).receivers.Keys == bs.receivers.Keys + {id}
    ensures forall x :: x in bs.receivers && x != id ==> Attach(bs, id, ch).receivers[x] == bs.receivers[x]
    ensures Attach(bs, id, ch).receivers[id].topic == ch
  {
  }

  lemma BroadcastWf(bs: BrokerState, ch: Channel, p: Publication)
    requires Wf(bs)
    ensures Wf(Broadcast(bs, ch, p))
    ensures forall id :: id in bs.receivers && bs.receivers[id].topic == ch ==>
      ch in bs.topics && Broadcast(bs, ch, p).topics == bs.topics[ch := bs.topics[ch] + [p]]
  {
  }

  /** A topic outlives a publish if and only if someone listens to it, and then has the publication last; others are untouched. */
  lemma ReapsUnheard(bs: BrokerState, ch: Channel, p: Publication)
    ensures
      var bs' := Broadcast(bs, ch, p);
      && bs'.receivers == bs.receivers
      && (ch in bs'.topics <==> ch in bs.topics && exists id :: id in bs.receivers && bs.receivers[id].topic == ch)
      && (ch in bs'.topics ==> bs'.topics[ch] == bs.topics[ch] + [p])
      && (forall c :: c != ch ==> (c in bs'.topics <==> c in bs.topics) && (c in bs.topics ==> bs'.topics[c] == bs.topics[c]))
  {
  }

  lemma SkipConsistent(r: Receiver, sent: seq<Publication>, n: nat)
    requires Consistent(r, sent) && r.cursor + n <= |sent|
    ensures Consistent(r.(cursor := r.cursor + n, skipped := r.skipped + n), sent)
  {
  }

  lemma PickConsistent(r: Receiver, sent: seq<Publication>)
    requires Consistent(r, sent) && r.cursor < |sent|
    ensures Consistent(r.(cursor := r.cursor + 1, picks := r.picks + [r.cursor]), sent)
  {
  }

  /** How far a poll moves the receiver. */
  function Progress(polled: Polled): nat {
    match polled
    case Pending => 0
    case Lagged(n) => n
    case Item(_) => 1
  }

  /** A poll changes one receiver, consistently, if anything. */
  lemma PollOne(cap: nat, bs: BrokerState, id: ReceiverId)
    requires id in bs.receivers && Readable(bs, id) && Consistent(bs.receivers[id], bs.topics[bs.receivers[id].topic])
    ensures
      var r, bs' := bs.receivers[id], Poll(cap, bs, id);
      && id in bs'.receivers
      && bs' == bs.(receivers := bs.receivers[id := bs'.receivers[id]])
      && bs'.receivers[id].topic == r.topic && bs'.receivers[id].start == r.start
      && bs'.receivers[id].cursor == r.cursor + Progress(Peek(cap, bs, id))
      && Consistent(bs'.receivers[id], bs.topics[r.topic])
  {
    var r, polled := bs.receivers[id], Peek(cap, bs, id);
    hide Consistent;
    if polled.Lagged? { SkipConsistent(r, bs.topics[r.topic], polled.count); }
    if polled.Item? { PickConsistent(r, bs.topics[r.topic]); }
    assert bs.receivers[id := r] == bs.receivers;
  }

  lemma PollWf(cap: nat, bs: BrokerState, id: ReceiverId)
    requires Wf(bs) && id in bs.receivers
    ensures
      var bs' := Poll(cap, bs, id);
      && Wf(bs')
      && bs'.topics == bs.topics
      && bs'.receivers.Keys == bs.receivers.Keys
      && (forall x :: x in bs.receivers ==> bs'.receivers[x].topic == bs.receivers[x].topic)
  {
    PollOne(cap, bs, id);
    hide Poll, Peek;
  }


  // --------------------------------------------------------------------
  // Whole runs
  // --------------------------------------------------------------------

  datatype Event =
    | Subscribed(id: ReceiverId, topic: Channel)
    | Dropped(id: ReceiverId)
    | Sent(topic: Channel, publication: Publication)
    | Polling(id: ReceiverId)

  function Step(cap: nat, bs: BrokerState, e: Event): (bs': BrokerState)
    requires Wf(bs)
    ensures Wf(bs')
  {
    match e
    case Subscribed(id, ch) => if id in bs.receivers then bs else Attach(bs, id, ch)
    case Dropped(id) => Detach(bs, id)
    case Sent(ch, p) => BroadcastWf(bs, ch, p); Broadcast(bs, ch, p)
    case Polling(id) => if id in bs.receivers then Poll(cap, bs, id) else bs
  }

  function Run(cap: nat, bs: BrokerState, events: seq<Event>): (bs': BrokerState)
    requires Wf(bs)
    ensures Wf(bs')
    decreases |events|
  {
    if events == [] then bs else Step(cap, Run(cap, bs, events[..|events| - 1]), events[|events| - 1])
  }

  /** Every publication sent to `ch` during `events`, read off the events alone. */
  function SentTo(events: seq<Event>, ch: Channel): seq<Publication> {
    if events == [] then []
    else
      SentTo(events[..|events| - 1], ch) +
      match events[|events| - 1] {
        case Sent(c, p) => if c == ch then [p] else []
        case _ => []
      }
  }

  /** Publications the ring has overwritten before the receiver came to them; its next poll tells it. */
  function Overwritten(cap: nat, r: Receiver, sent: seq<Publication>): int {
    if |sent| - r.cursor > cap then |sent| - r.cursor - cap else 0
  }

  /** Publications in the ring that still wait for the receiver. */
  function Waiting(cap: nat, r: Receiver, sent: seq<Publication>): int {
    if |sent| - r.cursor > cap then cap else |sent| - r.cursor
  }

  /** Receiver `id` against the publications `sent` to its topic since it attached at `base`. */
  ghost predicate Conserved(cap: nat, bs: BrokerState, id: ReceiverId, ch: Channel,
                            base: seq<Publication>, sent: seq<Publication>) {
    && id in bs.receivers
    && ch in bs.topics
    && bs.topics[ch] == base + sent
    && var r := bs.receivers[id];
    && r.topic == ch
    && r.start == |base|
    && |sent| == |r.picks| + (r.skipped + Overwritten(cap, r, bs.topics[ch])) + Waiting(cap, r, bs.topics[ch])
    && 0 <= Waiting(cap, r, bs.topics[ch]) <= cap
    && Consistent(r, bs.topics[ch])
  }

  lemma SentConserves(cap: nat, bs: BrokerState, id: ReceiverId, ch: Channel, base: seq<Publication>, sent: seq<Publication>,
                      c: Channel, p: Publication)
    requires Wf(bs) && Conserved(cap, bs, id, ch, base, sent)
    ensures Conserved(cap, Broadcast(bs, c, p), id, ch, base, if c == ch then sent + [p] else sent)
  {
    BroadcastWf(bs, c, p);
    assert HasReceiver(bs, ch);
    if c == ch { assert base + sent + [p] == base + (sent + [p]); }
  }

  lemma PollConserves(cap: nat, bs: BrokerState, id: ReceiverId, ch: Channel, base: seq<Publication>, sent: seq<Publication>,
                      x: ReceiverId)
    requires Wf(bs) && Conserved(cap, bs, id, ch, base, sent) && x in bs.receivers
    ensures Conserved(cap, Poll(cap, bs, x), id, ch, base, sent)
  {
    PollOne(cap, bs, x);
    hide Poll, Peek, Wf;
  }

  lemma ConservedStep(cap: nat, bs: BrokerState, e: Event, id: ReceiverId, ch: Channel,
                      base: seq<Publication>, sent: seq<Publication>)
    requires Wf(bs) && Conserved(cap, bs, id, ch, base, sent) && e != Dropped(id)
    ensures Conserved(cap, Step(cap, bs, e), id, ch, base,
                      if e.Sent? && e.topic == ch then sent + [e.publication] else sent)
  {
    match e
    case Sent(c, p) =>
      hide Conserved, Broadcast;
      SentConserves(cap, bs, id, ch, base, sent, c, p);
    case Polling(x) =>
      hide Conserved, Poll, Peek;
      if x in bs.receivers { PollConserves(cap, bs, id, ch, base, sent, x); }
    case _ => hide Peek, Broadcast, Poll;
  }

  lemma AttachConserves(cap: nat, bs: BrokerState, id: ReceiverId, ch: Channel)
    requires Wf(bs) && id !in bs.receivers
    ensures Wf(Attach(bs, id, ch)) && Conserved(cap, Attach(bs, id, ch), id, ch, Get(bs.topics, ch, []), [])
  {
    AttachWf(bs, id, ch);
    assert Get(bs.topics, ch, []) + [] == Get(bs.topics, ch, []);
  }

  /**
   * A receiver that attaches and is not dropped: the publications sent to its
   * topic from then on are what it was handed plus what it lost plus the at most
   * `cap` that still wait; what it was handed is a subsequence of them in send order; and
   * its topic is never reaped, whatever the other receivers and senders do.
   */
  lemma {:induction false} Conservation(cap: nat, bs: BrokerState, id: ReceiverId, ch: Channel, events: seq<Event>)
    requires Wf(bs) && id !in bs.receivers
    requires Dropped(id) !in events
    ensures Conserved(cap, Run(cap, Attach(bs, id, ch), events), id, ch, Get(bs.topics, ch, []), SentTo(events, ch))
    decreases |events|
  {
    hide Step, Conserved, Wf, Attach;
    AttachConserves(cap, bs, id, ch);
    if events != [] {
      var init, last := events[..|events| - 1], events[|events| - 1];
      assert forall e :: e in init ==> e in events;
      Conservation(cap, bs, id, ch, init);
      ConservedStep(cap, Run(cap, Attach(bs, id, ch), init), last, id, ch, Get(bs.topics, ch, []), SentTo(init, ch));
      assert SentTo(init, ch) + [] == SentTo(init, ch);
    }
  }
}
