/** The in-process broker as it runs: bounded rings, overwritten in place. */
module MemoryBroker {
  import opened Types
  import B = Broker

  /** The next position to write is `tail`; position `p` lives in slot `p % |slots|`. */
  datatype Ring = Ring(slots: seq<Option<Publication>>, tail: nat)

  datatype Stream = Stream(topic: Channel, next: nat)

  /** The ring holds the last `cap` of everything sent. */
  ghost predicate Backs(cap: nat, ring: Ring, sent: seq<Publication>) {
    && cap >= 1
    && |ring.slots| == cap
    && ring.tail == |sent|
    && forall p :: 0 <= p < |sent| && |sent| - cap <= p ==> ring.slots[p % cap] == Some(sent[p])
  }

  lemma Multiple(cap: nat, d: int)
    ensures d >= 1 ==> cap * d >= cap
    ensures d <= 0 ==> cap * d <= 0
  {
    if d >= 1 { assert cap * d == cap + cap * (d - 1); }
  }

  /** Two positions share a slot only if they are a whole ring apart. */
  lemma SlotsApart(cap: nat, p: nat, tail: nat)
    requires cap >= 1 && p < tail
    ensures p % cap == tail % cap ==> tail - p >= cap
  {
    var q, r := p / cap, tail / cap;
    assert p == cap * q + p % cap && tail == cap * r + tail % cap;
    Multiple(cap, r - q);
    assert cap * r - cap * q == cap * (r - q);
  }

  lemma SendBacks(cap: nat, ring: Ring, sent: seq<Publication>, p: Publication)
    requires Backs(cap, ring, sent)
    ensures Backs(cap, Ring(ring.slots[ring.tail % cap := Some(p)], ring.tail + 1), sent + [p])
  {
    var slots, more := ring.slots[ring.tail % cap := Some(p)], sent + [p];
    forall i | 0 <= i < |more| && |more| - cap <= i ensures slots[i % cap] == Some(more[i]) {
      if i < |sent| { SlotsApart(cap, i, |sent|); }
    }
  }

  /** Ring sizes are powers of two: the least one not below the capacity asked for. */
  function RoundUp(n: nat, p: nat := 1): (r: nat)
    requires p >= 1
    ensures r >= n && r >= p
    decreases n - p
  {
    if p >= n then p else RoundUp(n, 2 * p)
  }

  ghost predicate TopicsBacked(cap: nat, topics: map<Channel, Ring>, sent: map<Channel, seq<Publication>>) {
    topics.Keys == sent.Keys && forall ch :: ch in topics ==> Backs(cap, topics[ch], sent[ch])
  }

  ghost predicate StreamsMatch(streams: map<B.ReceiverId, Stream>, receivers: map<B.ReceiverId, B.Receiver>, nextId: nat) {
    && streams.Keys == receivers.Keys
    && (forall id :: id in streams ==> id < nextId && streams[id] == Stream(receivers[id].topic, receivers[id].cursor))
  }

  lemma AttachMatches(cap: nat, topics: map<Channel, Ring>, streams: map<B.ReceiverId, Stream>, bs: B.BrokerState,
                      id: B.ReceiverId, topic: Channel)
    requires TopicsBacked(cap, topics, bs.topics) && StreamsMatch(streams, bs.receivers, id) && topic in topics
    ensures B.Attach(bs, id, topic).topics == bs.topics && id !in bs.receivers
    ensures StreamsMatch(streams[id := Stream(topic, topics[topic].tail)], B.Attach(bs, id, topic).receivers, id + 1)
  {
    assert Backs(cap, topics[topic], bs.topics[topic]);
    assert bs.topics[topic := bs.topics[topic]] == bs.topics;
  }

  lemma AttachAfterCreate(bs: B.BrokerState, id: B.ReceiverId, topic: Channel)
    requires topic !in bs.topics
    ensures B.Attach(bs, id, topic) == B.Attach(bs.(topics := bs.topics[topic := []]), id, topic)
  {
  }

  lemma FreshBacks(cap: nat)
    requires cap >= 1
    ensures Backs(cap, Ring(seq(cap, _ => None), 0), [])
  {
  }

  lemma CreateMatches(cap: nat, topics: map<Channel, Ring>, bs: B.BrokerState, topic: Channel)
    requires cap >= 1 && TopicsBacked(cap, topics, bs.topics) && topic !in topics
    ensures TopicsBacked(cap, topics[topic := Ring(seq(cap, _ => None), 0)], bs.topics[topic := []])
  {
    hide Backs;
    FreshBacks(cap);
  }

  lemma PublishMatches(cap: nat, topics: map<Channel, Ring>, bs: B.BrokerState, topic: Channel, p: Publication)
    requires cap >= 1 && TopicsBacked(cap, topics, bs.topics) && topic in topics && |topics[topic].slots| == cap
    ensures
      var ring := topics[topic];
      var ring' := Ring(ring.slots[ring.tail % cap := Some(p)], ring.tail + 1);
      TopicsBacked(cap, topics[topic := ring'], bs.topics[topic := bs.topics[topic] + [p]])
  {
    SendBacks(cap, topics[topic], bs.topics[topic], p);
    hide Backs;
  }

  /** The receiver's look at the ring is its look at the unbounded topic. */
  lemma PollMatches(cap: nat, topics: map<Channel, Ring>, streams: map<B.ReceiverId, Stream>, bs: B.BrokerState,
                    nextId: nat, id: B.ReceiverId)
    requires TopicsBacked(cap, topics, bs.topics) && StreamsMatch(streams, bs.receivers, nextId)
    requires B.Wf(bs) && id in bs.receivers
    ensures id in streams && streams[id].topic in topics
    ensures
      var next, ring, polled := streams[id].next, topics[streams[id].topic], B.Peek(cap, bs, id);
      && |ring.slots| == cap && next <= ring.tail
      && (polled.Pending? <==> next == ring.tail)
      && (polled.Lagged? <==> ring.tail - next > cap)
      && (polled.Lagged? ==> polled.count == ring.tail - cap - next)
      && (polled.Item? ==> ring.slots[next % cap] == Some(polled.publication))
  {
    assert Backs(cap, topics[streams[id].topic], bs.topics[streams[id].topic]);
  }

  lemma PollMoves(cap: nat, streams: map<B.ReceiverId, Stream>, bs: B.BrokerState, nextId: nat, id: B.ReceiverId, next: nat)
    requires StreamsMatch(streams, bs.receivers, nextId) && B.Wf(bs) && id in bs.receivers
    requires next == streams[id].next + B.Progress(B.Peek(cap, bs, id))
    ensures B.Poll(cap, bs, id).topics == bs.topics
    ensures B.Step(cap, bs, B.Polling(id)) == B.Poll(cap, bs, id)
    ensures StreamsMatch(streams[id := Stream(streams[id].topic, next)], B.Poll(cap, bs, id).receivers, nextId)
  {
    B.PollOne(cap, bs, id);
    hide B.Poll, B.Peek;
  }

  class MemoryBroker {
    const capacity: nat
    var topics: map<Channel, Ring>
    var streams: map<B.ReceiverId, Stream>
    var nextId: nat
    /** Publications subscribers were too slow for. */
    var dropped: nat

    /** The same broker with unbounded topics. */
    ghost var model: B.BrokerState

    ghost predicate Valid()
      reads this
    {
      && capacity >= 1
      && B.Wf(model)
      && TopicsBacked(capacity, topics, model.topics)
      && StreamsMatch(streams, model.receivers, nextId)
    }

    constructor (requested: nat)
      ensures Valid() && model == B.Empty && capacity == RoundUp(if requested < 1 then 1 else requested)
    {
      capacity := RoundUp(if requested < 1 then 1 else requested);
      topics, streams, nextId, dropped, model := map[], map[], 0, 0, B.Empty;
    }

    /** A new receiver starts at the tail of its topic, which it creates if need be. */
    method Subscribe(topic: Channel) returns (id: B.ReceiverId)
      requires Valid()
      modifies this
      ensures Valid() && id !in old(model).receivers && dropped == old(dropped)
      ensures model == B.Step(capacity, old(model), B.Subscribed(id, topic))
    {
      hide B.Wf, Backs;
      ghost var before := model;
      if topic !in topics {
        CreateMatches(capacity, topics, model, topic);
        topics := topics[topic := Ring(seq(capacity, _ => None), 0)];
        before := model.(topics := model.topics[topic := []]);
      }
      id, nextId := nextId, nextId + 1;
      AttachMatches(capacity, topics, streams, before, id, topic);
      streams := streams[id := Stream(topic, topics[topic].tail)];
      if topic !in model.topics { AttachAfterCreate(model, id, topic); }
      model := B.Step(capacity, model, B.Subscribed(id, topic));
    }

    /** Dropping a stream drops its receiver; the topic stays until a publish finds it without one. */
    method Drop(id: B.ReceiverId)
      requires Valid()
      modifies this
      ensures Valid() && dropped == old(dropped) && model == B.Step(capacity, old(model), B.Dropped(id))
    {
      streams := streams - {id};
      model := B.Detach(model, id);
    }

    predicate HasStream(topic: Channel)
      reads this
    {
      exists id <- streams :: streams[id].topic == topic
    }

    method Publish(topic: Channel, p: Publication)
      requires Valid()
      modifies this
      ensures Valid() && dropped == old(dropped) && model == B.Step(capacity, old(model), B.Sent(topic, p))
    {
      B.BroadcastWf(model, topic, p);
      if topic !in topics { return; }
      assert HasStream(topic) <==> B.HasReceiver(model, topic) by {
        forall id | id in streams ensures streams[id].topic == model.receivers[id].topic {}
      }
      if HasStream(topic) {
        var ring := topics[topic];
        PublishMatches(capacity, topics, model, topic, p);
        topics := topics[topic := Ring(ring.slots[ring.tail % capacity := Some(p)], ring.tail + 1)];
      } else {
        topics := topics - {topic};
      }
      model := B.Broadcast(model, topic, p);
    }

    /** One look at the ring: nothing new, a gap, or the publication at the receiver's position. */
    method Poll(id: B.ReceiverId) returns (r: B.Polled)
      requires Valid() && id in model.receivers
      modifies this
      ensures Valid() && dropped == old(dropped) && model == B.Step(capacity, old(model), B.Polling(id))
      ensures r == B.Peek(capacity, old(model), id)
    {
      hide B.Wf, B.Peek, B.Poll, B.Step, TopicsBacked, StreamsMatch;
      PollMatches(capacity, topics, streams, model, nextId, id);
      var Stream(topic, next) := streams[id];
      var ring := topics[topic];
      if next == ring.tail {
        r := B.Pending;
      } else if ring.tail - next > capacity {
        r := B.Lagged(ring.tail - capacity - next);
        next := ring.tail - capacity;
      } else {
        var Some(p) := ring.slots[next % capacity];
        r := B.Item(p);
        next := next + 1;
      }
      PollMoves(capacity, streams, model, nextId, id, next);
      streams := streams[id := Stream(topic, next)];
      model := B.Step(capacity, model, B.Polling(id));
    }

    /**
     * The subscriber's stream: gaps are counted and passed over, so the next item is the
     * oldest publication that is still in the ring.
     */
    method Next(id: B.ReceiverId) returns (r: Option<Publication>)
      requires Valid() && id in model.receivers
      modifies this
      ensures Valid() && id in model.receivers && model.topics == old(model).topics
      ensures
        var before, after := old(model).receivers[id], model.receivers[id];
        var sent := old(model).topics[before.topic];
        var at := before.cursor + B.Overwritten(capacity, before, sent);
        && (r.None? <==> before.cursor == |sent|)
        && (r.None? ==> model == old(model) && dropped == old(dropped))
        && (r.Some? ==>
              && at < |sent| && r.value == sent[at] && after.cursor == at + 1
              && after.picks == before.picks + [at]
              && dropped - old(dropped) == after.skipped - before.skipped == at - before.cursor)
    {
      hide B.Wf, B.Step, B.Peek, TopicsBacked, StreamsMatch;
      ghost var before := model;
      var polled := Poll(id);
      if polled.Lagged? {
        LagThenItem(capacity, before, id);
        dropped := dropped + polled.count;
        polled := Poll(id);
      } else {
        PollOnce(capacity, before, id);
      }
      r := match polled case Item(p) => Some(p) case _ => None;
    }
  }

  /** After a gap the next poll finds the oldest publication in the ring. */
  lemma LagThenItem(cap: nat, bs: B.BrokerState, id: B.ReceiverId)
    requires cap >= 1 && B.Wf(bs) && id in bs.receivers && B.Peek(cap, bs, id).Lagged?
    ensures
      var r, sent, bs1 := bs.receivers[id], bs.topics[bs.receivers[id].topic], B.Step(cap, bs, B.Polling(id));
      var at := r.cursor + B.Overwritten(cap, r, sent);
      && id in bs1.receivers
      && B.Peek(cap, bs, id).count == at - r.cursor
      && at < |sent| && B.Peek(cap, bs1, id) == B.Item(sent[at])
      && var bs2 := B.Step(cap, bs1, B.Polling(id));
      && bs2.topics == bs.topics
      && id in bs2.receivers
      && bs2.receivers[id] == r.(cursor := at + 1, picks := r.picks + [at], skipped := r.skipped + (at - r.cursor))
  {
  }

  lemma PollOnce(cap: nat, bs: B.BrokerState, id: B.ReceiverId)
    requires cap >= 1 && B.Wf(bs) && id in bs.receivers && !B.Peek(cap, bs, id).Lagged?
    ensures
      var r, sent, bs1 := bs.receivers[id], bs.topics[bs.receivers[id].topic], B.Step(cap, bs, B.Polling(id));
      && bs1.topics == bs.topics
      && id in bs1.receivers
      && B.Overwritten(cap, r, sent) == 0
      && (B.Peek(cap, bs, id).Pending? <==> r.cursor == |sent|)
      && (B.Peek(cap, bs, id).Pending? ==> bs1 == bs)
      && (B.Peek(cap, bs, id).Item? ==>
            && r.cursor < |sent| && B.Peek(cap, bs, id) == B.Item(sent[r.cursor])
            && bs1.receivers[id] == r.(cursor := r.cursor + 1, picks := r.picks + [r.cursor]))
  {
  }
}
