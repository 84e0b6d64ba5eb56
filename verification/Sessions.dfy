/** Sessions and the registry that owns them, as they are updated in place. */
module Sessions {
  import opened Types
  import opened Registry

  /** Identity of a spawned forwarder. */
  type Forwarder = nat

  class Session {
    const id: SessionId
    var subscriptions: map<Channel, Forwarder>
    /** Forwarders this session has aborted. */
    var aborted: set<Forwarder>

    constructor (id: SessionId)
      ensures this.id == id && subscriptions == map[] && aborted == {}
    {
      this.id := id;
      subscriptions, aborted := map[], {};
    }

    /** At most one forwarder per channel: a second one is handed back. */
    method InsertSubscription(channel: Channel, forwarder: Forwarder) returns (r: Result<(), Forwarder>)
      modifies this`subscriptions
      ensures r == if channel in old(subscriptions) then Err(forwarder) else Ok(())
      ensures subscriptions == if r.Ok? then old(subscriptions)[channel := forwarder] else old(subscriptions)
    {
      if channel in subscriptions { return Err(forwarder); }
      subscriptions := subscriptions[channel := forwarder];
      r := Ok(());
    }

    method RemoveSubscription(channel: Channel) returns (r: Option<Forwarder>)
      modifies this`subscriptions
      ensures r == if channel in old(subscriptions) then Some(old(subscriptions)[channel]) else None
      ensures subscriptions == old(subscriptions) - {channel}
    {
      r := if channel in subscriptions then Some(subscriptions[channel]) else None;
      subscriptions := subscriptions - {channel};
    }

    /** No forwarder outlives the session: each one held is aborted, and none is held any more. */
    method AbortAll()
      modifies this
      ensures subscriptions == map[]
      ensures aborted == old(aborted) + old(subscriptions).Values
    {
      while subscriptions != map[]
        invariant subscriptions.Keys <= old(subscriptions).Keys
        invariant forall ch :: ch in subscriptions ==> subscriptions[ch] == old(subscriptions)[ch]
        invariant aborted >= old(aborted)
        invariant forall ch :: ch in old(subscriptions) && ch !in subscriptions ==> old(subscriptions)[ch] in aborted
        invariant forall f :: f in aborted ==> f in old(aborted) || f in old(subscriptions).Values
        decreases |subscriptions|
      {
        var ch :| ch in subscriptions;
        aborted := aborted + {subscriptions[ch]};
        ghost var before := subscriptions;
        subscriptions := subscriptions - {ch};
        assert subscriptions.Keys == before.Keys - {ch};
      }
    }
  }

  class SessionRegistry {
    var nextId: SessionId
    var sessions: map<SessionId, Session>
    var channels: Index

    ghost predicate Valid()
      reads this
    {
      && NoEmptyLists(channels)
      && (forall id :: id in sessions ==> id < nextId && sessions[id].id == id)
    }

    constructor ()
      ensures Valid() && sessions == map[] && channels == map[]
    {
      nextId, sessions, channels := 0, map[], map[];
    }

    /** Ids are handed out once and in order. */
    method NextId() returns (id: SessionId)
      requires Valid()
      modifies this`nextId
      ensures Valid() && id == old(nextId) && nextId == id + 1 && id !in sessions
    {
      id := nextId;
      nextId := nextId + 1;
    }

    method Register(session: Session)
      requires Valid() && session.id < nextId && session.id !in sessions
      modifies this`sessions
      ensures Valid() && sessions == old(sessions)[session.id := session]
    {
      sessions := sessions[session.id := session];
    }

    /** `Vec::retain` of every id but one. */
    method Retain(ids: seq<SessionId>, id: SessionId) returns (kept: seq<SessionId>)
      ensures kept == Without(ids, id)
    {
      kept := [];
      for i := 0 to |ids|
        invariant kept + Without(ids[i..], id) == Without(ids, id)
      {
        ghost var before, rest := kept, Without(ids[i + 1..], id);
        assert ids[i..][1..] == ids[i + 1..];
        assert Without(ids[i..], id) == (if ids[i] == id then [] else [ids[i]]) + rest;
        hide Without;
        if ids[i] != id { kept := kept + [ids[i]]; }
        assert kept + rest == before + Without(ids[i..], id);
      }
    }

    /** One pass over the index: the id is dropped everywhere, and so is every list that is then empty. */
    method ScrubIndex(id: SessionId)
      modifies this`channels
      ensures channels == Scrub(old(channels), id)
    {
      var todo := channels.Keys;
      while todo != {}
        invariant todo <= channels.Keys <= old(channels).Keys
        invariant forall ch :: ch in todo ==> channels[ch] == old(channels)[ch]
        invariant forall ch :: ch in old(channels) && ch !in todo ==>
          (ch in channels <==> Without(old(channels)[ch], id) != [])
        invariant forall ch :: ch in channels && ch !in todo ==> channels[ch] == Without(old(channels)[ch], id)
        decreases todo
      {
        var ch :| ch in todo;
        var kept := Retain(channels[ch], id);
        channels := if kept == [] then channels - {ch} else channels[ch := kept];
        todo := todo - {ch};
      }
    }

    /** Removes a session and every trace of it in the index; what other sessions have is untouched. */
    method Deregister(id: SessionId) returns (removed: Option<Session>)
      requires Valid()
      modifies this`sessions, this`channels
      ensures Valid()
      ensures removed == if id in old(sessions) then Some(old(sessions)[id]) else None
      ensures sessions == old(sessions) - {id}
      ensures removed.None? ==> channels == old(channels)
      ensures removed.Some? ==> forall ch, x ::
        Listed(channels, ch, x) == if x == id then 0 else Listed(old(channels), ch, x)
    {
      removed := if id in sessions then Some(sessions[id]) else None;
      sessions := sessions - {id};
      if removed.Some? {
        ScrubCounts(channels, id);
        ScrubIndex(id);
      }
    }

    method SubscribersOf(channel: Channel) returns (ids: seq<SessionId>)
      ensures forall x :: multiset(ids)[x] == Listed(channels, channel, x)
    {
      ids := if channel in channels then channels[channel] else [];
    }

    method AddSubscription(id: SessionId, channel: Channel)
      requires Valid()
      modifies this`channels
      ensures Valid()
      ensures forall ch, x ::
        Listed(channels, ch, x) == Listed(old(channels), ch, x) + if ch == channel && x == id then 1 else 0
    {
      AddToCounts(channels, id, channel);
      channels := channels[channel := Get(channels, channel, []) + [id]];
    }

    /** All of the id's entries for the channel go, and the list with them if it is then empty. */
    method RemoveSubscription(id: SessionId, channel: Channel)
      requires Valid()
      modifies this`channels
      ensures Valid()
      ensures forall ch, x ::
        Listed(channels, ch, x) == if ch == channel && x == id then 0 else Listed(old(channels), ch, x)
    {
      RemoveFromCounts(channels, id, channel);
      var emptied := false;
      if channel in channels {
        var kept := Retain(channels[channel], id);
        emptied := kept == [];
        channels := channels[channel := kept];
      }
      if emptied { channels := channels - {channel}; }
      assert channels == RemoveFrom(old(channels), id, channel);
    }
  }
}
