/** The pub/sub channel kind: one history ring per channel, created by the first publish. */
module PubSub {
  import opened Types
  import opened History

  const EPOCH: nat := 1

  datatype ChannelCursor = ChannelCursor(epoch: nat, offset: nat)

  datatype ChannelError = InvalidChannel(channel: Channel)

  /** The channel's ring against everything it ever accepted; sharper while the clock has not gone back. */
  ghost predicate Agrees(b: Bounds, cs: ChannelState, log: seq<Record>, now: nat, steady: bool, first: nat) {
    Suffix(b, cs, log, first) && (steady ==> Tracks(b, cs, log, now, first))
  }

  class PubSubChannel {
    const bounds: Bounds
    var state: map<Channel, ChannelState>

    /** Every publication accepted so far, by channel. */
    ghost var log: map<Channel, seq<Record>>
    /** The latest clock reading, and whether readings never went back. */
    ghost var clock: nat
    ghost var steady: bool
    /** Where in its log each channel's ring begins. */
    ghost var first: map<Channel, nat>

    ghost predicate Valid()
      reads this
    {
      && bounds.size >= 1
      && state.Keys == log.Keys == first.Keys
      && forall ch :: ch in state ==> Agrees(bounds, state[ch], log[ch], clock, steady, first[ch])
    }

    /** The size bound is at least 1. */
    constructor (historySize: nat, historyTtl: nat)
      ensures Valid() && log == map[] && steady && clock == 0
      ensures bounds == Bounds(if historySize < 1 then 1 else historySize, historyTtl)
    {
      bounds := Bounds(if historySize < 1 then 1 else historySize, historyTtl);
      state, log, clock, steady, first := map[], map[], 0, true, map[];
    }

    method EvictExpired(entries: seq<Entry>, now: nat) returns (kept: seq<Entry>)
      ensures kept == Evict(entries, now, bounds.ttl)
    {
      kept := entries;
      while kept != []
        invariant Evict(kept, now, bounds.ttl) == Evict(entries, now, bounds.ttl)
        decreases |kept|
      {
        if Age(now, kept[0].at) > bounds.ttl { kept := kept[1..]; } else { break; }
      }
    }

    method Cursor(channel: Channel) returns (c: ChannelCursor)
      requires Valid()
      ensures c.epoch == 1
      ensures c.offset == if channel in log then Newest(|log[channel]|) else 0
    {
      if channel !in state { return ChannelCursor(EPOCH, 0); }
      assert Agrees(bounds, state[channel], log[channel], clock, steady, first[channel]);
      var next := state[channel].next;
      c := ChannelCursor(EPOCH, if next == 0 then 0 else next - 1);
    }

    method OnSubscribe(channel: Channel) returns (r: Result<ChannelCursor, ChannelError>)
      requires Valid()
      ensures channel == [] ==> r == Err(InvalidChannel(channel))
      ensures channel != [] ==> r.Ok? && r.value.epoch == 1
      ensures channel != [] ==>
                r.value.offset == if channel in log then Newest(|log[channel]|) else 0
    {
      if channel == [] { return Err(InvalidChannel(channel)); }
      var c := Cursor(channel);
      r := Ok(c);
    }

    /** What a clock reading does to what is known of every channel. */
    ghost method Read(now: nat)
      requires Valid()
      modifies this`clock, this`steady
      ensures Valid() && clock == now && steady == (old(steady) && old(clock) <= now)
    {
      hide Agrees;
      forall ch | ch in state ensures Agrees(bounds, state[ch], log[ch], now, steady && clock <= now, first[ch]) {
        TickAgrees(bounds, state[ch], log[ch], clock, now, steady, first[ch]);
      }
      clock, steady := now, steady && clock <= now;
    }

    method Store(channel: Channel, cs: ChannelState, ghost records: seq<Record>, ghost start: nat)
      requires Valid() && Agrees(bounds, cs, records, clock, steady, start)
      modifies this`state, this`log, this`first
      ensures Valid() && state == old(state)[channel := cs] && log == old(log)[channel := records]
    {
      hide Agrees;
      state, log, first := state[channel := cs], log[channel := records], first[channel := start];
    }

    /** Creates the channel's ring if there is none yet. */
    method Touch(channel: Channel)
      requires Valid()
      modifies this`state, this`log, this`first
      ensures Valid() && channel in state
      ensures log == old(log)[channel := Get(old(log), channel, [])]
    {
      hide Agrees;
      if channel !in state {
        FreshAgrees(bounds, clock, steady);
        Store(channel, Fresh, [], 0);
      }
    }

    method TrimToSize(entries: seq<Entry>) returns (kept: seq<Entry>)
      ensures kept == Trim(entries, bounds.size)
    {
      kept := entries;
      while |kept| > bounds.size
        invariant Trim(kept, bounds.size) == Trim(entries, bounds.size)
        decreases |kept|
      {
        kept := kept[1..];
      }
    }

    /** Evicts, pushes the new entry with the next offset, and trims. */
    method Grow(cs: ChannelState, now: nat, data: Bytes) returns (grown: ChannelState)
      ensures grown == Append(bounds, cs, now, data)
    {
      hide Evict, Trim;
      var entries := EvictExpired(cs.entries, now);
      var next := if cs.next < U64_MAX then cs.next + 1 else U64_MAX;
      entries := TrimToSize(entries + [Entry(now, cs.next, data)]);
      grown := ChannelState(next, entries);
    }

    /** An accepted publication is appended to its channel's log and carries the log's length as its offset. */
    method OnPublish(channel: Channel, now: nat, data: Bytes) returns (r: Result<Publication, ChannelError>)
      requires Valid()
      modifies this
      ensures Valid()
      ensures channel == [] ==> r == Err(InvalidChannel(channel)) && log == old(log) && state == old(state)
      ensures channel != [] ==>
                && r == Ok(Publication(channel, OffsetOf(|Get(old(log), channel, [])|), data))
                && log == old(log)[channel := Get(old(log), channel, []) + [Record(now, data)]]
                && clock == now && steady == (old(steady) && old(clock) <= now)
    {
      hide Agrees, Append, OffsetOf;
      if channel == [] { return Err(InvalidChannel(channel)); }
      Read(now);
      Touch(channel);
      var cs := state[channel];
      ghost var records := log[channel];
      var grown := Grow(cs, now, data);
      OffsetAgrees(bounds, cs, records, now, steady, first[channel]);
      ghost var start := AppendAgrees(bounds, cs, records, first[channel], now, steady, data);
      hide Valid;
      Store(channel, grown, records + [Record(now, data)], start);
      UpdateTwice(old(log), channel, records, records + [Record(now, data)]);
      r := Ok(Publication(channel, cs.next, data));
    }

    method FilterSince(channel: Channel, entries: seq<Entry>, since: nat) returns (out: seq<Publication>)
      ensures out == Since(channel, entries, since)
    {
      out := [];
      var i := 0;
      while i < |entries|
        invariant 0 <= i <= |entries|
        invariant out + Since(channel, entries[i..], since) == Since(channel, entries, since)
      {
        ghost var before, rest := out, Since(channel, entries[i + 1..], since);
        SinceStep(channel, entries, since, i);
        hide Since;
        if entries[i].offset > since {
          out := out + [Publication(channel, entries[i].offset, entries[i].data)];
        }
        assert out + rest == before + Since(channel, entries[i..], since);
        i := i + 1;
      }
    }

    /** Replays what the bounds keep past `since`; with an unsteady clock, still an unbroken tail of the log. */
    method ReplaySince(channel: Channel, now: nat, since: nat) returns (out: seq<Publication>)
      requires Valid()
      modifies this
      ensures Valid() && log == old(log)
      ensures channel !in log ==> out == []
      ensures channel in log ==>
                && (old(steady) && old(clock) <= now ==> out == LogReplay(bounds, channel, log[channel], now, since))
                && exists i :: 0 <= i <= |log[channel]| && out == Publications(channel, log[channel], i)
    {
      hide Agrees, Evict, Since, LogReplay;
      if channel !in state { return []; }
      Read(now);
      ghost var cs := state[channel];
      var entries := EvictExpired(state[channel].entries, now);
      ReplayAgrees(bounds, channel, cs, log[channel], first[channel], now, steady, since);
      ghost var start := ExpireAgrees(bounds, cs, log[channel], first[channel], now, steady);
      assert state[channel].(entries := entries) == Expire(bounds, cs, now);
      Store(channel, state[channel].(entries := entries), log[channel], start);
      out := FilterSince(channel, entries, since);
    }
  }

  lemma UpdateTwice<K, V>(m: map<K, V>, k: K, a: V, b: V)
    ensures m[k := a][k := b] == m[k := b]
  {
  }

  lemma SinceStep(ch: Channel, entries: seq<Entry>, since: nat, i: nat)
    requires i < |entries|
    ensures Since(ch, entries[i..], since)
         == (if entries[i].offset > since then [Publication(ch, entries[i].offset, entries[i].data)] else [])
            + Since(ch, entries[i + 1..], since)
  {
    assert entries[i..][1..] == entries[i + 1..];
  }

  lemma TickAgrees(b: Bounds, cs: ChannelState, log: seq<Record>, before: nat, now: nat, steady: bool, first: nat)
    requires Agrees(b, cs, log, before, steady, first)
    ensures Agrees(b, cs, log, now, steady && before <= now, first)
  {
    if steady && before <= now { TickTracks(b, cs, log, before, now, first); }
  }

  lemma FreshAgrees(b: Bounds, now: nat, steady: bool)
    ensures Agrees(b, Fresh, [], now, steady, 0)
  {
    assert Entries([], 0) == [];
  }

  lemma OffsetAgrees(b: Bounds, cs: ChannelState, log: seq<Record>, now: nat, steady: bool, first: nat)
    requires Agrees(b, cs, log, now, steady, first)
    ensures cs.next == OffsetOf(|log|)
  {
  }

  lemma AppendAgrees(b: Bounds, cs: ChannelState, log: seq<Record>, first: nat, now: nat, steady: bool, data: Bytes)
    returns (first': nat)
    requires b.size >= 1 && Agrees(b, cs, log, now, steady, first)
    ensures Agrees(b, Append(b, cs, now, data), log + [Record(now, data)], now, steady, first')
  {
    if steady {
      first' := AppendTracks(b, cs, log, now, now, first, data);
    } else {
      first' := AppendSuffix(b, cs, log, first, now, data);
    }
  }

  lemma ExpireAgrees(b: Bounds, cs: ChannelState, log: seq<Record>, first: nat, now: nat, steady: bool)
    returns (first': nat)
    requires Agrees(b, cs, log, now, steady, first)
    ensures Agrees(b, Expire(b, cs, now), log, now, steady, first')
  {
    if steady {
      first' := ExpireTracks(b, cs, log, now, now, first);
    } else {
      first' := ExpireSuffix(b, cs, log, first, now);
    }
  }

  lemma ReplayAgrees(b: Bounds, ch: Channel, cs: ChannelState, log: seq<Record>, first: nat, now: nat, steady: bool,
                     since: nat)
    requires Agrees(b, cs, log, now, steady, first)
    ensures var out := Since(ch, Expire(b, cs, now).entries, since);
            && (steady ==> out == LogReplay(b, ch, log, now, since))
            && exists i :: 0 <= i <= |log| && out == Publications(ch, log, i)
  {
    if steady {
      var first' := ExpireTracks(b, cs, log, now, now, first);
      var from := SinceOfSuffix(ch, log, first', since);
      LogReplayIsSuffix(b, ch, log, now, since, first', from, 0);
    } else {
      var first' := ExpireSuffix(b, cs, log, first, now);
      var from := SinceOfSuffix(ch, log, first', since);
    }
  }
}
