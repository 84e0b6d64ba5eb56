/**
 * The per-channel history ring of the pub/sub channel kind: entries are evicted
 * by age and by count, offsets saturate at 2^64-1. Everything is compared with
 * the unbounded log of all publications the channel ever accepted.
 */
module History {
  import opened Types

  /** `size` is the count bound after clamping to at least 1, `ttl` the age bound. */
  datatype Bounds = Bounds(size: nat, ttl: nat)

  datatype Entry = Entry(at: nat, offset: nat, data: Bytes)

  datatype ChannelState = ChannelState(next: nat, entries: seq<Entry>)

  const Fresh := ChannelState(0, [])

  /** `u64::saturating_add(1)`. */
  function SaturatingSucc(n: nat): nat {
    if n < U64_MAX then n + 1 else U64_MAX
  }

  /** `Instant::saturating_duration_since`. */
  function Age(now: nat, at: nat): nat {
    if at <= now then now - at else 0
  }

  /** Drops entries from the front while they are older than `ttl`. */
  function Evict(entries: seq<Entry>, now: nat, ttl: nat): seq<Entry> {
    if entries != [] && Age(now, entries[0].at) > ttl then Evict(entries[1..], now, ttl) else entries
  }

  /** Drops entries from the front until at most `size` remain. */
  function Trim(entries: seq<Entry>, size: nat): seq<Entry> {
    if |entries| > size then entries[|entries| - size..] else entries
  }

  function Append(b: Bounds, cs: ChannelState, now: nat, data: Bytes): ChannelState {
    ChannelState(SaturatingSucc(cs.next),
                 Trim(Evict(cs.entries, now, b.ttl) + [Entry(now, cs.next, data)], b.size))
  }

  function Expire(b: Bounds, cs: ChannelState, now: nat): ChannelState {
    cs.(entries := Evict(cs.entries, now, b.ttl))
  }

  /** The retained publications with an offset above `since`, oldest first. */
  function Since(ch: Channel, entries: seq<Entry>, since: nat): seq<Publication> {
    if entries == [] then []
    else (if entries[0].offset > since then [Publication(ch, entries[0].offset, entries[0].data)] else [])
         + Since(ch, entries[1..], since)
  }

  // --------------------------------------------------------------------
  // The reference: an unbounded log
  // --------------------------------------------------------------------

  /** One accepted publication: when it was accepted and its payload. */
  datatype Record = Record(at: nat, data: Bytes)

  /** The offset the `i`-th publication carries. */
  function OffsetOf(i: nat): nat {
    if i <= U64_MAX then i else U64_MAX
  }

  /** The position reported for a channel that accepted `n` publications: one less than the next offset. */
  function Newest(n: nat): nat {
    if n == 0 then 0 else OffsetOf(n) - 1
  }

  function EntryOf(log: seq<Record>, i: nat): Entry
    requires i < |log|
  {
    Entry(log[i].at, OffsetOf(i), log[i].data)
  }

  function PublicationOf(ch: Channel, log: seq<Record>, i: nat): Publication
    requires i < |log|
  {
    Publication(ch, OffsetOf(i), log[i].data)
  }

  /** What the bounds let the channel keep: recent enough by count and by age. */
  predicate Keeps(b: Bounds, log: seq<Record>, now: nat, i: nat)
    requires i < |log|
  {
    |log| - b.size <= i && now <= log[i].at + b.ttl
  }

  /** Answer to "replay since `since`" read off the whole log, from index `i` on. */
  function LogReplay(b: Bounds, ch: Channel, log: seq<Record>, now: nat, since: nat, i: nat := 0): seq<Publication>
    requires i <= |log|
    decreases |log| - i
  {
    if i == |log| then []
    else (if Keeps(b, log, now, i) && OffsetOf(i) > since then [PublicationOf(ch, log, i)] else [])
         + LogReplay(b, ch, log, now, since, i + 1)
  }

  /** `log[i..]` as history entries. */
  function Entries(log: seq<Record>, i: nat): (es: seq<Entry>)
    requires i <= |log|
    ensures |es| == |log| - i
    ensures forall k :: 0 <= k < |es| ==> es[k] == EntryOf(log, i + k)
  {
    seq(|log| - i, k requires 0 <= k < |log| - i => EntryOf(log, i + k))
  }

  /** `log[i..]` as publications. */
  function Publications(ch: Channel, log: seq<Record>, i: nat): (ps: seq<Publication>)
    requires i <= |log|
    ensures |ps| == |log| - i
    ensures forall k :: 0 <= k < |ps| ==> ps[k] == PublicationOf(ch, log, i + k)
  {
    seq(|log| - i, k requires 0 <= k < |log| - i => PublicationOf(ch, log, i + k))
  }

  /** The ring holds exactly the log from index `first` on; whatever the clock did. */
  ghost predicate Suffix(b: Bounds, cs: ChannelState, log: seq<Record>, first: nat) {
    && first <= |log|
    && |log| - first <= b.size
    && cs.next == OffsetOf(|log|)
    && cs.entries == Entries(log, first)
  }

  /** The clock read by successive publishes never goes back. */
  predicate Monotone(log: seq<Record>, now: nat) {
    && (forall i, j :: 0 <= i < j < |log| ==> log[i].at <= log[j].at)
    && (forall i :: 0 <= i < |log| ==> log[i].at <= now)
  }

  /** A suffix from which only entries the bounds reject have gone. */
  ghost predicate Tracks(b: Bounds, cs: ChannelState, log: seq<Record>, now: nat, first: nat) {
    && Suffix(b, cs, log, first)
    && Monotone(log, now)
    && (forall i :: 0 <= i < first ==> !Keeps(b, log, now, i))
  }

  // --------------------------------------------------------------------
  // Each operation keeps the relation to the log
  // --------------------------------------------------------------------

  /** Eviction removes a prefix, all of it expired; what then leads is not expired. */
  lemma {:induction false} EvictIsDrop(entries: seq<Entry>, now: nat, ttl: nat) returns (n: nat)
    ensures n <= |entries| && Evict(entries, now, ttl) == entries[n..]
    ensures forall k :: 0 <= k < n ==> Age(now, entries[k].at) > ttl
    ensures n < |entries| ==> Age(now, entries[n].at) <= ttl
  {
    if entries != [] && Age(now, entries[0].at) > ttl {
      var m := EvictIsDrop(entries[1..], now, ttl);
      n := m + 1;
      assert entries[1..][m..] == entries[n..];
      forall k | 0 <= k < n ensures Age(now, entries[k].at) > ttl {
        assert k > 0 ==> entries[k] == entries[1..][k - 1];
      }
    } else {
      n := 0;
    }
  }

  lemma AppendSuffix(b: Bounds, cs: ChannelState, log: seq<Record>, first: nat, now: nat, data: Bytes)
    returns (first': nat)
    requires b.size >= 1 && Suffix(b, cs, log, first)
    ensures Suffix(b, Append(b, cs, now, data), log + [Record(now, data)], first')
    ensures first <= first'
    ensures forall i :: first <= i < first' ==>
      i < |log| && (Age(now, log[i].at) > b.ttl || i < |log| + 1 - b.size)
  {
    var n := EvictIsDrop(cs.entries, now, b.ttl);
    var log' := log + [Record(now, data)];
    var grown := cs.entries[n..] + [Entry(now, cs.next, data)];
    assert grown == Entries(log', first + n);
    first' := if |grown| > b.size then first + n + |grown| - b.size else first + n;
    assert Trim(grown, b.size) == Entries(log', first');
    forall i | first <= i < first' ensures i < |log| && (Age(now, log[i].at) > b.ttl || i < |log| + 1 - b.size) {
      if i < first + n { assert cs.entries[i - first] == EntryOf(log, i); }
    }
  }

  lemma ExpireSuffix(b: Bounds, cs: ChannelState, log: seq<Record>, first: nat, now: nat) returns (first': nat)
    requires Suffix(b, cs, log, first)
    ensures Suffix(b, Expire(b, cs, now), log, first')
    ensures first <= first'
    ensures forall i :: first <= i < first' ==> i < |log| && Age(now, log[i].at) > b.ttl
    ensures first' < |log| ==> Age(now, log[first'].at) <= b.ttl
  {
    var n := EvictIsDrop(cs.entries, now, b.ttl);
    first' := first + n;
    assert cs.entries[n..] == Entries(log, first');
    forall i | first <= i < first' ensures i < |log| && Age(now, log[i].at) > b.ttl {
      assert cs.entries[i - first] == EntryOf(log, i);
    }
    if first' < |log| { assert cs.entries[n] == EntryOf(log, first'); }
  }

  lemma AppendTracks(b: Bounds, cs: ChannelState, log: seq<Record>, before: nat, now: nat, first: nat, data: Bytes)
    returns (first': nat)
    requires b.size >= 1 && Tracks(b, cs, log, before, first) && before <= now
    ensures Tracks(b, Append(b, cs, now, data), log + [Record(now, data)], now, first')
  {
    first' := AppendSuffix(b, cs, log, first, now, data);
    var log' := log + [Record(now, data)];
    forall i | 0 <= i < first' ensures !Keeps(b, log', now, i) {
      if i < first { assert !Keeps(b, log, before, i); }
    }
  }

  lemma ExpireTracks(b: Bounds, cs: ChannelState, log: seq<Record>, before: nat, now: nat, first: nat)
    returns (first': nat)
    requires Tracks(b, cs, log, before, first) && before <= now
    ensures Tracks(b, Expire(b, cs, now), log, now, first')
    ensures forall i :: 0 <= i < |log| ==> (Keeps(b, log, now, i) <==> first' <= i)
  {
    first' := ExpireSuffix(b, cs, log, first, now);
    forall i | 0 <= i < |log| ensures Keeps(b, log, now, i) <==> first' <= i {
      if i < first { assert !Keeps(b, log, before, i); }
    }
  }

  lemma TickTracks(b: Bounds, cs: ChannelState, log: seq<Record>, before: nat, now: nat, first: nat)
    requires Tracks(b, cs, log, before, first) && before <= now
    ensures Tracks(b, cs, log, now, first)
  {
    forall i | 0 <= i < first ensures !Keeps(b, log, now, i) {
      assert !Keeps(b, log, before, i);
    }
  }

  // --------------------------------------------------------------------
  // Replay
  // --------------------------------------------------------------------

  /** Filtering a suffix of the log by offset leaves a suffix of the log. */
  lemma {:induction false} SinceOfSuffix(ch: Channel, log: seq<Record>, first: nat, since: nat) returns (from: nat)
    requires first <= |log|
    ensures first <= from <= |log|
    ensures Since(ch, Entries(log, first), since) == Publications(ch, log, from)
    ensures forall i :: first <= i < |log| ==> (OffsetOf(i) > since <==> from <= i)
    decreases |log| - first
  {
    if first == |log| {
      from := first;
    } else {
      assert Entries(log, first)[1..] == Entries(log, first + 1);
      from := SinceOfSuffix(ch, log, first + 1, since);
      if OffsetOf(first) > since {
        assert from <= first + 1 by { assert first + 1 < |log| ==> OffsetOf(first + 1) > since; }
        from := first;
        assert Publications(ch, log, first) == [PublicationOf(ch, log, first)] + Publications(ch, log, first + 1);
      }
    }
  }

  /** A log whose kept indices are those from `first` on replays its suffix. */
  lemma {:induction false} LogReplayIsSuffix(b: Bounds, ch: Channel, log: seq<Record>, now: nat, since: nat,
                                             first: nat, from: nat, i: nat)
    requires first <= from <= |log| && i <= |log|
    requires forall k :: 0 <= k < |log| ==> (Keeps(b, log, now, k) <==> first <= k)
    requires forall k :: first <= k < |log| ==> (OffsetOf(k) > since <==> from <= k)
    ensures LogReplay(b, ch, log, now, since, i) == Publications(ch, log, if i <= from then from else i)
    decreases |log| - i
  {
    if i < |log| {
      LogReplayIsSuffix(b, ch, log, now, since, first, from, i + 1);
      if from <= i {
        assert Publications(ch, log, i) == [PublicationOf(ch, log, i)] + Publications(ch, log, i + 1);
      }
    }
  }

  /**
   * The bounded ring answers replay exactly as the full log does, and the answer
   * is one unbroken run of the log ending with its newest publication: anything
   * lost shows only as a first offset above `since + 1`.
   */
  lemma ReplayRefinesLog(b: Bounds, ch: Channel, cs: ChannelState, log: seq<Record>, before: nat, now: nat,
                         first: nat, since: nat) returns (from: nat)
    requires Tracks(b, cs, log, before, first) && before <= now
    ensures Since(ch, Expire(b, cs, now).entries, since) == LogReplay(b, ch, log, now, since)
    ensures from <= |log| && LogReplay(b, ch, log, now, since) == Publications(ch, log, from)
    ensures forall i :: 0 <= i < |log| ==> (from <= i <==> Keeps(b, log, now, i) && OffsetOf(i) > since)
  {
    var kept := ExpireTracks(b, cs, log, before, now, first);
    from := SinceOfSuffix(ch, log, kept, since);
    LogReplayIsSuffix(b, ch, log, now, since, kept, from, 0);
  }

  // --------------------------------------------------------------------
  // Whole runs of one channel
  // --------------------------------------------------------------------

  datatype Op = Publish(now: nat, data: Bytes) | Read(now: nat)

  function RunRing(b: Bounds, ops: seq<Op>): ChannelState {
    if ops == [] then Fresh
    else
      var cs := RunRing(b, ops[..|ops| - 1]);
      match ops[|ops| - 1]
      case Publish(now, data) => Append(b, cs, now, data)
      case Read(now) => Expire(b, cs, now)
  }

  function RunLog(ops: seq<Op>): seq<Record> {
    if ops == [] then []
    else
      var log := RunLog(ops[..|ops| - 1]);
      match ops[|ops| - 1]
      case Publish(now, data) => log + [Record(now, data)]
      case Read(_) => log
  }

  predicate ClockNeverGoesBack(ops: seq<Op>) {
    forall i, j :: 0 <= i < j < |ops| ==> ops[i].now <= ops[j].now
  }

  lemma {:induction false} RunTracks(b: Bounds, ops: seq<Op>, now: nat) returns (first: nat)
    requires b.size >= 1 && ClockNeverGoesBack(ops)
    requires forall i :: 0 <= i < |ops| ==> ops[i].now <= now
    ensures Tracks(b, RunRing(b, ops), RunLog(ops), now, first)
    decreases |ops|
  {
    if ops == [] {
      first := 0;
    } else {
      var init, last := ops[..|ops| - 1], ops[|ops| - 1];
      forall i | 0 <= i < |init| ensures init[i].now <= last.now { assert init[i] == ops[i]; }
      first := RunTracks(b, init, last.now);
      match last
      case Publish(t, data) =>
        first := AppendTracks(b, RunRing(b, init), RunLog(init), t, t, first, data);
        TickTracks(b, RunRing(b, ops), RunLog(ops), t, now, first);
      case Read(t) =>
        first := ExpireTracks(b, RunRing(b, init), RunLog(init), t, t, first);
        TickTracks(b, RunRing(b, ops), RunLog(ops), t, now, first);
    }
  }

  /** After any run whose clock never goes back, replay is exactly the log's answer. */
  lemma RingRefinesLog(b: Bounds, ch: Channel, ops: seq<Op>, now: nat, since: nat) returns (from: nat)
    requires b.size >= 1 && ClockNeverGoesBack(ops)
    requires forall i :: 0 <= i < |ops| ==> ops[i].now <= now
    ensures
      var log := RunLog(ops);
      && from <= |log|
      && Since(ch, Expire(b, RunRing(b, ops), now).entries, since)
         == LogReplay(b, ch, log, now, since)
         == Publications(ch, log, from)
      && (forall i :: 0 <= i < |log| ==> (from <= i <==> Keeps(b, log, now, i) && OffsetOf(i) > since))
  {
    var first := RunTracks(b, ops, now);
    from := ReplayRefinesLog(b, ch, RunRing(b, ops), RunLog(ops), now, now, first, since);
  }

  /** Nothing is replayed exactly when the bounds keep nothing above `since`, whether or not `since` itself was evicted. */
  lemma NothingReplayedIff(b: Bounds, ch: Channel, ops: seq<Op>, now: nat, since: nat)
    requires b.size >= 1 && ClockNeverGoesBack(ops)
    requires forall i :: 0 <= i < |ops| ==> ops[i].now <= now
    ensures
      var log := RunLog(ops);
      Since(ch, Expire(b, RunRing(b, ops), now).entries, since) == []
      <==> forall i :: 0 <= i < |log| && Keeps(b, log, now, i) ==> OffsetOf(i) <= since
  {
    var from := RingRefinesLog(b, ch, ops, now, since);
    hide RunRing, LogReplay, Since;
    if from < |RunLog(ops)| { assert Keeps(b, RunLog(ops), now, from) && OffsetOf(from) > since; }
  }

  /** Four publications and room for one: the entry after offset 1 is gone, and the tail is replayed all the same. */
  lemma EvictedYetReplayed(ch: Channel)
    ensures
      var b, ops := Bounds(1, 0), [Publish(0, []), Publish(0, []), Publish(0, []), Publish(0, [])];
      && |RunLog(ops)| == 4 && !Keeps(b, RunLog(ops), 0, 2)
      && Since(ch, Expire(b, RunRing(b, ops), 0).entries, 1) == [Publication(ch, 3, [])]
  {
    var b, ops := Bounds(1, 0), [Publish(0, []), Publish(0, []), Publish(0, []), Publish(0, [])];
    var log := [Record(0, []), Record(0, []), Record(0, []), Record(0, [])];
    var one, two, three := ops[..1], ops[..2], ops[..3];
    assert one[..0] == [] && two[..1] == one && three[..2] == two;
    assert RunLog(one) == RunLog([]) + [log[0]] == log[..1];
    assert RunLog(two) == RunLog(one) + [log[1]] == log[..2];
    assert RunLog(three) == RunLog(two) + [log[2]] == log[..3];
    assert RunLog(ops) == RunLog(three) + [log[3]] == log;
    var from := RingRefinesLog(b, ch, ops, 0, 1);
    assert Keeps(b, log, 0, 3) && !Keeps(b, log, 0, 2) && !Keeps(b, log, 0, 1) && !Keeps(b, log, 0, 0);
    assert from == 3;
    assert Publications(ch, log, 3) == [Publication(ch, 3, [])];
  }

  /**
   * Even when the clock goes back, what replay returns is an unbroken run of the
   * log ending with its newest publication, at most `size` long.
   */
  lemma {:induction false} AnyClockKeepsSuffix(b: Bounds, ch: Channel, ops: seq<Op>, since: nat)
    returns (first: nat, from: nat)
    requires b.size >= 1
    ensures Suffix(b, RunRing(b, ops), RunLog(ops), first)
    ensures first <= from <= |RunLog(ops)| <= first + b.size
    ensures Since(ch, RunRing(b, ops).entries, since) == Publications(ch, RunLog(ops), from)
    decreases |ops|
  {
    if ops == [] {
      first := 0;
    } else {
      var init, last := ops[..|ops| - 1], ops[|ops| - 1];
      first, from := AnyClockKeepsSuffix(b, ch, init, since);
      match last
      case Publish(t, data) => first := AppendSuffix(b, RunRing(b, init), RunLog(init), first, t, data);
      case Read(t) => first := ExpireSuffix(b, RunRing(b, init), RunLog(init), first, t);
    }
    from := SinceOfSuffix(ch, RunLog(ops), first, since);
  }
}
