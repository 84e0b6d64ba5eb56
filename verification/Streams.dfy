/**
 * One subscription's stream against its channel's log, as values: the replay read
 * from history, then the positions of the broadcast topic its receiver was handed.
 */
module Streams {
  import opened Types
  import History
  import Broker
  import opened Hub

  /** `p` is the publication the channel's log holds at its offset. */
  ghost predicate Genuine(ch: Channel, log: seq<History.Record>, p: Publication) {
    p.offset < |log| && p == History.PublicationOf(ch, log, p.offset)
  }

  /** The replay is the full log's answer at the moment it was read, after the stream was attached. */
  ghost predicate ReadRight(b: History.Bounds, log: seq<History.Record>, now: nat, u: Subscription) {
    && u.logAtAttach <= |log|
    && (u.read.Some? ==>
          var point := u.read.value;
          && u.logAtAttach <= point.len <= |log|
          && point.time <= now
          && u.replay == History.LogReplay(b, u.channel, log[..point.len], point.time, u.since))
  }

  lemma AppendKeepsRead(b: History.Bounds, log: seq<History.Record>, rec: History.Record, now: nat, u: Subscription)
    requires ReadRight(b, log, now, u)
    ensures ReadRight(b, log + [rec], now, u)
  {
    if u.read.Some? { assert (log + [rec])[..u.read.value.len] == log[..u.read.value.len]; }
  }

  // --------------------------------------------------------------------
  // The live part
  // --------------------------------------------------------------------

  /** Where among the channel's broadcasts the subscription's receiver stands. */
  function Position(u: Subscription): nat { u.attachedAt + |u.picks| + u.skipped }

  function Taken(u: Subscription): seq<Publication> {
    u.forwarded + if u.hand.Some? then [u.hand.value] else []
  }

  /** The positions handed out lie past the attachment, below the receiver's, and ascend; without lag there is no gap. */
  ghost predicate Ascends(u: Subscription) {
    && (forall k :: 0 <= k < |u.picks| ==> u.attachedAt <= u.picks[k] < Position(u))
    && (forall j, k :: 0 <= j < k < |u.picks| ==> u.picks[j] < u.picks[k])
    && (u.skipped == 0 ==> forall k :: 0 <= k < |u.picks| ==> u.picks[k] == u.attachedAt + k)
  }

  /** What was forwarded, and what is in hand, are the channel's broadcasts at the positions handed out. */
  ghost predicate Follows(sent: seq<Publication>, u: Subscription) {
    && Position(u) <= |sent|
    && Ascends(u)
    && |u.forwarded| <= |u.picks| <= |u.forwarded| + 1
    && (forall k :: 0 <= k < |u.forwarded| ==> u.picks[k] < |sent| && u.forwarded[k] == sent[u.picks[k]])
    && (u.hand.Some? ==>
          && |u.picks| == |u.forwarded| + 1
          && u.picks[|u.forwarded|] < |sent|
          && u.hand.value == sent[u.picks[|u.forwarded|]])
  }

  /** The topic from the receiver's start on is the channel's broadcasts from the attachment on. */
  ghost predicate Linked(sent: seq<Publication>, topic: seq<Publication>, r: Broker.Receiver, u: Subscription) {
    && r.start <= r.cursor <= |topic|
    && r.cursor - r.start == |u.picks| + u.skipped
    && |topic| - r.start == |sent| - u.attachedAt
    && (forall j :: r.start <= j < |topic| ==> topic[j] == sent[u.attachedAt + (j - r.start)])
    && (u.hand.None? ==> |u.picks| == |u.forwarded|)
  }

  lemma BroadcastKeepsLive(sent: seq<Publication>, topic: seq<Publication>, r: Broker.Receiver, u: Subscription, p: Publication)
    requires Follows(sent, u)
    ensures Follows(sent + [p], u)
    ensures Linked(sent, topic, r, u) ==> Linked(sent + [p], topic + [p], r, u)
  {
  }

  lemma ItemKeepsLive(sent: seq<Publication>, topic: seq<Publication>, r: Broker.Receiver, u: Subscription)
    requires Follows(sent, u) && Linked(sent, topic, r, u) && u.hand.None? && r.cursor < |topic|
    ensures
      var u' := u.(hand := Some(topic[r.cursor]), picks := u.picks + [Position(u)]);
      var r' := r.(cursor := r.cursor + 1, picks := r.picks + [r.cursor]);
      Follows(sent, u') && Linked(sent, topic, r', u')
  {
    var u' := u.(hand := Some(topic[r.cursor]), picks := u.picks + [Position(u)]);
    assert Position(u') == Position(u) + 1;
    assert topic[r.cursor] == sent[Position(u)];
    assert Ascends(u');
  }

  lemma LagKeepsLive(sent: seq<Publication>, topic: seq<Publication>, r: Broker.Receiver, u: Subscription, n: nat)
    requires Follows(sent, u) && Linked(sent, topic, r, u) && n > 0 && r.cursor + n <= |topic|
    ensures
      var u', r' := u.(skipped := u.skipped + n), r.(cursor := r.cursor + n, skipped := r.skipped + n);
      Follows(sent, u') && Linked(sent, topic, r', u')
  {
  }

  /** Forwarding what is in hand. */
  lemma ForwardKeepsLive(sent: seq<Publication>, topic: seq<Publication>, r: Broker.Receiver, u: Subscription)
    requires Follows(sent, u) && u.hand.Some?
    ensures
      var u' := u.(hand := None, forwarded := u.forwarded + [u.hand.value]);
      && Follows(sent, u')
      && (Linked(sent, topic, r, u) ==> Linked(sent, topic, r, u'))
  {
    assert Ascends(u.(hand := None, forwarded := u.forwarded + [u.hand.value]));
  }

  // --------------------------------------------------------------------
  // Recovery
  // --------------------------------------------------------------------

  /** Each index the bounds keep beyond `since` is replayed, once, in ascending order, and nothing else is. */
  lemma {:induction false} LogReplayMembers(b: History.Bounds, ch: Channel, log: seq<History.Record>, now: nat,
                                            since: nat, from: nat)
    requires from <= |log| <= U64_MAX
    ensures ReplayMembers(b, ch, log, now, since, from, History.LogReplay(b, ch, log, now, since, from))
    decreases |log| - from
  {
    hide History.LogReplay, ReplayMembers, History.Keeps;
    if from == |log| {
      NoMembers(b, ch, log, now, since);
    } else {
      LogReplayMembers(b, ch, log, now, since, from + 1);
      ReplayStep(b, ch, log, now, since, from);
      var rest := History.LogReplay(b, ch, log, now, since, from + 1);
      if History.Keeps(b, log, now, from) && from > since {
        MembersCons(b, ch, log, now, since, from, rest);
      } else {
        MembersSame(b, ch, log, now, since, from, rest);
      }
    }
  }

  lemma NoMembers(b: History.Bounds, ch: Channel, log: seq<History.Record>, now: nat, since: nat)
    ensures ReplayMembers(b, ch, log, now, since, |log|, History.LogReplay(b, ch, log, now, since, |log|))
  {
  }

  lemma MembersSame(b: History.Bounds, ch: Channel, log: seq<History.Record>, now: nat, since: nat, from: nat,
                    rest: seq<Publication>)
    requires from < |log| <= U64_MAX && ReplayMembers(b, ch, log, now, since, from + 1, rest)
    requires !(History.Keeps(b, log, now, from) && from > since)
    ensures ReplayMembers(b, ch, log, now, since, from, rest)
  {
    hide Genuine, History.Keeps;
  }

  ghost predicate ReplayMembers(b: History.Bounds, ch: Channel, log: seq<History.Record>, now: nat, since: nat, from: nat,
                                ps: seq<Publication>)
  {
    && (forall k :: 0 <= k < |ps| ==> from <= ps[k].offset && ps[k].offset > since && Genuine(ch, log, ps[k]))
    && (forall j, k :: 0 <= j < k < |ps| ==> ps[j].offset < ps[k].offset)
    && (forall i :: from <= i < |log| && History.Keeps(b, log, now, i) && i > since ==>
          History.PublicationOf(ch, log, i) in ps)
  }

  lemma ReplayStep(b: History.Bounds, ch: Channel, log: seq<History.Record>, now: nat, since: nat, from: nat)
    requires from < |log| <= U64_MAX
    ensures History.LogReplay(b, ch, log, now, since, from)
         == if History.Keeps(b, log, now, from) && from > since
            then [History.PublicationOf(ch, log, from)] + History.LogReplay(b, ch, log, now, since, from + 1)
            else History.LogReplay(b, ch, log, now, since, from + 1)
  {
    var rest := History.LogReplay(b, ch, log, now, since, from + 1);
    assert [] + rest == rest;
  }

  lemma MembersCons(b: History.Bounds, ch: Channel, log: seq<History.Record>, now: nat, since: nat, from: nat,
                    rest: seq<Publication>)
    requires from < |log| <= U64_MAX && from > since && ReplayMembers(b, ch, log, now, since, from + 1, rest)
    ensures ReplayMembers(b, ch, log, now, since, from, [History.PublicationOf(ch, log, from)] + rest)
  {
    var p := History.PublicationOf(ch, log, from);
    var ps := [p] + rest;
    assert Genuine(ch, log, p) && p.offset == from && ps[0] == p;
    hide Genuine, History.Keeps;
    forall i | from <= i < |log| && History.Keeps(b, log, now, i) && i > since
      ensures History.PublicationOf(ch, log, i) in ps
    {
      if i > from { assert History.PublicationOf(ch, log, i) in rest; }
    }
  }

  ghost predicate Evicted(b: History.Bounds, log: seq<History.Record>, u: Subscription, i: nat) {
    && u.read.Some?
    && i < u.read.value.len <= |log|
    && !History.Keeps(b, log[..u.read.value.len], u.read.value.time, i)
  }

  predicate In(ps: seq<Publication>, i: nat) {
    exists k :: 0 <= k < |ps| && ps[k].offset == i
  }

  /** Offset `i` was broadcast at a position the receiver passed over because of lag. */
  predicate Skipped(sent: seq<Publication>, u: Subscription, i: nat) {
    exists p :: u.attachedAt <= p < Position(u) && p < |sent| && p !in u.picks && sent[p].offset == i
  }

  /**
   * Offset `i` was broadcast at or past the receiver's position. While the receiver is attached
   * it waits in the topic, where the ring may have overwritten it; the next poll then reports the gap.
   */
  predicate Ahead(sent: seq<Publication>, u: Subscription, i: nat) {
    exists p :: Position(u) <= p < |sent| && sent[p].offset == i
  }

  /** Offset `i` was in hand when the stream ended. */
  predicate LostInHand(sent: seq<Publication>, u: Subscription, i: nat) {
    && |u.picks| == |Taken(u)| + 1
    && u.picks[|Taken(u)|] < |sent|
    && sent[u.picks[|Taken(u)|]].offset == i
  }

  /** At the attachment every broadcast had been accepted. */
  ghost predicate Early(sent: seq<Publication>, u: Subscription) {
    forall p :: 0 <= p < u.attachedAt && p < |sent| ==> sent[p].offset < u.logAtAttach
  }

  /** A broadcast past `since` is replayed, taken, skipped by lag, ahead, lost in hand, or was evicted. */
  lemma Accounted(b: History.Bounds, log: seq<History.Record>, now: nat, sent: seq<Publication>, u: Subscription, p: nat)
    requires |log| <= U64_MAX && p < |sent| && sent[p].offset > u.since
    requires Follows(sent, u) && Early(sent, u) && ReadRight(b, log, now, u) && u.read.Some?
    ensures
      var i := sent[p].offset;
      In(u.replay, i) || In(Taken(u), i) || Skipped(sent, u, i) || Ahead(sent, u, i) || LostInHand(sent, u, i)
      || Evicted(b, log, u, i)
  {
    var i := sent[p].offset;
    if p < u.attachedAt {
      var seen := log[..u.read.value.len];
      LogReplayMembers(b, u.channel, seen, u.read.value.time, u.since, 0);
      if History.Keeps(b, seen, u.read.value.time, i) {
        assert History.PublicationOf(u.channel, seen, i) in u.replay;
      }
    } else if p < Position(u) && p in u.picks {
      var k :| 0 <= k < |u.picks| && u.picks[k] == p;
      if k < |Taken(u)| { assert Taken(u)[k] == sent[p]; }
    }
  }

  function Offsets(ps: seq<Publication>): seq<nat> {
    seq(|ps|, k requires 0 <= k < |ps| => ps[k].offset)
  }

  lemma {:induction false} DistinctOnce(xs: seq<nat>, x: nat)
    requires forall j, k :: 0 <= j < k < |xs| ==> xs[j] != xs[k]
    ensures multiset(xs)[x] == if x in xs then 1 else 0
  {
    if xs != [] {
      DistinctOnce(xs[1..], x);
      assert xs == [xs[0]] + xs[1..];
      assert x == xs[0] ==> x !in xs[1..];
    }
  }

  /** No two broadcasts of a channel have the same offset. */
  ghost predicate Distinct(sent: seq<Publication>) {
    forall j, k :: 0 <= j < k < |sent| ==> sent[j].offset != sent[k].offset
  }

  lemma TakenOnce(sent: seq<Publication>, u: Subscription, i: nat)
    requires Follows(sent, u) && Distinct(sent)
    ensures multiset(Offsets(Taken(u)))[i] <= 1
    ensures multiset(Offsets(Taken(u)))[i] == 1 ==> exists p :: u.attachedAt <= p < |sent| && sent[p].offset == i
  {
    var taken := Offsets(Taken(u));
    assert forall k :: 0 <= k < |taken| ==> taken[k] == sent[u.picks[k]].offset;
    forall j, k | 0 <= j < k < |taken| ensures taken[j] != taken[k] {
      assert u.picks[j] < u.picks[k];
    }
    DistinctOnce(taken, i);
    if i in taken {
      var k :| 0 <= k < |taken| && taken[k] == i;
      assert sent[u.picks[k]].offset == i;
    }
  }

  lemma ReplayedOnce(b: History.Bounds, log: seq<History.Record>, now: nat, u: Subscription, i: nat)
    requires |log| <= U64_MAX && ReadRight(b, log, now, u) && (u.read.None? ==> u.replay == [])
    ensures multiset(Offsets(u.replay))[i] <= 1
    ensures multiset(Offsets(u.replay))[i] == 1 ==> u.read.Some? && i < u.read.value.len
  {
    var replay := Offsets(u.replay);
    if u.read.Some? {
      var seen := log[..u.read.value.len];
      assert u.replay == History.LogReplay(b, u.channel, seen, u.read.value.time, u.since, 0);
      LogReplayMembers(b, u.channel, seen, u.read.value.time, u.since, 0);
    }
    forall j, k | 0 <= j < k < |replay| ensures replay[j] != replay[k] {
      assert u.replay[j].offset < u.replay[k].offset;
    }
    DistinctOnce(replay, i);
    if i in replay {
      var k :| 0 <= k < |replay| && replay[k] == i;
      assert u.replay[k].offset == i;
    }
  }

  /** No offset is seen more than twice; twice only if accepted before the read and broadcast after the attach. */
  lemma AtMostTwice(b: History.Bounds, log: seq<History.Record>, now: nat, sent: seq<Publication>, u: Subscription, i: nat)
    requires |log| <= U64_MAX
    requires Follows(sent, u) && Distinct(sent) && ReadRight(b, log, now, u)
    requires u.read.None? ==> u.replay == []
    ensures
      var seen := multiset(Offsets(u.replay + Taken(u)))[i];
      && seen <= 2
      && (seen == 2 ==>
            && u.read.Some? && i < u.read.value.len
            && exists p :: u.attachedAt <= p < |sent| && sent[p].offset == i)
  {
    hide Follows, Distinct, ReadRight;
    assert Offsets(u.replay + Taken(u)) == Offsets(u.replay) + Offsets(Taken(u));
    TakenOnce(sent, u, i);
    ReplayedOnce(b, log, now, u, i);
  }

  // --------------------------------------------------------------------
  // Exactly once, when publishes on the channel do not overlap
  // --------------------------------------------------------------------

  /** A client that drops any frame whose offset is not above the highest it has seen. */
  function Dedup(hi: nat, frames: seq<Publication>): seq<Publication>
    decreases |frames|
  {
    if frames == [] then []
    else if frames[0].offset > hi then [frames[0]] + Dedup(frames[0].offset, frames[1..])
    else Dedup(hi, frames[1..])
  }

  /** `log[a..b]` as publications; empty when `b <= a`. */
  function Range(ch: Channel, log: seq<History.Record>, a: nat, b: nat): (ps: seq<Publication>)
    requires b <= |log| || b <= a
    ensures |ps| == if a <= b then b - a else 0
    ensures forall k :: 0 <= k < |ps| ==> ps[k] == History.PublicationOf(ch, log, a + k)
  {
    if b <= a then []
    else seq(b - a, k requires 0 <= k < b - a => History.PublicationOf(ch, log, a + k))
  }

  function Max(a: nat, b: nat): nat { if a <= b then b else a }

  lemma DedupCons(hi: nat, p: Publication, ps: seq<Publication>)
    ensures Dedup(hi, [p] + ps) == if p.offset > hi then [p] + Dedup(p.offset, ps) else Dedup(hi, ps)
  {
    assert ([p] + ps)[1..] == ps;
  }

  lemma RangeCons(ch: Channel, log: seq<History.Record>, a: nat, b: nat)
    requires a < b <= |log|
    ensures Range(ch, log, a, b) == [History.PublicationOf(ch, log, a)] + Range(ch, log, a + 1, b)
  {
  }

  lemma JoinRanges(ch: Channel, log: seq<History.Record>, lo: nat, mid: nat, end: nat)
    requires lo <= mid <= |log| && end <= |log|
    ensures Range(ch, log, lo, mid) + Range(ch, log, mid, end) == Range(ch, log, lo, Max(mid, end))
  {
  }

  /** A stretch that starts above everything seen passes whole. */
  lemma {:induction false} DedupAbove(ch: Channel, log: seq<History.Record>, hi: nat, a: nat, b: nat,
                                      rest: seq<Publication>)
    requires hi < a <= b <= |log| <= U64_MAX
    ensures Dedup(hi, Range(ch, log, a, b) + rest)
         == Range(ch, log, a, b) + Dedup(if a < b then b - 1 else hi, rest)
    decreases b - a
  {
    hide Dedup, Range;
    if a == b {
      assert Range(ch, log, a, b) == [];
      assert [] + rest == rest && [] + Dedup(hi, rest) == Dedup(hi, rest);
    } else {
      var p, more := History.PublicationOf(ch, log, a), Range(ch, log, a + 1, b);
      RangeCons(ch, log, a, b);
      assert [p] + more + rest == [p] + (more + rest);
      DedupCons(hi, p, more + rest);
      DedupAbove(ch, log, a, a + 1, b, rest);
      assert [p] + (more + Dedup(b - 1, rest)) == [p] + more + Dedup(b - 1, rest);
    }
  }

  /** A stretch that ends at or below what was seen is dropped whole. */
  lemma {:induction false} DedupBelow(ch: Channel, log: seq<History.Record>, hi: nat, a: nat, b: nat,
                                      rest: seq<Publication>)
    requires a <= b <= |log| <= U64_MAX && b <= hi + 1
    ensures Dedup(hi, Range(ch, log, a, b) + rest) == Dedup(hi, rest)
    decreases b - a
  {
    hide Dedup, Range;
    if a == b {
      assert Range(ch, log, a, b) == [];
      assert [] + rest == rest;
    } else {
      var p, more := History.PublicationOf(ch, log, a), Range(ch, log, a + 1, b);
      RangeCons(ch, log, a, b);
      assert [p] + more + rest == [p] + (more + rest);
      DedupCons(hi, p, more + rest);
      DedupBelow(ch, log, hi, a + 1, b, rest);
    }
  }

  /** A stretch that reaches back over what was seen loses the part already seen. */
  lemma DedupOverlap(ch: Channel, log: seq<History.Record>, hi: nat, a: nat, b: nat)
    requires a <= b <= |log| <= U64_MAX && a <= hi + 1
    ensures Dedup(hi, Range(ch, log, a, b)) == Range(ch, log, hi + 1, b)
  {
    assert Dedup(hi, []) == [] && (b > 0 ==> Dedup(b - 1, []) == []);
    hide Dedup, Range;
    var ps := Range(ch, log, a, b);
    assert ps + [] == ps;
    if b <= hi + 1 {
      DedupBelow(ch, log, hi, a, b, []);
      assert |Range(ch, log, hi + 1, b)| == 0;
    } else {
      var tail := Range(ch, log, hi + 1, b);
      assert tail + [] == tail;
      JoinRanges(ch, log, a, hi + 1, b);
      DedupBelow(ch, log, hi, a, hi + 1, tail);
      DedupAbove(ch, log, hi, hi + 1, b, []);
    }
  }

  lemma {:induction false} NothingEvictedReplaysAll(b: History.Bounds, ch: Channel, log: seq<History.Record>, now: nat,
                                                    since: nat, from: nat)
    requires from <= |log| <= U64_MAX
    requires forall i :: since < i < |log| ==> History.Keeps(b, log, now, i)
    ensures History.LogReplay(b, ch, log, now, since, from) == Range(ch, log, Max(from, since + 1), |log|)
    decreases |log| - from
  {
    if from == |log| {
      EmptyRange(ch, log, Max(from, since + 1), |log|);
    } else {
      hide History.LogReplay, Range;
      NothingEvictedReplaysAll(b, ch, log, now, since, from + 1);
      ReplayStep(b, ch, log, now, since, from);
      if from > since { RangeCons(ch, log, from, |log|); }
    }
  }

  /** Broadcasts left in log order, each as accepted. */
  ghost predicate InOrder(ch: Channel, log: seq<History.Record>, sent: seq<Publication>) {
    forall j :: 0 <= j < |sent| ==> sent[j].offset == j && Genuine(ch, log, sent[j])
  }

  ghost predicate NothingEvicted(b: History.Bounds, log: seq<History.Record>, u: Subscription) {
    u.read.Some? && u.read.value.len <= |log| &&
    forall i :: u.since < i < u.read.value.len ==> !Evicted(b, log, u, i)
  }

  /** How far into the log the client has got. */
  function Reached(u: Subscription): nat
    requires u.read.Some?
  {
    if u.replayed < |u.replay| then u.since + 1 + u.replayed
    else Max(u.since + 1, Max(u.read.value.len, u.attachedAt + |u.forwarded|))
  }

  lemma ForwardedRange(log: seq<History.Record>, sent: seq<Publication>, u: Subscription)
    requires |log| <= U64_MAX && Follows(sent, u) && InOrder(u.channel, log, sent) && u.skipped == 0
    ensures |sent| <= |log| && u.attachedAt + |u.forwarded| <= |sent|
    ensures u.forwarded == Range(u.channel, log, u.attachedAt, u.attachedAt + |u.forwarded|)
  {
    if sent != [] { assert Genuine(u.channel, log, sent[|sent| - 1]); }
    forall k | 0 <= k < |u.forwarded| ensures u.forwarded[k] == History.PublicationOf(u.channel, log, u.attachedAt + k) {
      assert u.picks[k] == u.attachedAt + k;
      assert Genuine(u.channel, log, sent[u.attachedAt + k]);
    }
  }

  lemma ReplayRange(b: History.Bounds, log: seq<History.Record>, now: nat, u: Subscription)
    requires |log| <= U64_MAX && ReadRight(b, log, now, u) && NothingEvicted(b, log, u)
    ensures u.replay == Range(u.channel, log, u.since + 1, u.read.value.len)
  {
    var seen := log[..u.read.value.len];
    assert u.replay == History.LogReplay(b, u.channel, seen, u.read.value.time, u.since, 0);
    forall i | u.since < i < |seen| ensures History.Keeps(b, seen, u.read.value.time, i) {
      assert !Evicted(b, log, u, i);
    }
    NothingEvictedReplaysAll(b, u.channel, seen, u.read.value.time, u.since, 0);
  }

  /** A stretch and one that starts no later than its end, deduplicated, are one stretch. */
  lemma DedupTwo(ch: Channel, log: seq<History.Record>, lo: nat, mid: nat, m: nat, end: nat)
    requires 1 <= lo <= mid && (lo < mid ==> mid <= |log|) && m <= mid && m <= end <= |log| <= U64_MAX
    ensures Dedup(lo - 1, Range(ch, log, lo, mid) + Range(ch, log, m, end)) == Range(ch, log, lo, Max(mid, end))
  {
    hide Dedup, Range;
    var head, tail := Range(ch, log, lo, mid), Range(ch, log, m, end);
    DedupOverlap(ch, log, mid - 1, m, end);
    if lo < mid {
      DedupAbove(ch, log, lo - 1, lo, mid, tail);
      JoinRanges(ch, log, lo, mid, end);
    } else {
      EmptyRange(ch, log, lo, lo);
      assert head + tail == tail;
    }
  }

  lemma EmptyRange(ch: Channel, log: seq<History.Record>, lo: nat, hi: nat)
    requires hi <= lo
    ensures Range(ch, log, lo, hi) == []
  {
  }

  /**
   * With nothing evicted past `since` before the read and nothing skipped, the
   * deduplicating client has seen the log from `since + 1` on, each entry once, in
   * order, as far as frames were passed on.
   */
  lemma ExactlyOnce(b: History.Bounds, log: seq<History.Record>, now: nat, sent: seq<Publication>, u: Subscription)
    requires |log| <= U64_MAX && Follows(sent, u) && InOrder(u.channel, log, sent) && u.attachedAt <= u.logAtAttach
    requires ReadRight(b, log, now, u) && NothingEvicted(b, log, u) && u.skipped == 0
    requires u.replayed <= |u.replay| && (u.forwarded != [] ==> u.replayed == |u.replay|)
    ensures Reached(u) <= Max(u.since + 1, |log|)
    ensures Dedup(u.since, u.replay[..u.replayed] + u.forwarded) == Range(u.channel, log, u.since + 1, Reached(u))
  {
    ForwardedRange(log, sent, u);
    ReplayRange(b, log, now, u);
    hide Follows, InOrder, ReadRight, NothingEvicted, Dedup;
    JoinParts(log, u, u.attachedAt);
  }

  lemma JoinParts(log: seq<History.Record>, u: Subscription, m: nat)
    requires |log| <= U64_MAX && u.read.Some? && m == u.attachedAt <= u.read.value.len <= |log| && m + |u.forwarded| <= |log|
    requires u.replayed <= |u.replay| && (u.forwarded != [] ==> u.replayed == |u.replay|)
    requires u.replay == Range(u.channel, log, u.since + 1, u.read.value.len)
    requires u.forwarded == Range(u.channel, log, m, m + |u.forwarded|)
    ensures Reached(u) <= Max(u.since + 1, |log|)
    ensures Dedup(u.since, u.replay[..u.replayed] + u.forwarded) == Range(u.channel, log, u.since + 1, Reached(u))
  {
    hide Dedup, Range;
    var lo, n := u.since + 1, |u.forwarded|;
    var mid := lo + u.replayed;
    var head := Range(u.channel, log, lo, mid);
    assert u.replay[..u.replayed] == head;
    if u.replayed < |u.replay| {
      assert Range(u.channel, log, 0, 0) == [];
      DedupTwo(u.channel, log, lo, mid, 0, 0);
    } else {
      DedupTwo(u.channel, log, lo, mid, m, m + n);
      assert Reached(u) == Max(mid, m + n);
    }
  }
}
