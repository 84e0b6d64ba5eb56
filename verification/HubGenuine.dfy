/** No fabricated delivery: every publication in every outbox is an entry of its channel's log. */
module HubGenuine {
  import opened Types
  import opened Frames
  import opened Hub
  import opened Streams
  import opened HubRecovery
  import History
  import HubDelivery
  import HubShape

  ghost predicate AllGenuine(ch: Channel, log: seq<History.Record>, ps: seq<Publication>) {
    forall p :: p in ps ==> Genuine(ch, log, p)
  }

  lemma {:induction false} DeliveredGoesThrough(out: seq<Out>, n: nat)
    requires n < |out| && out[n].Delivered?
    ensures out[n].publication in HubDelivery.Through(out, out[n].sub)
  {
    if n < |out| - 1 {
      assert out[..|out| - 1][n] == out[n];
      DeliveredGoesThrough(out[..|out| - 1], n);
    }
  }

  lemma ReplayGenuine(b: History.Bounds, log: seq<History.Record>, now: nat, u: Subscription)
    requires |log| <= U64_MAX && ReadRight(b, log, now, u) && HubShape.SubShape(u)
    ensures AllGenuine(u.channel, log, u.replay)
  {
    if u.read.Some? {
      var seen := log[..u.read.value.len];
      assert u.replay == History.LogReplay(b, u.channel, seen, u.read.value.time, u.since, 0);
      LogReplayMembers(b, u.channel, seen, u.read.value.time, u.since, 0);
      forall p | p in u.replay ensures Genuine(u.channel, log, p) {
        var k :| 0 <= k < |u.replay| && u.replay[k] == p;
        assert Genuine(u.channel, seen, p);
      }
    }
  }

  /**
   * In every reachable state, every publication in a session's outbox, replayed or
   * live, came through a subscription of that very session and is the log entry of
   * that subscription's channel at its offset: channel, offset and data.
   */
  lemma NoFabrication(env: Env, bounds: BoundsOf, events: seq<Event>, sid: SessionId, n: nat)
    requires IsPubSub(env.kind, bounds)
    requires
      var s := Run(env, Init, events);
      Bounded(s) && n < |OutboxOf(s, sid)| && OutboxOf(s, sid)[n].Delivered?
    ensures
      var s := Run(env, Init, events);
      var o := OutboxOf(s, sid)[n];
      && o.sub in s.subs.all
      && s.subs.all[o.sub].sid == sid
      && Genuine(s.subs.all[o.sub].channel, LogOf(s, s.subs.all[o.sub].channel), o.publication)
  {
    var s := Run(env, Init, events);
    var o := OutboxOf(s, sid)[n];
    DeliveredGoesThrough(OutboxOf(s, sid), n);
    HubDelivery.ReplayThenLive(env, events, sid, o.sub);
    AnyStream(env, bounds, events, o.sub);
    hide Step, Run, IsPubSub, HubDelivery.Through;
    var u := s.subs.all[o.sub];
    var log, sent := LogOf(s, u.channel), BroadcastsOf(s, u.channel);
    ReplayGenuine(bounds(u.channel), log, s.now, u);
    if o.publication !in u.replay[..u.replayed] {
      var k :| 0 <= k < |u.forwarded| && u.forwarded[k] == o.publication;
      assert Genuine(u.channel, log, sent[u.picks[k]]);
    }
  }
}
