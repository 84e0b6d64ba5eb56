/** The reverse index against the sessions' own subscription maps, over every run. */
module HubIndex {
  import opened Types
  import opened Frames
  import opened Registry
  import opened Hub
  import Broker

  /** Handlers and sessions only ever carry ids that were handed out. */
  ghost predicate IdsInv(s: State) {
    && (forall sid :: sid in s.sessions.registered ==> sid < s.sessions.nextId)
    && (forall sid: SessionId :: sid in s.held.of <==> sid < s.sessions.nextId)
    && (forall sid: SessionId :: sid in s.talk.asked <==> sid < s.sessions.nextId)
    && (forall t :: t in s.tasks.all ==> s.tasks.all[t].sid < s.sessions.nextId)
  }

  /**
   * A registered session is listed once for each channel it holds and for no
   * other. A deregistered one is listed exactly where a handler that was in
   * flight at its deregistration inserted afterwards.
   */
  ghost predicate IndexInv(s: State) {
    IdsInv(s) && NoEmptyLists(s.sessions.index) && ListedInv(s) && StaleInv(s) && FlightInv(s)
  }

  ghost predicate ListedInv(s: State) {
    forall sid: SessionId, ch ::
      Listed(s.sessions.index, ch, sid)
      == if sid in s.sessions.registered then (if ch in HeldBy(s, sid) then 1 else 0)
         else if (sid, ch) in s.stale.late then 1 else 0
  }

  ghost predicate StaleInv(s: State) {
    && (forall sid, ch :: (sid, ch) in s.stale.late ==> sid in s.stale.orphans)
    && (forall sid :: sid in s.stale.orphans ==> sid !in s.sessions.registered && sid < s.sessions.nextId)
  }

  ghost predicate FlightInv(s: State) {
    forall t :: t in s.tasks.all ==> InFlightInv(s, s.tasks.all[t])
  }

  /** A subscribe still in flight for a deregistered session was in flight at its deregistration. */
  ghost predicate InFlightInv(s: State, k: Task) {
    SubscribeInFlight(k, k.sid) && k.sid !in s.sessions.registered ==>
      && k.sid in s.stale.orphans
      && (forall ch :: (k.sid, ch) in s.stale.late ==> ch in HeldBy(s, k.sid))
  }

  /** Nothing the invariant speaks of changed but the handlers in flight, and those harmlessly. */
  ghost predicate Quiet(s: State, s': State) {
    && s'.sessions == s.sessions
    && s'.held == s.held
    && s'.stale == s.stale
    && s'.talk.asked.Keys == s.talk.asked.Keys
    && (forall t :: t in s'.tasks.all ==> s'.tasks.all[t].sid < s.sessions.nextId && InFlightInv(s, s'.tasks.all[t]))
  }

  lemma QuietKeepsIndex(s: State, s': State)
    requires IndexInv(s) && Quiet(s, s')
    ensures IndexInv(s')
  {
  }

  lemma HoldKeepsListed(s: State, sid: SessionId, ch: Channel, sub: SubId)
    requires ListedInv(s) && ch !in HeldBy(s, sid) && (sid in s.sessions.registered || (sid, ch) !in s.stale.late)
    ensures ListedInv(Hold(s, sid, ch, sub))
  {
    var s' := Hold(s, sid, ch, sub);
    AddToCounts(s.sessions.index, sid, ch);
    hide Listed, Registry.AddTo;
    assert HeldBy(s', sid) == HeldBy(s, sid)[ch := sub];
    forall x: SessionId, c
      ensures Listed(s'.sessions.index, c, x)
           == if x in s'.sessions.registered then (if c in HeldBy(s', x) then 1 else 0)
              else if (x, c) in s'.stale.late then 1 else 0
    {
      assert x != sid ==> HeldBy(s', x) == HeldBy(s, x);
      assert Listed(s.sessions.index, c, x)
          == if x in s.sessions.registered then (if c in HeldBy(s, x) then 1 else 0)
             else if (x, c) in s.stale.late then 1 else 0;
    }
  }

  lemma HoldKeepsIndex(s: State, sid: SessionId, ch: Channel, sub: SubId)
    requires IndexInv(s) && ch !in HeldBy(s, sid) && sid < s.sessions.nextId
    requires sid in s.sessions.registered || (sid in s.stale.orphans && (sid, ch) !in s.stale.late)
    ensures IndexInv(Hold(s, sid, ch, sub))
  {
    var s' := Hold(s, sid, ch, sub);
    AddToCounts(s.sessions.index, sid, ch);
    HoldKeepsListed(s, sid, ch, sub);
    hide Listed, ListedInv, Registry.AddTo, NoEmptyLists;
    assert forall x :: x != sid ==> HeldBy(s', x) == HeldBy(s, x);
    assert HeldBy(s', sid) == HeldBy(s, sid)[ch := sub];
    forall t | t in s'.tasks.all ensures InFlightInv(s', s'.tasks.all[t]) {
      assert InFlightInv(s, s.tasks.all[t]);
    }
  }

  lemma InsertKeepsIndex(s: State, t: TaskId, k: Task, sub: SubId, cursor: Cursor, ch: Channel)
    requires IndexInv(s) && t in s.tasks.all && k == s.tasks.all[t] && SubscribeInFlight(k, k.sid)
    requires sub in s.subs.all && ch !in HeldBy(s, k.sid)
    ensures IndexInv(InsertSubscription(s, t, k, sub, cursor, ch))
  {
    assert InFlightInv(s, k);
    HoldKeepsIndex(s, k.sid, ch, sub);
    var s1, s' := Hold(s, k.sid, ch, sub), InsertSubscription(s, t, k, sub, cursor, ch);
    hide Hold;
    assert Quiet(s1, s');
    QuietKeepsIndex(s1, s');
  }

  lemma RemoveKeepsListed(s: State, sid: SessionId, ch: Channel)
    requires ListedInv(s) && sid in s.sessions.registered && ch in HeldBy(s, sid)
    ensures ListedInv(RemoveSubscription(s, sid, ch))
  {
    var s' := RemoveSubscription(s, sid, ch);
    RemoveFromCounts(s.sessions.index, sid, ch);
    hide Listed, Registry.RemoveFrom;
    assert HeldBy(s', sid) == HeldBy(s, sid) - {ch};
    forall x: SessionId, c
      ensures Listed(s'.sessions.index, c, x)
           == if x in s'.sessions.registered then (if c in HeldBy(s', x) then 1 else 0)
              else if (x, c) in s'.stale.late then 1 else 0
    {
      assert x != sid ==> HeldBy(s', x) == HeldBy(s, x);
      assert Listed(s.sessions.index, c, x)
          == if x in s.sessions.registered then (if c in HeldBy(s, x) then 1 else 0)
             else if (x, c) in s.stale.late then 1 else 0;
    }
  }

  lemma RemoveKeepsIndex(s: State, sid: SessionId, ch: Channel)
    requires IndexInv(s) && sid in s.sessions.registered && ch in HeldBy(s, sid)
    ensures IndexInv(RemoveSubscription(s, sid, ch))
  {
    var s' := RemoveSubscription(s, sid, ch);
    RemoveFromCounts(s.sessions.index, sid, ch);
    RemoveKeepsListed(s, sid, ch);
    hide Listed, ListedInv, Registry.RemoveFrom, NoEmptyLists;
    assert forall x :: x != sid ==> HeldBy(s', x) == HeldBy(s, x);
    forall t | t in s'.tasks.all ensures InFlightInv(s', s'.tasks.all[t]) {
      assert InFlightInv(s, s.tasks.all[t]);
    }
  }

  lemma AdvanceKeepsIndex(env: Env, s: State, t: TaskId, fail: bool)
    requires IndexInv(s) && t in s.tasks.all
    ensures IndexInv(AdvanceTask(env, s, t, s.tasks.all[t], fail))
  {
    var k := s.tasks.all[t];
    var s' := AdvanceTask(env, s, t, k, fail);
    if Inserts(s, k) {
      assert s' == InsertSubscription(s, t, k, k.stage.sub, k.stage.cursor, k.message.frame.channel);
      InsertKeepsIndex(s, t, k, k.stage.sub, k.stage.cursor, k.message.frame.channel);
    } else {
      AdvanceFrame(env, s, t, fail);
      hide AdvanceTask;
      assert InFlightInv(s, k);
      QuietKeepsIndex(s, s');
    }
  }

  lemma BeginKeepsIndex(env: Env, s: State, t: TaskId, sid: SessionId, m: Message)
    requires IndexInv(s) && sid < s.sessions.nextId
    ensures IndexInv(Begin(env, s, t, sid, m))
  {
    var s' := Begin(env, s, t, sid, m);
    BeginFrame(env, s, t, sid, m);
    GoneBeginsNothing(env, s, t, sid, m);
    hide Begin, RemoveSubscription, IndexInv;
    if Removes(s, sid, m) {
      var s1 := RemoveSubscription(s, sid, m.frame.channel);
      RemoveKeepsIndex(s, sid, m.frame.channel);
      RemoveQuiet(s, s1, s', t, sid, m);
      QuietKeepsIndex(s1, s');
    } else {
      BeginQuiet(s, s', t, sid, m);
      QuietKeepsIndex(s, s');
    }
  }

  /** A message of a session that is gone starts no subscribe. */
  lemma GoneBeginsNothing(env: Env, s: State, t: TaskId, sid: SessionId, m: Message)
    ensures
      var s' := Begin(env, s, t, sid, m);
      sid !in s.sessions.registered && t in s'.tasks.all ==> s'.tasks.all[t].stage.Replying?
  {
  }

  lemma BeginQuiet(s: State, s': State, t: TaskId, sid: SessionId, m: Message)
    requires IndexInv(s) && sid < s.sessions.nextId && Begins(s, s', t, sid, m) && !Removes(s, sid, m)
    requires sid !in s.sessions.registered ==> s'.tasks.all[t].stage.Replying?
    ensures Quiet(s, s')
  {
    hide ListedInv, StaleInv, RemoveSubscription, NoEmptyLists;
  }

  lemma RemoveQuiet(s: State, s1: State, s': State, t: TaskId, sid: SessionId, m: Message)
    requires Removes(s, sid, m) && s1 == RemoveSubscription(s, sid, m.frame.channel) && IndexInv(s1)
    requires sid < s.sessions.nextId && Begins(s, s', t, sid, m)
    ensures Quiet(s1, s')
  {
    hide ListedInv, StaleInv, NoEmptyLists, Registry.RemoveFrom, Broker.Detach;
  }

  lemma DeregisterKeepsIndex(s: State, sid: SessionId)
    requires IndexInv(s)
    ensures IndexInv(DeregisterSession(s, sid))
  {
    ScrubCounts(s.sessions.index, sid);
    var s' := DeregisterSession(s, sid);
    assert forall x :: HeldBy(s', x) == HeldBy(s, x);
    forall t | t in s'.tasks.all ensures InFlightInv(s', s'.tasks.all[t]) {
      assert InFlightInv(s, s.tasks.all[t]);
    }
  }

  lemma OpenKeepsIndex(env: Env, s: State)
    requires IndexInv(s)
    ensures IndexInv(OpenSession(env, s))
  {
    var s' := OpenSession(env, s);
    assert forall x :: x != s.sessions.nextId ==> HeldBy(s', x) == HeldBy(s, x);
    forall t | t in s'.tasks.all ensures InFlightInv(s', s'.tasks.all[t]) {
      assert InFlightInv(s, s.tasks.all[t]);
    }
  }

  lemma ReleaseKeepsIndex(s: State, sid: SessionId)
    requires IndexInv(s) && Unused(s, sid)
    ensures IndexInv(ReleaseSession(s, sid))
  {
    var s' := ReleaseSession(s, sid);
    assert forall x :: x != sid ==> HeldBy(s', x) == HeldBy(s, x);
    forall t | t in s'.tasks.all ensures InFlightInv(s', s'.tasks.all[t]) {
      assert InFlightInv(s, s.tasks.all[t]);
    }
  }

  lemma StepKeepsIndex(env: Env, s: State, e: Event)
    requires IndexInv(s)
    ensures IndexInv(Step(env, s, e))
  {
    hide Begin, AdvanceTask, OpenSession, DeregisterSession, ReleaseSession, ListedInv, StaleInv, NoEmptyLists;
    match e
    case Open => OpenKeepsIndex(env, s);
    case Deregister(sid) => DeregisterKeepsIndex(s, sid);
    case Release(sid) => if Unused(s, sid) { ReleaseKeepsIndex(s, sid); }
    case Receive(t, sid, m) =>
      if t !in s.tasks.all && Reads(s, sid) {
        QuietKeepsIndex(s, Ask(s, sid, m));
        BeginKeepsIndex(env, Ask(s, sid, m), t, sid, m);
      }
    case Advance(t, fail) => if t in s.tasks.all { AdvanceKeepsIndex(env, s, t, fail); }
    case _ => QuietKeepsIndex(s, Step(env, s, e));
  }

  lemma InitIndex()
    ensures IndexInv(Init)
  {
    assert Init.held.of == map[] && Init.talk.asked == map[] && Init.tasks.all == map[];
    assert Init.sessions == Sessions(0, {}, map[]) && Init.stale == StaleAudit({}, {});
    assert forall ch: Channel :: Get(Init.sessions.index, ch, []) == [];
  }

  lemma {:induction false} RunKeepsIndex(env: Env, s: State, events: seq<Event>)
    requires IndexInv(s)
    ensures IndexInv(Run(env, s, events))
    decreases |events|
  {
    hide IndexInv, Step;
    if events != [] {
      RunKeepsIndex(env, s, events[..|events| - 1]);
      StepKeepsIndex(env, Run(env, s, events[..|events| - 1]), events[|events| - 1]);
    }
  }

  lemma NextIdIsFresh(s: State)
    requires IndexInv(s)
    ensures s.sessions.nextId !in s.held.of
  {
  }

  /**
   * In every reachable state a registered session is listed for a channel exactly
   * once if it holds a subscription to it and not at all otherwise; no channel has
   * an empty list; and a session no longer registered is listed only if a
   * subscribe was in flight when it was deregistered.
   */
  lemma IndexAgrees(env: Env, events: seq<Event>, sid: SessionId, ch: Channel)
    ensures
      var s := Run(env, Init, events);
      && NoEmptyLists(s.sessions.index)
      && (sid in s.sessions.registered ==>
            Listed(s.sessions.index, ch, sid) == if ch in HeldBy(s, sid) then 1 else 0)
      && (sid !in s.sessions.registered ==> Listed(s.sessions.index, ch, sid) <= 1)
      && (sid !in s.sessions.registered && Listed(s.sessions.index, ch, sid) == 1 ==> sid in s.stale.orphans)
  {
    InitIndex();
    RunKeepsIndex(env, Init, events);
  }
}
