// Replay on reconnect and the retry tick: what a whole batch sends and leaves behind.
module EventBatches {
  import opened Ordered
  import opened EventModel
  import opened EventInvariants
  import opened EventLedger
  import opened EventRuns
  import opened EventHistory

  // ---------- a batch is a series of steps ----------

  function ReplaySteps(u: UserId, ids: seq<EventId>): seq<Step> {
    seq(|ids|, i requires 0 <= i < |ids| => ReplayOne(u, ids[i]))
  }

  function RetrySteps(u: UserId, ids: seq<EventId>, jitter: map<EventId, real>): seq<Step> {
    seq(|ids|, i requires 0 <= i < |ids| => RetryOne(u, ids[i], Draw(jitter, ids[i])))
  }

  /** Sending one message leaves every other message of the user as it was. */
  lemma SendLeavesOthers(s: State, u: UserId, id: EventId, via: Via, x: EventId)
    requires x != id
    ensures var t := SendStored(s, u, id, via);
      t.now == s.now && (x in t.events <==> x in s.events) && (x in s.events ==> t.events[x] == s.events[x])
  {
  }

  lemma {:induction false} SendAllLeavesOthers(s: State, u: UserId, ids: seq<EventId>, via: Via, x: EventId)
    requires x !in ids
    ensures var t := SendAll(s, u, ids, via);
      t.now == s.now && (x in t.events <==> x in s.events) && (x in s.events ==> t.events[x] == s.events[x])
  {
    if ids != [] {
      SendAllLeavesOthers(s, u, ids[..|ids| - 1], via, x);
      SendLeavesOthers(SendAll(s, u, ids[..|ids| - 1], via), u, ids[|ids| - 1], via, x);
    }
  }

  /** A replay is a run of single replays. */
  lemma {:induction false} ReplayIsRun(c: Config, s: State, u: UserId, ids: seq<EventId>)
    requires NoDup(ids) && forall id :: id in ids ==> IsPending(s, u, id)
    ensures IsRun(c, s, ReplaySteps(u, ids)) && Exec(c, s, ReplaySteps(u, ids)) == SendAll(s, u, ids, Replay)
  {
    if ids != [] {
      var n := |ids| - 1;
      ReplayIsRun(c, s, u, ids[..n]);
      assert ReplaySteps(u, ids)[..n] == ReplaySteps(u, ids[..n]);
      assert ids[n] !in ids[..n] && ids[n] in ids;
      SendAllLeavesOthers(s, u, ids[..n], Replay, ids[n]);
    }
  }

  /** A user's retry batch is a run of single retries, each due when its turn comes. */
  lemma {:induction false} RetryIsRun(c: Config, s: State, u: UserId, ids: seq<EventId>, jitter: map<EventId, real>)
    requires NoDup(ids) && JitterRange(jitter) && forall id :: id in ids ==> IsDue(c, s, u, jitter, id)
    ensures IsRun(c, s, RetrySteps(u, ids, jitter)) && Exec(c, s, RetrySteps(u, ids, jitter)) == SendAll(s, u, ids, Retry)
  {
    if ids != [] {
      var n := |ids| - 1;
      RetryIsRun(c, s, u, ids[..n], jitter);
      assert RetrySteps(u, ids, jitter)[..n] == RetrySteps(u, ids[..n], jitter);
      assert ids[n] !in ids[..n] && ids[n] in ids;
      SendAllLeavesOthers(s, u, ids[..n], Retry, ids[n]);
    }
  }

  lemma RetryListed(c: Config, s: State, u: UserId, jitter: map<EventId, real>)
    requires Shape(s)
    ensures NoDup(RetryIds(c, s, u, jitter))
    ensures forall id :: id in RetryIds(c, s, u, jitter) <==> IsDue(c, s, u, jitter, id)
  {
    var due := Restrict(s.order, Due(c, s, u, jitter));
    RestrictCard(s.order, Due(c, s, u, jitter));
    SortNoDup(due, RetryRanks(s, u, due));
    forall id ensures id in RetryIds(c, s, u, jitter) <==> IsDue(c, s, u, jitter, id) {
      assert id in RetryIds(c, s, u, jitter) <==> id in Elems(due);
    }
  }

  // ---------- what a batch does ----------

  /** The messages of the history, in order. */
  function Messages(t: seq<Entry>): seq<Entry> {
    if t == [] then []
    else Messages(t[..|t| - 1]) + if t[|t| - 1].Sent? then [t[|t| - 1]] else []
  }

  function Addressed(u: UserId, ids: seq<EventId>, via: Via): seq<Entry> {
    seq(|ids|, i requires 0 <= i < |ids| => Sent(ids[i], u, via))
  }

  lemma LogMessages(t: seq<Entry>, e: Entry)
    ensures Messages(t + [e]) == Messages(t) + if e.Sent? then [e] else []
  {
    assert (t + [e])[..|t + [e]| - 1] == t;
  }

  lemma SendMessages(s: State, u: UserId, id: EventId, via: Via)
    requires id in s.events
    ensures Messages(SendStored(s, u, id, via).trace) == Messages(s.trace) + [Sent(id, u, via)]
  {
    hide Messages, Without, Unindex;
    var m := Log(s, Sent(id, u, via));
    LogMessages(s.trace, Sent(id, u, via));
    var r := s.events[id].WithStatus(u, APPLIED);
    LogMessages(m.trace, Removed(id, ByAck, r.status));
    assert m.trace + [] + [Removed(id, ByAck, r.status)] == m.trace + [Removed(id, ByAck, r.status)];
  }

  /** Where one message leaves its (record, user) entry. */
  ghost predicate Handled(s: State, t: State, u: UserId, id: EventId) {
    && (id in s.events && s.events[id].opts.qos == 1 ==> id in t.events ==> u in t.events[id].status && t.events[id].status[u] == APPLIED)
    && (id in s.events && s.events[id].opts.qos == 2 ==> id in t.events && u in t.events[id].status && t.events[id].status[u] == DELIVERED)
  }

  lemma SendHandles(s: State, m: State, u: UserId, id: EventId, via: Via)
    requires id in s.events && s.events[id].Waiting(u) && id in m.events && m.events[id] == s.events[id]
    ensures Handled(s, SendStored(m, u, id, via), u, id)
  {
  }

  lemma StaysHandled(s: State, m: State, t: State, u: UserId, id: EventId)
    requires Handled(s, m, u, id) && (id in t.events <==> id in m.events) && (id in m.events ==> t.events[id] == m.events[id])
    ensures Handled(s, t, u, id)
  {
  }

  /** A batch sends exactly its list, in order, and leaves QoS 1 applied and QoS 2 delivered. */
  lemma {:induction false} BatchSends(s: State, u: UserId, ids: seq<EventId>, via: Via)
    requires NoDup(ids) && forall id :: id in ids ==> id in s.events && s.events[id].Waiting(u)
    ensures Messages(SendAll(s, u, ids, via).trace) == Messages(s.trace) + Addressed(u, ids, via)
    ensures forall id :: id in ids ==> Handled(s, SendAll(s, u, ids, via), u, id)
  {
    hide SendStored, Handled;
    if ids != [] {
      var n := |ids| - 1;
      var m, t := SendAll(s, u, ids[..n], via), SendAll(s, u, ids, via);
      BatchSends(s, u, ids[..n], via);
      assert ids[n] !in ids[..n] && ids[n] in ids;
      SendAllLeavesOthers(s, u, ids[..n], via, ids[n]);
      SendMessages(m, u, ids[n], via);
      assert Addressed(u, ids, via) == Addressed(u, ids[..n], via) + [Sent(ids[n], u, via)];
      forall id | id in ids ensures Handled(s, t, u, id) {
        if id != ids[n] {
          assert id in ids[..n];
          SendLeavesOthers(m, u, ids[n], via, id);
          StaysHandled(s, m, t, u, id);
        } else {
          SendHandles(s, m, u, id, via);
        }
      }
    }
  }

  /**
   * Reconnect: a socket that stays open receives exactly the pending list, oldest first; every
   * QoS 1 record is then APPLIED for the user (or gone), and every QoS 2 record DELIVERED.
   */
  lemma ReconnectComplete(c: Config, s: State, u: UserId, open: nat)
    requires Wf(s) && open >= |PendingIds(s, u)|
    ensures var t := Reconnect(s, u, open); var p := PendingIds(s, u);
      && Messages(t.trace) == Messages(s.trace) + Addressed(u, p, Replay)
      && (forall id :: IsPending(s, u, id) ==> Handled(s, t, u, id))
      && IsRun(c, s, ReplaySteps(u, p)) && Exec(c, s, ReplaySteps(u, p)) == t
  {
    var p := PendingIds(s, u);
    PendingListed(s, u);
    assert p[..|p|] == p;
    BatchSends(s, u, p, Replay);
    ReplayIsRun(c, s, u, p);
  }

  /** A socket that closes after `open` messages has received the oldest `open` ones. */
  lemma ReconnectPartial(c: Config, s: State, u: UserId, open: nat)
    requires Wf(s) && open < |PendingIds(s, u)|
    ensures var t := Reconnect(s, u, open); var p := PendingIds(s, u)[..open];
      && Messages(t.trace) == Messages(s.trace) + Addressed(u, p, Replay)
      && (forall id :: id in p ==> Handled(s, t, u, id))
      && (forall id :: id in s.events && id !in p ==> id in t.events && t.events[id] == s.events[id])
      && IsRun(c, s, ReplaySteps(u, p)) && Exec(c, s, ReplaySteps(u, p)) == t
  {
    var p := PendingIds(s, u)[..open];
    PendingListed(s, u);
    assert forall id :: id in p ==> id in PendingIds(s, u);
    BatchSends(s, u, p, Replay);
    ReplayIsRun(c, s, u, p);
    forall id | id in s.events && id !in p
      ensures id in Reconnect(s, u, open).events && Reconnect(s, u, open).events[id] == s.events[id]
    {
      SendAllLeavesOthers(s, u, p, Replay, id);
    }
  }

  // ---------- the retry tick ----------

  function JitterOf(jitters: map<UserId, map<EventId, real>>, u: UserId): map<EventId, real> {
    if u in jitters then jitters[u] else map[]
  }

  /** A whole tick over the users of the index; only users with an active session are served. */
  ghost function RetryTick(c: Config, s: State, users: seq<UserId>, active: set<UserId>, jitters: map<UserId, map<EventId, real>>): State {
    if users == [] then s else
    var u := users[|users| - 1];
    var m := RetryTick(c, s, users[..|users| - 1], active, jitters);
    if u in active then RetryBatch(c, m, u, JitterOf(jitters, u)) else m
  }

  lemma SendKeepsClock(s: State, u: UserId, id: EventId, via: Via)
    ensures SendStored(s, u, id, via).births == s.births && SendStored(s, u, id, via).now == s.now
  {
  }

  lemma {:induction false} SendAllKeeps(c: Config, s: State, u: UserId, ids: seq<EventId>, via: Via)
    requires Inv(c, s) && NoDup(ids) && forall id :: id in ids ==> id in s.events && s.events[id].Waiting(u)
    ensures var t := SendAll(s, u, ids, via); Inv(c, t) && t.births == s.births && t.now == s.now
  {
    hide Inv, SendStored;
    if ids != [] {
      var n := |ids| - 1;
      SendAllKeeps(c, s, u, ids[..n], via);
      assert ids[n] !in ids[..n] && ids[n] in ids;
      SendAllLeavesOthers(s, u, ids[..n], via, ids[n]);
      SendKeeps(c, SendAll(s, u, ids[..n], via), u, ids[n], via);
      SendKeepsClock(SendAll(s, u, ids[..n], via), u, ids[n], via);
    }
  }

  lemma {:induction false} SendAllEvolves(s: State, u: UserId, ids: seq<EventId>, via: Via)
    requires NoDup(ids) && forall id :: id in ids ==> id in s.events && s.events[id].Waiting(u)
    ensures Evolves(s, SendAll(s, u, ids, via))
  {
    if ids != [] {
      var n := |ids| - 1;
      SendAllEvolves(s, u, ids[..n], via);
      assert ids[n] !in ids[..n] && ids[n] in ids;
      SendAllLeavesOthers(s, u, ids[..n], via, ids[n]);
      SendEvolves(SendAll(s, u, ids[..n], via), u, ids[n], via);
      EvolvesTwice(s, SendAll(s, u, ids[..n], via), SendAll(s, u, ids, via));
    } else {
      FewerEvolves(s, s);
    }
  }

  lemma RetryBatchKeeps(c: Config, s: State, u: UserId, jitter: map<EventId, real>)
    requires Inv(c, s)
    ensures var t := RetryBatch(c, s, u, jitter); Inv(c, t) && Evolves(s, t) && t.births == s.births && t.now == s.now
  {
    RetryListed(c, s, u, jitter);
    SendAllKeeps(c, s, u, RetryIds(c, s, u, jitter), Retry);
    SendAllEvolves(s, u, RetryIds(c, s, u, jitter), Retry);
  }

  /** A message that was never sent, of an event that wants delivery. */
  ghost predicate Unsent(s: State, u: UserId, id: EventId) {
    IsPending(s, u, id) && s.events[id].status[u] == STORED && s.events[id].opts.qos != 0
  }

  lemma BatchServes(c: Config, s: State, u: UserId, jitter: map<EventId, real>, id: EventId)
    requires Inv(c, s)
    ensures !Unsent(RetryBatch(c, s, u, jitter), u, id)
  {
    hide StableSort, Restrict, SendAll, OldestFirst, Indexed, NoDup, FitsUsers, Messages, Addressed, Held;
    RetryListed(c, s, u, jitter);
    RetryBatchKeeps(c, s, u, jitter);
    var t := RetryBatch(c, s, u, jitter);
    assert Accounted(s, id) && Accounted(t, id);
    BatchSends(s, u, RetryIds(c, s, u, jitter), Retry);
    if Unsent(s, u, id) {
      assert IsDue(c, s, u, jitter, id);
      assert Handled(s, t, u, id);
    }
  }

  /** Nothing becomes unsent while no event is created. */
  lemma UnsentBefore(c: Config, s: State, t: State, u: UserId, id: EventId)
    requires Inv(c, s) && Inv(c, t) && Evolves(s, t) && t.births == s.births && t.now == s.now && Unsent(t, u, id)
    ensures Unsent(s, u, id)
  {
    assert Accounted(t, id) && Accounted(s, id);
    assert RecEvolves(s.events[id], t.events[id]);
  }

  /**
   * The retry tick is complete: after it no served user with an active session has an unexpired
   * event of QoS 1 or 2 that was never sent.
   */
  lemma {:induction false} TickServes(c: Config, s: State, users: seq<UserId>, active: set<UserId>,
      jitters: map<UserId, map<EventId, real>>)
    requires Inv(c, s)
    ensures var t := RetryTick(c, s, users, active, jitters);
      && Inv(c, t) && Evolves(s, t) && t.births == s.births && t.now == s.now
      && (forall u, id :: u in users && u in active ==> !Unsent(t, u, id))
  {
    hide Inv, Evolves, Unsent, RetryBatch;
    if users == [] {
      FewerEvolves(s, s);
    } else {
      var n := |users| - 1;
      var m, t, v := RetryTick(c, s, users[..n], active, jitters), RetryTick(c, s, users, active, jitters), users[n];
      TickServes(c, s, users[..n], active, jitters);
      if v in active {
        RetryBatchKeeps(c, m, v, JitterOf(jitters, v));
        EvolvesTwice(s, m, t);
      }
      forall u, id | u in users && u in active ensures !Unsent(t, u, id) {
        if u == v {
          BatchServes(c, m, v, JitterOf(jitters, v), id);
        } else if Unsent(t, u, id) {
          assert u in users[..n];
          UnsentBefore(c, m, t, u, id);
        }
      }
    }
  }

  /** A tick over every indexed user leaves no active user with anything never sent. */
  lemma TickComplete(c: Config, s: State, users: seq<UserId>, active: set<UserId>,
      jitters: map<UserId, map<EventId, real>>, u: UserId, id: EventId)
    requires Inv(c, s) && (forall v :: v in s.index ==> v in users) && u in active
    ensures !Unsent(RetryTick(c, s, users, active, jitters), u, id)
  {
    var t := RetryTick(c, s, users, active, jitters);
    TickServes(c, s, users, active, jitters);
    assert u !in users ==> !IsPending(s, u, id) by {
      assert IsPending(s, u, id) ==> InIndex(s, u, id);
    }
    if Unsent(t, u, id) && u !in users {
      UnsentBefore(c, s, t, u, id);
    }
  }
}
