// What each step of the event store does, record by record, said of the record before the step.
module EventEffects {
  import opened Ordered
  import opened EventModel
  import opened EventInvariants
  import opened EventLedger
  import opened EventRuns

  /** Nothing but event `id` differs between two moments. */
  ghost predicate OnlyTouches(s: State, t: State, id: EventId) {
    && t.now == s.now && t.births == s.births
    && (forall x :: x != id ==> (x in t.events <==> x in s.events))
    && (forall x :: x != id && x in s.events && x in t.events ==> t.events[x] == s.events[x])
  }

  /** Everybody attached but `u` has acknowledged. */
  ghost predicate OthersDone(r: Rec, u: UserId) {
    forall v :: v in r.status && v != u ==> r.status[v] == APPLIED
  }

  /** The event left without a notice, acknowledged by all. */
  ghost predicate LeftByAck(s: State, t: State, id: EventId, u: UserId)
    requires id in s.events
  {
    && id !in t.events
    && Removals(t.trace, id) == [Removed(id, ByAck, s.events[id].status[u := APPLIED])]
    && Count(NoticesOf(id), t.trace) == 0
  }

  // ---------- acknowledgement ----------

  lemma StoredIsUnremoved(s: State, id: EventId)
    requires Ledger(s) && id in s.events
    ensures Removals(s.trace, id) == [] && Count(NoticesOf(id), s.trace) == 0
  {
    hide Count, Removals, Held;
    assert Accounted(s, id);
  }

  lemma AppliedEffect(s: State, u: UserId, id: EventId)
    requires id in s.events && Removals(s.trace, id) == [] && Count(NoticesOf(id), s.trace) == 0
    ensures var t := MarkApplied(s, u, id);
      && OnlyTouches(s, t, id)
      && (OthersDone(s.events[id], u) ==> LeftByAck(s, t, id, u))
      && (!OthersDone(s.events[id], u) ==>
           id in t.events && t.events[id] == s.events[id].(status := s.events[id].status[u := APPLIED]) && t.trace == s.trace)
  {
    hide Count, Removals, Without, Unindex;
    var r := s.events[id].WithStatus(u, APPLIED);
    if OthersDone(s.events[id], u) {
      assert r.AllApplied();
      RemoveCounts(Touch(s, id, r), id, ByAck);
    } else {
      var v :| v in s.events[id].status && v != u && s.events[id].status[v] != APPLIED;
      assert v in r.status && r.status[v] != APPLIED;
    }
  }

  /**
   * An acknowledgement of a stored event: it is gone afterwards if and only if everybody else
   * attached is APPLIED, then with one removal by acknowledgement and no notice; otherwise the user
   * is APPLIED and nothing else has changed. No other event is touched.
   */
  lemma AcknowledgeEffect(c: Config, s: State, u: UserId, id: EventId)
    requires Ledger(s) && id in s.events
    ensures var t := Next(c, s, Acknowledge(u, id));
      && OnlyTouches(s, t, id)
      && (id !in t.events <==> OthersDone(s.events[id], u))
      && (id !in t.events ==> LeftByAck(s, t, id, u))
      && (id in t.events ==>
           t.events[id] == s.events[id].(status := s.events[id].status[u := APPLIED]) && t.trace == s.trace)
  {
    hide Count, Removals, MarkApplied, Ledger;
    StoredIsUnremoved(s, id);
    AppliedEffect(s, u, id);
  }

  // ---------- sends from the store ----------

  lemma SentIsUnremoved(s: State, u: UserId, id: EventId, via: Via)
    requires Ledger(s) && id in s.events
    ensures var m := Log(s, Sent(id, u, via)); Removals(m.trace, id) == [] && Count(NoticesOf(id), m.trace) == 0
  {
    hide Count, Removals;
    StoredIsUnremoved(s, id);
    LogCounts(s.trace, Sent(id, u, via));
  }

  /** A replay or retry of a QoS 1 event counts as its acknowledgement. */
  lemma SendOneEffect(s: State, u: UserId, id: EventId, via: Via)
    requires Ledger(s) && id in s.events && s.events[id].opts.qos == 1
    ensures var t := SendStored(s, u, id, via);
      && OnlyTouches(s, t, id)
      && (id !in t.events <==> OthersDone(s.events[id], u))
      && (id !in t.events ==> LeftByAck(s, t, id, u))
      && (id in t.events ==>
           && t.events[id] == s.events[id].(status := s.events[id].status[u := APPLIED])
           && t.trace == s.trace + [Sent(id, u, via)])
  {
    hide Count, Removals, MarkApplied, Ledger;
    SentIsUnremoved(s, u, id, via);
    AppliedEffect(Log(s, Sent(id, u, via)), u, id);
  }

  /** A replay or retry of a QoS 2 event marks it DELIVERED, counts an attempt and notes the time. */
  lemma SendTwoEffect(s: State, u: UserId, id: EventId, via: Via)
    requires id in s.events && s.events[id].opts.qos == 2 && s.events[id].Waiting(u)
    ensures var t, r := SendStored(s, u, id, via), s.events[id];
      && OnlyTouches(s, t, id) && id in t.events && t.trace == s.trace + [Sent(id, u, via)]
      && t.events[id] == Rec(r.opts, r.createdAt, r.status[u := DELIVERED],
           r.attempts[u := 1 + if u in r.attempts then r.attempts[u] else 0], r.last[u := s.now])
  {
  }

  /** A replay or retry of a QoS 0 event changes nothing. */
  lemma SendZeroEffect(s: State, u: UserId, id: EventId, via: Via)
    requires id in s.events && s.events[id].opts.qos == 0
    ensures var t := SendStored(s, u, id, via); t == s.(trace := s.trace + [Sent(id, u, via)])
  {
  }

  /** The effect of a replay and of a retry, by QoS. */
  ghost predicate SendEffect(s: State, t: State, u: UserId, id: EventId, via: Via)
    requires id in s.events
  {
    var r := s.events[id];
    && OnlyTouches(s, t, id)
    && (r.opts.qos == 0 ==> t == s.(trace := s.trace + [Sent(id, u, via)]))
    && (r.opts.qos == 1 ==> (id !in t.events <==> OthersDone(r, u)) && (id !in t.events ==> LeftByAck(s, t, id, u)))
    && (id in t.events ==> t.trace == s.trace + [Sent(id, u, via)])
    && (r.opts.qos == 1 && id in t.events ==> t.events[id] == r.(status := r.status[u := APPLIED]))
    && (r.opts.qos == 2 ==> id in t.events && t.events[id] == Rec(r.opts, r.createdAt, r.status[u := DELIVERED],
          r.attempts[u := 1 + if u in r.attempts then r.attempts[u] else 0], r.last[u := s.now]))
  }

  lemma StoreSendEffect(c: Config, s: State, u: UserId, id: EventId, jitter: real)
    requires Ledger(s) && id in s.events && s.events[id].Waiting(u)
    ensures SendEffect(s, Next(c, s, ReplayOne(u, id)), u, id, Replay)
    ensures SendEffect(s, Next(c, s, RetryOne(u, id, jitter)), u, id, Retry)
  {
    hide SendStored, Ledger, LeftByAck, OthersDone, OnlyTouches;
    SendEffects(s, u, id, Replay);
    SendEffects(s, u, id, Retry);
  }

  lemma SendEffects(s: State, u: UserId, id: EventId, via: Via)
    requires Ledger(s) && id in s.events && s.events[id].Waiting(u)
    ensures SendEffect(s, SendStored(s, u, id, via), u, id, via)
  {
    hide SendStored, Ledger, LeftByAck, OthersDone;
    if s.events[id].opts.qos == 1 {
      SendOneEffect(s, u, id, via);
    } else if s.events[id].opts.qos == 2 {
      SendTwoEffect(s, u, id, via);
    } else {
      SendZeroEffect(s, u, id, via);
    }
  }

  // ---------- marks and timers ----------

  /** A late mark of a user still attached: nothing if it is APPLIED, else DELIVERED and one attempt. */
  lemma LateMarkEffect(c: Config, s: State, u: UserId, id: EventId)
    requires id in s.events && u in s.events[id].status
    ensures var t, r := Next(c, s, LateMark(u, id)), s.events[id];
      && OnlyTouches(s, t, id) && t.trace == s.trace && id in t.events
      && t.events[id] == if r.status[u] == APPLIED then r else
           Rec(r.opts, r.createdAt, r.status[u := DELIVERED],
             r.attempts[u := 1 + if u in r.attempts then r.attempts[u] else 0], r.last[u := s.now])
  {
  }

  /** An event has a time to live and it is over. */
  ghost predicate Over(r: Rec, now: int) {
    r.opts.ttl != 0 && r.createdAt + r.opts.ttl != 0 && now > r.createdAt + r.opts.ttl
  }

  lemma OverIsExpired(r: Rec, now: int)
    ensures Over(r, now) <==> r.Expired(now)
  {
  }

  /** The event left because its time was over; the sender hears of it if it asked. */
  ghost predicate LeftByExpiry(s: State, t: State, id: EventId)
    requires id in s.events
  {
    var r := s.events[id];
    && id !in t.events
    && Removals(t.trace, id) == [Removed(id, ByExpiry, r.status)]
    && Count(NoticesOf(id), t.trace) == if r.opts.notifySender && r.opts.senderId != 0 then 1 else 0
  }

  /** The expiry timer removes its event if and only if the time is over, and touches no other. */
  lemma TimerEffect(c: Config, s: State, id: EventId)
    requires Ledger(s) && id in s.events
    ensures var t := Next(c, s, TimerFires(id));
      && OnlyTouches(s, t, id)
      && (Over(s.events[id], s.now) ==> LeftByExpiry(s, t, id))
      && (!Over(s.events[id], s.now) ==> t == s)
  {
    hide Count, Removals, Without, Unindex, Ledger;
    StoredIsUnremoved(s, id);
    OverIsExpired(s.events[id], s.now);
    RemoveCounts(s, id, ByExpiry);
  }
}
