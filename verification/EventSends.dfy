// How often the messages of a stored event are sent, over whole runs.
module EventSends {
  import opened Ordered
  import opened EventModel
  import opened EventLedger
  import opened EventRuns

  /** Every mark comes from a driver that has just sent the message. */
  predicate Driven(run: seq<Step>) {
    forall i | 0 <= i < |run| :: !run[i].LateMark?
  }

  predicate CountsSends(q: Query) {
    q.SendsOf? || q.CutsOf? || q.ReplaysOf? || q.StoreSendsOf?
  }

  /** Nothing is sent, and no record gains an attempt or a waiting user. */
  ghost predicate Quiet(s: State, t: State) {
    && s.now <= t.now && t.births == s.births
    && (forall q :: CountsSends(q) ==> Count(q, t.trace) == Count(q, s.trace))
    && t.events.Keys <= s.events.Keys
    && (forall id :: id in t.events ==> t.events[id] == s.events[id].(status := t.events[id].status))
    && (forall id, u :: id in t.events && t.events[id].Waiting(u) ==>
          s.events[id].Waiting(u) && t.events[id].status[u] == s.events[id].status[u])
  }

  lemma QuietSelf(s: State)
    ensures Quiet(s, s)
  {
  }

  lemma QuietTwice(s: State, m: State, t: State)
    requires Quiet(s, m) && Quiet(m, t)
    ensures Quiet(s, t)
  {
    forall id | id in t.events
      ensures id in s.events && t.events[id] == s.events[id].(status := t.events[id].status)
    {
      assert t.events[id] == m.events[id].(status := t.events[id].status);
    }
  }

  lemma RemoveIsQuiet(s: State, id: EventId, reason: Reason)
    ensures Quiet(s, Remove(s, id, reason))
  {
    if id in s.events {
      RemoveCounts(s, id, reason);
    }
  }

  lemma {:induction false} RemoveAllIsQuiet(s: State, ids: seq<EventId>, reason: Reason)
    ensures Quiet(s, RemoveAll(s, ids, reason))
  {
    if ids != [] {
      var m := RemoveAll(s, ids[..|ids| - 1], reason);
      RemoveAllIsQuiet(s, ids[..|ids| - 1], reason);
      RemoveIsQuiet(m, ids[|ids| - 1], reason);
      QuietTwice(s, m, RemoveAll(s, ids, reason));
    }
  }

  lemma AppliedIsQuiet(s: State, u: UserId, id: EventId)
    ensures Quiet(s, MarkApplied(s, u, id))
  {
    if id in s.events {
      var m := Touch(s, id, s.events[id].WithStatus(u, APPLIED));
      assert Quiet(s, m);
      RemoveIsQuiet(m, id, ByAck);
      QuietTwice(s, m, Remove(m, id, ByAck));
    }
  }

  lemma DetachIsQuiet(s: State, u: UserId, id: EventId)
    requires id in s.events && u in s.index
    ensures Quiet(s, Detach(s, u, id))
  {
    hide Count;
    LogCounts(s.trace, Evicted(id, u));
  }

  lemma EvictIsQuiet(s: State, u: UserId, id: EventId)
    ensures Quiet(s, Evict(s, u, id))
  {
    hide Quiet, Remove;
    QuietSelf(s);
    if id in s.events && u in s.index {
      var m := Detach(s, u, id);
      DetachIsQuiet(s, u, id);
      RemoveIsQuiet(m, id, ByForce);
      QuietTwice(s, m, Remove(m, id, ByForce));
    }
  }

  lemma {:induction false} EvictAllIsQuiet(s: State, u: UserId, ids: seq<EventId>)
    ensures Quiet(s, EvictAll(s, u, ids))
  {
    if ids != [] {
      var m := EvictAll(s, u, ids[..|ids| - 1]);
      EvictAllIsQuiet(s, u, ids[..|ids| - 1]);
      EvictIsQuiet(m, u, ids[|ids| - 1]);
      QuietTwice(s, m, EvictAll(s, u, ids));
    }
  }

  lemma {:induction false} EnforceAllIsQuiet(c: Config, s: State, us: seq<UserId>)
    ensures Quiet(s, EnforceAll(c, s, us))
  {
    if us != [] {
      var m := EnforceAll(c, s, us[..|us| - 1]);
      EnforceAllIsQuiet(c, s, us[..|us| - 1]);
      EvictAllIsQuiet(m, us[|us| - 1], Victims(c, m, us[|us| - 1]));
      QuietTwice(s, m, EnforceAll(c, s, us));
    }
  }

  // ---------- what every driven run keeps ----------

  /** The sends of a message that were marked: all but one of a first send that broke off. */
  ghost function Marked(s: State, id: EventId, u: UserId): int {
    Count(SendsOf(id, u), s.trace) - Count(CutsOf(id, u), s.trace)
  }

  /** QoS 2: gaps between retries, counted from the creation of the record. */
  ghost predicate Paced(c: Config, s: State, id: EventId, u: UserId)
    requires id in s.births
  {
    var b := s.births[id];
    var n := Marked(s, id, u);
    var k := n - Count(ReplaysOf(id, u), s.trace) - 1;
    && Count(ReplaysOf(id, u), s.trace) <= n
    && (b.opts.ttl > 0 && n >= 1 ==> k * (c.deliveredTimeout + 1) <= b.opts.ttl)
    && (id in s.events ==>
          var r := s.events[id];
          && n == r.Attempts(u)
          && (n >= 1 ==> 0 < r.createdAt <= r.Last(u) <= s.now && k * (c.deliveredTimeout + 1) <= r.Last(u) - r.createdAt)
          && (r.Waiting(u) && r.status[u] == FAILED ==> s.now - r.Last(u) > c.staleTimeout))
  }

  /** QoS 2: a waiting message is STORED exactly while no send of it has been marked. */
  ghost predicate Tracked(s: State, id: EventId, u: UserId) {
    && 0 <= Marked(s, id, u)
    && (id in s.events && s.events[id].Waiting(u) ==> (s.events[id].status[u] == STORED <==> Marked(s, id, u) == 0))
  }

  /** QoS 1: a message still waiting has never been sent from the store. */
  ghost predicate Once(s: State, id: EventId, u: UserId) {
    && Count(StoreSendsOf(id, u), s.trace) <= 1
    && (id in s.events && s.events[id].Waiting(u) ==> Count(StoreSendsOf(id, u), s.trace) == 0)
  }

  ghost predicate SendOk(c: Config, s: State, id: EventId, u: UserId)
    requires id in s.births
  {
    && (s.births[id].opts.qos == 2 && 0 <= c.deliveredTimeout <= c.staleTimeout ==> Paced(c, s, id, u))
    && (s.births[id].opts.qos == 2 ==> Tracked(s, id, u))
    && (s.births[id].opts.qos == 1 ==> Once(s, id, u))
  }

  ghost predicate SendsOk(c: Config, s: State) {
    && s.now > 0
    && (forall id :: id in s.births ==> 0 < s.births[id].at)
    && (forall id, u :: id in s.births ==> SendOk(c, s, id, u))
  }

  lemma QuietKeepsSends(c: Config, s: State, t: State)
    requires SendsOk(c, s) && Quiet(s, t)
    ensures SendsOk(c, t)
  {
    forall id, u | id in t.births ensures SendOk(c, t, id, u) {
      assert id in s.births ==> SendOk(c, s, id, u);
      assert CountsSends(CutsOf(id, u));
      assert CountsSends(SendsOf(id, u)) && CountsSends(ReplaysOf(id, u)) && CountsSends(StoreSendsOf(id, u));
    }
  }

  lemma InsertKeepsSends(c: Config, s: State, id: EventId, targets: seq<UserId>, opts: Options)
    requires SendsOk(c, s) && Ledger(s) && id !in s.births
    ensures SendsOk(c, Insert(s, id, targets, opts))
  {
    var t := Insert(s, id, targets, opts);
    assert Accounted(s, id);
    forall x, u | x in t.births ensures SendOk(c, t, x, u) {
      assert x in s.births ==> SendOk(c, s, x, u);
      if x == id {
        assert Count(SendsOf(x, u), s.trace) == 0;
        assert Count(CutsOf(x, u), s.trace) == 0;
        assert Count(StoreSendsOf(x, u), s.trace) == 0;
      }
    }
  }

  lemma CreateKeepsSends(c: Config, s: State, id: EventId, targets: seq<UserId>, opts: Options)
    requires c.Sane() && Inv(c, s) && SendsOk(c, s) && id !in s.births
    ensures SendsOk(c, Create(c, s, id, targets, opts))
  {
    var m := MakeRoom(c, s);
    RemoveAllIsQuiet(s, ForceVictims(c, s), ByForce);
    assert SendsOk(c, m) by {
      if m != s {
        QuietKeepsSends(c, s, m);
      }
    }
    MakeRoomKeeps(c, s);
    InsertKeepsSends(c, m, id, targets, opts);
    var i := Insert(m, id, targets, opts);
    EnforceAllIsQuiet(c, i, targets);
    QuietKeepsSends(c, i, EnforceAll(c, i, targets));
  }

  lemma StaleKeepsSends(c: Config, s: State)
    requires SendsOk(c, s) && Ledger(s)
    ensures SendsOk(c, MarkStale(c, s))
  {
    var t := MarkStale(c, s);
    forall id, u | id in t.births ensures SendOk(c, t, id, u) {
      assert id in s.births ==> SendOk(c, s, id, u);
      if id in t.events {
        assert t.events[id].Waiting(u) <==> s.events[id].Waiting(u);
      }
    }
  }

  lemma CleanupKeepsSends(c: Config, s: State)
    requires SendsOk(c, s) && Ledger(s)
    ensures SendsOk(c, Cleanup(c, s))
  {
    var ids := Restrict(s.order, ExpiredIds(s));
    var a := CleanupExpired(s);
    RemoveAllIsQuiet(s, ids, ByExpiry);
    QuietKeepsSends(c, s, a);
    RemoveAllKeepsLedger(s, ids, ByExpiry);
    StaleKeepsSends(c, a);
    var b := MarkStale(c, a);
    RemoveAllIsQuiet(b, ForceVictims(c, b), ByForce);
    if |b.events| > c.maxTotal {
      QuietKeepsSends(c, b, Cleanup(c, s));
    }
  }

  lemma OneMoreGap(k: int, d: int)
    ensures (k + 1) * d == k * d + d
  {
  }

  /** A message goes to a waiting user of an unexpired record, late enough if it is a retry. */
  ghost predicate MaySend(c: Config, s: State, u: UserId, id: EventId, via: Via) {
    && id in s.events && s.events[id].Waiting(u)
    && (s.events[id].opts.ttl > 0 ==> !s.events[id].Expired(s.now))
    && (via == Retry ==> exists j :: ShouldRetry(c, s.events[id], u, s.now, j))
    && via != Cut
    && (via == Live ==> s.events[id].opts.qos == 2 && s.events[id].status[u] == STORED)
  }

  /** The arithmetic of one send: a retry of a sent message comes a whole timeout later. */
  lemma GapFits(c: Config, s: State, u: UserId, id: EventId, via: Via, k: int, n: nat)
    requires MaySend(c, s, u, id, via) && 0 <= c.deliveredTimeout <= c.staleTimeout
    requires id in s.births && s.births[id].opts == s.events[id].opts && s.births[id].at == s.events[id].createdAt
    requires n == Marked(s, id, u) && k == n - Count(ReplaysOf(id, u), s.trace) - 1
    requires Paced(c, s, id, u) && Tracked(s, id, u) && 0 < s.events[id].createdAt <= s.now
    ensures var k' := if via == Replay then k else k + 1;
      && k' * (c.deliveredTimeout + 1) <= s.now - s.events[id].createdAt
      && (s.events[id].opts.ttl > 0 ==> k' * (c.deliveredTimeout + 1) <= s.events[id].opts.ttl)
  {
    OneMoreGap(k, c.deliveredTimeout + 1);
  }

  lemma DeliverKeepsOthers(c: Config, s: State, u: UserId, id: EventId, via: Via, x: EventId, v: UserId)
    requires x in s.births && SendOk(c, s, x, v) && (x != id || v != u)
    ensures SendOk(c, MarkDelivered(Log(s, Sent(id, u, via)), u, id), x, v)
  {
    hide Count;
    LogCounts(s.trace, Sent(id, u, via));
    var t := MarkDelivered(Log(s, Sent(id, u, via)), u, id);
    assert Count(SendsOf(x, v), t.trace) == Count(SendsOf(x, v), s.trace);
    assert Count(CutsOf(x, v), t.trace) == Count(CutsOf(x, v), s.trace);
    assert Count(ReplaysOf(x, v), t.trace) == Count(ReplaysOf(x, v), s.trace);
    assert Count(StoreSendsOf(x, v), t.trace) == Count(StoreSendsOf(x, v), s.trace);
  }

  lemma MarkedGrows(s: State, u: UserId, id: EventId, via: Via)
    requires via != Cut
    ensures var t := MarkDelivered(Log(s, Sent(id, u, via)), u, id);
      && Marked(t, id, u) == Marked(s, id, u) + 1
      && Count(ReplaysOf(id, u), t.trace) == Count(ReplaysOf(id, u), s.trace) + if via == Replay then 1 else 0
  {
    hide Count;
    LogCounts(s.trace, Sent(id, u, via));
  }

  lemma DeliverKeepsOwn(c: Config, s: State, u: UserId, id: EventId, via: Via)
    requires MaySend(c, s, u, id, via) && id in s.births && SendOk(c, s, id, u)
    requires s.births[id].opts == s.events[id].opts && s.births[id].at == s.events[id].createdAt && s.births[id].opts.qos == 2
    requires 0 < s.events[id].createdAt <= s.now
    ensures SendOk(c, MarkDelivered(Log(s, Sent(id, u, via)), u, id), id, u)
  {
    hide Marked, Count;
    MarkedGrows(s, u, id, via);
    if 0 <= c.deliveredTimeout <= c.staleTimeout {
      var n := Marked(s, id, u);
      var k := n - Count(ReplaysOf(id, u), s.trace) - 1;
      GapFits(c, s, u, id, via, k, n);
    }
  }

  /** One QoS 2 message: the record's state and the history stay in step. */
  lemma DeliverKeepsSends(c: Config, s: State, u: UserId, id: EventId, via: Via)
    requires Inv(c, s) && SendsOk(c, s) && MaySend(c, s, u, id, via) && s.events[id].opts.qos == 2
    ensures SendsOk(c, MarkDelivered(Log(s, Sent(id, u, via)), u, id))
  {
    assert Accounted(s, id);
    var t := MarkDelivered(Log(s, Sent(id, u, via)), u, id);
    forall x, v | x in t.births ensures SendOk(c, t, x, v) {
      assert SendOk(c, s, x, v);
      if x == id && v == u {
        DeliverKeepsOwn(c, s, u, id, via);
      } else {
        DeliverKeepsOthers(c, s, u, id, via, x, v);
      }
    }
  }

  lemma ApplyKeepsOthers(c: Config, s: State, u: UserId, id: EventId, via: Via, x: EventId, v: UserId)
    requires id in s.events && id in s.births && s.births[id].opts.qos == 1 && x in s.births && SendOk(c, s, x, v) && (x != id || v != u)
    ensures SendOk(c, Touch(Log(s, Sent(id, u, via)), id, s.events[id].WithStatus(u, APPLIED)), x, v)
  {
    hide Count;
    LogCounts(s.trace, Sent(id, u, via));
    var t := Log(s, Sent(id, u, via));
    assert x != id ==> Marked(t, x, v) == Marked(s, x, v);
  }

  lemma ApplyKeepsOwn(c: Config, s: State, u: UserId, id: EventId, via: Via)
    requires id in s.events && s.events[id].Waiting(u) && id in s.births && s.births[id].opts.qos == 1 && SendOk(c, s, id, u)
    ensures SendOk(c, Touch(Log(s, Sent(id, u, via)), id, s.events[id].WithStatus(u, APPLIED)), id, u)
  {
    hide Count, Paced;
    LogCounts(s.trace, Sent(id, u, via));
  }

  /** One QoS 1 message: sent, and never waiting again. */
  lemma ApplyKeepsSends(c: Config, s: State, u: UserId, id: EventId, via: Via)
    requires Inv(c, s) && SendsOk(c, s) && id in s.events && s.events[id].Waiting(u) && s.events[id].opts.qos == 1
    ensures SendsOk(c, MarkApplied(Log(s, Sent(id, u, via)), u, id))
  {
    hide Count, SendOk, Remove, Wf, FitsUsers, Ledger;
    BirthOf(s, id);
    var m := Touch(Log(s, Sent(id, u, via)), id, s.events[id].WithStatus(u, APPLIED));
    forall x, v | x in m.births ensures SendOk(c, m, x, v) {
      if x == id && v == u {
        ApplyKeepsOwn(c, s, u, id, via);
      } else {
        ApplyKeepsOthers(c, s, u, id, via, x, v);
      }
    }
    RemoveIsQuiet(m, id, ByAck);
    QuietKeepsSends(c, m, Remove(m, id, ByAck));
  }

  lemma LogKeepsSends(c: Config, s: State, u: UserId, id: EventId, via: Via)
    requires SendsOk(c, s) && id in s.births && s.births[id].opts.qos == 0
    ensures SendsOk(c, Log(s, Sent(id, u, via)))
  {
    var t := Log(s, Sent(id, u, via));
    LogCounts(s.trace, Sent(id, u, via));
    forall x, v | x in t.births ensures SendOk(c, t, x, v) {
      assert SendOk(c, s, x, v);
    }
  }

  lemma StoredSendKeepsSends(c: Config, s: State, u: UserId, id: EventId, via: Via)
    requires Inv(c, s) && SendsOk(c, s) && MaySend(c, s, u, id, via)
    ensures SendsOk(c, SendStored(s, u, id, via))
  {
    assert Accounted(s, id);
    if s.events[id].opts.qos == 2 {
      DeliverKeepsSends(c, s, u, id, via);
    } else if s.events[id].opts.qos == 1 {
      ApplyKeepsSends(c, s, u, id, via);
    } else {
      LogKeepsSends(c, s, u, id, via);
    }
  }

  /** The live sends of a fresh QoS 2 event reach each online user once. */
  lemma {:induction false} LiveKeepsSends(c: Config, s: State, id: EventId, online: seq<UserId>)
    requires Inv(c, s) && SendsOk(c, s) && NoDup(online)
    requires id in s.events && s.events[id].opts.qos == 2
    requires s.events[id].opts.ttl > 0 ==> !s.events[id].Expired(s.now)
    requires forall u :: u in online ==> u in s.events[id].status && s.events[id].status[u] == STORED
    ensures var t := LiveAll(s, id, online);
      && SendsOk(c, t) && t.now == s.now && id in t.events
      && t.events[id].opts == s.events[id].opts && t.events[id].createdAt == s.events[id].createdAt
      && (forall v :: v in s.events[id].status && v !in online ==> v in t.events[id].status && t.events[id].status[v] == s.events[id].status[v])
  {
    if online != [] {
      var n := |online| - 1;
      LiveKeepsSends(c, s, id, online[..n]);
      LiveKeeps(c, s, id, online[..n]);
      assert online[n] !in online[..n];
      assert online[n] in online;
      DeliverKeepsSends(c, LiveAll(s, id, online[..n]), online[n], id, Live);
      assert forall v :: v in online <==> v in online[..n] || v == online[n];
    }
  }

  lemma DispatchKeepsSends(c: Config, s: State, id: EventId, online: seq<UserId>, offline: seq<UserId>, opts: Options)
    requires c.Sane() && Inv(c, s) && SendsOk(c, s)
    requires Enabled(c, s, Dispatch(id, online, offline, opts))
    ensures SendsOk(c, Dispatch2(c, s, id, online, offline, opts))
  {
    CreateKeeps(c, s, id, online + offline, opts);
    CreateKeepsSends(c, s, id, online + offline, opts);
    var t := Create(c, s, id, online + offline, opts);
    assert t.events[id] == Fresh(s, online + offline, opts);
    LiveKeepsSends(c, t, id, online);
  }

  /** A live send that is never marked counts as a cut, and nothing else changes. */
  lemma CutKeepsSends(c: Config, s: State, id: EventId, u: UserId)
    requires SendsOk(c, s) && id in s.births && s.births[id].opts.qos == 2
    ensures SendsOk(c, Log(s, Sent(id, u, Cut)))
  {
    hide Count;
    var t := Log(s, Sent(id, u, Cut));
    LogCounts(s.trace, Sent(id, u, Cut));
    forall x, v | x in t.births ensures SendOk(c, t, x, v) {
      assert SendOk(c, s, x, v);
      assert Marked(t, x, v) == Marked(s, x, v);
    }
  }

  lemma {:induction false} CutsKeepSends(c: Config, s: State, id: EventId, us: seq<UserId>)
    requires SendsOk(c, s) && id in s.births && s.births[id].opts.qos == 2
    ensures SendsOk(c, LogAll(s, id, us, Cut)) && LogAll(s, id, us, Cut).births == s.births
  {
    hide SendsOk;
    if us != [] {
      CutsKeepSends(c, s, id, us[..|us| - 1]);
      CutKeepsSends(c, LogAll(s, id, us[..|us| - 1], Cut), id, us[|us| - 1]);
    }
  }

  lemma BrokenKeepsSends(c: Config, s: State, id: EventId, online: seq<UserId>, offline: seq<UserId>, written: nat, opts: Options)
    requires c.Sane() && Inv(c, s) && SendsOk(c, s)
    requires Enabled(c, s, BrokenDispatch(id, online, offline, written, opts))
    ensures SendsOk(c, CutDispatch(c, s, id, online, offline, written, opts))
  {
    hide SendsOk, Create, LogAll;
    CreateKeeps(c, s, id, online + offline, opts);
    CreateKeepsSends(c, s, id, online + offline, opts);
    BirthOf(Create(c, s, id, online + offline, opts), id);
    CutsKeepSends(c, Create(c, s, id, online + offline, opts), id, online[..written]);
  }

  lemma NextKeepsSends(c: Config, s: State, e: Step)
    requires c.Sane()
    requires Inv(c, s) && SendsOk(c, s) && Enabled(c, s, e) && !e.LateMark?
    ensures SendsOk(c, Next(c, s, e))
  {
    match e
    case Elapse(ms) => QuietKeepsSends(c, s, Next(c, s, e));
    case Publish(id, targets, opts) => CreateKeepsSends(c, s, id, targets, opts);
    case Dispatch(id, online, offline, opts) =>
      DispatchKeepsSends(c, s, id, online, offline, opts);
    case BrokenDispatch(id, online, offline, written, opts) =>
      BrokenKeepsSends(c, s, id, online, offline, written, opts);
    case Acknowledge(u, id) =>
      AppliedIsQuiet(s, u, id);
      QuietKeepsSends(c, s, Next(c, s, e));
    case LateMark(u, id) =>
    case ReplayOne(u, id) => StoredSendKeepsSends(c, s, u, id, Replay);
    case RetryOne(u, id, j) => StoredSendKeepsSends(c, s, u, id, Retry);
    case TimerFires(id) =>
      RemoveIsQuiet(s, id, ByExpiry);
      if Next(c, s, e) != s {
        QuietKeepsSends(c, s, Next(c, s, e));
      }
    case CleanupTick => CleanupKeepsSends(c, s);
  }

  lemma {:induction false} RunKeepsSends(c: Config, now: int, run: seq<Step>)
    requires c.Sane() && 0 < now
    requires IsRun(c, Init(now), run) && Driven(run)
    ensures SendsOk(c, Exec(c, Init(now), run))
  {
    if run != [] {
      RunKeepsSends(c, now, run[..|run| - 1]);
      RunKeepsInv(c, now, run[..|run| - 1]);
      assert !run[|run| - 1].LateMark?;
      NextKeepsSends(c, Exec(c, Init(now), run[..|run| - 1]), run[|run| - 1]);
    }
  }

  // ---------- the results ----------

  lemma AtLeastProduct(a: int, b: int, d: int)
    requires a >= b && d > 0
    ensures a * d >= b * d
  {
  }

  lemma AtMostQuotient(k: int, d: int, x: int)
    requires d > 0 && x >= 0 && k * d <= x
    ensures k <= x / d
  {
    if k >= x / d + 1 {
      AtLeastProduct(k, x / d + 1, d);
    }
  }

  lemma PacedBound(c: Config, s: State, id: EventId, u: UserId)
    requires 0 <= c.deliveredTimeout <= c.staleTimeout && id in s.births && SendsOk(c, s)
    requires s.births[id].opts.qos == 2 && s.births[id].opts.ttl > 0
    ensures Marked(s, id, u) <= 1 + Count(ReplaysOf(id, u), s.trace) + s.births[id].opts.ttl / (c.deliveredTimeout + 1)
    ensures id in s.events ==> s.events[id].Attempts(u) == Marked(s, id, u)
  {
    hide Marked, Count;
    assert SendOk(c, s, id, u);
    var n := Marked(s, id, u);
    if n >= 1 {
      AtMostQuotient(n - Count(ReplaysOf(id, u), s.trace) - 1, c.deliveredTimeout + 1, s.births[id].opts.ttl);
    }
  }

  // ---------- first sends that break off ----------

  /** A first send of the event broke off after writing to the user. */
  ghost predicate WrittenThenCut(e: Step, id: EventId, u: UserId) {
    e.BrokenDispatch? && e.id == id && e.written <= |e.online| && u in e.online[..e.written]
  }

  ghost predicate CutIn(run: seq<Step>, id: EventId, u: UserId) {
    exists i :: 0 <= i < |run| && WrittenThenCut(run[i], id, u)
  }

  /** How often a user occurs among those written to. */
  lemma {:induction false} CutCounts(s: State, id: EventId, us: seq<UserId>, x: EventId, u: UserId)
    requires NoDup(us)
    ensures Count(CutsOf(x, u), LogAll(s, id, us, Cut).trace) == Count(CutsOf(x, u), s.trace) + if x == id && u in us then 1 else 0
  {
    hide Count;
    if us != [] {
      var n := |us| - 1;
      CutCounts(s, id, us[..n], x, u);
      LogCounts(LogAll(s, id, us[..n], Cut).trace, Sent(id, us[n], Cut));
      assert us == us[..n] + [us[n]] && us[n] !in us[..n];
    }
  }

  lemma CreateIsUncut(c: Config, s: State, id: EventId, targets: seq<UserId>, opts: Options, x: EventId, u: UserId)
    ensures Count(CutsOf(x, u), Create(c, s, id, targets, opts).trace) == Count(CutsOf(x, u), s.trace)
    ensures Create(c, s, id, targets, opts).births == s.births[id := Birth(Elems(targets), opts, s.now)]
  {
    hide Count, RemoveAll, EnforceAll, ForceVictims;
    assert CountsSends(CutsOf(x, u));
    RemoveAllIsQuiet(s, ForceVictims(c, s), ByForce);
    RemoveAllEffect(s, ForceVictims(c, s), ByForce);
    var i := Insert(MakeRoom(c, s), id, targets, opts);
    assert i.trace == MakeRoom(c, s).trace && i.births == s.births[id := Birth(Elems(targets), opts, s.now)];
    EnforceAllIsQuiet(c, i, targets);
    assert Create(c, s, id, targets, opts) == EnforceAll(c, i, targets);
  }

  lemma {:induction false} LiveIsUncut(s: State, id: EventId, online: seq<UserId>, x: EventId, u: UserId)
    ensures Count(CutsOf(x, u), LiveAll(s, id, online).trace) == Count(CutsOf(x, u), s.trace)
    ensures LiveAll(s, id, online).births == s.births
  {
    hide Count;
    if online != [] {
      var n := |online| - 1;
      LiveIsUncut(s, id, online[..n], x, u);
      LogCounts(LiveAll(s, id, online[..n]).trace, Sent(id, online[n], Live));
    }
  }

  lemma SendIsUncut(s: State, u: UserId, id: EventId, via: Via, x: EventId, v: UserId)
    requires via != Cut
    ensures Count(CutsOf(x, v), SendStored(s, u, id, via).trace) == Count(CutsOf(x, v), s.trace)
    ensures SendStored(s, u, id, via).births == s.births
  {
    hide Count, MarkApplied;
    assert CountsSends(CutsOf(x, v));
    LogCounts(s.trace, Sent(id, u, via));
    AppliedIsQuiet(Log(s, Sent(id, u, via)), u, id);
  }

  lemma CleanupIsUncut(c: Config, s: State, x: EventId, u: UserId)
    ensures Count(CutsOf(x, u), Cleanup(c, s).trace) == Count(CutsOf(x, u), s.trace)
    ensures Cleanup(c, s).births == s.births
  {
    hide Count, RemoveAll, ForceVictims, Aged;
    assert CountsSends(CutsOf(x, u));
    RemoveAllIsQuiet(s, Restrict(s.order, ExpiredIds(s)), ByExpiry);
    var b := MarkStale(c, CleanupExpired(s));
    RemoveAllIsQuiet(b, ForceVictims(c, b), ByForce);
  }

  /** The event a step creates. */
  function Created(e: Step): set<EventId> {
    if e.Publish? || e.Dispatch? || e.BrokenDispatch? then {e.id} else {}
  }

  /** One step adds a cut exactly when it breaks off after writing to the user. */
  lemma NextCuts(c: Config, s: State, e: Step, x: EventId, u: UserId)
    requires Enabled(c, s, e)
    ensures Count(CutsOf(x, u), Next(c, s, e).trace) == Count(CutsOf(x, u), s.trace) + if WrittenThenCut(e, x, u) then 1 else 0
    ensures Next(c, s, e).births.Keys == s.births.Keys + Created(e)
    ensures WrittenThenCut(e, x, u) ==> x !in s.births && x in Next(c, s, e).births
  {
    hide Count, Create, Cleanup, MarkApplied, LiveAll, LogAll, Remove, SendStored;
    assert CountsSends(CutsOf(x, u));
    match e {
      case Elapse(_) =>
      case Publish(id, targets, opts) => CreateIsUncut(c, s, id, targets, opts, x, u);
      case Dispatch(id, online, offline, opts) =>
        CreateIsUncut(c, s, id, online + offline, opts, x, u);
        LiveIsUncut(Create(c, s, id, online + offline, opts), id, online, x, u);
      case BrokenDispatch(id, online, offline, written, opts) =>
        CreateIsUncut(c, s, id, online + offline, opts, x, u);
        CutCounts(Create(c, s, id, online + offline, opts), id, online[..written], x, u);
        LogsOnly(Create(c, s, id, online + offline, opts), id, online[..written], Cut);
      case Acknowledge(v, id) => AppliedIsQuiet(s, v, id);
      case LateMark(_, _) =>
      case ReplayOne(v, id) => SendIsUncut(s, v, id, Replay, x, u);
      case RetryOne(v, id, _) => SendIsUncut(s, v, id, Retry, x, u);
      case TimerFires(id) => RemoveIsQuiet(s, id, ByExpiry);
      case CleanupTick => CleanupIsUncut(c, s, x, u);
    }
  }

  /** Over every run a message is cut at most once, and exactly if its first send broke off so. */
  lemma {:induction false} CutsAreCounted(c: Config, now: int, run: seq<Step>, id: EventId, u: UserId)
    requires IsRun(c, Init(now), run)
    ensures Count(CutsOf(id, u), Exec(c, Init(now), run).trace) == if CutIn(run, id, u) then 1 else 0
    ensures CutIn(run, id, u) ==> id in Exec(c, Init(now), run).births
  {
    hide Next, Enabled;
    if run != [] {
      var n := |run| - 1;
      CutsAreCounted(c, now, run[..n], id, u);
      NextCuts(c, Exec(c, Init(now), run[..n]), run[n], id, u);
      assert CutIn(run, id, u) <==> CutIn(run[..n], id, u) || WrittenThenCut(run[n], id, u) by {
        if CutIn(run[..n], id, u) {
          var i :| 0 <= i < n && WrittenThenCut(run[..n][i], id, u);
          assert WrittenThenCut(run[i], id, u);
        }
        if CutIn(run, id, u) {
          var i :| 0 <= i <= n && WrittenThenCut(run[i], id, u);
          assert i < n ==> WrittenThenCut(run[..n][i], id, u);
        }
      }
    }
  }

  // ---------- the bounds ----------

  /**
   * Send bound: over every driven run, a QoS 2 event with a time to live reaches a user at most
   * once, plus once per replay on reconnect, plus once per full delivery timeout in its life, plus
   * once if its first send broke off after writing to the user. The attempts of a stored record
   * are the sends, one less in that case and in no other.
   */
  lemma SendBound(c: Config, now: int, run: seq<Step>, id: EventId, u: UserId)
    requires c.Sane() && 0 <= c.deliveredTimeout <= c.staleTimeout && 0 < now
    requires IsRun(c, Init(now), run) && Driven(run)
    requires var s := Exec(c, Init(now), run); id in s.births && s.births[id].opts.qos == 2 && s.births[id].opts.ttl > 0
    ensures var s := Exec(c, Init(now), run);
      Count(SendsOf(id, u), s.trace) <=
        1 + Count(ReplaysOf(id, u), s.trace) + s.births[id].opts.ttl / (c.deliveredTimeout + 1) + if CutIn(run, id, u) then 1 else 0
    ensures var s := Exec(c, Init(now), run);
      id in s.events ==> s.events[id].Attempts(u) == Count(SendsOf(id, u), s.trace) - if CutIn(run, id, u) then 1 else 0
  {
    hide IsRun, Exec, SendsOk, CutIn, Driven;
    RunKeepsSends(c, now, run);
    PacedBound(c, Exec(c, Init(now), run), id, u);
    CutsAreCounted(c, now, run, id, u);
  }

  lemma RetryFacts(c: Config, s: State, u: UserId, id: EventId, jitter: real)
    requires 0 <= c.deliveredTimeout <= c.staleTimeout && Ledger(s) && SendsOk(c, s)
    requires IsPending(s, u, id) && ShouldRetry(c, s.events[id], u, s.now, jitter)
    requires s.events[id].opts.qos == 2 && 0 < s.events[id].opts.ttl <= c.deliveredTimeout
    ensures s.events[id].status[u] == STORED && Marked(s, id, u) == 0
  {
    hide Marked, Count, Removals, Held;
    assert Accounted(s, id);
    assert SendOk(c, s, id, u);
  }

  /**
   * With a time to live no longer than the delivery timeout, what a retry sends of a QoS 2 event
   * is STORED, and it was never sent before if and only if no first send of it broke off after
   * writing to the user: a delivered message is not repeated.
   */
  lemma NoEarlyResend(c: Config, now: int, run: seq<Step>, u: UserId, id: EventId, jitter: real)
    requires c.Sane() && 0 <= c.deliveredTimeout <= c.staleTimeout && 0 < now
    requires IsRun(c, Init(now), run) && Driven(run)
    requires var s := Exec(c, Init(now), run);
      Enabled(c, s, RetryOne(u, id, jitter)) && s.events[id].opts.qos == 2 && 0 < s.events[id].opts.ttl <= c.deliveredTimeout
    ensures var s := Exec(c, Init(now), run);
      && s.events[id].status[u] == STORED && Count(SendsOf(id, u), s.trace) <= 1
      && (Count(SendsOf(id, u), s.trace) == 0 <==> !CutIn(run, id, u))
  {
    hide IsRun, Exec, SendsOk, CutIn, Driven, Wf, Ledger, ShouldRetry;
    var s := Exec(c, Init(now), run);
    RunKeepsSends(c, now, run);
    RunKeepsInv(c, now, run);
    CutsAreCounted(c, now, run, id, u);
    RetryFacts(c, s, u, id, jitter);
  }

  /** QoS 1: replay and retry together send a stored message to a user at most once. */
  lemma StoredOnce(c: Config, now: int, run: seq<Step>, id: EventId, u: UserId)
    requires c.Sane() && 0 < now
    requires IsRun(c, Init(now), run) && Driven(run)
    requires var s := Exec(c, Init(now), run); id in s.births && s.births[id].opts.qos == 1
    ensures Count(StoreSendsOf(id, u), Exec(c, Init(now), run).trace) <= 1
  {
    RunKeepsSends(c, now, run);
    assert SendOk(c, Exec(c, Init(now), run), id, u);
  }
}
