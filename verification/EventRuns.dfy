// Runs of the event store: every step the program can take, and what all runs keep.
module EventRuns {
  import opened Ordered
  import opened EventModel
  import opened EventInvariants
  import opened EventLedger

  /**
   * One step. A replay or a retry batch is a series of `ReplayOne` or `RetryOne` steps, so runs
   * may interleave other steps with the messages of a batch. `LateMark` is a `markDelivered`
   * that lands at any later moment, for instance after an acknowledgement. `BrokenDispatch` is a
   * `Dispatch` whose send loop throws after `written` receivers, at one that has lost its socket.
   */
  datatype Step =
    | Elapse(ms: nat)
    | Publish(id: EventId, targets: seq<UserId>, opts: Options)
    | Dispatch(id: EventId, online: seq<UserId>, offline: seq<UserId>, opts: Options)
    | BrokenDispatch(id: EventId, online: seq<UserId>, offline: seq<UserId>, written: nat, opts: Options)
    | Acknowledge(user: UserId, id: EventId)
    | LateMark(user: UserId, id: EventId)
    | ReplayOne(user: UserId, id: EventId)
    | RetryOne(user: UserId, id: EventId, jitter: real)
    | TimerFires(id: EventId)
    | CleanupTick

  ghost predicate Enabled(c: Config, s: State, e: Step) {
    match e
    case Elapse(_) => true
    case Publish(id, targets, _) => id !in s.births && targets != []
    case Dispatch(id, online, offline, opts) =>
      id !in s.births && online + offline != [] && NoDup(online) && opts.qos == 2
    case BrokenDispatch(id, online, offline, written, opts) =>
      id !in s.births && online + offline != [] && NoDup(online) && opts.qos == 2 && written <= |online|
    case Acknowledge(_, _) => true
    case LateMark(u, id) => id in s.events ==> u in s.events[id].status
    case ReplayOne(u, id) => IsPending(s, u, id)
    case RetryOne(u, id, j) => IsPending(s, u, id) && ShouldRetry(c, s.events[id], u, s.now, j) && 0.5 <= j < 1.5
    case TimerFires(_) => true
    case CleanupTick => true
  }

  ghost function Next(c: Config, s: State, e: Step): State {
    match e
    case Elapse(ms) => s.(now := s.now + ms)
    case Publish(id, targets, opts) => Create(c, s, id, targets, opts)
    case Dispatch(id, online, offline, opts) => Dispatch2(c, s, id, online, offline, opts)
    case BrokenDispatch(id, online, offline, written, opts) =>
      CutDispatch(c, s, id, online, offline, if written <= |online| then written else |online|, opts)
    case Acknowledge(u, id) => MarkApplied(s, u, id)
    case LateMark(u, id) => MarkDelivered(s, u, id)
    case ReplayOne(u, id) => SendStored(s, u, id, Replay)
    case RetryOne(u, id, _) => SendStored(s, u, id, Retry)
    case TimerFires(id) => Timer(s, id)
    case CleanupTick => Cleanup(c, s)
  }

  ghost function Exec(c: Config, s: State, run: seq<Step>): State {
    if run == [] then s else Next(c, Exec(c, s, run[..|run| - 1]), run[|run| - 1])
  }

  ghost predicate IsRun(c: Config, s: State, run: seq<Step>) {
    run != [] ==>
      IsRun(c, s, run[..|run| - 1]) && Enabled(c, Exec(c, s, run[..|run| - 1]), run[|run| - 1])
  }

  lemma {:induction false} ExecAppend(c: Config, s: State, a: seq<Step>, b: seq<Step>)
    ensures Exec(c, s, a + b) == Exec(c, Exec(c, s, a), b)
    ensures IsRun(c, s, a + b) <==> IsRun(c, s, a) && IsRun(c, Exec(c, s, a), b)
  {
    if b == [] {
      assert a + b == a;
    } else {
      var n := |b| - 1;
      ExecAppend(c, s, a, b[..n]);
      assert (a + b)[..|a + b| - 1] == a + b[..n];
    }
  }

  // ---------- the invariant ----------

  ghost predicate FitsUsers(c: Config, s: State) {
    forall u :: |Pending(s, u)| <= c.maxPerUser
  }

  ghost predicate Inv(c: Config, s: State) {
    Wf(s) && Ledger(s) && |s.events| <= c.maxTotal + 1 && FitsUsers(c, s)
  }

  /** `t` has nothing pending that `s` had not. */
  ghost predicate Shrinks(s: State, t: State) {
    && t.events.Keys <= s.events.Keys
    && (forall u, id :: IsPending(t, u, id) ==> IsPending(s, u, id))
  }

  lemma ShrinksKeepsBounds(c: Config, s: State, t: State)
    requires Shrinks(s, t) && |s.events| <= c.maxTotal + 1 && FitsUsers(c, s)
    ensures |t.events| <= c.maxTotal + 1 && FitsUsers(c, t)
  {
    CardSubset(t.events.Keys, s.events.Keys);
    forall u ensures |Pending(t, u)| <= c.maxPerUser {
      CardSubset(Pending(t, u), Pending(s, u));
    }
  }

  lemma {:induction false} RemoveAllEffect(s: State, ids: seq<EventId>, reason: Reason)
    ensures RemoveAll(s, ids, reason).events == s.events - Elems(ids)
    ensures RemoveAll(s, ids, reason).now == s.now && RemoveAll(s, ids, reason).births == s.births
  {
    if ids != [] {
      RemoveAllEffect(s, ids[..|ids| - 1], reason);
      ElemsSnoc(ids[..|ids| - 1], ids[|ids| - 1]);
      assert ids == ids[..|ids| - 1] + [ids[|ids| - 1]];
    }
  }

  lemma RemoveAllShrinks(s: State, ids: seq<EventId>, reason: Reason)
    ensures Shrinks(s, RemoveAll(s, ids, reason))
  {
    RemoveAllEffect(s, ids, reason);
  }

  lemma ForceVictimsFacts(c: Config, s: State)
    requires c.Sane() && Shape(s)
    ensures var v := ForceVictims(c, s);
      && NoDup(v) && Elems(v) <= s.events.Keys
      && (|s.events| >= c.maxTotal ==> |v| == |s.events| - c.maxTotal)
  {
    hide OldestFirst;
    var o, v := ForceOrder(s), ForceVictims(c, s);
    SortNoDup(s.order, ForceRanks(s));
    CardElems(s.order);
    assert v <= o;
    forall id | id in v ensures id in s.events.Keys {
      assert id in o && id in Elems(o);
    }
  }

  /** `forceCleanup` leaves exactly the limit when the store is at or over it. */
  lemma ForceCleanupSize(c: Config, s: State)
    requires c.Sane() && Shape(s) && |s.events| >= c.maxTotal
    ensures |ForceCleanup(c, s).events| == c.maxTotal
  {
    var v := ForceVictims(c, s);
    ForceVictimsFacts(c, s);
    RemoveAllEffect(s, v, ByForce);
    CardElems(v);
    assert (s.events - Elems(v)).Keys == s.events.Keys - Elems(v);
  }

  lemma ForceCleanupKeeps(c: Config, s: State)
    requires c.Sane() && Inv(c, s)
    ensures Inv(c, ForceCleanup(c, s))
  {
    var v := ForceVictims(c, s);
    RemoveAllKeepsWf(s, v, ByForce);
    RemoveAllKeepsLedger(s, v, ByForce);
    RemoveAllShrinks(s, v, ByForce);
    ShrinksKeepsBounds(c, s, ForceCleanup(c, s));
  }

  /** Making room, adding the record, then trimming every target's list. */
  function MakeRoom(c: Config, s: State): State {
    if |s.events| >= c.maxTotal then ForceCleanup(c, s) else s
  }

  lemma MakeRoomShrinks(c: Config, s: State)
    ensures var t := MakeRoom(c, s);
      t.events.Keys <= s.events.Keys && t.births == s.births && t.now == s.now
  {
    RemoveAllEffect(s, ForceVictims(c, s), ByForce);
  }

  lemma MakeRoomKeeps(c: Config, s: State)
    requires c.Sane() && Inv(c, s)
    ensures var t := MakeRoom(c, s);
      Inv(c, t) && |t.events| <= c.maxTotal && t.now == s.now && t.births == s.births
      && forall id :: id in t.events ==> id in s.events && t.events[id] == s.events[id]
  {
    if |s.events| >= c.maxTotal {
      ForceCleanupKeeps(c, s);
      ForceCleanupSize(c, s);
      RemoveAllEffect(s, ForceVictims(c, s), ByForce);
    }
  }

  lemma InsertPending(s: State, id: EventId, targets: seq<UserId>, opts: Options, u: UserId)
    requires u !in targets
    ensures |Pending(Insert(s, id, targets, opts), u)| <= |Pending(s, u)|
  {
    var t := Insert(s, id, targets, opts);
    forall x | x in Pending(t, u) ensures x in Pending(s, u) {
      assert IsPending(t, u, x);
      assert IsPending(s, u, x);
    }
    CardSubset(Pending(t, u), Pending(s, u));
  }

  lemma InsertFacts(s: State, id: EventId, targets: seq<UserId>, opts: Options)
    requires Wf(s) && Ledger(s) && id !in s.births
    ensures var t := Insert(s, id, targets, opts);
      && Wf(t) && Ledger(t) && Newest(t, id)
      && |t.events| == |s.events| + 1
      && (forall u :: u !in targets ==> |Pending(t, u)| <= |Pending(s, u)|)
  {
    var t := Insert(s, id, targets, opts);
    assert id !in s.events by {
      assert Accounted(s, id);
    }
    assert Wf(t) by {
      InsertKeepsWf(s, id, targets, opts);
    }
    assert Ledger(t) by {
      InsertKeepsLedger(s, id, targets, opts);
    }
    assert |t.events| == |s.events| + 1 by {
      assert t.events.Keys == s.events.Keys + {id};
    }
    forall u | u !in targets ensures |Pending(t, u)| <= |Pending(s, u)| {
      InsertPending(s, id, targets, opts, u);
    }
  }

  lemma EnforceAllKeeps(c: Config, s: State, us: seq<UserId>)
    requires c.Sane() && Wf(s) && Ledger(s) && |s.events| <= c.maxTotal + 1
    requires forall u :: u !in us ==> |Pending(s, u)| <= c.maxPerUser
    ensures Inv(c, EnforceAll(c, s, us))
  {
    var t := EnforceAll(c, s, us);
    EnforceAllEffect(c, s, us);
    EnforceAllKeepsLedger(c, s, us);
    CardSubset(t.events.Keys, s.events.Keys);
    forall u ensures |Pending(t, u)| <= c.maxPerUser {
      assert u in us || |Pending(s, u)| <= c.maxPerUser;
    }
  }

  /**
   * `create` keeps the invariant, and the record it just made is stored untouched: no eviction
   * reaches it.
   */
  lemma CreateKeeps(c: Config, s: State, id: EventId, targets: seq<UserId>, opts: Options)
    requires c.Sane() && Inv(c, s) && id !in s.births
    ensures var t := Create(c, s, id, targets, opts);
      && Inv(c, t)
      && id in t.events && t.events[id] == Fresh(s, targets, opts) && Newest(t, id)
      && Trims(Insert(MakeRoom(c, s), id, targets, opts), t)
  {
    var s0 := MakeRoom(c, s);
    MakeRoomKeeps(c, s);
    var s1 := Insert(s0, id, targets, opts);
    InsertFacts(s0, id, targets, opts);
    EnforceAllKeeps(c, s1, targets);
    EnforceAllEffect(c, s1, targets);
    assert s1.events[id] == Fresh(s, targets, opts);
  }

  lemma MarkShrinks(s: State, u: UserId, id: EventId)
    ensures Shrinks(s, MarkApplied(s, u, id))
    ensures (id in s.events ==> u in s.events[id].status) ==> Shrinks(s, MarkDelivered(s, u, id))
  {
    if id in s.events {
      var t := Touch(s, id, s.events[id].WithStatus(u, APPLIED));
      assert Shrinks(s, t);
      assert Shrinks(t, Remove(t, id, ByAck));
    }
  }

  lemma AppliedKeeps(c: Config, s: State, u: UserId, id: EventId)
    requires Inv(c, s)
    ensures Inv(c, MarkApplied(s, u, id))
  {
    MarkAppliedKeepsWf(s, u, id);
    MarkAppliedKeepsLedger(s, u, id);
    MarkShrinks(s, u, id);
    ShrinksKeepsBounds(c, s, MarkApplied(s, u, id));
  }

  lemma DeliveredKeeps(c: Config, s: State, u: UserId, id: EventId)
    requires Inv(c, s) && (id in s.events ==> u in s.events[id].status)
    ensures Inv(c, MarkDelivered(s, u, id))
  {
    MarkDeliveredKeepsWf(s, u, id);
    MarkDeliveredKeepsLedger(s, u, id);
    MarkShrinks(s, u, id);
    ShrinksKeepsBounds(c, s, MarkDelivered(s, u, id));
  }

  lemma LogKeeps(c: Config, s: State, u: UserId, id: EventId, via: Via)
    requires Inv(c, s) && id in s.births
    ensures Inv(c, Log(s, Sent(id, u, via)))
  {
    var t := Log(s, Sent(id, u, via));
    SentKeepsLedger(s, u, id, via);
    assert forall v, x :: InIndex(t, v, x) <==> InIndex(s, v, x);
    assert Shrinks(s, t);
    ShrinksKeepsBounds(c, s, t);
  }

  lemma BirthOf(s: State, id: EventId)
    requires Ledger(s) && id in s.events
    ensures id in s.births && s.births[id].opts == s.events[id].opts && s.births[id].at == s.events[id].createdAt
  {
    assert Accounted(s, id);
  }

  lemma LogSendKeeps(c: Config, s: State, u: UserId, id: EventId, via: Via)
    requires Inv(c, s) && id in s.events
    ensures Inv(c, Log(s, Sent(id, u, via)))
  {
    BirthOf(s, id);
    LogKeeps(c, s, u, id, via);
  }

  lemma SendKeeps(c: Config, s: State, u: UserId, id: EventId, via: Via)
    requires Inv(c, s) && (id in s.events ==> u in s.events[id].status)
    ensures Inv(c, SendStored(s, u, id, via))
  {
    hide Inv, MarkApplied, MarkDelivered;
    if id in s.events {
      LogSendKeeps(c, s, u, id, via);
      AppliedKeeps(c, Log(s, Sent(id, u, via)), u, id);
      DeliveredKeeps(c, Log(s, Sent(id, u, via)), u, id);
    }
  }

  lemma {:induction false} LiveKeeps(c: Config, s: State, id: EventId, online: seq<UserId>)
    requires Inv(c, s) && id in s.events && forall u :: u in online ==> u in s.events[id].status
    ensures var t := LiveAll(s, id, online);
      Inv(c, t) && id in t.events && t.events[id].status.Keys == s.events[id].status.Keys
  {
    if online != [] {
      var n := |online| - 1;
      LiveKeeps(c, s, id, online[..n]);
      var m := LiveAll(s, id, online[..n]);
      BirthOf(m, id);
      LogKeeps(c, m, online[n], id, Live);
      DeliveredKeeps(c, Log(m, Sent(id, online[n], Live)), online[n], id);
    }
  }

  /** Sending leaves its mark in the history only. */
  lemma {:induction false} LogsOnly(s: State, id: EventId, us: seq<UserId>, via: Via)
    ensures LogAll(s, id, us, via) == s.(trace := LogAll(s, id, us, via).trace)
  {
    if us != [] {
      LogsOnly(s, id, us[..|us| - 1], via);
    }
  }

  lemma {:induction false} LogAllKeeps(c: Config, s: State, id: EventId, us: seq<UserId>, via: Via)
    requires Inv(c, s) && id in s.events
    ensures var t := LogAll(s, id, us, via); Inv(c, t) && t.events == s.events && t.births == s.births && t.now == s.now
  {
    hide Inv;
    if us != [] {
      LogAllKeeps(c, s, id, us[..|us| - 1], via);
      LogSendKeeps(c, LogAll(s, id, us[..|us| - 1], via), us[|us| - 1], id, via);
    }
  }

  lemma StaleShrinks(c: Config, s: State)
    ensures Shrinks(s, MarkStale(c, s))
  {
  }

  lemma CleanupKeeps(c: Config, s: State)
    requires c.Sane() && Inv(c, s)
    ensures Inv(c, Cleanup(c, s)) && |Cleanup(c, s).events| <= c.maxTotal
  {
    hide Wf, Ledger, Restrict, Shrinks, FitsUsers, RemoveAll, MarkStale, ForceCleanup;
    var ids := Restrict(s.order, ExpiredIds(s));
    var a := CleanupExpired(s);
    RemoveAllKeepsWf(s, ids, ByExpiry);
    RemoveAllKeepsLedger(s, ids, ByExpiry);
    RemoveAllShrinks(s, ids, ByExpiry);
    ShrinksKeepsBounds(c, s, a);
    var b := MarkStale(c, a);
    StaleKeepsWf(c, a);
    StaleKeepsLedger(c, a);
    StaleShrinks(c, a);
    ShrinksKeepsBounds(c, a, b);
    if |b.events| > c.maxTotal {
      ForceCleanupKeeps(c, b);
      ForceCleanupSize(c, b);
    }
  }

  lemma ElapseKeeps(c: Config, s: State, ms: nat)
    requires Inv(c, s)
    ensures Inv(c, s.(now := s.now + ms))
  {
    var t := s.(now := s.now + ms);
    assert OldestFirst(t);
    assert forall v, x :: InIndex(t, v, x) <==> InIndex(s, v, x);
    forall id ensures Accounted(t, id) {
      assert Accounted(s, id);
    }
    assert Shrinks(s, t);
    ShrinksKeepsBounds(c, s, t);
  }

  lemma TimerKeeps(c: Config, s: State, id: EventId)
    requires Inv(c, s)
    ensures Inv(c, Timer(s, id))
  {
    RemoveKeepsWf(s, id, ByExpiry);
    RemoveKeepsLedger(s, id, ByExpiry);
    assert Shrinks(s, Timer(s, id));
    ShrinksKeepsBounds(c, s, Timer(s, id));
  }

  lemma NextKeepsInv(c: Config, s: State, e: Step)
    requires c.Sane() && Inv(c, s) && Enabled(c, s, e)
    ensures Inv(c, Next(c, s, e))
  {
    hide Inv;
    match e
    case Elapse(ms) => ElapseKeeps(c, s, ms);
    case Publish(id, targets, opts) => CreateKeeps(c, s, id, targets, opts);
    case Dispatch(id, online, offline, opts) =>
      CreateKeeps(c, s, id, online + offline, opts);
      LiveKeeps(c, Create(c, s, id, online + offline, opts), id, online);
    case BrokenDispatch(id, online, offline, written, opts) =>
      CreateKeeps(c, s, id, online + offline, opts);
      LogAllKeeps(c, Create(c, s, id, online + offline, opts), id, online[..written], Cut);
    case Acknowledge(u, id) => AppliedKeeps(c, s, u, id);
    case LateMark(u, id) => DeliveredKeeps(c, s, u, id);
    case ReplayOne(u, id) => SendKeeps(c, s, u, id, Replay);
    case RetryOne(u, id, _) => SendKeeps(c, s, u, id, Retry);
    case TimerFires(id) => TimerKeeps(c, s, id);
    case CleanupTick => CleanupKeeps(c, s);
  }

  lemma InitInv(c: Config, now: int)
    requires c.Sane()
    ensures Inv(c, Init(now))
  {
    var s := Init(now);
    forall u ensures |Pending(s, u)| <= c.maxPerUser {
      assert Pending(s, u) == {};
    }
    forall id ensures Accounted(s, id) {
    }
  }

  lemma {:induction false} RunKeepsInv(c: Config, now: int, run: seq<Step>)
    requires c.Sane() && IsRun(c, Init(now), run)
    ensures Inv(c, Exec(c, Init(now), run))
  {
    if run == [] {
      InitInv(c, now);
    } else {
      RunKeepsInv(c, now, run[..|run| - 1]);
      NextKeepsInv(c, Exec(c, Init(now), run[..|run| - 1]), run[|run| - 1]);
    }
  }
}
