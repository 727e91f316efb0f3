// Why a record leaves the store, over every step and every run, and what a cleanup leaves behind.
module EventLeaving {
  import opened Ordered
  import opened EventModel
  import opened EventInvariants
  import opened EventLedger
  import opened EventRuns
  import opened EventSends
  import opened EventFates
  import opened EventEffects

  // ---------- the history only grows ----------

  lemma RemoveGrows(s: State, id: EventId, reason: Reason)
    ensures s.trace <= Remove(s, id, reason).trace
  {
  }

  lemma {:induction false} RemoveAllGrows(s: State, ids: seq<EventId>, reason: Reason)
    ensures s.trace <= RemoveAll(s, ids, reason).trace
  {
    hide Remove;
    if ids != [] {
      RemoveAllGrows(s, ids[..|ids| - 1], reason);
      RemoveGrows(RemoveAll(s, ids[..|ids| - 1], reason), ids[|ids| - 1], reason);
    }
  }

  lemma EvictGrows(s: State, u: UserId, id: EventId)
    ensures s.trace <= Evict(s, u, id).trace
  {
    hide Remove;
    if id in s.events && u in s.index {
      RemoveGrows(Detach(s, u, id), id, ByForce);
    }
  }

  lemma {:induction false} EvictAllGrows(s: State, u: UserId, ids: seq<EventId>)
    ensures s.trace <= EvictAll(s, u, ids).trace
  {
    hide Evict;
    if ids != [] {
      EvictAllGrows(s, u, ids[..|ids| - 1]);
      EvictGrows(EvictAll(s, u, ids[..|ids| - 1]), u, ids[|ids| - 1]);
    }
  }

  lemma {:induction false} EnforceAllGrows(c: Config, s: State, us: seq<UserId>)
    ensures s.trace <= EnforceAll(c, s, us).trace
  {
    hide Victims, EvictAll;
    if us != [] {
      var m := EnforceAll(c, s, us[..|us| - 1]);
      EnforceAllGrows(c, s, us[..|us| - 1]);
      EvictAllGrows(m, us[|us| - 1], Victims(c, m, us[|us| - 1]));
    }
  }

  lemma CreateGrows(c: Config, s: State, id: EventId, targets: seq<UserId>, opts: Options)
    ensures s.trace <= Create(c, s, id, targets, opts).trace
  {
    hide RemoveAll, EnforceAll, ForceVictims;
    RemoveAllGrows(s, ForceVictims(c, s), ByForce);
    EnforceAllGrows(c, Insert(MakeRoom(c, s), id, targets, opts), targets);
  }

  lemma {:induction false} LiveGrows(s: State, id: EventId, online: seq<UserId>)
    ensures s.trace <= LiveAll(s, id, online).trace
  {
    if online != [] {
      LiveGrows(s, id, online[..|online| - 1]);
    }
  }

  lemma {:induction false} LogAllGrows(s: State, id: EventId, us: seq<UserId>, via: Via)
    ensures s.trace <= LogAll(s, id, us, via).trace
  {
    if us != [] {
      LogAllGrows(s, id, us[..|us| - 1], via);
    }
  }

  lemma SendGrows(s: State, u: UserId, id: EventId, via: Via)
    ensures s.trace <= SendStored(s, u, id, via).trace
  {
    hide Remove;
    var m := Log(s, Sent(id, u, via));
    if id in s.events {
      RemoveGrows(Touch(m, id, s.events[id].WithStatus(u, APPLIED)), id, ByAck);
    }
  }

  lemma CleanupGrows(c: Config, s: State)
    ensures s.trace <= Cleanup(c, s).trace
  {
    hide RemoveAll, ForceVictims, Aged;
    RemoveAllGrows(s, Restrict(s.order, ExpiredIds(s)), ByExpiry);
    var b := MarkStale(c, CleanupExpired(s));
    RemoveAllGrows(b, ForceVictims(c, b), ByForce);
  }

  lemma NextGrows(c: Config, s: State, e: Step)
    requires Enabled(c, s, e)
    ensures s.trace <= Next(c, s, e).trace
  {
    hide Create, LiveAll, LogAll, Cleanup, Remove, SendStored;
    match e {
      case Elapse(_) =>
      case Publish(id, targets, opts) => CreateGrows(c, s, id, targets, opts);
      case Dispatch(id, online, offline, opts) =>
        CreateGrows(c, s, id, online + offline, opts);
        LiveGrows(Create(c, s, id, online + offline, opts), id, online);
      case BrokenDispatch(id, online, offline, written, opts) =>
        CreateGrows(c, s, id, online + offline, opts);
        LogAllGrows(Create(c, s, id, online + offline, opts), id, online[..written], Cut);
      case Acknowledge(u, id) =>
        if id in s.events {
          RemoveGrows(Touch(s, id, s.events[id].WithStatus(u, APPLIED)), id, ByAck);
        }
      case LateMark(_, _) =>
      case ReplayOne(u, id) => SendGrows(s, u, id, Replay);
      case RetryOne(u, id, _) => SendGrows(s, u, id, Retry);
      case TimerFires(id) => RemoveGrows(s, id, ByExpiry);
      case CleanupTick => CleanupGrows(c, s);
    }
  }

  /** Between any two points of a run nothing is taken out of the history. */
  lemma {:induction false} RunGrows(c: Config, s: State, run: seq<Step>, k: nat)
    requires IsRun(c, s, run) && k <= |run|
    ensures IsRun(c, s, run[..k]) && Exec(c, s, run[..k]).trace <= Exec(c, s, run).trace
  {
    hide Next, Enabled;
    if k == |run| {
      assert run[..k] == run;
    } else {
      var n := |run| - 1;
      RunGrows(c, s, run[..n], k);
      assert run[..n][..k] == run[..k];
      NextGrows(c, Exec(c, s, run[..n]), run[n]);
    }
  }

  lemma {:induction false} RemovalsGrow(s: seq<Entry>, t: seq<Entry>, id: EventId)
    requires s <= t
    ensures Removals(s, id) <= Removals(t, id)
  {
    if |s| < |t| {
      RemovalsGrow(s, t[..|t| - 1], id);
    } else {
      assert s == t;
    }
  }

  // ---------- acknowledged events stay silent ----------

  /** A step that applies the event for the user: an acknowledgement, or a QoS 1 send from the store. */
  ghost predicate Applies(s: State, e: Step, u: UserId, id: EventId) {
    id in s.events &&
    (e == Acknowledge(u, id) ||
     (s.events[id].opts.qos == 1 && (e == ReplayOne(u, id) || (e.RetryOne? && e.user == u && e.id == id))))
  }

  lemma AppliesEffect(c: Config, s: State, e: Step, u: UserId, id: EventId)
    requires Ledger(s) && Enabled(c, s, e) && Applies(s, e, u, id)
    ensures var t := Next(c, s, e);
      && (id !in t.events <==> OthersDone(s.events[id], u))
      && (id !in t.events ==> LeftByAck(s, t, id, u))
  {
    hide Ledger, SendStored, MarkApplied, LeftByAck, OthersDone, OnlyTouches, ShouldRetry;
    if e.Acknowledge? {
      AcknowledgeEffect(c, s, u, id);
    } else if e.ReplayOne? {
      SendOneEffect(s, u, id, Replay);
    } else {
      SendOneEffect(s, u, id, Retry);
    }
  }

  /**
   * Over every run: when a step applies an event for the last user attached who had not, the event
   * is gone, its one removal is by acknowledgement for good, and its sender is never notified.
   */
  lemma AcknowledgedIsSilent(c: Config, now: int, run: seq<Step>, k: nat, u: UserId, id: EventId)
    requires c.Sane() && IsRun(c, Init(now), run) && k < |run|
    requires var s := Exec(c, Init(now), run[..k]); Applies(s, run[k], u, id) && OthersDone(s.events[id], u)
    ensures var s, t := Exec(c, Init(now), run[..k]), Exec(c, Init(now), run);
      && id !in t.events
      && Removals(t.trace, id) == [Removed(id, ByAck, s.events[id].status[u := APPLIED])]
      && Count(NoticesOf(id), t.trace) == 0
  {
    hide Next, Enabled, OthersDone, Count, Removals, Inv;
    var s := Exec(c, Init(now), run[..k]);
    RunGrows(c, Init(now), run, k);
    RunGrows(c, Init(now), run, k + 1);
    LastStep(c, Init(now), run[..k + 1]);
    assert run[..k + 1][..k] == run[..k];
    RunKeepsInv(c, now, run[..k]);
    InvLedger(c, s);
    AppliesEffect(c, s, run[k], u, id);
    RemovalsGrow(Exec(c, Init(now), run[..k + 1]).trace, Exec(c, Init(now), run).trace, id);
    RunKeepsInv(c, now, run);
    InvLedger(c, Exec(c, Init(now), run));
    SilentIfApplied(Exec(c, Init(now), run), id, s.events[id].status[u := APPLIED]);
  }

  lemma LastStep(c: Config, s: State, run: seq<Step>)
    requires run != [] && IsRun(c, s, run)
    ensures var n := |run| - 1; Enabled(c, Exec(c, s, run[..n]), run[n]) && Exec(c, s, run) == Next(c, Exec(c, s, run[..n]), run[n])
  {
  }

  lemma InvLedger(c: Config, s: State)
    requires Inv(c, s)
    ensures Ledger(s) && Wf(s)
  {
  }

  lemma SilentIfApplied(s: State, id: EventId, final: map<UserId, Status>)
    requires Ledger(s) && [Removed(id, ByAck, final)] <= Removals(s.trace, id)
    ensures id !in s.events && Removals(s.trace, id) == [Removed(id, ByAck, final)] && Count(NoticesOf(id), s.trace) == 0
  {
    hide Count, Removals, Held;
    assert Accounted(s, id);
    assert Removals(s.trace, id)[0] == Removed(id, ByAck, final);
  }

  // ---------- the periodic cleanup ----------

  ghost function Living(s: State): set<EventId> {
    set id | id in s.events && !Over(s.events[id], s.now)
  }

  /** A record after a cleanup: only DELIVERED users whose last attempt is too old have changed. */
  ghost predicate Swept(c: Config, r: Rec, q: Rec, now: int) {
    && q.opts == r.opts && q.createdAt == r.createdAt && q.attempts == r.attempts && q.last == r.last
    && q.status.Keys == r.status.Keys
    && (forall u :: u in r.status ==>
         q.status[u] == if r.status[u] == DELIVERED && u in r.last && r.last[u] != 0 && now - r.last[u] > c.staleTimeout
                        then FAILED else r.status[u])
  }

  lemma AgedIsSwept(c: Config, r: Rec, now: int)
    ensures Swept(c, r, Aged(c, r, now), now)
  {
  }

  lemma ExpiryLeavesLiving(s: State)
    requires Wf(s)
    ensures var a := CleanupExpired(s);
      && a.events.Keys == Living(s) && a.now == s.now && Wf(a)
      && forall id :: id in a.events ==> a.events[id] == s.events[id]
  {
    hide RemoveAll, Restrict, NoDup, OldestFirst, Indexed;
    var ids := Restrict(s.order, ExpiredIds(s));
    RemoveAllKeepsWf(s, ids, ByExpiry);
    RemoveAllEffect(s, ids, ByExpiry);
    RestrictElems(s.order, ExpiredIds(s));
    forall id | id in s.events ensures id in Living(s) <==> id !in ExpiredIds(s) {
      OverIsExpired(s.events[id], s.now);
    }
  }

  /**
   * The periodic cleanup drops what has expired. If that leaves no more than the global limit,
   * everything else stays, and otherwise exactly as many as the limit; what stays is only aged.
   */
  lemma CleanupEffect(c: Config, s: State)
    requires c.Sane() && Wf(s)
    ensures var t := Next(c, s, CleanupTick);
      && t.events.Keys <= Living(s)
      && (|Living(s)| <= c.maxTotal ==> t.events.Keys == Living(s))
      && (|Living(s)| > c.maxTotal ==> |t.events| == c.maxTotal)
      && (forall id :: id in t.events ==> id in s.events && Swept(c, s.events[id], t.events[id], s.now))
      && t.births == s.births && t.now == s.now
  {
    hide CleanupExpired, Aged, Wf, Swept, RemoveAll, ForceVictims;
    var a := CleanupExpired(s);
    ExpiryLeavesLiving(s);
    ExpiryKeepsBirths(s);
    var b := MarkStale(c, a);
    StaleKeepsWf(c, a);
    assert b.events.Keys == a.events.Keys;
    assert |b.events| == |b.events.Keys|;
    forall id | id in b.events ensures Swept(c, s.events[id], b.events[id], s.now) {
      AgedIsSwept(c, s.events[id], s.now);
    }
    if |b.events| > c.maxTotal {
      WfShape(b);
      ForceCleanupSize(c, b);
      RemoveAllEffect(b, ForceVictims(c, b), ByForce);
    }
  }

  lemma ExpiryKeepsBirths(s: State)
    ensures CleanupExpired(s).births == s.births
  {
    RemoveAllEffect(s, Restrict(s.order, ExpiredIds(s)), ByExpiry);
  }

  lemma WfShape(s: State)
    requires Wf(s)
    ensures Shape(s)
  {
  }

  // ---------- evictions ----------

  /** A user attached before is attached still, or its eviction has been counted. */
  ghost predicate DropsCounted(s: State, t: State) {
    && (forall x, v {:trigger EvictionsOf(x, v)} :: Count(EvictionsOf(x, v), s.trace) <= Count(EvictionsOf(x, v), t.trace))
    && (forall x, v {:trigger EvictionsOf(x, v)} :: x in s.events && v in s.events[x].status ==>
         (x in t.events && v in t.events[x].status) || Count(EvictionsOf(x, v), s.trace) < Count(EvictionsOf(x, v), t.trace))
  }

  lemma DropsTwice(s: State, m: State, t: State)
    requires DropsCounted(s, m) && DropsCounted(m, t)
    ensures DropsCounted(s, t)
  {
    hide Count;
  }

  lemma DropsSelf(s: State)
    ensures DropsCounted(s, s)
  {
  }

  lemma DetachCounted(s: State, u: UserId, id: EventId)
    requires id in s.events && u in s.index
    ensures DropsCounted(s, Detach(s, u, id))
  {
    hide Count;
    LogCounts(s.trace, Evicted(id, u));
  }

  lemma EmptyRemovalCounted(s: State, id: EventId)
    requires id in s.events && s.events[id].status == map[]
    ensures DropsCounted(s, Remove(s, id, ByForce))
  {
    hide Count, Removals, Without, Unindex;
    RemoveCounts(s, id, ByForce);
  }

  lemma EvictCounted(s: State, u: UserId, id: EventId)
    ensures DropsCounted(s, Evict(s, u, id))
  {
    hide DropsCounted, Remove;
    DropsSelf(s);
    if id in s.events && u in s.index {
      var m := Detach(s, u, id);
      DetachCounted(s, u, id);
      if m.events[id].status == map[] {
        EmptyRemovalCounted(m, id);
        DropsTwice(s, m, Remove(m, id, ByForce));
      }
    }
  }

  lemma {:induction false} EvictAllCounted(s: State, u: UserId, ids: seq<EventId>)
    ensures DropsCounted(s, EvictAll(s, u, ids))
  {
    hide DropsCounted, Evict;
    DropsSelf(s);
    if ids != [] {
      var m := EvictAll(s, u, ids[..|ids| - 1]);
      EvictAllCounted(s, u, ids[..|ids| - 1]);
      EvictCounted(m, u, ids[|ids| - 1]);
      DropsTwice(s, m, EvictAll(s, u, ids));
    }
  }

  lemma {:induction false} EnforceAllCounted(c: Config, s: State, us: seq<UserId>)
    ensures DropsCounted(s, EnforceAll(c, s, us))
  {
    hide DropsCounted, EvictAll, Victims;
    DropsSelf(s);
    if us != [] {
      var m := EnforceAll(c, s, us[..|us| - 1]);
      EnforceAllCounted(c, s, us[..|us| - 1]);
      EvictAllCounted(m, us[|us| - 1], Victims(c, m, us[|us| - 1]));
      DropsTwice(s, m, EnforceAll(c, s, us));
    }
  }

  /** Every user who was attached has been evicted in between. */
  ghost predicate Emptied(s: State, t: State, x: EventId)
    requires x in s.events
  {
    forall v {:trigger EvictionsOf(x, v)} :: v in s.events[x].status ==>
      Count(EvictionsOf(x, v), s.trace) < Count(EvictionsOf(x, v), t.trace)
  }

  lemma InsertCounted(s: State, id: EventId, targets: seq<UserId>, opts: Options)
    requires id !in s.events
    ensures DropsCounted(s, Insert(s, id, targets, opts))
  {
    hide Count;
  }

  /** Below the limit, `create` takes a record out only by evicting every user attached to it. */
  lemma CreateEmpties(c: Config, s: State, id: EventId, targets: seq<UserId>, opts: Options, x: EventId)
    requires id !in s.events && |s.events| < c.maxTotal && x in s.events && x !in Create(c, s, id, targets, opts).events
    ensures Emptied(s, Create(c, s, id, targets, opts), x)
  {
    hide Count, EnforceAll, Insert;
    var i := Insert(s, id, targets, opts);
    InsertCounted(s, id, targets, opts);
    EnforceAllCounted(c, i, targets);
    DropsTwice(s, i, EnforceAll(c, i, targets));
  }

  lemma {:induction false} LiveCounted(s: State, id: EventId, online: seq<UserId>)
    ensures DropsCounted(s, LiveAll(s, id, online)) && LiveAll(s, id, online).events.Keys == s.events.Keys
  {
    hide Count;
    if online != [] {
      var m := LiveAll(s, id, online[..|online| - 1]);
      LiveCounted(s, id, online[..|online| - 1]);
      LogCounts(m.trace, Sent(id, online[|online| - 1], Live));
    }
  }

  lemma {:induction false} LogAllCounted(s: State, id: EventId, us: seq<UserId>, via: Via)
    ensures DropsCounted(s, LogAll(s, id, us, via)) && LogAll(s, id, us, via).events == s.events
  {
    hide Count;
    if us != [] {
      var m := LogAll(s, id, us[..|us| - 1], via);
      LogAllCounted(s, id, us[..|us| - 1], via);
      LogCounts(m.trace, Sent(id, us[|us| - 1], via));
    }
  }

  lemma EmptiedLater(s: State, m: State, t: State, x: EventId)
    requires x in s.events && Emptied(s, m, x) && DropsCounted(m, t)
    ensures Emptied(s, t, x)
  {
    hide Count;
  }

  // ---------- why a record leaves ----------

  /** The reasons for which event `x` may leave in one step, said of the state before. */
  ghost predicate MayLeave(c: Config, s: State, e: Step, t: State, x: EventId)
    requires x in s.events
  {
    || (exists u :: Applies(s, e, u, x) && OthersDone(s.events[x], u))
    || ((e == TimerFires(x) || e == CleanupTick) && Over(s.events[x], s.now))
    || (Created(e) != {} && (Emptied(s, t, x) || |s.events| >= c.maxTotal))
    || (e == CleanupTick && |Living(s)| > c.maxTotal)
  }

  lemma CreationLeaves(c: Config, s: State, e: Step, x: EventId)
    requires c.Sane() && Inv(c, s) && Enabled(c, s, e) && Created(e) != {} && |s.events| < c.maxTotal
    requires x in s.events && x !in Next(c, s, e).events
    ensures Emptied(s, Next(c, s, e), x)
  {
    hide Create, LiveAll, LogAll, DropsCounted, Emptied, Wf, FitsUsers;
    var targets := if e.Publish? then e.targets else e.online + e.offline;
    var m := Create(c, s, e.id, targets, e.opts);
    UnbornIsUnstored(s, e.id);
    if e.Dispatch? {
      LiveCounted(m, e.id, e.online);
      CreateEmpties(c, s, e.id, targets, e.opts, x);
      EmptiedLater(s, m, Next(c, s, e), x);
    } else if e.BrokenDispatch? {
      LogAllCounted(m, e.id, e.online[..e.written], Cut);
      CreateEmpties(c, s, e.id, targets, e.opts, x);
      EmptiedLater(s, m, Next(c, s, e), x);
    } else {
      CreateEmpties(c, s, e.id, targets, e.opts, x);
    }
  }

  lemma UnbornIsUnstored(s: State, id: EventId)
    requires Ledger(s) && id !in s.births
    ensures id !in s.events
  {
    assert Accounted(s, id);
  }

  lemma ApplicationLeaves(c: Config, s: State, e: Step, u: UserId, id: EventId, x: EventId)
    requires Ledger(s) && Enabled(c, s, e)
    requires e == Acknowledge(u, id) || e == ReplayOne(u, id) || (e.RetryOne? && e.user == u && e.id == id)
    requires x in s.events && x !in Next(c, s, e).events
    ensures x == id && Applies(s, e, u, x) && OthersDone(s.events[x], u)
  {
    hide Ledger, SendStored, MarkApplied, OthersDone, LeftByAck, ShouldRetry;
    if id in s.events {
      if e.Acknowledge? {
        AcknowledgeEffect(c, s, u, id);
      } else if e.ReplayOne? {
        SendEffects(s, u, id, Replay);
      } else {
        SendEffects(s, u, id, Retry);
      }
    } else {
      UnstoredIsIdle(s, u, id);
    }
  }

  lemma UnstoredIsIdle(s: State, u: UserId, id: EventId)
    requires id !in s.events
    ensures MarkApplied(s, u, id) == s && SendStored(s, u, id, Replay) == s && SendStored(s, u, id, Retry) == s
  {
  }

  /**
   * A record leaves only if it was acknowledged by all, or its time was over, or every user attached
   * to it was evicted by a new event, or the store was at its limit when an event was created, or
   * over it with unexpired events alone at a cleanup.
   */
  lemma LeavesForAReason(c: Config, s: State, e: Step, x: EventId)
    requires c.Sane() && Inv(c, s) && Enabled(c, s, e) && x in s.events && x !in Next(c, s, e).events
    ensures MayLeave(c, s, e, Next(c, s, e), x)
  {
    hide Next, Emptied, OthersDone, Applies, ShouldRetry, Living, Over;
    match e {
      case Elapse(_) => NothingLeaves(c, s, e);
      case Publish(_, _, _) =>
        if |s.events| < c.maxTotal {
          CreationLeaves(c, s, e, x);
        }
      case Dispatch(_, _, _, _) =>
        if |s.events| < c.maxTotal {
          CreationLeaves(c, s, e, x);
        }
      case BrokenDispatch(_, _, _, _, _) =>
        if |s.events| < c.maxTotal {
          CreationLeaves(c, s, e, x);
        }
      case Acknowledge(u, id) => ApplicationLeaves(c, s, e, u, id, x);
      case LateMark(_, _) => NothingLeaves(c, s, e);
      case ReplayOne(u, id) => ApplicationLeaves(c, s, e, u, id, x);
      case RetryOne(u, id, _) => ApplicationLeaves(c, s, e, u, id, x);
      case TimerFires(id) => TimerLeaves(c, s, id, x);
      case CleanupTick => TickLeaves(c, s, x);
    }
  }

  lemma NothingLeaves(c: Config, s: State, e: Step)
    requires Enabled(c, s, e) && (e.Elapse? || e.LateMark?)
    ensures Next(c, s, e).events.Keys == s.events.Keys
  {
  }

  lemma TimerLeaves(c: Config, s: State, id: EventId, x: EventId)
    requires Ledger(s) && x in s.events && x !in Next(c, s, TimerFires(id)).events
    ensures x == id && Over(s.events[x], s.now)
  {
    hide Ledger, LeftByExpiry, Over;
    if id in s.events {
      TimerEffect(c, s, id);
    }
  }

  lemma TickLeaves(c: Config, s: State, x: EventId)
    requires c.Sane() && Wf(s) && x in s.events && x !in Next(c, s, CleanupTick).events
    ensures Over(s.events[x], s.now) || |Living(s)| > c.maxTotal
  {
    hide Wf, Over, Swept, Cleanup;
    CleanupEffect(c, s);
    assert x in Living(s) <==> !Over(s.events[x], s.now);
  }

  /** Over every run: whatever left in some step left for one of these reasons. */
  lemma LeavesOverRuns(c: Config, now: int, run: seq<Step>, k: nat, x: EventId)
    requires c.Sane() && IsRun(c, Init(now), run) && k < |run|
    requires x in Exec(c, Init(now), run[..k]).events && x !in Exec(c, Init(now), run[..k + 1]).events
    ensures MayLeave(c, Exec(c, Init(now), run[..k]), run[k], Exec(c, Init(now), run[..k + 1]), x)
  {
    hide Next, Enabled, MayLeave, Inv;
    RunGrows(c, Init(now), run, k);
    RunGrows(c, Init(now), run, k + 1);
    LastStep(c, Init(now), run[..k + 1]);
    assert run[..k + 1][..k] == run[..k];
    RunKeepsInv(c, now, run[..k]);
    LeavesForAReason(c, Exec(c, Init(now), run[..k]), run[k], x);
  }

  // ---------- a new event ----------

  /** A record that may have lost users to the per-user limit, and nothing else. */
  ghost predicate Trimmed(r: Rec, q: Rec) {
    && q.opts == r.opts && q.createdAt == r.createdAt && q.attempts == r.attempts && q.last == r.last
    && q.status.Keys <= r.status.Keys
    && (forall v :: v in q.status ==> q.status[v] == r.status[v])
    && (forall v :: v in r.status && v !in q.status ==> r.status[v] != APPLIED)
  }

  /**
   * A new event is stored as of now, STORED for exactly its targets and never tried; of the others
   * some users who still waited may have been dropped, and every drop is counted.
   */
  lemma PublishEffect(c: Config, s: State, id: EventId, targets: seq<UserId>, opts: Options)
    requires c.Sane() && Inv(c, s) && id !in s.births
    ensures var t := Next(c, s, Publish(id, targets, opts));
      && id in t.events && t.events[id] == Rec(opts, s.now, (map u | u in targets :: STORED), map[], map[])
      && t.births == s.births[id := Birth((set u | u in targets), opts, s.now)] && t.now == s.now
      && (forall x :: x in t.events && x != id ==> x in s.events && Trimmed(s.events[x], t.events[x]))
  {
    hide Create, Inv, Newest;
    CreateKeeps(c, s, id, targets, opts);
    MakeRoomKeeps(c, s);
    var t := Create(c, s, id, targets, opts);
    assert Fresh(s, targets, opts).status == (map u | u in targets :: STORED);
    var i := Insert(MakeRoom(c, s), id, targets, opts);
    forall x | x in t.events && x != id ensures x in s.events && Trimmed(s.events[x], t.events[x]) {
      assert i.events[x] == MakeRoom(c, s).events[x];
    }
  }

  // ---------- nobody's records ----------

  /** Every stored event has somebody attached. */
  ghost predicate Attached(s: State) {
    forall id :: id in s.events ==> s.events[id].status.Keys != {}
  }

  lemma EvictKeepsAttached(s: State, u: UserId, id: EventId)
    requires Attached(s)
    ensures Attached(Evict(s, u, id))
  {
    hide Without, Unindex;
  }

  lemma {:induction false} EvictAllKeepsAttached(s: State, u: UserId, ids: seq<EventId>)
    requires Attached(s)
    ensures Attached(EvictAll(s, u, ids))
  {
    hide Attached, Evict;
    if ids != [] {
      EvictAllKeepsAttached(s, u, ids[..|ids| - 1]);
      EvictKeepsAttached(EvictAll(s, u, ids[..|ids| - 1]), u, ids[|ids| - 1]);
    }
  }

  lemma {:induction false} EnforceAllKeepsAttached(c: Config, s: State, us: seq<UserId>)
    requires Attached(s)
    ensures Attached(EnforceAll(c, s, us))
  {
    hide Attached, EvictAll, Victims;
    if us != [] {
      var m := EnforceAll(c, s, us[..|us| - 1]);
      EnforceAllKeepsAttached(c, s, us[..|us| - 1]);
      EvictAllKeepsAttached(m, us[|us| - 1], Victims(c, m, us[|us| - 1]));
    }
  }

  lemma FewerKeepsAttached(s: State, t: State)
    requires Attached(s) && forall id :: id in t.events ==> id in s.events && t.events[id].status.Keys >= s.events[id].status.Keys
    ensures Attached(t)
  {
  }

  lemma InsertKeepsAttached(s: State, id: EventId, targets: seq<UserId>, opts: Options)
    requires Attached(s) && targets != []
    ensures Attached(Insert(s, id, targets, opts))
  {
    assert targets[0] in Fresh(s, targets, opts).status.Keys;
  }

  lemma RoomKeepsAttached(c: Config, s: State)
    requires Attached(s)
    ensures Attached(MakeRoom(c, s))
  {
    hide RemoveAll, ForceVictims;
    RemoveAllEffect(s, ForceVictims(c, s), ByForce);
  }

  lemma CreateKeepsAttached(c: Config, s: State, id: EventId, targets: seq<UserId>, opts: Options)
    requires Attached(s) && targets != []
    ensures Attached(Create(c, s, id, targets, opts))
  {
    hide Attached, EnforceAll, Insert, ForceCleanup;
    RoomKeepsAttached(c, s);
    InsertKeepsAttached(MakeRoom(c, s), id, targets, opts);
    EnforceAllKeepsAttached(c, Insert(MakeRoom(c, s), id, targets, opts), targets);
  }

  lemma MarksKeepAttached(s: State, u: UserId, id: EventId)
    requires Attached(s)
    ensures Attached(MarkApplied(s, u, id)) && Attached(MarkDelivered(s, u, id))
  {
    hide Without, Unindex;
  }

  lemma {:induction false} LiveKeepsAttached(s: State, id: EventId, online: seq<UserId>)
    requires Attached(s)
    ensures Attached(LiveAll(s, id, online))
  {
    hide MarkDelivered;
    if online != [] {
      var m := LiveAll(s, id, online[..|online| - 1]);
      LiveKeepsAttached(s, id, online[..|online| - 1]);
      MarksKeepAttached(Log(m, Sent(id, online[|online| - 1], Live)), online[|online| - 1], id);
    }
  }

  lemma NextKeepsAttached(c: Config, s: State, e: Step)
    requires c.Sane() && Wf(s) && Attached(s) && Enabled(c, s, e)
    ensures Attached(Next(c, s, e))
  {
    hide Create, LiveAll, LogAll, Cleanup, MarkApplied, MarkDelivered, Wf, Without, Unindex, ShouldRetry;
    match e {
      case Elapse(_) =>
      case Publish(id, targets, opts) => CreateKeepsAttached(c, s, id, targets, opts);
      case Dispatch(id, online, offline, opts) =>
        CreateKeepsAttached(c, s, id, online + offline, opts);
        LiveKeepsAttached(Create(c, s, id, online + offline, opts), id, online);
      case BrokenDispatch(id, online, offline, written, opts) =>
        CreateKeepsAttached(c, s, id, online + offline, opts);
        LogsOnly(Create(c, s, id, online + offline, opts), id, online[..written], Cut);
      case Acknowledge(u, id) => MarksKeepAttached(s, u, id);
      case LateMark(u, id) => MarksKeepAttached(s, u, id);
      case ReplayOne(u, id) => MarksKeepAttached(Log(s, Sent(id, u, Replay)), u, id);
      case RetryOne(u, id, _) => MarksKeepAttached(Log(s, Sent(id, u, Retry)), u, id);
      case TimerFires(id) => FewerKeepsAttached(s, Next(c, s, e));
      case CleanupTick => TickKeepsAttached(c, s);
    }
  }

  lemma TickKeepsAttached(c: Config, s: State)
    requires c.Sane() && Wf(s) && Attached(s)
    ensures Attached(Next(c, s, CleanupTick))
  {
    hide Wf, Cleanup, Living;
    CleanupEffect(c, s);
    FewerKeepsAttached(s, Next(c, s, CleanupTick));
  }

  /** In every reachable state each stored event has somebody attached: emptied records are gone. */
  lemma {:induction false} NobodysAreGone(c: Config, now: int, run: seq<Step>)
    requires c.Sane() && IsRun(c, Init(now), run)
    ensures Attached(Exec(c, Init(now), run))
  {
    hide Next, Enabled, Attached, Inv;
    if run == [] {
      NothingAttached(now);
    } else {
      var n := |run| - 1;
      NobodysAreGone(c, now, run[..n]);
      RunKeepsInv(c, now, run[..n]);
      InvLedger(c, Exec(c, Init(now), run[..n]));
      NextKeepsAttached(c, Exec(c, Init(now), run[..n]), run[n]);
    }
  }

  lemma NothingAttached(now: int)
    ensures Attached(Init(now))
  {
  }
}
