// The fate of every (event, target) pair, the memory bounds and the order of forced removal.
module EventFates {
  import opened Ordered
  import opened EventModel
  import opened EventInvariants
  import opened EventLedger
  import opened EventRuns
  import opened EventSends

  // ---------- conservation ----------

  /** The users an event is attached to, or was attached to when its record was removed. */
  ghost function Holders(s: State, id: EventId): map<UserId, Status> {
    if id in s.events then s.events[id].status
    else
      var rs := Removals(s.trace, id);
      if rs != [] && rs[0].Removed? then rs[0].final else map[]
  }

  ghost predicate WasEvicted(s: State, id: EventId, u: UserId) {
    Count(EvictionsOf(id, u), s.trace) == 1
  }

  datatype Fate = InQueue | Done | Lost | WithRecord

  /** The ledger's four accounts. Dropped means evicted and not attached again since. */
  ghost predicate HasFate(s: State, id: EventId, u: UserId, f: Fate) {
    match f
    case InQueue => id in s.events && s.events[id].Waiting(u)
    case Done => id in s.events && u in s.events[id].status && s.events[id].status[u] == APPLIED
    case Lost => WasEvicted(s, id, u) && u !in Holders(s, id)
    case WithRecord => id !in s.events && u in Holders(s, id) && |Removals(s.trace, id)| == 1
  }

  ghost predicate OneFate(s: State, id: EventId, u: UserId) {
    && (exists f :: HasFate(s, id, u, f))
    && (forall f, g :: HasFate(s, id, u, f) && HasFate(s, id, u, g) ==> f == g)
  }

  lemma StoredFate(s: State, id: EventId, u: UserId)
    requires Ledger(s) && id in s.births && u in s.births[id].targets && id in s.events
    ensures OneFate(s, id, u)
  {
    assert Accounted(s, id);
    var r := s.events[id];
    assert Count(EvictionsOf(id, u), s.trace) <= 1;
    assert HasFate(s, id, u, if u !in r.status then Lost else if r.Waiting(u) then InQueue else Done);
  }

  lemma GoneFate(s: State, id: EventId, u: UserId)
    requires Ledger(s) && id in s.births && u in s.births[id].targets && id !in s.events
    ensures OneFate(s, id, u)
  {
    assert Accounted(s, id);
    assert Count(EvictionsOf(id, u), s.trace) <= 1;
    assert Holders(s, id) == Removals(s.trace, id)[0].final;
    assert HasFate(s, id, u, if u !in Holders(s, id) then Lost else WithRecord);
  }

  /**
   * Conservation: in every reachable state each pair given to `create` has exactly one fate, is
   * evicted at most once, and its record is removed exactly once when gone, never when stored.
   */
  lemma Conservation(c: Config, now: int, run: seq<Step>, id: EventId, u: UserId)
    requires c.Sane() && IsRun(c, Init(now), run)
    requires var s := Exec(c, Init(now), run); id in s.births && u in s.births[id].targets
    ensures var s := Exec(c, Init(now), run);
      && OneFate(s, id, u)
      && Count(EvictionsOf(id, u), s.trace) <= 1
      && |Removals(s.trace, id)| == (if id in s.events then 0 else 1)
  {
    var s := Exec(c, Init(now), run);
    RunKeepsInv(c, now, run);
    assert Accounted(s, id);
    assert Count(EvictionsOf(id, u), s.trace) <= 1;
    if id in s.events {
      StoredFate(s, id, u);
    } else {
      GoneFate(s, id, u);
    }
  }

  ghost predicate NoticesRight(s: State, id: EventId) {
    var rs, n := Removals(s.trace, id), Count(NoticesOf(id), s.trace);
    && |rs| <= 1 && n <= |rs|
    && (|rs| == 1 && rs[0].Removed? && id in s.births ==>
          && (n == 1 <==> rs[0].reason != ByAck && Notifies(s.births[id].opts))
          && (rs[0].reason == ByAck ==> forall v :: v in rs[0].final ==> rs[0].final[v] == APPLIED))
  }

  /**
   * `event.expired` is emitted at most once per event, exactly when the record went for another
   * reason than acknowledgement and the sender asked; a removal by acknowledgement happens only
   * with every user still attached APPLIED.
   */
  lemma Notices(c: Config, now: int, run: seq<Step>, id: EventId)
    requires c.Sane() && IsRun(c, Init(now), run)
    ensures NoticesRight(Exec(c, Init(now), run), id)
  {
    RunKeepsInv(c, now, run);
    LedgerNotices(Exec(c, Init(now), run), id);
  }

  lemma LedgerNotices(s: State, id: EventId)
    requires Ledger(s)
    ensures NoticesRight(s, id)
  {
    assert Accounted(s, id);
  }

  /** An evicted pair that is attached again: it was evicted, and yet it is, or was, held. */
  ghost predicate Reheld(s: State, id: EventId, u: UserId) {
    WasEvicted(s, id, u) && u in Holders(s, id)
  }

  /** The acknowledgement of a user whose entry was evicted while the record is still stored. */
  ghost predicate LateAck(s: State, e: Step, id: EventId, u: UserId) {
    e == Acknowledge(u, id) && id in s.events && u !in s.events[id].status && WasEvicted(s, id, u)
  }

  ghost predicate SameReheld(s: State, t: State) {
    && s.births.Keys <= t.births.Keys
    && (forall id, u :: id in s.births ==> (Reheld(t, id, u) <==> Reheld(s, id, u)))
  }

  lemma SameReheldSelf(s: State)
    ensures SameReheld(s, s)
  {
  }

  lemma SameReheldTwice(s: State, m: State, t: State)
    requires SameReheld(s, m) && SameReheld(m, t)
    ensures SameReheld(s, t)
  {
    forall id, u | id in s.births ensures Reheld(t, id, u) <==> Reheld(s, id, u) {
      assert Reheld(m, id, u) <==> Reheld(s, id, u);
    }
  }

  lemma RemoveHolders(s: State, id: EventId, reason: Reason, x: EventId)
    requires Ledger(s) && id in s.events
    ensures Holders(Remove(s, id, reason), x) == Holders(s, x)
  {
    RemoveCounts(s, id, reason);
    assert Accounted(s, id);
  }

  lemma RemoveReheld(s: State, id: EventId, reason: Reason)
    requires Ledger(s)
    ensures SameReheld(s, Remove(s, id, reason))
  {
    if id in s.events {
      var t := Remove(s, id, reason);
      forall x, u | x in s.births ensures Reheld(t, x, u) <==> Reheld(s, x, u) {
        RemoveHolders(s, id, reason, x);
        assert Count(EvictionsOf(x, u), t.trace) == Count(EvictionsOf(x, u), s.trace) by {
          RemoveCounts(s, id, reason);
        }
      }
    }
  }

  lemma {:induction false} RemoveAllReheld(s: State, ids: seq<EventId>, reason: Reason)
    requires Ledger(s) && reason != ByAck
    ensures SameReheld(s, RemoveAll(s, ids, reason))
  {
    if ids != [] {
      var m := RemoveAll(s, ids[..|ids| - 1], reason);
      RemoveAllReheld(s, ids[..|ids| - 1], reason);
      RemoveAllKeepsLedger(s, ids[..|ids| - 1], reason);
      RemoveReheld(m, ids[|ids| - 1], reason);
      SameReheldTwice(s, m, RemoveAll(s, ids, reason));
    }
  }

  lemma EvictReheld(s: State, u: UserId, id: EventId)
    requires Ledger(s) && id in s.events && u in s.index && s.events[id].Waiting(u)
    ensures SameReheld(s, Evict(s, u, id))
  {
    var m := Detach(s, u, id);
    LogCounts(s.trace, Evicted(id, u));
    assert Accounted(s, id);
    forall x, v | x in s.births ensures Reheld(m, x, v) <==> Reheld(s, x, v) {
      assert Count(EvictionsOf(x, v), m.trace) == Count(EvictionsOf(x, v), s.trace) + if x == id && v == u then 1 else 0;
      assert Removals(m.trace, x) == Removals(s.trace, x);
      if x == id && v == u {
        assert Count(EvictionsOf(id, u), s.trace) == 0;
      }
    }
    DetachKeepsLedger(s, u, id);
    RemoveReheld(m, id, ByForce);
    SameReheldTwice(s, m, Remove(m, id, ByForce));
  }

  lemma {:induction false} EvictAllReheld(s: State, u: UserId, ids: seq<EventId>, kept: EventId)
    requires Wf(s) && NoDup(ids) && Ledger(s)
    requires forall id :: id in ids ==> IsPending(s, u, id)
    requires ids != [] ==> InIndex(s, u, kept) && kept !in ids
    ensures SameReheld(s, EvictAll(s, u, ids))
  {
    if ids != [] {
      var n := |ids| - 1;
      EvictAllReheld(s, u, ids[..n], kept);
      EvictAllKeepsLedger(s, u, ids[..n], kept);
      EvictAllEffect(s, u, ids[..n], kept);
      var m := EvictAll(s, u, ids[..n]);
      assert ids[n] !in Elems(ids[..n]) && IsPending(s, u, ids[n]);
      assert IsPending(m, u, ids[n]) && InIndex(m, u, kept);
      EvictReheld(m, u, ids[n]);
      SameReheldTwice(s, m, EvictAll(s, u, ids));
    }
  }

  lemma {:induction false} EnforceAllReheld(c: Config, s: State, us: seq<UserId>)
    requires c.Sane() && Wf(s) && Ledger(s)
    ensures SameReheld(s, EnforceAll(c, s, us))
  {
    hide SameReheld, Ledger, Wf, EvictAll, PendingIds;
    SameReheldSelf(s);
    if us != [] {
      var n := |us| - 1;
      var m, u := EnforceAll(c, s, us[..n]), us[n];
      EnforceAllReheld(c, s, us[..n]);
      EnforceAllKeepsLedger(c, s, us[..n]);
      EnforceAllEffect(c, s, us[..n]);
      VictimsFacts(c, m, u);
      var p := PendingIds(m, u);
      EvictAllReheld(m, u, Victims(c, m, u), if p == [] then 0 else p[|p| - 1]);
      SameReheldTwice(s, m, EnforceAll(c, s, us));
    }
  }

  /** Records change, but neither the history nor any set of attached users does. */
  lemma SameUsersReheld(s: State, t: State)
    requires s.births.Keys <= t.births.Keys && t.trace == s.trace && t.events.Keys == s.events.Keys
    requires forall id :: id in s.events ==> t.events[id].status.Keys == s.events[id].status.Keys
    ensures SameReheld(s, t)
  {
  }

  lemma LogReheld(s: State, id: EventId, u: UserId, via: Via)
    ensures SameReheld(s, Log(s, Sent(id, u, via)))
  {
    LogCounts(s.trace, Sent(id, u, via));
  }

  lemma {:induction false} LogAllReheld(s: State, id: EventId, us: seq<UserId>, via: Via)
    ensures SameReheld(s, LogAll(s, id, us, via))
  {
    hide SameReheld;
    SameReheldSelf(s);
    if us != [] {
      var m := LogAll(s, id, us[..|us| - 1], via);
      LogAllReheld(s, id, us[..|us| - 1], via);
      LogReheld(m, id, us[|us| - 1], via);
      SameReheldTwice(s, m, LogAll(s, id, us, via));
    }
  }

  lemma InsertReheld(s: State, id: EventId, targets: seq<UserId>, opts: Options)
    requires id !in s.births
    ensures SameReheld(s, Insert(s, id, targets, opts))
  {
    var t := Insert(s, id, targets, opts);
    forall x, u | x in s.births ensures Reheld(t, x, u) <==> Reheld(s, x, u) {
      assert Holders(t, x) == Holders(s, x);
    }
  }

  lemma CreateReheld(c: Config, s: State, id: EventId, targets: seq<UserId>, opts: Options)
    requires c.Sane() && Inv(c, s) && id !in s.births
    ensures SameReheld(s, Create(c, s, id, targets, opts))
  {
    var m := MakeRoom(c, s);
    var i := Insert(m, id, targets, opts);
    RemoveAllReheld(s, ForceVictims(c, s), ByForce);
    MakeRoomKeeps(c, s);
    InsertFacts(m, id, targets, opts);
    InsertReheld(m, id, targets, opts);
    EnforceAllReheld(c, i, targets);
    assert SameReheld(s, m);
    SameReheldTwice(s, m, i);
    SameReheldTwice(s, i, EnforceAll(c, i, targets));
  }

  /** An acknowledgement makes a pair held again exactly when it is a late one. */
  lemma AckReheld(s: State, v: UserId, id: EventId, x: EventId, u: UserId)
    requires Ledger(s) && x in s.births
    ensures Reheld(MarkApplied(s, v, id), x, u) <==> Reheld(s, x, u) || LateAck(s, Acknowledge(v, id), x, u)
  {
    if id in s.events {
      var m := Touch(s, id, s.events[id].WithStatus(v, APPLIED));
      assert Holders(m, x).Keys == Holders(s, x).Keys + if x == id then {v} else {};
      assert Reheld(m, x, u) <==> Reheld(s, x, u) || LateAck(s, Acknowledge(v, id), x, u);
      if m.events[id].AllApplied() {
        TouchesKeepLedger(s, m);
        RemoveReheld(m, id, ByAck);
      }
    }
  }

  lemma SendReheld(s: State, u: UserId, id: EventId, via: Via)
    requires Ledger(s) && id in s.events && u in s.events[id].status
    ensures SameReheld(s, SendStored(s, u, id, via))
  {
    var m := Log(s, Sent(id, u, via));
    assert Accounted(s, id);
    LogReheld(s, id, u, via);
    SentKeepsLedger(s, u, id, via);
    SameUsersReheld(m, MarkDelivered(m, u, id));
    forall x, v | x in m.births ensures Reheld(MarkApplied(m, u, id), x, v) <==> Reheld(m, x, v) {
      AckReheld(m, u, id, x, v);
    }
    assert SameReheld(m, MarkApplied(m, u, id));
    SameReheldTwice(s, m, SendStored(s, u, id, via));
  }

  lemma {:induction false} LiveReheld(c: Config, s: State, id: EventId, online: seq<UserId>)
    requires Inv(c, s) && id in s.events && forall u :: u in online ==> u in s.events[id].status
    ensures SameReheld(s, LiveAll(s, id, online))
  {
    hide SameReheld, Inv;
    SameReheldSelf(s);
    if online != [] {
      var n := |online| - 1;
      LiveKeeps(c, s, id, online[..n]);
      LiveReheld(c, s, id, online[..n]);
      var m := LiveAll(s, id, online[..n]);
      var l := Log(m, Sent(id, online[n], Live));
      LogReheld(m, id, online[n], Live);
      SameUsersReheld(l, MarkDelivered(l, online[n], id));
      SameReheldTwice(s, m, l);
      SameReheldTwice(s, l, LiveAll(s, id, online));
    }
  }

  lemma CleanupReheld(c: Config, s: State)
    requires Ledger(s)
    ensures SameReheld(s, Cleanup(c, s))
  {
    var ids := Restrict(s.order, ExpiredIds(s));
    var a := CleanupExpired(s);
    RemoveAllReheld(s, ids, ByExpiry);
    RemoveAllKeepsLedger(s, ids, ByExpiry);
    var b := MarkStale(c, a);
    SameUsersReheld(a, b);
    SameReheldTwice(s, a, b);
    StaleKeepsLedger(c, a);
    RemoveAllReheld(b, ForceVictims(c, b), ByForce);
    SameReheldTwice(s, b, ForceCleanup(c, b));
  }

  lemma MarkReheld(s: State, u: UserId, id: EventId)
    requires id in s.events ==> u in s.events[id].status
    ensures SameReheld(s, MarkDelivered(s, u, id))
  {
    SameUsersReheld(s, MarkDelivered(s, u, id));
  }

  lemma DispatchReheld(c: Config, s: State, id: EventId, online: seq<UserId>, offline: seq<UserId>, opts: Options)
    requires c.Sane() && Inv(c, s) && id !in s.births
    ensures SameReheld(s, Dispatch2(c, s, id, online, offline, opts))
  {
    hide LiveAll, Create, SameReheld, Inv;
    var m := Create(c, s, id, online + offline, opts);
    CreateReheld(c, s, id, online + offline, opts);
    CreateKeeps(c, s, id, online + offline, opts);
    LiveReheld(c, m, id, online);
    SameReheldTwice(s, m, Dispatch2(c, s, id, online, offline, opts));
  }

  lemma BrokenReheld(c: Config, s: State, id: EventId, online: seq<UserId>, offline: seq<UserId>, written: nat, opts: Options)
    requires c.Sane() && Inv(c, s) && id !in s.births && written <= |online|
    ensures SameReheld(s, CutDispatch(c, s, id, online, offline, written, opts))
  {
    hide LogAll, Create, SameReheld, Inv;
    var m := Create(c, s, id, online + offline, opts);
    CreateReheld(c, s, id, online + offline, opts);
    LogAllReheld(m, id, online[..written], Cut);
    SameReheldTwice(s, m, CutDispatch(c, s, id, online, offline, written, opts));
  }

  /** No step but an acknowledgement attaches a user again. */
  lemma NextReheld(c: Config, s: State, e: Step)
    requires c.Sane() && Inv(c, s) && Enabled(c, s, e) && !e.Acknowledge?
    ensures SameReheld(s, Next(c, s, e))
  {
    hide Dispatch2, CutDispatch, Create, Cleanup, Remove, MarkApplied, MarkDelivered, SendStored, SameReheld, Wf, FitsUsers;
    match e {
      case Elapse(ms) => SameUsersReheld(s, Next(c, s, e));
      case Publish(x, targets, opts) => CreateReheld(c, s, x, targets, opts);
      case Dispatch(x, online, offline, opts) => DispatchReheld(c, s, x, online, offline, opts);
      case BrokenDispatch(x, online, offline, written, opts) => BrokenReheld(c, s, x, online, offline, written, opts);
      case Acknowledge(_, _) =>
      case LateMark(v, x) => MarkReheld(s, v, x);
      case ReplayOne(v, x) => SendReheld(s, v, x, Replay);
      case RetryOne(v, x, _) => SendReheld(s, v, x, Retry);
      case TimerFires(x) =>
        SameReheldSelf(s);
        RemoveReheld(s, x, ByExpiry);
      case CleanupTick => CleanupReheld(c, s);
    }
  }

  /**
   * When "dropped by the limit" and "held" overlap: a step makes a pair both evicted and held
   * again if and only if it is that user's acknowledgement, while the record is still stored and
   * the user is not attached to it.
   */
  lemma OverlapIsLateAck(c: Config, s: State, e: Step, id: EventId, u: UserId)
    requires c.Sane() && Inv(c, s) && Enabled(c, s, e) && id in s.births
    ensures Reheld(Next(c, s, e), id, u) <==> Reheld(s, id, u) || LateAck(s, e, id, u)
  {
    hide Reheld, Enabled, Wf, FitsUsers, MarkApplied;
    if e.Acknowledge? {
      AckReheld(s, e.user, e.id, id, u);
    } else {
      NextReheld(c, s, e);
    }
  }

  lemma {:induction false} LiveAppliesNobody(s: State, id: EventId, online: seq<UserId>)
    requires id in s.events && forall u :: u in s.events[id].status ==> s.events[id].status[u] != APPLIED
    ensures var t := LiveAll(s, id, online);
      id in t.events && forall u :: u in t.events[id].status ==> t.events[id].status[u] != APPLIED
  {
    if online != [] {
      LiveAppliesNobody(s, id, online[..|online| - 1]);
    }
  }

  /** A step leaves the event it creates stored, and APPLIED for nobody. */
  lemma CreatedIsFresh(c: Config, s: State, e: Step, id: EventId)
    requires c.Sane() && Inv(c, s) && Enabled(c, s, e) && id in Created(e)
    ensures var t := Next(c, s, e);
      id in t.events && forall u :: u in t.events[id].status ==> t.events[id].status[u] != APPLIED
  {
    hide Inv, Create, LiveAll, LogAll, Trims, Newest;
    var targets := if e.Publish? then e.targets else e.online + e.offline;
    var m := Create(c, s, id, targets, e.opts);
    CreateKeeps(c, s, id, targets, e.opts);
    if e.Dispatch? {
      LiveAppliesNobody(m, id, e.online);
    } else if e.BrokenDispatch? {
      LogsOnly(m, id, e.online[..e.written], Cut);
    }
  }

  lemma UnbornIsNotReheld(s: State, id: EventId, u: UserId)
    requires Ledger(s) && id !in s.births
    ensures !Reheld(s, id, u)
  {
    hide Count, Removals;
    assert Accounted(s, id);
    assert Count(EvictionsOf(id, u), s.trace) == 0;
  }

  lemma FreshIsNotReheld(s: State, id: EventId, u: UserId)
    requires Ledger(s) && id in s.births && id in s.events
    requires forall v :: v in s.events[id].status ==> s.events[id].status[v] != APPLIED
    ensures !Reheld(s, id, u)
  {
    hide Count, Removals;
    assert Accounted(s, id);
    assert u in s.events[id].status ==> Count(EvictionsOf(id, u), s.trace) == 0;
  }

  lemma NewIsNotReheld(c: Config, s: State, e: Step, id: EventId, u: UserId)
    requires c.Sane() && Inv(c, s) && Enabled(c, s, e) && id !in s.births
    ensures !Reheld(s, id, u) && !Reheld(Next(c, s, e), id, u) && !LateAck(s, e, id, u)
  {
    hide Next, Reheld, Wf, FitsUsers, Count;
    UnbornIsNotReheld(s, id, u);
    assert Accounted(s, id);
    NextKeepsInv(c, s, e);
    NextCuts(c, s, e, id, u);
    if id in Created(e) {
      CreatedIsFresh(c, s, e, id);
      FreshIsNotReheld(Next(c, s, e), id, u);
    } else {
      UnbornIsNotReheld(Next(c, s, e), id, u);
    }
  }

  ghost predicate LateAcked(c: Config, now: int, run: seq<Step>, id: EventId, u: UserId) {
    exists i :: 0 <= i < |run| && LateAck(Exec(c, Init(now), run[..i]), run[i], id, u)
  }

  lemma LateAckedSnoc(c: Config, now: int, run: seq<Step>, id: EventId, u: UserId)
    requires run != []
    ensures var n := |run| - 1;
      LateAcked(c, now, run, id, u) <==> LateAcked(c, now, run[..n], id, u) || LateAck(Exec(c, Init(now), run[..n]), run[n], id, u)
  {
    hide LateAck, Exec;
    var n := |run| - 1;
    if i :| 0 <= i < n && LateAck(Exec(c, Init(now), run[..n][..i]), run[..n][i], id, u) {
      assert run[..n][..i] == run[..i];
      assert LateAck(Exec(c, Init(now), run[..i]), run[i], id, u);
    }
    if i :| 0 <= i < n && LateAck(Exec(c, Init(now), run[..i]), run[i], id, u) {
      assert run[..n][..i] == run[..i];
      assert LateAck(Exec(c, Init(now), run[..n][..i]), run[..n][i], id, u);
    }
  }

  /**
   * Over runs: a pair is both dropped and held after a run if and only if some step of the run was
   * that user's acknowledgement of a still stored record it had been evicted from.
   */
  lemma {:induction false} OverlapOverRuns(c: Config, now: int, run: seq<Step>, id: EventId, u: UserId)
    requires c.Sane() && IsRun(c, Init(now), run)
    ensures Reheld(Exec(c, Init(now), run), id, u) <==> LateAcked(c, now, run, id, u)
  {
    hide Reheld, LateAck, Next, Enabled, Inv;
    if run == [] {
      NothingReheld(now, id, u);
    } else {
      hide LateAcked;
      var n := |run| - 1;
      var s := Exec(c, Init(now), run[..n]);
      OverlapOverRuns(c, now, run[..n], id, u);
      RunKeepsInv(c, now, run[..n]);
      if id in s.births {
        OverlapIsLateAck(c, s, run[n], id, u);
      } else {
        NewIsNotReheld(c, s, run[n], id, u);
      }
      LateAckedSnoc(c, now, run, id, u);
    }
  }

  lemma NothingReheld(now: int, id: EventId, u: UserId)
    ensures !Reheld(Init(now), id, u)
  {
  }

  // ---------- index ----------

  /** What `getPending` finds through the index. */
  ghost function LookedUp(s: State, u: UserId): set<EventId> {
    if u !in s.index then {} else
    set id | id in s.index[u] && id in s.events && s.events[id].StatusOf(u) != APPLIED && !s.events[id].Expired(s.now)
  }

  lemma LookupIsScan(s: State, u: UserId)
    requires Wf(s)
    ensures LookedUp(s, u) == Pending(s, u)
  {
    forall id ensures id in LookedUp(s, u) <==> id in Pending(s, u) {
      assert id in Pending(s, u) <==> IsPending(s, u, id);
      if id in LookedUp(s, u) || id in Pending(s, u) {
        assert InIndex(s, u, id);
      }
    }
  }

  lemma PendingOldestFirst(s: State, u: UserId, i: nat, j: nat)
    requires Shape(s) && i < j < |PendingIds(s, u)|
    ensures PendingIds(s, u)[i] in s.events && PendingIds(s, u)[j] in s.events
    ensures s.events[PendingIds(s, u)[i]].createdAt <= s.events[PendingIds(s, u)[j]].createdAt
  {
    var p, q := RestrictOrder(s.order, Pending(s, u), i, j);
    assert s.order[p] in Elems(s.order) && s.order[q] in Elems(s.order);
  }

  /**
   * In every reachable state the index is exact: no user's set is empty, every id in it is
   * stored with the user attached, and looking a user up gives what scanning all events gives.
   * This holds although any user may acknowledge any event.
   */
  lemma IndexAgrees(c: Config, now: int, run: seq<Step>, u: UserId)
    requires c.Sane() && IsRun(c, Init(now), run)
    ensures var s := Exec(c, Init(now), run);
      && (u in s.index ==> s.index[u] != {})
      && (forall id :: InIndex(s, u, id) ==> id in s.events && u in s.events[id].status)
      && LookedUp(s, u) == Pending(s, u) == Elems(PendingIds(s, u))
      && NoDup(PendingIds(s, u))
  {
    RunKeepsInv(c, now, run);
    LookupIsScan(Exec(c, Init(now), run), u);
    PendingListed(Exec(c, Init(now), run), u);
  }

  // ---------- bounds ----------

  /** Nobody ever has more than the per-user limit pending. */
  lemma PerUserBound(c: Config, now: int, run: seq<Step>, u: UserId)
    requires c.Sane() && IsRun(c, Init(now), run)
    ensures |PendingIds(Exec(c, Init(now), run), u)| <= c.maxPerUser
  {
    RunKeepsInv(c, now, run);
    PendingListed(Exec(c, Init(now), run), u);
  }

  /**
   * How many records an eviction drops, with p pending: the oldest p - max when p >= max; when
   * the index set is over the limit but p is not, the negative slice end drops the oldest
   * 2p - max all the same, so nothing is dropped without need if and only if 2p <= max.
   */
  lemma EvictionCount(c: Config, s: State, u: UserId)
    requires c.Sane() && Wf(s)
    ensures var p, v := |Pending(s, u)|, Victims(c, s, u);
      && v <= PendingIds(s, u)
      && |Pending(Enforce(c, s, u), u)| == p - |v|
      && (if u !in s.index || |s.index[u]| <= c.maxPerUser then v == []
          else if p >= c.maxPerUser then |v| == p - c.maxPerUser
          else (v == [] <==> 2 * p <= c.maxPerUser) && (v != [] ==> |v| == 2 * p - c.maxPerUser))
  {
    PendingListed(s, u);
    VictimsFacts(c, s, u);
    EnforceFits(c, s, u);
  }

  /** The store never holds more than one event over its limit, and after a cleanup none over. */
  lemma GlobalBound(c: Config, now: int, run: seq<Step>)
    requires c.Sane() && IsRun(c, Init(now), run)
    ensures |Exec(c, Init(now), run).events| <= c.maxTotal + 1
    ensures run != [] && run[|run| - 1].CleanupTick? ==> |Exec(c, Init(now), run).events| <= c.maxTotal
  {
    hide Inv, Cleanup;
    RunKeepsInv(c, now, run);
    InvFits(c, Exec(c, Init(now), run));
    if run != [] && run[|run| - 1].CleanupTick? {
      RunKeepsInv(c, now, run[..|run| - 1]);
      CleanupKeeps(c, Exec(c, Init(now), run[..|run| - 1]));
    }
  }

  lemma InvFits(c: Config, s: State)
    requires Inv(c, s)
    ensures |s.events| <= c.maxTotal + 1
  {
  }

  /** What is in a prefix comes before what is not. */
  lemma PrefixFirst(o: seq<EventId>, k: nat, x: EventId, y: EventId) returns (i: nat, j: nat)
    requires k <= |o| && x in o[..k] && y in o && y !in o[..k]
    ensures i < j < |o| && o[i] == x && o[j] == y
  {
    assert forall n :: 0 <= n < k ==> o[n] in o[..k];
    i :| 0 <= i < k && o[..k][i] == x;
    j :| 0 <= j < |o| && o[j] == y;
  }

  /** A removed record comes before a kept one in the order of forced removal. */
  lemma RemovedComesFirst(c: Config, s: State, gone: EventId, kept: EventId) returns (i: nat, j: nat)
    requires c.Sane() && Shape(s)
    requires gone in ForceVictims(c, s) && kept in s.events && kept !in ForceVictims(c, s)
    ensures i < j < |ForceOrder(s)| && ForceOrder(s)[i] == gone && ForceOrder(s)[j] == kept
  {
    hide OldestFirst, StableSort, ForceRank;
    SortNoDup(s.order, ForceRanks(s));
    assert kept in Elems(ForceOrder(s));
    i, j := PrefixFirst(ForceOrder(s), |ForceVictims(c, s)|, gone, kept);
  }

  /** How many users of a record have a status. */
  ghost function Users(r: Rec, x: Status): nat {
    |set u | u in r.status && r.status[u] == x|
  }

  /** What a record weighs: four for each FAILED user, three DELIVERED, two STORED, one APPLIED. */
  ghost predicate Heavier(g: Rec, k: Rec) {
    4 * Users(g, FAILED) + 3 * Users(g, DELIVERED) + 2 * Users(g, STORED) + Users(g, APPLIED) >
    4 * Users(k, FAILED) + 3 * Users(k, DELIVERED) + 2 * Users(k, STORED) + Users(k, APPLIED)
  }

  lemma HeavierIsWeight(g: Rec, k: Rec)
    ensures Heavier(g, k) <==> Weight(g.status) > Weight(k.status)
  {
    assert forall r: Rec, x :: Users(r, x) == |Having(r.status, x)|;
  }

  /**
   * Forced cleanup removes exactly the excess, and every removed record is at least as heavy as
   * every kept one, and no younger when equally heavy.
   */
  lemma ForceRanking(c: Config, s: State, gone: EventId, kept: EventId)
    requires c.Sane() && Shape(s) && |s.events| >= c.maxTotal
    requires var t := ForceCleanup(c, s); gone in s.events && gone !in t.events && kept in t.events
    ensures |ForceCleanup(c, s).events| == c.maxTotal
    ensures kept in s.events && ForceCleanup(c, s).events[kept] == s.events[kept]
    ensures var g, k := s.events[gone], s.events[kept];
      Heavier(g, k) || (!Heavier(k, g) && g.createdAt <= k.createdAt)
  {
    hide Heavier, Weight, StableSort, RemoveAll, ForceVictims, NoDup, OldestFirst;
    ForceCleanupSize(c, s);
    RemoveAllEffect(s, ForceVictims(c, s), ByForce);
    assert gone in ForceVictims(c, s) && kept !in ForceVictims(c, s);
    assert gone in Elems(s.order) && kept in Elems(s.order);
    var i, j := RemovedComesFirst(c, s, gone, kept);
    StableSortSorts(s.order, ForceRanks(s));
    assert AtMost(ForceRanks(s)[gone], ForceRanks(s)[kept]);
    HeavierIsWeight(s.events[gone], s.events[kept]);
    HeavierIsWeight(s.events[kept], s.events[gone]);
  }
}
