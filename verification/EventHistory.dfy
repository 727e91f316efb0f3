// How records change over runs: the status automaton, the fate of every pair, and FAILED.
module EventHistory {
  import opened Ordered
  import opened EventModel
  import opened EventInvariants
  import opened EventLedger
  import opened EventRuns

  // ---------- the status automaton ----------

  /** What may lie between two points of a run for a record stored at both. */
  ghost predicate RecEvolves(a: Rec, b: Rec) {
    && b.opts == a.opts && b.createdAt == a.createdAt
    && (forall u :: a.Attempts(u) <= b.Attempts(u))
    && (forall u :: u in a.status && a.status[u] == APPLIED ==> u in b.status && b.status[u] == APPLIED)
    && (forall u :: b.Waiting(u) ==> a.Waiting(u) && (b.status[u] == STORED ==> a.status[u] == STORED))
  }

  ghost predicate Evolves(s: State, t: State) {
    && (forall id :: id in s.births ==> id in t.births && t.births[id] == s.births[id])
    && (forall id :: id in s.births && id in t.events ==> id in s.events && RecEvolves(s.events[id], t.events[id]))
  }

  lemma EvolvesTwice(s: State, m: State, t: State)
    requires Evolves(s, m) && Evolves(m, t)
    ensures Evolves(s, t)
  {
    forall id | id in s.births && id in t.events ensures id in s.events && RecEvolves(s.events[id], t.events[id]) {
      assert id in m.births && id in m.events;
      assert RecEvolves(s.events[id], m.events[id]) && RecEvolves(m.events[id], t.events[id]);
    }
  }

  lemma TrimsEvolves(s: State, t: State)
    requires Trims(s, t)
    ensures Evolves(s, t)
  {
    forall id | id in t.events ensures RecEvolves(s.events[id], t.events[id]) {
      assert t.events[id] == s.events[id].(status := t.events[id].status);
    }
  }

  lemma FewerEvolves(s: State, t: State)
    requires t.births == s.births && forall id :: id in t.events ==> id in s.events && t.events[id] == s.events[id]
    ensures Evolves(s, t)
  {
  }

  lemma AppliedEvolves(s: State, u: UserId, id: EventId)
    ensures Evolves(s, MarkApplied(s, u, id))
  {
  }

  lemma DeliveredEvolves(s: State, u: UserId, id: EventId)
    requires id in s.events ==> u in s.events[id].status
    ensures Evolves(s, MarkDelivered(s, u, id))
  {
  }

  lemma LogEvolves(s: State, e: Entry)
    ensures Evolves(s, Log(s, e))
  {
  }

  lemma SendEvolves(s: State, u: UserId, id: EventId, via: Via)
    requires id in s.events ==> u in s.events[id].status
    ensures Evolves(s, SendStored(s, u, id, via))
  {
    if id in s.events {
      var m := Log(s, Sent(id, u, via));
      assert Evolves(s, m);
      AppliedEvolves(m, u, id);
      DeliveredEvolves(m, u, id);
      EvolvesTwice(s, m, SendStored(s, u, id, via));
    }
  }

  /** `create` as its three parts: make room, insert, trim. */
  lemma CreateParts(c: Config, s: State, id: EventId, targets: seq<UserId>, opts: Options)
    requires c.Sane() && Inv(c, s) && id !in s.births
    ensures var m := MakeRoom(c, s);
      && m.now == s.now && m.births == s.births && id !in m.events
      && (forall x :: x in m.events ==> x in s.events && m.events[x] == s.events[x])
      && Trims(Insert(m, id, targets, opts), Create(c, s, id, targets, opts))
  {
    MakeRoomKeeps(c, s);
    CreateKeeps(c, s, id, targets, opts);
    assert Accounted(s, id);
  }

  lemma InsertEvolves(s: State, id: EventId, targets: seq<UserId>, opts: Options)
    requires id !in s.births
    ensures Evolves(s, Insert(s, id, targets, opts))
  {
  }

  lemma CreateEvolves(c: Config, s: State, id: EventId, targets: seq<UserId>, opts: Options)
    requires c.Sane() && Inv(c, s) && id !in s.births
    ensures Evolves(s, Create(c, s, id, targets, opts))
  {
    CreateParts(c, s, id, targets, opts);
    var m := MakeRoom(c, s);
    var i := Insert(m, id, targets, opts);
    var t := Create(c, s, id, targets, opts);
    FewerEvolves(s, m);
    InsertEvolves(m, id, targets, opts);
    TrimsEvolves(i, t);
    EvolvesTwice(s, m, i);
    EvolvesTwice(s, i, t);
  }

  lemma {:induction false} LiveEvolves(c: Config, s: State, id: EventId, online: seq<UserId>)
    requires Inv(c, s) && id in s.events && forall u :: u in online ==> u in s.events[id].status
    ensures Evolves(s, LiveAll(s, id, online))
  {
    hide Evolves, Inv, MarkDelivered;
    FewerEvolves(s, s);
    if online != [] {
      var n := |online| - 1;
      LiveKeeps(c, s, id, online[..n]);
      LiveEvolves(c, s, id, online[..n]);
      var m := LiveAll(s, id, online[..n]);
      var l := Log(m, Sent(id, online[n], Live));
      LogEvolves(m, Sent(id, online[n], Live));
      DeliveredEvolves(l, online[n], id);
      EvolvesTwice(s, m, l);
      EvolvesTwice(s, l, LiveAll(s, id, online));
    }
  }

  lemma StaleEvolves(c: Config, s: State)
    ensures Evolves(s, MarkStale(c, s))
  {
  }

  lemma RemoveAllEvolves(s: State, ids: seq<EventId>, reason: Reason)
    ensures Evolves(s, RemoveAll(s, ids, reason))
  {
    RemoveAllEffect(s, ids, reason);
  }

  lemma CleanupEvolves(c: Config, s: State)
    ensures Evolves(s, Cleanup(c, s))
  {
    var a := CleanupExpired(s);
    RemoveAllEvolves(s, Restrict(s.order, ExpiredIds(s)), ByExpiry);
    var b := MarkStale(c, a);
    StaleEvolves(c, a);
    EvolvesTwice(s, a, b);
    RemoveAllEvolves(b, ForceVictims(c, b), ByForce);
    EvolvesTwice(s, b, ForceCleanup(c, b));
  }

  lemma NextEvolves(c: Config, s: State, e: Step)
    requires c.Sane() && Inv(c, s) && Enabled(c, s, e)
    ensures Evolves(s, Next(c, s, e))
  {
    match e
    case Elapse(ms) => FewerEvolves(s, Next(c, s, e));
    case Publish(id, targets, opts) => CreateEvolves(c, s, id, targets, opts);
    case Dispatch(id, online, offline, opts) =>
      var m := Create(c, s, id, online + offline, opts);
      CreateEvolves(c, s, id, online + offline, opts);
      CreateKeeps(c, s, id, online + offline, opts);
      LiveEvolves(c, m, id, online);
      EvolvesTwice(s, m, Next(c, s, e));
    case BrokenDispatch(id, online, offline, written, opts) =>
      var m := Create(c, s, id, online + offline, opts);
      CreateEvolves(c, s, id, online + offline, opts);
      LogsOnly(m, id, online[..written], Cut);
      FewerEvolves(m, Next(c, s, e));
      EvolvesTwice(s, m, Next(c, s, e));
    case Acknowledge(u, id) => AppliedEvolves(s, u, id);
    case LateMark(u, id) => DeliveredEvolves(s, u, id);
    case ReplayOne(u, id) => SendEvolves(s, u, id, Replay);
    case RetryOne(u, id, j) => SendEvolves(s, u, id, Retry);
    case TimerFires(id) => FewerEvolves(s, Next(c, s, e));
    case CleanupTick => CleanupEvolves(c, s);
  }

  /**
   * The status automaton: between any two points of any run, for a record stored at the later
   * one, APPLIED stays APPLIED and attached, nobody returns to STORED, nobody starts waiting
   * again, and attempt counts never fall. A removed record never comes back.
   */
  lemma {:induction false} AutomatonHolds(c: Config, now: int, run: seq<Step>, k: nat)
    requires c.Sane() && IsRun(c, Init(now), run) && k <= |run|
    ensures Evolves(Exec(c, Init(now), run[..k]), Exec(c, Init(now), run))
  {
    if k == |run| {
      assert run[..k] == run;
      var s := Exec(c, Init(now), run);
      RunKeepsInv(c, now, run);
    } else {
      var n := |run| - 1;
      AutomatonHolds(c, now, run[..n], k);
      assert run[..n][..k] == run[..k];
      RunKeepsInv(c, now, run[..n]);
      NextEvolves(c, Exec(c, Init(now), run[..n]), run[n]);
      EvolvesTwice(Exec(c, Init(now), run[..k]), Exec(c, Init(now), run[..n]), Exec(c, Init(now), run));
    }
  }

  /** `markFailed` is outside the automaton: it leaves APPLIED exactly when the user was there. */
  lemma MarkFailedUndoesApplied(s: State, u: UserId, id: EventId)
    ensures Evolves(s, MarkFailed(s, u, id)) <==>
      !(id in s.events && id in s.births && (u !in s.events[id].status || s.events[id].status[u] == APPLIED))
  {
    var t := MarkFailed(s, u, id);
    if id in s.events && id in s.births {
      var r := s.events[id];
      if u !in r.status {
        assert t.events[id].Waiting(u) && !r.Waiting(u);
        assert !RecEvolves(r, t.events[id]);
      } else if r.status[u] == APPLIED {
        assert t.events[id].status[u] == FAILED;
        assert !RecEvolves(r, t.events[id]);
      }
    }
  }

  /** `markDelivered` keeps the index exact if and only if the user is attached. */
  lemma LateMarkNeedsAttachment(s: State, u: UserId, id: EventId)
    requires Wf(s)
    ensures Wf(MarkDelivered(s, u, id)) <==> (id in s.events ==> u in s.events[id].status)
  {
    if id in s.events && u !in s.events[id].status {
      var t := MarkDelivered(s, u, id);
      assert t.events[id].Waiting(u);
      assert InIndex(s, u, id) <==> InIndex(t, u, id);
    } else {
      MarkDeliveredKeepsWf(s, u, id);
    }
  }

  // ---------- FAILED ----------

  predicate Lasting(c: Config, opts: Options) {
    0 < opts.ttl <= c.staleTimeout
  }

  /** Every event the run creates has a time to live within the stale timeout. */
  predicate AllLasting(c: Config, run: seq<Step>) {
    forall i | 0 <= i < |run| ::
      run[i].Publish? || run[i].Dispatch? || run[i].BrokenDispatch? ==> Lasting(c, run[i].opts)
  }

  ghost predicate RecUnfailed(c: Config, r: Rec, now: int) {
    && Lasting(c, r.opts) && 0 < r.createdAt <= now
    && (forall u :: u in r.status ==> r.status[u] != FAILED)
    && (forall u :: u in r.last ==> r.createdAt <= r.last[u])
  }

  ghost predicate Unfailed(c: Config, s: State) {
    s.now > 0 && forall id :: id in s.events ==> RecUnfailed(c, s.events[id], s.now)
  }

  lemma TrimsUnfailed(c: Config, s: State, t: State)
    requires Unfailed(c, s) && Trims(s, t)
    ensures Unfailed(c, t)
  {
    forall id | id in t.events ensures RecUnfailed(c, t.events[id], t.now) {
      assert RecUnfailed(c, s.events[id], s.now);
      assert t.events[id] == s.events[id].(status := t.events[id].status);
    }
  }

  lemma InsertUnfailed(c: Config, s: State, m: State, id: EventId, targets: seq<UserId>, opts: Options)
    requires Unfailed(c, s) && Lasting(c, opts) && m.now == s.now
    requires forall x :: x in m.events ==> x in s.events && m.events[x] == s.events[x]
    ensures Unfailed(c, Insert(m, id, targets, opts))
  {
  }

  lemma CreateUnfailed(c: Config, s: State, id: EventId, targets: seq<UserId>, opts: Options)
    requires c.Sane() && Inv(c, s) && id !in s.births && Unfailed(c, s) && Lasting(c, opts)
    ensures Unfailed(c, Create(c, s, id, targets, opts))
  {
    CreateParts(c, s, id, targets, opts);
    InsertUnfailed(c, s, MakeRoom(c, s), id, targets, opts);
    TrimsUnfailed(c, Insert(MakeRoom(c, s), id, targets, opts), Create(c, s, id, targets, opts));
  }

  lemma MarkUnfailed(c: Config, s: State, u: UserId, id: EventId)
    requires Unfailed(c, s)
    ensures Unfailed(c, MarkApplied(s, u, id)) && Unfailed(c, MarkDelivered(s, u, id))
  {
    if id in s.events {
      assert RecUnfailed(c, s.events[id], s.now);
    }
  }

  lemma {:induction false} LiveUnfailed(c: Config, s: State, id: EventId, online: seq<UserId>)
    requires Unfailed(c, s)
    ensures Unfailed(c, LiveAll(s, id, online))
  {
    if online != [] {
      var n := |online| - 1;
      LiveUnfailed(c, s, id, online[..n]);
      MarkUnfailed(c, Log(LiveAll(s, id, online[..n]), Sent(id, online[n], Live)), online[n], id);
    }
  }

  /** The tick drops what has expired first, so nothing left is old enough to be stale. */
  lemma CleanupUnfailed(c: Config, s: State)
    requires Wf(s) && Unfailed(c, s)
    ensures Unfailed(c, Cleanup(c, s))
  {
    hide RecUnfailed, Restrict, RemoveAll, Aged, Indexed, NoDup, OldestFirst;
    var ids := Restrict(s.order, ExpiredIds(s));
    RemoveAllEffect(s, ids, ByExpiry);
    RestrictElems(s.order, ExpiredIds(s));
    var a := CleanupExpired(s);
    var b := MarkStale(c, a);
    forall id | id in b.events ensures RecUnfailed(c, b.events[id], b.now) {
      assert !s.events[id].Expired(s.now);
      AgedUnfailed(c, s.events[id], s.now);
    }
    RemoveAllEffect(b, ForceVictims(c, b), ByForce);
  }

  lemma AgedUnfailed(c: Config, r: Rec, now: int)
    requires RecUnfailed(c, r, now) && !r.Expired(now)
    ensures RecUnfailed(c, Aged(c, r, now), now)
  {
  }

  lemma TimerUnfailed(c: Config, s: State, id: EventId)
    requires Unfailed(c, s)
    ensures Unfailed(c, Timer(s, id))
  {
  }

  lemma NextUnfailed(c: Config, s: State, e: Step)
    requires c.Sane() && Inv(c, s) && Enabled(c, s, e) && Unfailed(c, s) && AllLasting(c, [e])
    ensures Unfailed(c, Next(c, s, e))
  {
    hide Create, MarkDelivered, MarkApplied, Cleanup, Timer, Wf, Ledger, FitsUsers;
    assert [e][0] == e;
    match e
    case Elapse(ms) =>
      forall id | id in s.events ensures RecUnfailed(c, s.events[id], s.now + ms) {
        assert RecUnfailed(c, s.events[id], s.now);
      }
    case Publish(id, targets, opts) => CreateUnfailed(c, s, id, targets, opts);
    case Dispatch(id, online, offline, opts) =>
      CreateUnfailed(c, s, id, online + offline, opts);
      LiveUnfailed(c, Create(c, s, id, online + offline, opts), id, online);
    case BrokenDispatch(id, online, offline, written, opts) =>
      CreateUnfailed(c, s, id, online + offline, opts);
      LogsOnly(Create(c, s, id, online + offline, opts), id, online[..written], Cut);
    case Acknowledge(u, id) => MarkUnfailed(c, s, u, id);
    case LateMark(u, id) => MarkUnfailed(c, s, u, id);
    case ReplayOne(u, id) => MarkUnfailed(c, Log(s, Sent(id, u, Replay)), u, id);
    case RetryOne(u, id, j) => MarkUnfailed(c, Log(s, Sent(id, u, Retry)), u, id);
    case TimerFires(id) => TimerUnfailed(c, s, id);
    case CleanupTick => CleanupUnfailed(c, s);
  }

  lemma InitUnfailed(c: Config, now: int)
    requires 0 < now
    ensures Unfailed(c, Init(now))
  {
  }

  lemma {:induction false} RunUnfailed(c: Config, now: int, run: seq<Step>)
    requires c.Sane() && 0 < now && IsRun(c, Init(now), run) && AllLasting(c, run)
    ensures Unfailed(c, Exec(c, Init(now), run))
  {
    hide Unfailed, Inv, Next, Enabled;
    InitUnfailed(c, now);
    if run != [] {
      var n := |run| - 1;
      RunUnfailed(c, now, run[..n]);
      RunKeepsInv(c, now, run[..n]);
      NextUnfailed(c, Exec(c, Init(now), run[..n]), run[n]);
    }
  }

  /** FAILED is unreachable when every event lives no longer than the stale timeout. */
  lemma FailedUnreachable(c: Config, now: int, run: seq<Step>, id: EventId, u: UserId)
    requires c.Sane() && 0 < now && IsRun(c, Init(now), run) && AllLasting(c, run)
    ensures var s := Exec(c, Init(now), run); id in s.events ==> s.events[id].StatusOf(u) != FAILED
  {
    RunUnfailed(c, now, run);
  }
}
