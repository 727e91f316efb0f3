// The conservation ledger: what became of every (event, target) pair ever given to `create`.
module EventLedger {
  import opened Ordered
  import opened EventModel
  import opened EventInvariants

  // ---------- counting in the history ----------

  datatype Query =
    | NoticesOf(id: EventId)
    | EvictionsOf(id: EventId, user: UserId)
    | SendsOf(id: EventId, user: UserId)
    | CutsOf(id: EventId, user: UserId)
    | ReplaysOf(id: EventId, user: UserId)
    | StoreSendsOf(id: EventId, user: UserId)

  predicate Matches(q: Query, e: Entry) {
    match q
    case NoticesOf(id) => e.Notified? && e.id == id
    case EvictionsOf(id, u) => e == Evicted(id, u)
    case SendsOf(id, u) => e.Sent? && e.id == id && e.user == u
    case CutsOf(id, u) => e == Sent(id, u, Cut)
    case ReplaysOf(id, u) => e == Sent(id, u, Replay)
    case StoreSendsOf(id, u) => e == Sent(id, u, Replay) || e == Sent(id, u, Retry)
  }

  function Count(q: Query, t: seq<Entry>): nat {
    if t == [] then 0 else Count(q, t[..|t| - 1]) + if Matches(q, t[|t| - 1]) then 1 else 0
  }

  /** The removals of one event, in order. */
  function Removals(t: seq<Entry>, id: EventId): seq<Entry> {
    if t == [] then []
    else Removals(t[..|t| - 1], id) + if t[|t| - 1].Removed? && t[|t| - 1].id == id then [t[|t| - 1]] else []
  }

  lemma LogCounts(t: seq<Entry>, e: Entry)
    ensures forall q :: Count(q, t + [e]) == Count(q, t) + if Matches(q, e) then 1 else 0
    ensures forall id :: Removals(t + [e], id) == Removals(t, id) + if e.Removed? && e.id == id then [e] else []
  {
    assert (t + [e])[..|t + [e]| - 1] == t;
  }

  predicate Notifies(o: Options) {
    o.notifySender && o.senderId != 0
  }

  lemma RemoveCounts(s: State, id: EventId, reason: Reason)
    requires id in s.events
    ensures var t := Remove(s, id, reason); var r := s.events[id];
      && (forall q :: Count(q, t.trace) == Count(q, s.trace) +
            if q == NoticesOf(id) && reason != ByAck && Notifies(r.opts) then 1 else 0)
      && (forall x :: Removals(t.trace, x) == Removals(s.trace, x) +
            if x == id then [Removed(id, reason, r.status)] else [])
  {
    hide Count, Removals, Without, Unindex;
    var r := s.events[id];
    if reason != ByAck && Notifies(r.opts) {
      LogCounts(s.trace, Notified(id, reason));
      LogCounts(s.trace + [Notified(id, reason)], Removed(id, reason, r.status));
      assert Remove(s, id, reason).trace == s.trace + [Notified(id, reason)] + [Removed(id, reason, r.status)];
    } else {
      LogCounts(s.trace, Removed(id, reason, r.status));
      assert Remove(s, id, reason).trace == s.trace + [Removed(id, reason, r.status)];
    }
  }

  // ---------- the ledger ----------

  /** How the targets of an event relate to the users it is, or last was, attached to. */
  ghost predicate Held(t: seq<Entry>, id: EventId, targets: set<UserId>, held: map<UserId, Status>) {
    forall u {:trigger EvictionsOf(id, u)} ::
      && Count(EvictionsOf(id, u), t) <= (if u in targets then 1 else 0)
      && (u in targets && u !in held ==> Count(EvictionsOf(id, u), t) == 1)
      && (u in held && held[u] != APPLIED ==> u in targets && Count(EvictionsOf(id, u), t) == 0)
  }

  ghost predicate Stored(s: State, id: EventId)
    requires id in s.births && id in s.events
  {
    var r, b := s.events[id], s.births[id];
    && r.opts == b.opts && r.createdAt == b.at
    && Removals(s.trace, id) == [] && Count(NoticesOf(id), s.trace) == 0
    && Held(s.trace, id, b.targets, r.status)
  }

  ghost predicate Gone(s: State, id: EventId)
    requires id in s.births
  {
    var b, rs := s.births[id], Removals(s.trace, id);
    && |rs| == 1 && rs[0].Removed?
    && Held(s.trace, id, b.targets, rs[0].final)
    && Count(NoticesOf(id), s.trace) == (if rs[0].reason != ByAck && Notifies(b.opts) then 1 else 0)
    && (rs[0].reason == ByAck ==> forall u :: u in rs[0].final ==> rs[0].final[u] == APPLIED)
  }

  ghost predicate Blank(t: seq<Entry>, id: EventId) {
    && Removals(t, id) == [] && Count(NoticesOf(id), t) == 0
    && (forall u {:trigger EvictionsOf(id, u)} :: Count(EvictionsOf(id, u), t) == 0)
    && (forall u {:trigger SendsOf(id, u)} :: Count(SendsOf(id, u), t) == 0)
    && (forall u {:trigger CutsOf(id, u)} :: Count(CutsOf(id, u), t) == 0)
    && (forall u {:trigger ReplaysOf(id, u)} :: Count(ReplaysOf(id, u), t) == 0)
    && (forall u {:trigger StoreSendsOf(id, u)} :: Count(StoreSendsOf(id, u), t) == 0)
  }

  ghost predicate Accounted(s: State, id: EventId) {
    if id in s.births then (if id in s.events then Stored(s, id) else Gone(s, id))
    else id !in s.events && Blank(s.trace, id)
  }

  ghost predicate Ledger(s: State) {
    forall id :: Accounted(s, id)
  }

  /** Who holds an event, judged by a history with the same evictions. */
  lemma SameHeld(s: seq<Entry>, t: seq<Entry>, id: EventId, targets: set<UserId>, held: map<UserId, Status>)
    requires Held(s, id, targets, held)
    requires forall u {:trigger EvictionsOf(id, u)} :: Count(EvictionsOf(id, u), t) == Count(EvictionsOf(id, u), s)
    ensures Held(t, id, targets, held)
  {
    hide Count;
    forall u {:trigger EvictionsOf(id, u)}
      ensures
        && Count(EvictionsOf(id, u), t) <= (if u in targets then 1 else 0)
        && (u in targets && u !in held ==> Count(EvictionsOf(id, u), t) == 1)
        && (u in held && held[u] != APPLIED ==> u in targets && Count(EvictionsOf(id, u), t) == 0)
    {
      assert Count(EvictionsOf(id, u), t) == Count(EvictionsOf(id, u), s);
    }
  }

  /** An account depends only on the event's own record, birth and entries. */
  lemma SameAccount(s: State, t: State, x: EventId)
    requires x in s.births <==> x in t.births
    requires x in s.births ==> t.births[x] == s.births[x]
    requires x in s.events <==> x in t.events
    requires x in s.events ==> t.events[x] == s.events[x]
    requires Removals(t.trace, x) == Removals(s.trace, x)
    requires forall q: Query :: q.id == x ==> Count(q, t.trace) == Count(q, s.trace)
    requires Accounted(s, x)
    ensures Accounted(t, x)
  {
    hide Count, Removals, Blank, Held;
    assert forall u {:trigger EvictionsOf(x, u)} :: EvictionsOf(x, u).id == x;
    assert NoticesOf(x).id == x;
    if x !in s.births {
      SameBlank(s.trace, t.trace, x);
    } else if x in s.events {
      SameHeld(s.trace, t.trace, x, s.births[x].targets, s.events[x].status);
    } else {
      SameHeld(s.trace, t.trace, x, s.births[x].targets, Removals(s.trace, x)[0].final);
    }
  }

  lemma SameBlank(s: seq<Entry>, t: seq<Entry>, id: EventId)
    requires Removals(t, id) == Removals(s, id) && Blank(s, id)
    requires forall q: Query :: q.id == id ==> Count(q, t) == Count(q, s)
    ensures Blank(t, id)
  {
    hide Count, Removals;
  }

  lemma RemovedAccount(s: State, id: EventId, reason: Reason)
    requires Accounted(s, id) && id in s.events
    requires reason == ByAck ==> s.events[id].AllApplied()
    ensures Accounted(Remove(s, id, reason), id)
  {
    hide Count, Removals, Held, Blank, Without, Unindex;
    RemoveCounts(s, id, reason);
    var t, r := Remove(s, id, reason), s.events[id];
    assert Removals(s.trace, id) == [];
    assert Removals(t.trace, id) == [Removed(id, reason, r.status)];
    forall u {:trigger EvictionsOf(id, u)} ensures Count(EvictionsOf(id, u), t.trace) == Count(EvictionsOf(id, u), s.trace) {
    }
    SameHeld(s.trace, t.trace, id, s.births[id].targets, r.status);
  }

  lemma RemoveKeepsLedger(s: State, id: EventId, reason: Reason)
    requires Ledger(s)
    requires reason == ByAck && id in s.events ==> s.events[id].AllApplied()
    ensures Ledger(Remove(s, id, reason))
  {
    hide Accounted, Count, Removals, Without, Unindex;
    assert id in s.events ==> Accounted(s, id);
    if id in s.events {
      var t := Remove(s, id, reason);
      forall x ensures Accounted(t, x) {
        assert Accounted(s, x);
        if x == id {
          RemovedAccount(s, id, reason);
        } else {
          RemoveCounts(s, id, reason);
          SameAccount(s, t, x);
        }
      }
    }
  }

  /** Records change, but no user starts waiting who was not waiting before. */
  lemma TouchesKeepLedger(s: State, t: State)
    requires Ledger(s)
    requires t.births == s.births && t.trace == s.trace && t.events.Keys == s.events.Keys
    requires forall id :: id in s.events ==>
      t.events[id].opts == s.events[id].opts && t.events[id].createdAt == s.events[id].createdAt
    requires forall id, u :: id in s.events && u in s.events[id].status ==> u in t.events[id].status
    requires forall id, u :: id in s.events && t.events[id].Waiting(u) ==> s.events[id].Waiting(u)
    ensures Ledger(t)
  {
    forall id ensures Accounted(t, id) {
      assert Accounted(s, id);
      if id in s.events {
        var r, r' := s.events[id], t.events[id];
        assert forall u :: u in r'.status && r'.status[u] != APPLIED ==> r'.Waiting(u) && r.Waiting(u);
      }
    }
  }

  lemma DetachKeepsLedger(s: State, u: UserId, id: EventId)
    requires Ledger(s) && id in s.events && u in s.index && s.events[id].Waiting(u)
    ensures Ledger(Detach(s, u, id))
  {
    var t := Detach(s, u, id);
    LogCounts(s.trace, Evicted(id, u));
    forall x ensures Accounted(t, x) {
      assert Accounted(s, x);
      if x == id {
        assert Count(EvictionsOf(id, u), s.trace) == 0;
      } else {
        SameAccount(s, t, x);
      }
    }
  }

  lemma EvictKeepsLedger(s: State, u: UserId, id: EventId)
    requires Ledger(s) && id in s.events && u in s.index && s.events[id].Waiting(u)
    ensures Ledger(Evict(s, u, id))
  {
    DetachKeepsLedger(s, u, id);
    RemoveKeepsLedger(Detach(s, u, id), id, ByForce);
  }

  lemma InsertKeepsLedger(s: State, id: EventId, targets: seq<UserId>, opts: Options)
    requires Ledger(s) && id !in s.births
    ensures Ledger(Insert(s, id, targets, opts))
  {
    var t := Insert(s, id, targets, opts);
    forall x ensures Accounted(t, x) {
      assert Accounted(s, x);
    }
  }

  lemma SentAccount(s: State, u: UserId, id: EventId, via: Via)
    requires Accounted(s, id) && id in s.births
    ensures Accounted(Log(s, Sent(id, u, via)), id)
  {
    hide Count, Removals, Held, Blank;
    LogCounts(s.trace, Sent(id, u, via));
    var t := Log(s, Sent(id, u, via));
    assert Removals(t.trace, id) == Removals(s.trace, id);
    forall v {:trigger EvictionsOf(id, v)} ensures Count(EvictionsOf(id, v), t.trace) == Count(EvictionsOf(id, v), s.trace) {
    }
    if id in s.events {
      SameHeld(s.trace, t.trace, id, s.births[id].targets, s.events[id].status);
    } else {
      SameHeld(s.trace, t.trace, id, s.births[id].targets, Removals(s.trace, id)[0].final);
    }
  }

  lemma SentKeepsLedger(s: State, u: UserId, id: EventId, via: Via)
    requires Ledger(s) && id in s.births
    ensures Ledger(Log(s, Sent(id, u, via)))
  {
    hide Count, Removals, Accounted;
    var t := Log(s, Sent(id, u, via));
    LogCounts(s.trace, Sent(id, u, via));
    forall x ensures Accounted(t, x) {
      assert Accounted(s, x);
      if x == id {
        SentAccount(s, u, id, via);
      } else {
        assert Removals(t.trace, x) == Removals(s.trace, x);
        SameAccount(s, t, x);
      }
    }
  }

  lemma MarkAppliedKeepsLedger(s: State, u: UserId, id: EventId)
    requires Ledger(s)
    ensures Ledger(MarkApplied(s, u, id))
  {
    if id in s.events {
      var t := Touch(s, id, s.events[id].WithStatus(u, APPLIED));
      TouchesKeepLedger(s, t);
      if t.events[id].AllApplied() {
        RemoveKeepsLedger(t, id, ByAck);
      }
    }
  }

  lemma MarkDeliveredKeepsLedger(s: State, u: UserId, id: EventId)
    requires Ledger(s) && (id in s.events ==> u in s.events[id].status)
    ensures Ledger(MarkDelivered(s, u, id))
  {
    TouchesKeepLedger(s, MarkDelivered(s, u, id));
  }

  lemma StaleKeepsLedger(c: Config, s: State)
    requires Ledger(s)
    ensures Ledger(MarkStale(c, s))
  {
    TouchesKeepLedger(s, MarkStale(c, s));
  }

  lemma {:induction false} RemoveAllKeepsLedger(s: State, ids: seq<EventId>, reason: Reason)
    requires Ledger(s) && reason != ByAck
    ensures Ledger(RemoveAll(s, ids, reason))
  {
    if ids != [] {
      RemoveAllKeepsLedger(s, ids[..|ids| - 1], reason);
      RemoveKeepsLedger(RemoveAll(s, ids[..|ids| - 1], reason), ids[|ids| - 1], reason);
    }
  }

  lemma {:induction false} EvictAllKeepsLedger(s: State, u: UserId, ids: seq<EventId>, kept: EventId)
    requires Wf(s) && NoDup(ids) && Ledger(s)
    requires forall id :: id in ids ==> IsPending(s, u, id)
    requires ids != [] ==> InIndex(s, u, kept) && kept !in ids
    ensures Ledger(EvictAll(s, u, ids))
  {
    if ids != [] {
      var n := |ids| - 1;
      EvictAllKeepsLedger(s, u, ids[..n], kept);
      EvictAllEffect(s, u, ids[..n], kept);
      var m := EvictAll(s, u, ids[..n]);
      assert ids[n] !in Elems(ids[..n]) && IsPending(s, u, ids[n]);
      assert IsPending(m, u, ids[n]) && InIndex(m, u, kept);
      EvictKeepsLedger(m, u, ids[n]);
    }
  }

  lemma {:induction false} EnforceAllKeepsLedger(c: Config, s: State, us: seq<UserId>)
    requires c.Sane() && Wf(s) && Ledger(s)
    ensures Ledger(EnforceAll(c, s, us))
  {
    hide Ledger, Wf, EvictAll, PendingIds;
    if us != [] {
      var n := |us| - 1;
      var m, u := EnforceAll(c, s, us[..n]), us[n];
      EnforceAllKeepsLedger(c, s, us[..n]);
      EnforceAllEffect(c, s, us[..n]);
      VictimsFacts(c, m, u);
      var p := PendingIds(m, u);
      EvictAllKeepsLedger(m, u, Victims(c, m, u), if p == [] then 0 else p[|p| - 1]);
    }
  }
}
