// What every operation of the event store keeps.
module EventInvariants {
  import opened Ordered
  import opened EventModel

  // ---------- shape and index ----------

  lemma RemoveKeepsShape(s: State, id: EventId, reason: Reason)
    requires Shape(s)
    ensures Shape(Remove(s, id, reason))
  {
    if id in s.events {
      var t := Remove(s, id, reason);
      var keep := Elems(s.order) - {id};
      RestrictNoDup(s.order, keep);
      WithoutElems(s.order, id);
      forall i, j | 0 <= i < j < |t.order| && t.order[i] in t.events && t.order[j] in t.events
        ensures t.events[t.order[i]].createdAt <= t.events[t.order[j]].createdAt
      {
        var p, q := RestrictOrder(s.order, keep, i, j);
      }
    }
  }

  lemma RemoveKeepsIndex(s: State, id: EventId, reason: Reason)
    requires Indexed(s)
    ensures Indexed(Remove(s, id, reason))
  {
    if id in s.events {
      var t := Remove(s, id, reason);
      forall u, x ensures InIndex(t, u, x) <==> InIndex(s, u, x) && x != id {
        if InIndex(s, u, x) && x != id {
          assert x in s.index[u] - {id};
        }
      }
    }
  }

  lemma RemoveKeepsWf(s: State, id: EventId, reason: Reason)
    requires Wf(s)
    ensures Wf(Remove(s, id, reason))
  {
    RemoveKeepsShape(s, id, reason);
    RemoveKeepsIndex(s, id, reason);
  }

  /** Changing records but neither the map's keys nor any creation time. */
  lemma SameAgesKeepShape(s: State, t: State)
    requires Shape(s)
    requires t.order == s.order && t.events.Keys == s.events.Keys && t.now == s.now
    requires forall id :: id in s.events ==> t.events[id].createdAt == s.events[id].createdAt
    ensures Shape(t)
  {
    assert OldestFirst(t);
  }

  lemma SameUsersKeepIndex(s: State, t: State)
    requires Indexed(s)
    requires t.index == s.index && t.events.Keys == s.events.Keys
    requires forall id :: id in s.events ==> s.events[id].status.Keys <= t.events[id].status.Keys
    requires forall id, u :: id in s.events && t.events[id].Waiting(u) ==> InIndex(s, u, id)
    ensures Indexed(t)
  {
    forall u, id ensures InIndex(t, u, id) <==> InIndex(s, u, id) {
    }
  }

  /** Replacing a record by one that attaches no new waiting user and detaches nobody. */
  lemma TouchKeepsWf(s: State, id: EventId, r: Rec)
    requires Wf(s) && id in s.events
    requires r.createdAt == s.events[id].createdAt
    requires s.events[id].status.Keys <= r.status.Keys
    requires forall u :: r.Waiting(u) ==> InIndex(s, u, id)
    ensures Wf(Touch(s, id, r))
  {
    var t := Touch(s, id, r);
    assert t.events.Keys == s.events.Keys;
    SameAgesKeepShape(s, t);
    SameUsersKeepIndex(s, t);
  }

  lemma MarkAppliedKeepsWf(s: State, u: UserId, id: EventId)
    requires Wf(s)
    ensures Wf(MarkApplied(s, u, id))
  {
    if id in s.events {
      var r := s.events[id].WithStatus(u, APPLIED);
      TouchKeepsWf(s, id, r);
      RemoveKeepsWf(Touch(s, id, r), id, ByAck);
    }
  }

  /** `markDelivered` keeps the index exact as long as the user is attached. */
  lemma MarkDeliveredKeepsWf(s: State, u: UserId, id: EventId)
    requires Wf(s) && (id in s.events ==> u in s.events[id].status)
    ensures Wf(MarkDelivered(s, u, id))
  {
    if id in s.events && s.events[id].StatusOf(u) != APPLIED {
      TouchKeepsWf(s, id, s.events[id].WithStatus(u, DELIVERED).Attempted(u, s.now));
    }
  }

  lemma DetachKeepsWf(s: State, u: UserId, id: EventId)
    requires Wf(s) && InIndex(s, u, id) && s.index[u] - {id} != {}
    ensures Wf(Detach(s, u, id))
  {
    var t := Detach(s, u, id);
    assert t.events.Keys == s.events.Keys;
    SameAgesKeepShape(s, t);
    forall v, x ensures InIndex(t, v, x) <==> InIndex(s, v, x) && (v != u || x != id) {
    }
  }

  lemma EvictKeepsWf(s: State, u: UserId, id: EventId)
    requires Wf(s) && InIndex(s, u, id) && s.index[u] - {id} != {}
    ensures Wf(Evict(s, u, id))
  {
    DetachKeepsWf(s, u, id);
    RemoveKeepsWf(Detach(s, u, id), id, ByForce);
  }

  lemma InsertKeepsShape(s: State, id: EventId, targets: seq<UserId>, opts: Options)
    requires Shape(s) && id !in s.events
    ensures Shape(Insert(s, id, targets, opts))
  {
    hide NoDup, OldestFirst, Fresh;
    var t := Insert(s, id, targets, opts);
    ElemsSnoc(s.order, id);
    assert t.events.Keys == s.events.Keys + {id};
    assert id !in Elems(s.order);
    NoDupSnoc(s.order, id);
    InsertKeepsAges(s, id, targets, opts);
    FreshIsNow(s, targets, opts);
  }

  lemma NoDupSnoc(order: seq<EventId>, id: EventId)
    requires NoDup(order) && id !in Elems(order)
    ensures NoDup(order + [id])
  {
    assert forall i :: 0 <= i < |order| ==> order[i] in Elems(order);
  }

  lemma FreshIsNow(s: State, targets: seq<UserId>, opts: Options)
    ensures Fresh(s, targets, opts).createdAt == s.now
  {
  }

  lemma InsertKeepsAges(s: State, id: EventId, targets: seq<UserId>, opts: Options)
    requires Shape(s) && id !in s.events
    ensures OldestFirst(Insert(s, id, targets, opts))
  {
    hide NoDup, Fresh;
    FreshIsNow(s, targets, opts);
    assert forall i :: 0 <= i < |s.order| ==> s.order[i] in Elems(s.order);
  }

  lemma InsertKeepsWf(s: State, id: EventId, targets: seq<UserId>, opts: Options)
    requires Wf(s) && id !in s.events
    ensures Wf(Insert(s, id, targets, opts))
  {
    InsertKeepsShape(s, id, targets, opts);
    var t := Insert(s, id, targets, opts);
    forall u, x ensures InIndex(t, u, x) <==> InIndex(s, u, x) || (u in Elems(targets) && x == id) {
    }
    forall u | u in t.index ensures t.index[u] != {} {
      if u in Elems(targets) {
        assert id in t.index[u];
      }
    }
  }

  lemma StaleKeepsWf(c: Config, s: State)
    requires Wf(s)
    ensures Wf(MarkStale(c, s))
  {
    var t := MarkStale(c, s);
    assert t.events.Keys == s.events.Keys;
    SameAgesKeepShape(s, t);
    SameUsersKeepIndex(s, t);
  }

  lemma {:induction false} RemoveAllKeepsWf(s: State, ids: seq<EventId>, reason: Reason)
    requires Wf(s)
    ensures Wf(RemoveAll(s, ids, reason))
  {
    if ids != [] {
      RemoveAllKeepsWf(s, ids[..|ids| - 1], reason);
      RemoveKeepsWf(RemoveAll(s, ids[..|ids| - 1], reason), ids[|ids| - 1], reason);
    }
  }

  // ---------- pending lists ----------

  lemma PendingListed(s: State, u: UserId)
    requires Shape(s)
    ensures NoDup(PendingIds(s, u)) && Elems(PendingIds(s, u)) == Pending(s, u)
    ensures |PendingIds(s, u)| == |Pending(s, u)|
    ensures forall id :: id in PendingIds(s, u) <==> IsPending(s, u, id)
  {
    RestrictCard(s.order, Pending(s, u));
    assert forall id :: id in PendingIds(s, u) <==> id in Elems(PendingIds(s, u));
  }

  lemma PendingInIndex(s: State, u: UserId)
    requires Wf(s)
    ensures Pending(s, u) != {} ==> u in s.index
    ensures u in s.index ==> Pending(s, u) <= s.index[u]
  {
    forall id | id in Pending(s, u) ensures InIndex(s, u, id) {
    }
  }

  // ---------- eviction ----------

  /** `t` is `s` after some waiting users were detached; nothing else happened to a record. */
  ghost predicate Trims(s: State, t: State) {
    && t.now == s.now && t.births == s.births
    && t.events.Keys <= s.events.Keys
    && (forall id :: id in t.events ==>
          t.events[id] == s.events[id].(status := t.events[id].status) && t.events[id].status.Keys <= s.events[id].status.Keys)
    && (forall id, u :: id in t.events && u in t.events[id].status ==> t.events[id].status[u] == s.events[id].status[u])
    && (forall id, u :: id in t.events && u in s.events[id].status && u !in t.events[id].status ==> s.events[id].Waiting(u))
  }

  lemma TrimsTwice(s: State, t: State, w: State)
    requires Trims(s, t) && Trims(t, w)
    ensures Trims(s, w)
  {
    forall id | id in w.events
      ensures w.events[id] == s.events[id].(status := w.events[id].status)
    {
      assert w.events[id] == t.events[id].(status := w.events[id].status);
    }
  }

  lemma TrimsPending(s: State, t: State, u: UserId)
    requires Trims(s, t)
    ensures Pending(t, u) <= Pending(s, u)
  {
    forall id | id in Pending(t, u) ensures id in Pending(s, u) {
      assert IsPending(t, u, id);
      assert IsPending(s, u, id);
    }
  }

  ghost predicate Newest(s: State, id: EventId) {
    |s.order| > 0 && s.order[|s.order| - 1] == id
  }

  /** `t` is `s` after exactly the entries (u, ids) were evicted. */
  ghost predicate Evicts(s: State, t: State, u: UserId, ids: set<EventId>) {
    && Trims(s, t)
    && (forall v, x :: IsPending(t, v, x) <==> IsPending(s, v, x) && (v != u || x !in ids))
    && (forall v, x :: InIndex(t, v, x) <==> InIndex(s, v, x) && (v != u || x !in ids))
    && (forall x :: x in s.events && x !in ids ==> x in t.events && t.events[x] == s.events[x])
    && (forall x :: Newest(s, x) && x !in ids ==> Newest(t, x))
  }

  lemma EvictsTwice(s: State, m: State, t: State, u: UserId, ids: set<EventId>, id: EventId)
    requires Evicts(s, m, u, ids) && Evicts(m, t, u, {id})
    ensures Evicts(s, t, u, ids + {id})
  {
    TrimsTwice(s, m, t);
  }

  lemma EvictsPending(s: State, t: State, u: UserId, ids: set<EventId>)
    requires Evicts(s, t, u, ids)
    ensures Pending(t, u) == Pending(s, u) - ids
    ensures forall v :: v != u ==> Pending(t, v) == Pending(s, v)
  {
    assert forall x :: x in Pending(t, u) <==> IsPending(t, u, x);
    assert forall x :: x in Pending(s, u) <==> IsPending(s, u, x);
    forall v | v != u ensures Pending(t, v) == Pending(s, v) {
      assert forall x :: x in Pending(t, v) <==> IsPending(t, v, x);
      assert forall x :: x in Pending(s, v) <==> IsPending(s, v, x);
    }
  }

  lemma DetachEffect(s: State, u: UserId, id: EventId)
    requires Wf(s) && IsPending(s, u, id) && InIndex(s, u, id)
    ensures Evicts(s, Detach(s, u, id), u, {id})
  {
    hide IsPending, Trims, Shape, Indexed;
    DetachPending(s, u, id);
    DetachTrims(s, u, id);
  }

  lemma DetachPending(s: State, u: UserId, id: EventId)
    requires IsPending(s, u, id) && InIndex(s, u, id)
    ensures forall v, x :: IsPending(Detach(s, u, id), v, x) <==> IsPending(s, v, x) && (v != u || x != id)
    ensures forall v, x :: InIndex(Detach(s, u, id), v, x) <==> InIndex(s, v, x) && (v != u || x != id)
  {
  }

  lemma DetachTrims(s: State, u: UserId, id: EventId)
    requires IsPending(s, u, id) && InIndex(s, u, id)
    ensures Trims(s, Detach(s, u, id))
  {
  }

  lemma RemoveEmptyEffect(s: State, id: EventId, reason: Reason)
    requires Wf(s) && id in s.events && s.events[id].status == map[]
    ensures var t := Remove(s, id, reason);
      && Trims(s, t)
      && (forall v, x :: IsPending(t, v, x) <==> IsPending(s, v, x))
      && (forall v, x :: InIndex(t, v, x) <==> InIndex(s, v, x))
      && (forall x :: x in s.events && x != id ==> x in t.events && t.events[x] == s.events[x])
      && (forall x :: Newest(s, x) && x != id ==> Newest(t, x))
  {
    var t := Remove(s, id, reason);
    forall v, x ensures InIndex(t, v, x) <==> InIndex(s, v, x) {
      if InIndex(s, v, x) {
        assert x != id;
        assert x in s.index[v] - {id};
      }
    }
  }

  lemma EvictEffect(s: State, u: UserId, id: EventId)
    requires Wf(s) && IsPending(s, u, id) && InIndex(s, u, id) && s.index[u] - {id} != {}
    ensures Wf(Evict(s, u, id)) && Evicts(s, Evict(s, u, id), u, {id})
  {
    EvictKeepsWf(s, u, id);
    DetachEffect(s, u, id);
    var m := Detach(s, u, id);
    if m.events[id].status == map[] {
      DetachKeepsWf(s, u, id);
      RemoveEmptyEffect(m, id, ByForce);
      TrimsTwice(s, m, Evict(s, u, id));
    }
  }

  /** Evicting a list: exactly those entries of the user go. */
  lemma {:induction false} EvictAllEffect(s: State, u: UserId, ids: seq<EventId>, kept: EventId)
    requires Wf(s) && NoDup(ids)
    requires forall id :: id in ids ==> IsPending(s, u, id)
    requires ids != [] ==> InIndex(s, u, kept) && kept !in ids
    ensures Wf(EvictAll(s, u, ids)) && Evicts(s, EvictAll(s, u, ids), u, Elems(ids))
  {
    if ids != [] {
      var n := |ids| - 1;
      ElemsSnoc(ids[..n], ids[n]);
      assert ids == ids[..n] + [ids[n]];
      EvictAllEffect(s, u, ids[..n], kept);
      var m := EvictAll(s, u, ids[..n]);
      assert kept !in Elems(ids[..n]) && ids[n] !in Elems(ids[..n]);
      assert ids[n] in ids && IsPending(s, u, ids[n]);
      assert InIndex(s, u, ids[n]);
      assert InIndex(m, u, kept);
      assert kept in m.index[u] - {ids[n]};
      EvictEffect(m, u, ids[n]);
      EvictsTwice(s, m, EvictAll(s, u, ids), u, Elems(ids[..n]), ids[n]);
    }
  }

  lemma VictimsFacts(c: Config, s: State, u: UserId)
    requires c.Sane() && Wf(s)
    ensures var v := Victims(c, s, u); var p := PendingIds(s, u);
      && NoDup(v) && v <= p
      && (forall id :: id in v ==> IsPending(s, u, id))
      && (v != [] ==> |v| < |p| && u in s.index && p[|p| - 1] !in v && InIndex(s, u, p[|p| - 1]))
      && (forall id :: Newest(s, id) ==> id !in v)
  {
    var v := Victims(c, s, u);
    var p := PendingIds(s, u);
    PendingListed(s, u);
    if v != [] {
      assert v == p[..|v|] && |v| < |p|;
      assert forall id :: id in v ==> id in p;
      assert p[|p| - 1] in p;
      assert IsPending(s, u, p[|p| - 1]);
      forall id | Newest(s, id) ensures id !in v {
        if IsPending(s, u, id) {
          assert id in Pending(s, u);
          assert p[|p| - 1] == id;
        }
      }
    }
  }

  lemma EnforceEvicts(c: Config, s: State, u: UserId)
    requires c.Sane() && Wf(s)
    ensures Wf(Enforce(c, s, u)) && Evicts(s, Enforce(c, s, u), u, Elems(Victims(c, s, u)))
  {
    var p := PendingIds(s, u);
    VictimsFacts(c, s, u);
    EvictAllEffect(s, u, Victims(c, s, u), if p == [] then 0 else p[|p| - 1]);
  }

  /** After `enforcePerUserLimit` the pending list has lost exactly the victims, and fits. */
  lemma EnforceFits(c: Config, s: State, u: UserId)
    requires c.Sane() && Wf(s)
    ensures |Pending(Enforce(c, s, u), u)| == |Pending(s, u)| - |Victims(c, s, u)| <= c.maxPerUser
  {
    hide Shape, Indexed, Evicts, Enforce, PendingIds, IsPending;
    var ids := Victims(c, s, u);
    EnforceEvicts(c, s, u);
    EvictsPending(s, Enforce(c, s, u), u, Elems(ids));
    VictimsFacts(c, s, u);
    PendingListed(s, u);
    PendingInIndex(s, u);
    CardElems(ids);
    assert Elems(ids) <= Pending(s, u) by {
      assert forall id :: id in Elems(ids) ==> id in ids;
    }
    assert |Pending(s, u) - Elems(ids)| == |Pending(s, u)| - |Elems(ids)|;
    if u in s.index && |s.index[u]| <= c.maxPerUser {
      CardSubset(Pending(s, u), s.index[u]);
    }
  }

  ghost predicate KeepsNewest(s: State, t: State) {
    forall x :: Newest(s, x) && x in s.events ==> Newest(t, x) && x in t.events && t.events[x] == s.events[x]
  }

  lemma EnforceKeeps(c: Config, s: State, u: UserId)
    requires c.Sane() && Wf(s)
    ensures var t := Enforce(c, s, u); Wf(t) && Trims(s, t) && KeepsNewest(s, t)
    ensures forall v :: |Pending(Enforce(c, s, u), v)| <= |Pending(s, v)|
    ensures |Pending(Enforce(c, s, u), u)| <= c.maxPerUser
  {
    EnforceEvicts(c, s, u);
    EnforceFits(c, s, u);
    VictimsFacts(c, s, u);
    forall v ensures |Pending(Enforce(c, s, u), v)| <= |Pending(s, v)| {
      TrimsPending(s, Enforce(c, s, u), v);
      CardSubset(Pending(Enforce(c, s, u), v), Pending(s, v));
    }
  }

  lemma {:induction false} EnforceAllEffect(c: Config, s: State, us: seq<UserId>)
    requires c.Sane() && Wf(s)
    ensures var t := EnforceAll(c, s, us); Wf(t) && Trims(s, t) && KeepsNewest(s, t)
    ensures forall v :: |Pending(EnforceAll(c, s, us), v)| <= |Pending(s, v)|
    ensures forall u :: u in us ==> |Pending(EnforceAll(c, s, us), u)| <= c.maxPerUser
  {
    if us != [] {
      var n := |us| - 1;
      EnforceAllEffect(c, s, us[..n]);
      EnforceKeeps(c, EnforceAll(c, s, us[..n]), us[n]);
      TrimsTwice(s, EnforceAll(c, s, us[..n]), EnforceAll(c, s, us));
      assert forall v :: v in us <==> v in us[..n] || v == us[n];
    }
  }
}
