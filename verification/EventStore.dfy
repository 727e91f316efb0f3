// EventRecord and EventStoreService as the source has them: objects updated in place. Each method
// is proved against the operation of the same name in EventModel.
module EventStore {
  import opened Ordered
  import opened EventModel
  import opened EventInvariants
  import opened EventRuns
  import opened EventFates

  class EventRecord {
    const eventId: EventId
    const opts: Options
    const createdAt: int
    const expiresAt: int
    var userStatus: map<UserId, Status>
    var deliveryAttempts: map<UserId, nat>
    var lastDeliveryAttempt: map<UserId, int>

    constructor (eventId: EventId, opts: Options, createdAt: int, expiresAt: int)
      ensures this.eventId == eventId && this.opts == opts && this.createdAt == createdAt && this.expiresAt == expiresAt
      ensures userStatus == map[] && deliveryAttempts == map[] && lastDeliveryAttempt == map[]
    {
      this.eventId, this.opts, this.createdAt, this.expiresAt := eventId, opts, createdAt, expiresAt;
      userStatus, deliveryAttempts, lastDeliveryAttempt := map[], map[], map[];
    }

    function Value(): Rec
      reads this
    {
      Rec(opts, createdAt, userStatus, deliveryAttempts, lastDeliveryAttempt)
    }

    ghost predicate Is(id: EventId, r: Rec)
      reads this
    {
      eventId == id && Value() == r && expiresAt == r.ExpiresAt()
    }

    predicate IsExpired(now: int) {
      expiresAt != 0 && now > expiresAt
    }

    function GetUserStatus(userId: UserId): Status
      reads this
    {
      if userId in userStatus then userStatus[userId] else STORED
    }

    method SetUserStatus(userId: UserId, status: Status)
      modifies this`userStatus
      ensures userStatus == old(userStatus)[userId := status]
    {
      userStatus := userStatus[userId := status];
    }

    method IncrementDeliveryAttempt(userId: UserId, now: int)
      modifies this
      ensures Value() == old(Value()).Attempted(userId, now)
    {
      var attempts := if userId in deliveryAttempts then deliveryAttempts[userId] else 0;
      deliveryAttempts := deliveryAttempts[userId := attempts + 1];
      lastDeliveryAttempt := lastDeliveryAttempt[userId := now];
    }

    /** Both updates of one delivery attempt. */
    method Attempt(userId: UserId, status: Status, now: int)
      modifies this
      ensures Value() == old(Value()).WithStatus(userId, status).Attempted(userId, now)
    {
      SetUserStatus(userId, status);
      IncrementDeliveryAttempt(userId, now);
    }

    /** The inner loop of `cleanupStaleDelivered`. */
    method AgeDelivered(now: int, staleTimeout: int)
      modifies this`userStatus
      ensures Value() == Stale(old(Value()), userStatus.Keys, now, staleTimeout)
      ensures userStatus.Keys == old(userStatus.Keys)
    {
      hide Stale;
      ghost var before := Value();
      var rest := userStatus.Keys;
      NobodyStale(before, userStatus.Keys - rest, now, staleTimeout);
      while rest != {}
        invariant rest <= userStatus.Keys == before.status.Keys
        invariant Value() == Stale(before, userStatus.Keys - rest, now, staleTimeout)
        decreases rest
      {
        var u := PickAny(rest);
        StaleStep(before, userStatus.Keys - rest, u, now, staleTimeout);
        assert userStatus.Keys - rest + {u} == userStatus.Keys - (rest - {u});
        rest := rest - {u};
        if userStatus[u] == DELIVERED {
          var lastAttempt := if u in lastDeliveryAttempt then lastDeliveryAttempt[u] else 0;
          if lastAttempt != 0 && now - lastAttempt > staleTimeout {
            SetUserStatus(u, FAILED);
          }
        }
      }
      assert userStatus.Keys - rest == userStatus.Keys;
    }

    /** A record whose users in `done` have been checked for staleness. */
    static ghost function Stale(r: Rec, done: set<UserId>, now: int, staleTimeout: int): Rec {
      r.(status := map u | u in r.status ::
           if u in done && r.status[u] == DELIVERED && r.Last(u) != 0 && now - r.Last(u) > staleTimeout then FAILED else r.status[u])
    }

    static lemma NobodyStale(r: Rec, done: set<UserId>, now: int, staleTimeout: int)
      requires done == {}
      ensures Stale(r, done, now, staleTimeout) == r
    {
    }

    /** Checking one more user. */
    static lemma StaleStep(r: Rec, done: set<UserId>, u: UserId, now: int, staleTimeout: int)
      requires u in r.status && u !in done
      ensures var m := Stale(r, done, now, staleTimeout);
        && m.status.Keys == r.status.Keys && m.status[u] == r.status[u] && m.last == r.last
        && Stale(r, done + {u}, now, staleTimeout) ==
             if r.status[u] == DELIVERED && r.Last(u) != 0 && now - r.Last(u) > staleTimeout then m.WithStatus(u, FAILED) else m
    {
    }

    method DeleteUser(userId: UserId)
      modifies this`userStatus
      ensures userStatus == old(userStatus) - {userId}
    {
      userStatus := userStatus - {userId};
    }

    /** Loops over the statuses and stops at the first that is not APPLIED. */
    method IsAllApplied() returns (all: bool)
      ensures all <==> Value().AllApplied()
    {
      var users := userStatus.Keys;
      while users != {}
        invariant users <= userStatus.Keys
        invariant forall u :: u in userStatus && u !in users ==> userStatus[u] == APPLIED
        decreases |users|
      {
        var u := PickAny(users);
        if userStatus[u] != APPLIED {
          return false;
        }
        users := users - {u};
      }
      all := true;
    }
  }

  class EventStoreService {
    const config: Config
    /** What Date.now() returns in the current turn. */
    var now: int
    var events: map<EventId, EventRecord>
    /** The insertion order in which the map `events` iterates. */
    var eventOrder: seq<EventId>
    /** Each user's set of ids, in insertion order. */
    var userEvents: map<UserId, seq<EventId>>
    /** What was emitted as `event.expired`. */
    var emitted: seq<(EventId, Reason)>
    /** The objects the methods may change. */
    ghost var records: set<EventRecord>
    /** The store as a value, with its history. */
    ghost var model: State

    /** Each object of `own` under its own id says what the record of that id says. */
    static ghost predicate Held(objs: map<EventId, EventRecord>, recs: map<EventId, Rec>, own: set<EventRecord>)
      reads own
    {
      objs.Keys == recs.Keys && forall id :: id in objs ==> objs[id] in own && objs[id].Is(id, recs[id])
    }

    static lemma Open(objs: map<EventId, EventRecord>, recs: map<EventId, Rec>, own: set<EventRecord>, id: EventId)
      requires Held(objs, recs, own) && id in objs
      ensures id in recs && objs[id] in own && objs[id].Is(id, recs[id])
    {
    }

    static lemma Keys(objs: map<EventId, EventRecord>, recs: map<EventId, Rec>, own: set<EventRecord>)
      requires Held(objs, recs, own)
      ensures objs.Keys == recs.Keys
    {
    }

    /** Leaving one id out also leaves its object out. */
    static lemma Skip(objs: map<EventId, EventRecord>, recs: map<EventId, Rec>, own: set<EventRecord>, id: EventId)
      requires Held(objs, recs, own)
      ensures Held(objs - {id}, recs - {id}, own)
      ensures id in objs ==> Held(objs - {id}, recs - {id}, own - {objs[id]})
    {
    }

    static lemma Put(objs: map<EventId, EventRecord>, recs: map<EventId, Rec>, own: set<EventRecord>, id: EventId, obj: EventRecord, r: Rec)
      requires Held(objs - {id}, recs - {id}, own) && obj.Is(id, r)
      ensures Held(objs[id := obj], recs[id := r], own + {obj})
    {
      assert forall x :: x in objs && x != id ==> x in objs - {id};
      assert forall x :: x in recs && x != id ==> x in recs - {id};
      assert objs[id := obj].Keys == (objs - {id}).Keys + {id};
      assert recs[id := r].Keys == (recs - {id}).Keys + {id};
    }

    /** Each user's sequence of ids is the user's set, in the order of the store. */
    static ghost predicate Lists(m: map<UserId, seq<EventId>>, order: seq<EventId>, index: map<UserId, set<EventId>>) {
      m.Keys == index.Keys && forall u :: u in m ==> m[u] == Restrict(order, index[u])
    }

    /** The objects hold exactly what the model says; a record sits under its own id. */
    ghost predicate Reflects()
      reads this, records
    {
      && config.Sane() && model.now == now && model.order == eventOrder && emitted == Emissions(model.trace)
      && Held(events, model.events, records)
      && Lists(userEvents, eventOrder, model.index)
    }

    ghost predicate Valid()
      reads this, records
    {
      Reflects() && Wf(model)
    }

    constructor (config: Config, now: int)
      requires config.Sane()
      ensures Valid() && model == Init(now) && this.config == config
      ensures records == {}
    {
      this.config, this.now := config, now;
      events, eventOrder, userEvents, emitted := map[], [], map[], [];
      model, records := Init(now), {};
    }

    /** The users of the index, in the map's order. */
    method GetAllUserIds() returns (ids: seq<UserId>)
      ensures Elems(ids) == userEvents.Keys
    {
      ids := [];
      var users := userEvents.Keys;
      while users != {}
        invariant users <= userEvents.Keys && Elems(ids) == userEvents.Keys - users
        decreases |users|
      {
        var u := PickAny(users);
        ElemsSnoc(ids, u);
        ids := ids + [u];
        users := users - {u};
      }
    }

    // ---------- removal ----------

    static function Cleared(m: map<UserId, seq<EventId>>, done: set<UserId>, id: EventId): map<UserId, seq<EventId>> {
      map u | u in m && !(u in done && Without(m[u], id) == []) :: if u in done then Without(m[u], id) else m[u]
    }

    /** The loop of `removeEvent` over the users of a record. */
    method ClearIndex(users: set<UserId>, eventId: EventId)
      modifies this`userEvents
      ensures userEvents == Cleared(old(userEvents), users, eventId)
    {
      var rest := users;
      while rest != {}
        invariant rest <= users
        invariant userEvents == Cleared(old(userEvents), users - rest, eventId)
        decreases |rest|
      {
        var u := PickAny(rest);
        rest := rest - {u};
        if u in userEvents {
          var userSet := Without(userEvents[u], eventId);
          userEvents := if userSet == [] then userEvents - {u} else userEvents[u := userSet];
        }
      }
    }

    /** The updates of `removeEvent`, field by field. */
    method Drop(event: EventRecord, reason: Reason)
      modifies this
      ensures events == old(events) - {event.eventId} && eventOrder == Without(old(eventOrder), event.eventId)
      ensures userEvents == Cleared(old(userEvents), event.userStatus.Keys, event.eventId)
      ensures emitted == old(emitted) +
        if reason != ByAck && event.opts.notifySender && event.opts.senderId != 0 then [(event.eventId, reason)] else []
      ensures now == old(now) && records == old(records) && model == Remove(old(model), event.eventId, reason)
    {
      hide *;
      if reason != ByAck && event.opts.notifySender && event.opts.senderId != 0 {
        emitted := emitted + [(event.eventId, reason)];
      }
      ClearIndex(event.userStatus.Keys, event.eventId);
      events := events - {event.eventId};
      eventOrder := Without(eventOrder, event.eventId);
      model := Remove(model, event.eventId, reason);
    }

    method RemoveEvent(eventId: EventId, reason: Reason)
      requires Valid()
      modifies this
      ensures Valid() && model == Remove(old(model), eventId, reason)
      ensures records == old(records)
    {
      hide Wf, Restrict, Elems, Cleared, Unindex, Without, Emissions, Lists, Held;
      Keys(events, model.events, records);
      if eventId !in events {
        return;
      }
      Open(events, model.events, records, eventId);
      Skip(events, model.events, records, eventId);
      RemoveKeepsWf(model, eventId, reason);
      ClearedIsUnindexed(userEvents, model, eventId);
      RemoveEmissions(model, eventId, reason);
      Drop(events[eventId], reason);
    }

    static lemma ClearedUser(s: State, u: UserId, id: EventId)
      requires Wf(s) && u in s.index
      ensures var w := Without(Restrict(s.order, s.index[u]), id);
        && w == Restrict(Without(s.order, id), s.index[u] - {id})
        && (w == [] <==> s.index[u] - {id} == {})
        && (id !in s.index[u] ==> w == Restrict(s.order, s.index[u]) && s.index[u] - {id} == s.index[u])
    {
      var ids := s.index[u];
      forall x | x in ids ensures x in Elems(s.order) {
        assert InIndex(s, u, x);
      }
      WithoutRestrict(s.order, ids, id);
      RestrictTwice(s.order, Elems(s.order) - {id}, ids - {id});
      RestrictCong(s.order, (Elems(s.order) - {id}) * (ids - {id}), ids - {id});
      RestrictElems(s.order, ids - {id});
      var w := Restrict(s.order, ids - {id});
      assert Elems(w) == ids - {id};
      assert w != [] ==> w[0] in Elems(w);
      if id !in ids {
        assert ids - {id} == ids;
      }
    }

    /** Deleting the id user by user is what the model does to the index. */
    static lemma ClearedIsUnindexed(m: map<UserId, seq<EventId>>, s: State, id: EventId)
      requires Wf(s) && id in s.events
      requires Lists(m, s.order, s.index)
      ensures Lists(Cleared(m, s.events[id].status.Keys, id), Without(s.order, id), Unindex(s.index, id))
    {
      forall u | u in m
        ensures u in Cleared(m, s.events[id].status.Keys, id) <==> u in Unindex(s.index, id)
        ensures u in Cleared(m, s.events[id].status.Keys, id) ==>
          Cleared(m, s.events[id].status.Keys, id)[u] == Restrict(Without(s.order, id), s.index[u] - {id})
      {
        ClearedUser(s, u, id);
        assert InIndex(s, u, id) ==> u in s.events[id].status;
        assert s.index[u] != {};
      }
    }

    // ---------- status marks ----------

    method MarkDelivered(userId: UserId, eventId: EventId)
      requires Reflects()
      modifies this`model, records
      ensures Reflects() && model == EventModel.MarkDelivered(old(model), userId, eventId)
    {
      hide Restrict, Emissions, Lists, Held;
      Keys(events, model.events, records);
      if eventId !in events {
        return;
      }
      Open(events, model.events, records, eventId);
      Skip(events, model.events, records, eventId);
      var event := events[eventId];
      var status := event.GetUserStatus(userId);
      if status == APPLIED {
        return;
      }
      ghost var r := model.events[eventId].WithStatus(userId, DELIVERED).Attempted(userId, now);
      event.Attempt(userId, DELIVERED, now);
      Retouch(event, r);
    }

    method MarkFailed(userId: UserId, eventId: EventId)
      requires Reflects()
      modifies this`model, records
      ensures Reflects() && model == EventModel.MarkFailed(old(model), userId, eventId)
    {
      hide Restrict, Emissions, Lists, Held;
      Keys(events, model.events, records);
      if eventId !in events {
        return;
      }
      Open(events, model.events, records, eventId);
      Skip(events, model.events, records, eventId);
      var event := events[eventId];
      var status := event.GetUserStatus(userId);
      if status == FAILED {
        return;
      }
      ghost var r := model.events[eventId].WithStatus(userId, FAILED).Attempted(userId, now);
      event.Attempt(userId, FAILED, now);
      Retouch(event, r);
    }

    /** The model follows one object that has changed. */
    ghost method Retouch(event: EventRecord, r: Rec)
      requires config.Sane() && model.now == now && model.order == eventOrder && emitted == Emissions(model.trace)
      requires Lists(userEvents, eventOrder, model.index)
      requires event.eventId in events && events[event.eventId] == event && event in records && event.Is(event.eventId, r)
      requires Held(events - {event.eventId}, model.events - {event.eventId}, records - {event})
      modifies this`model
      ensures Reflects() && model == Touch(old(model), event.eventId, r)
    {
      hide Restrict, Emissions, Lists, Held;
      Put(events, model.events, records - {event}, event.eventId, event, r);
      assert events[event.eventId := event] == events && records - {event} + {event} == records;
      model := Touch(model, event.eventId, r);
    }

    method MarkApplied(userId: UserId, eventId: EventId)
      requires Valid()
      modifies this, records
      ensures Valid() && model == EventModel.MarkApplied(old(model), userId, eventId)
      ensures records == old(records)
    {
      hide Wf, Restrict, Emissions, Lists, Held;
      Keys(events, model.events, records);
      if eventId !in events {
        return;
      }
      Open(events, model.events, records, eventId);
      Skip(events, model.events, records, eventId);
      TouchAppliedKeepsWf(model, userId, eventId);
      var event := events[eventId];
      ghost var r := model.events[eventId].WithStatus(userId, APPLIED);
      event.SetUserStatus(userId, APPLIED);
      Retouch(event, r);
      var all := event.IsAllApplied();
      if all {
        RemoveEvent(eventId, ByAck);
      }
    }

    static lemma TouchAppliedKeepsWf(s: State, u: UserId, id: EventId)
      requires Wf(s) && id in s.events
      ensures Wf(Touch(s, id, s.events[id].WithStatus(u, APPLIED)))
    {
      TouchKeepsWf(s, id, s.events[id].WithStatus(u, APPLIED));
    }

    // ---------- sending ----------

    /** Writes a message of a stored event to a socket: only the history sees it. */
    ghost method LogSend(userId: UserId, eventId: EventId, via: Via)
      requires Valid()
      modifies this`model
      ensures Valid() && model == Log(old(model), Sent(eventId, userId, via))
    {
      hide Wf, Restrict, Emissions, Lists, Held;
      LogEmissions(model.trace, Sent(eventId, userId, via));
      LogKeepsWf(model, Sent(eventId, userId, via));
      model := Log(model, Sent(eventId, userId, via));
    }

    static lemma LogKeepsWf(s: State, e: Entry)
      requires Wf(s)
      ensures Wf(Log(s, e))
    {
      assert OldestFirst(Log(s, e));
      SameUsersKeepIndex(s, Log(s, e));
    }

    /** Sends one stored event to a user it waits for, and marks it as its QoS asks. */
    method SendOne(userId: UserId, eventId: EventId, ghost via: Via)
      requires Valid() && eventId in model.events && userId in model.events[eventId].status
      modifies this, records
      ensures Valid() && model == SendStored(old(model), userId, eventId, via)
      ensures records == old(records)
    {
      hide Wf, Restrict, Emissions, Lists, Held, EventModel.MarkApplied, EventModel.MarkDelivered;
      Keys(events, model.events, records);
      Open(events, model.events, records, eventId);
      var qos := events[eventId].opts.qos;
      LogSend(userId, eventId, via);
      if qos == 1 {
        MarkApplied(userId, eventId);
      } else if qos == 2 {
        MarkDeliveredKeepsWf(model, userId, eventId);
        MarkDelivered(userId, eventId);
      }
    }

    // ---------- reading ----------

    /** The index lookup, in the order of the user's set, is the scan in the order of the store. */
    static lemma LookupOrder(s: State, u: UserId, found: set<EventId>)
      requires Wf(s) && u in s.index && found == LookedUp(s, u)
      ensures Restrict(Restrict(s.order, s.index[u]), found) == PendingIds(s, u)
    {
      LookupIsScan(s, u);
      RestrictTwice(s.order, s.index[u], found);
      assert s.index[u] * found == found;
    }

    static function Ages(s: State, ids: seq<EventId>): map<EventId, Rank>
    {
      map id | id in ids :: Rank(0, if id in s.events then s.events[id].createdAt else 0)
    }

    /** Sorting by creation time leaves the list alone. */
    static lemma PendingSorted(s: State, u: UserId)
      requires Wf(s)
      ensures StableSort(PendingIds(s, u), Ages(s, PendingIds(s, u))) == PendingIds(s, u)
    {
      var p := PendingIds(s, u);
      forall i, j | 0 <= i < j < |p| ensures AtMost(Ages(s, p)[p[i]], Ages(s, p)[p[j]]) {
        PendingOldestFirst(s, u, i, j);
      }
      SortSorted(p, Ages(s, p));
    }

    /** A user's ids in index order, kept when they satisfy the test of `getPending`. */
    static lemma LookupStep(ids: seq<EventId>, i: nat, found: set<EventId>)
      requires i < |ids|
      ensures Restrict(ids[..i + 1], found) == Restrict(ids[..i], found) + if ids[i] in found then [ids[i]] else []
    {
      assert ids[..i + 1][..i] == ids[..i];
    }

    method GetPending(userId: UserId) returns (result: seq<EventId>)
      requires Valid()
      ensures result == PendingIds(model, userId)
    {
      if userId !in userEvents {
        LookupIsScan(model, userId);
        PendingListed(model, userId);
        return [];
      }
      var eventIds := userEvents[userId];
      ghost var found := LookedUp(model, userId);
      LookupOrder(model, userId, found);
      hide Wf, Restrict;
      result := [];
      for i := 0 to |eventIds|
        invariant result == Restrict(eventIds[..i], found)
      {
        LookupStep(eventIds, i, found);
        IndexedIsStored(model, userId, eventIds[i]);
        var event := events[eventIds[i]];
        if event.GetUserStatus(userId) != APPLIED && !event.IsExpired(now) {
          result := result + [eventIds[i]];
        }
      }
      assert eventIds[..|eventIds|] == eventIds;
      result := SortByCreation(userId, result);
    }

    static lemma IndexedIsStored(s: State, u: UserId, id: EventId)
      requires Wf(s) && u in s.index && id in Restrict(s.order, s.index[u])
      ensures id in s.index[u] && id in s.events
    {
      RestrictElems(s.order, s.index[u]);
      assert id in Elems(Restrict(s.order, s.index[u]));
      assert InIndex(s, u, id);
    }

    lemma CreationTimes(userId: UserId)
      requires Valid()
      ensures forall id :: id in PendingIds(model, userId) ==>
        id in events && id in model.events && events[id].createdAt == model.events[id].createdAt
    {
      PendingListed(model, userId);
      Keys(events, model.events, records);
      hide Restrict, Lists, Emissions;
      forall id | id in PendingIds(model, userId) ensures id in events && events[id].createdAt == model.events[id].createdAt {
        assert IsPending(model, userId, id);
        Open(events, model.events, records, id);
      }
    }

    /** The sort of a pending list by creation time. */
    method SortByCreation(ghost userId: UserId, ids: seq<EventId>) returns (result: seq<EventId>)
      requires Valid() && ids == PendingIds(model, userId)
      ensures result == ids
    {
      hide Wf, Reflects, PendingIds;
      CreationTimes(userId);
      PendingSorted(model, userId);
      var ranks := map id | id in ids :: Rank(0, events[id].createdAt);
      assert ranks == Ages(model, ids);
      result := StableSort(ids, ranks);
    }

    // ---------- eviction and creation ----------

    /** The victims of `enforcePerUserLimit` as the source computes them, from the index. */
    static lemma IndexSize(s: State, u: UserId)
      requires Wf(s) && u in s.index
      ensures |Restrict(s.order, s.index[u])| == |s.index[u]|
    {
      forall x | x in s.index[u] ensures x in Elems(s.order) {
        assert InIndex(s, u, x);
      }
      RestrictCard(s.order, s.index[u]);
    }

    /** Detaches one user from one record: first the index, then the object. */
    method Detach(userId: UserId, eventId: EventId)
      requires Reflects() && eventId in events && userId in userEvents
      modifies this`userEvents, this`model, records
      ensures Reflects() && model == EventModel.Detach(old(model), userId, eventId)
    {
      hide Wf, Restrict, Emissions, Lists, Held, Elems, Without;
      Open(events, model.events, records, eventId);
      Skip(events, model.events, records, eventId);
      DetachedList(userEvents, model, userId, eventId);
      LogEmissions(model.trace, Evicted(eventId, userId));
      userEvents := userEvents[userId := Without(userEvents[userId], eventId)];
      var event := events[eventId];
      ghost var r := model.events[eventId].(status := model.events[eventId].status - {userId});
      event.DeleteUser(userId);
      model := Log(model.(index := model.index[userId := model.index[userId] - {eventId}]), Evicted(eventId, userId));
      Retouch(event, r);
    }

    static lemma DetachedList(m: map<UserId, seq<EventId>>, s: State, u: UserId, id: EventId)
      requires Lists(m, s.order, s.index) && u in m
      ensures u in s.index && Lists(m[u := Without(m[u], id)], s.order, s.index[u := s.index[u] - {id}])
    {
      WithoutRestrict(s.order, s.index[u], id);
    }

    lemma EntryIsHere(userId: UserId, eventId: EventId)
      requires Valid() && InIndex(model, userId, eventId)
      ensures eventId in events && eventId in model.events && userId in userEvents
    {
    }

    /** One turn of the eviction loop. */
    method EvictOne(userId: UserId, eventId: EventId)
      requires Valid() && InIndex(model, userId, eventId) && model.index[userId] - {eventId} != {}
      modifies this, records
      ensures Valid() && model == Evict(old(model), userId, eventId)
      ensures records == old(records)
    {
      hide Wf, Restrict, Emissions, Lists, Held, EventModel.Detach, Remove;
      EntryIsHere(userId, eventId);
      DetachKeepsWf(model, userId, eventId);
      Detach(userId, eventId);
      var rest := Attached(eventId);
      if rest == map[] {
        RemoveEvent(eventId, ByForce);
      }
    }

    /** The users a stored event is attached to. */
    method Attached(eventId: EventId) returns (status: map<UserId, Status>)
      requires Reflects() && eventId in events
      ensures eventId in model.events && status == model.events[eventId].status
    {
      status := events[eventId].userStatus;
    }

    method EnforcePerUserLimit(userId: UserId)
      requires Valid()
      modifies this, records
      ensures Valid() && model == Enforce(config, old(model), userId)
      ensures records == old(records)
    {
      if userId in userEvents {
        IndexSize(model, userId);
      }
      hide Wf, Restrict, Emissions, Lists;
      if userId !in userEvents || |userEvents[userId]| <= config.maxPerUser {
        return;
      }
      var mine := GetPending(userId);
      var toRemove := mine[..SliceEnd(|mine|, |mine| - config.maxPerUser)];
      EvictList(userId, toRemove);
    }

    /** The eviction loop. */
    method EvictList(userId: UserId, toRemove: seq<EventId>)
      requires Valid() && toRemove == Victims(config, model, userId)
      modifies this, records
      ensures Valid() && model == EvictAll(old(model), userId, toRemove)
      ensures records == old(records)
    {
      ghost var before := model;
      assert config.Sane();
      hide *;
      for i := 0 to |toRemove|
        invariant Valid() && model == EvictAll(before, userId, toRemove[..i])
        invariant records == old(records)
      {
        VictimTurn(config, before, userId, toRemove, i);
        assert toRemove[..i + 1][..i] == toRemove[..i];
        EvictOne(userId, toRemove[i]);
      }
      assert toRemove[..|toRemove|] == toRemove;
    }

    /** When a victim's turn comes it is still indexed, and not the user's only entry. */
    static lemma VictimTurn(c: Config, s: State, u: UserId, ids: seq<EventId>, i: nat)
      requires c.Sane() && Wf(s) && ids == Victims(c, s, u) && i < |ids|
      ensures var m := EvictAll(s, u, ids[..i]); InIndex(m, u, ids[i]) && m.index[u] - {ids[i]} != {}
    {
      VictimsFacts(c, s, u);
      var p := PendingIds(s, u);
      var kept := p[|p| - 1];
      EvictAllEffect(s, u, ids[..i], kept);
      var m := EvictAll(s, u, ids[..i]);
      assert ids[i] !in Elems(ids[..i]) && ids[i] in ids && IsPending(s, u, ids[i]);
      assert InIndex(s, u, ids[i]);
      assert InIndex(m, u, kept) && kept != ids[i];
      assert kept in m.index[u] - {ids[i]};
    }

    static function Added(m: map<UserId, seq<EventId>>, us: set<UserId>, id: EventId): map<UserId, seq<EventId>> {
      map u | u in m.Keys + us :: (if u in m then m[u] else []) + (if u in us then [id] else [])
    }

    /** One target: the record's status, and the index set if the id is not there yet. */
    method AttachOne(record: EventRecord, userId: UserId)
      modifies this`userEvents, record`userStatus
      ensures var ids := if userId in old(userEvents) then old(userEvents)[userId] else [];
        userEvents == old(userEvents)[userId := if record.eventId in ids then ids else ids + [record.eventId]]
      ensures record.userStatus == old(record.userStatus)[userId := STORED]
    {
      record.SetUserStatus(userId, STORED);
      if userId !in userEvents {
        userEvents := userEvents[userId := []];
      }
      if record.eventId !in userEvents[userId] {
        userEvents := userEvents[userId := userEvents[userId] + [record.eventId]];
      }
    }

    /** The first loop of `create`: attach each target, in the record and in the index. */
    method Attach(record: EventRecord, targetIds: seq<UserId>)
      requires record.userStatus == map[]
      requires forall u :: u in userEvents ==> record.eventId !in userEvents[u]
      modifies this`userEvents, record`userStatus
      ensures userEvents == Added(old(userEvents), Elems(targetIds), record.eventId)
      ensures record.userStatus == AllStored(Elems(targetIds))
    {
      assert Elems(targetIds[..0]) == {} && AllStored({}) == map[];
      AddedNone(userEvents, record.eventId);
      for i := 0 to |targetIds|
        invariant userEvents == Added(old(userEvents), Elems(targetIds[..i]), record.eventId)
        invariant record.userStatus == AllStored(Elems(targetIds[..i]))
      {
        AttachStep(old(userEvents), targetIds, i, record.eventId);
        hide *;
        AttachOne(record, targetIds[i]);
      }
      assert targetIds[..|targetIds|] == targetIds;
    }

    static lemma AttachStep(m: map<UserId, seq<EventId>>, us: seq<UserId>, i: nat, id: EventId)
      requires i < |us| && forall u :: u in m ==> id !in m[u]
      ensures var a := Added(m, Elems(us[..i]), id); var ids := if us[i] in a then a[us[i]] else [];
        Added(m, Elems(us[..i + 1]), id) == a[us[i] := if id in ids then ids else ids + [id]]
      ensures AllStored(Elems(us[..i + 1])) == AllStored(Elems(us[..i]))[us[i] := STORED]
    {
      AddedStep(m, Elems(us[..i]), us[i], id);
      ElemsSnoc(us[..i], us[i]);
      assert us[..i + 1] == us[..i] + [us[i]];
    }

    static lemma AddedNone(m: map<UserId, seq<EventId>>, id: EventId)
      ensures Added(m, {}, id) == m
    {
      assert Added(m, {}, id).Keys == m.Keys;
      assert forall u :: u in m ==> m[u] + [] == m[u];
    }

    /** Adding to a set in insertion order: a second addition changes nothing. */
    static lemma AddedStep(m: map<UserId, seq<EventId>>, us: set<UserId>, v: UserId, id: EventId)
      requires forall u :: u in m ==> id !in m[u]
      ensures var a := Added(m, us, id); var ids := if v in a then a[v] else [];
        Added(m, us + {v}, id) == a[v := if id in ids then ids else ids + [id]]
    {
      var a, b := Added(m, us, id), Added(m, us + {v}, id);
      var ids := if v in a then a[v] else [];
      var w := if id in ids then ids else ids + [id];
      if v in us {
        assert ids[|ids| - 1] == id;
      } else if v in m {
        assert ids == m[v];
      }
      assert b[v] == w;
      assert b.Keys == a.Keys + {v};
      assert forall u :: u in a && u != v ==> b[u] == a[u];
    }

    static lemma AddedIsInserted(m: map<UserId, seq<EventId>>, s: State, id: EventId, targets: seq<UserId>, opts: Options)
      requires Wf(s) && id !in s.events
      requires Lists(m, s.order, s.index)
      ensures var t := Insert(s, id, targets, opts); Lists(Added(m, Elems(targets), id), s.order + [id], t.index)
      ensures forall u :: u in m ==> id !in m[u]
    {
      var t := Insert(s, id, targets, opts);
      forall u | u in t.index
        ensures Added(m, Elems(targets), id)[u] == Restrict(t.order, t.index[u])
      {
        var ids := if u in s.index then s.index[u] else {};
        RestrictAppend(s.order, [id], t.index[u]);
        forall x | x in s.order ensures x in t.index[u] <==> x in ids {
          assert x in Elems(s.order);
        }
        RestrictCong(s.order, t.index[u], ids);
        if u !in s.index {
          RestrictElems(s.order, {});
          assert |Restrict(s.order, {})| == 0 by {
            RestrictCard(s.order, {});
          }
        }
        assert id in ids ==> InIndex(s, u, id);
        assert Restrict([id], t.index[u]) == if u in Elems(targets) then [id] else [];
      }
      forall u | u in m ensures id !in m[u] {
        RestrictElems(s.order, s.index[u]);
        assert id !in s.index[u] by {
          assert id in s.index[u] ==> InIndex(s, u, id);
        }
        assert id !in Elems(m[u]);
      }
    }

    /** The record of `create` enters both maps. */
    method Enter(record: EventRecord, targetIds: seq<UserId>)
      requires record.userStatus == map[]
      requires forall u :: u in userEvents ==> record.eventId !in userEvents[u]
      modifies this, record`userStatus
      ensures userEvents == Added(old(userEvents), Elems(targetIds), record.eventId)
      ensures record.userStatus == AllStored(Elems(targetIds))
      ensures events == old(events)[record.eventId := record] && eventOrder == old(eventOrder) + [record.eventId]
      ensures records == old(records) + {record} && now == old(now) && emitted == old(emitted)
      ensures model == Insert(old(model), record.eventId, targetIds, record.opts)
    {
      hide *;
      Attach(record, targetIds);
      events := events[record.eventId := record];
      eventOrder := eventOrder + [record.eventId];
      model := Insert(model, record.eventId, targetIds, record.opts);
      records := records + {record};
    }

    method Register(record: EventRecord, targetIds: seq<UserId>)
      requires Valid() && record !in records && record.eventId !in events
      requires record.userStatus == map[] && record.deliveryAttempts == map[] && record.lastDeliveryAttempt == map[]
      requires record.createdAt == now && record.expiresAt == if record.opts.ttl != 0 then now + record.opts.ttl else 0
      modifies this, record
      ensures Valid() && model == Insert(old(model), record.eventId, targetIds, record.opts)
      ensures records == old(records) + {record}
    {
      AddedIsInserted(userEvents, model, record.eventId, targetIds, record.opts);
      Keys(events, model.events, records);
      InsertKeepsWf(model, record.eventId, targetIds, record.opts);
      Skip(events, model.events, records, record.eventId);
      ghost var before, objs, own := model, events, records;
      hide Wf, Restrict, Emissions, Added, AllStored, Elems, Lists, Held;
      Enter(record, targetIds);
      Put(objs, before.events, own, record.eventId, record, Fresh(before, targetIds, record.opts));
    }

    /** The second loop of `create`. */
    method EnforceLimits(targetIds: seq<UserId>)
      requires Valid()
      modifies this, records
      ensures Valid() && model == EnforceAll(config, old(model), targetIds)
      ensures records == old(records)
    {
      ghost var before := model;
      for i := 0 to |targetIds|
        invariant Valid() && model == EnforceAll(config, before, targetIds[..i])
        invariant records == old(records)
      {
        assert targetIds[..i + 1][..i] == targetIds[..i];
        hide Wf, Restrict, Emissions, Valid, Enforce;
        EnforcePerUserLimit(targetIds[i]);
      }
      assert targetIds[..|targetIds|] == targetIds;
    }

    /** The limit check at the head of `create`. */
    method MakeRoom()
      requires Valid()
      modifies this
      ensures Valid() && model == EventRuns.MakeRoom(config, old(model))
      ensures records == old(records) && now == old(now) && events.Keys <= old(events.Keys)
    {
      MakeRoomShrinks(config, model);
      Keys(events, model.events, records);
      if |events| >= config.maxTotal {
        ForceCleanup();
        Keys(events, model.events, records);
      }
    }

    /** `eventId` stands for the fresh UUID. */
    method Create(targetIds: seq<UserId>, opts: Options, eventId: EventId)
      requires Valid() && eventId !in events && eventId !in model.births && targetIds != []
      modifies this, records
      ensures Valid() && model == EventModel.Create(config, old(model), eventId, targetIds, opts)
      ensures fresh(records - old(records))
    {
      hide Valid, EventModel.ForceCleanup, EnforceAll, Insert;
      MakeRoom();
      var expiresAt := if opts.ttl != 0 then now + opts.ttl else 0;
      var record := new EventRecord(eventId, opts, now, expiresAt);
      Register(record, targetIds);
      EnforceLimits(targetIds);
    }

    // ---------- cleanup ----------

    /** The weight loop of `forceCleanup`. */
    static method TotalWeight(userStatus: map<UserId, Status>) returns (w: nat)
      ensures w == Weight(userStatus)
    {
      w := 0;
      var rest := userStatus.Keys;
      ghost var seen: map<UserId, Status> := map[];
      while rest != {}
        invariant rest <= userStatus.Keys
        invariant seen == userStatus - rest
        invariant w == Weight(seen)
        decreases rest
      {
        var u := PickAny(rest);
        WeightStep(seen, u, userStatus[u]);
        match userStatus[u] {
          case FAILED => w := w + 4;
          case DELIVERED => w := w + 3;
          case STORED => w := w + 2;
          case APPLIED => w := w + 1;
        }
        seen := seen[u := userStatus[u]];
        rest := rest - {u};
      }
      assert seen == userStatus;
    }

    static lemma HavingMember(m: map<UserId, Status>, u: UserId, x: Status, y: Status, v: UserId)
      requires u !in m
      ensures v in Having(m[u := x], y) <==> v in Having(m, y) || (v == u && x == y)
      ensures u !in Having(m, y)
    {
    }

    static lemma HavingStep(m: map<UserId, Status>, u: UserId, x: Status, y: Status)
      requires u !in m
      ensures |Having(m[u := x], y)| == |Having(m, y)| + if x == y then 1 else 0
    {
      hide Having;
      HavingMember(m, u, x, y, u);
      forall v ensures v in Having(m[u := x], y) <==> v in Having(m, y) || (v == u && x == y) {
        HavingMember(m, u, x, y, v);
      }
      if x == y {
        assert Having(m[u := x], y) == Having(m, y) + {u};
      } else {
        assert Having(m[u := x], y) == Having(m, y);
      }
    }

    static lemma WeightStep(m: map<UserId, Status>, u: UserId, x: Status)
      requires u !in m
      ensures Weight(m[u := x]) == Weight(m) + match x case FAILED => 4 case DELIVERED => 3 case STORED => 2 case APPLIED => 1
    {
      hide Having;
      HavingStep(m, u, x, FAILED);
      HavingStep(m, u, x, DELIVERED);
      HavingStep(m, u, x, STORED);
      HavingStep(m, u, x, APPLIED);
    }

    /** Each event with its priority, as the first loop of `forceCleanup` collects them. */
    method Priorities() returns (ranks: map<EventId, Rank>)
      requires Valid()
      ensures ranks == ForceRanks(model)
    {
      ranks := map[];
      assert RanksOf(model, eventOrder[..0]) == map[];
      for i := 0 to |eventOrder|
        invariant ranks == RanksOf(model, eventOrder[..i])
      {
        var eventId := eventOrder[i];
        RanksStep(model, eventOrder, i);
        hide Wf, Restrict, Emissions, RanksOf, Weight;
        var event := events[eventId];
        var w: int := TotalWeight(event.userStatus);
        ranks := ranks[eventId := Rank(0 - w, event.createdAt)];
      }
      assert eventOrder[..|eventOrder|] == eventOrder;
    }

    static lemma RanksStep(s: State, ids: seq<EventId>, i: nat)
      requires Shape(s) && i < |ids| && ids == s.order
      ensures ids[i] in s.events
      ensures RanksOf(s, ids[..i + 1]) == RanksOf(s, ids[..i])[ids[i] := ForceRank(s.events[ids[i]])]
    {
      assert ids[i] in Elems(s.order);
      assert ids[..i + 1] == ids[..i] + [ids[i]];
    }

    /** A loop of `removeEvent` calls. */
    method RemoveList(ids: seq<EventId>, reason: Reason)
      requires Valid()
      modifies this
      ensures Valid() && model == RemoveAll(old(model), ids, reason)
      ensures records == old(records)
    {
      ghost var before := model;
      for i := 0 to |ids|
        invariant Valid() && model == RemoveAll(before, ids[..i], reason)
        invariant records == old(records)
      {
        assert ids[..i + 1][..i] == ids[..i];
        hide Wf, Restrict, Emissions, Valid, Remove;
        RemoveEvent(ids[i], reason);
      }
      assert ids[..|ids|] == ids;
    }

    method ForceCleanup()
      requires Valid()
      modifies this
      ensures Valid() && model == EventModel.ForceCleanup(config, old(model))
      ensures records == old(records)
    {
      hide Wf, Restrict, Emissions, Lists, Held, ForceRank, StableSort, RemoveAll;
      var ranks := Priorities();
      var sorted := StableSort(eventOrder, ranks);
      var toRemove := sorted[..SliceEnd(|sorted|, |sorted| - config.maxTotal)];
      RemoveList(toRemove, ByForce);
    }

    method EnforceMemoryLimits()
      requires Valid()
      modifies this
      ensures Valid() && model == EnforceTotal(config, old(model))
      ensures records == old(records)
    {
      hide Wf, Restrict, Emissions, EventModel.ForceCleanup;
      if |events| > config.maxTotal {
        ForceCleanup();
      }
    }

    /** The expiry timer's callback. */
    method ExpiryTimer(eventId: EventId)
      requires Valid()
      modifies this
      ensures Valid() && model == Timer(old(model), eventId)
      ensures records == old(records)
    {
      hide Wf, Restrict, Emissions, Lists, Held, Remove;
      Keys(events, model.events, records);
      if eventId in events {
        Open(events, model.events, records, eventId);
        if events[eventId].IsExpired(now) {
          RemoveEvent(eventId, ByExpiry);
        }
      }
    }

    /** The scan of `cleanupExpiredEvents` over the map, which deletes as it goes. */
    method CleanupExpiredEvents()
      requires Valid()
      modifies this
      ensures Valid() && model == CleanupExpired(old(model))
      ensures records == old(records)
    {
      hide Wf, Restrict, Emissions, Lists, Remove, RemoveAll, ExpiredIds, Held;
      ghost var before := model;
      var all := eventOrder;
      ExpiredNone(before);
      for i := 0 to |all|
        invariant Valid() && model == RemoveAll(before, Restrict(all[..i], ExpiredIds(before)), ByExpiry)
        invariant records == old(records)
      {
        ExpiredTurn(before, all, i);
        ExpiredStep(before, all, i);
        ExpiryTimer(all[i]);
      }
      assert all[..|all|] == all;
    }

    static lemma ExpiredNone(s: State)
      ensures RemoveAll(s, Restrict(s.order[..0], ExpiredIds(s)), ByExpiry) == s
    {
    }

    /** When its turn comes a record is still stored as it was. */
    static lemma ExpiredTurn(s: State, all: seq<EventId>, i: nat)
      requires Wf(s) && all == s.order && i < |all|
      ensures var m := RemoveAll(s, Restrict(all[..i], ExpiredIds(s)), ByExpiry);
        all[i] in m.events && m.now == s.now && m.events[all[i]] == s.events[all[i]]
      ensures all[i] in s.events
    {
      var ids := Restrict(all[..i], ExpiredIds(s));
      RemoveAllEffect(s, ids, ByExpiry);
      RestrictElems(all[..i], ExpiredIds(s));
      assert all[i] in Elems(s.order) && all[i] !in Elems(all[..i]);
    }

    /** The timer's test extends the list of expired ids that were removed. */
    static lemma ExpiredStep(s: State, all: seq<EventId>, i: nat)
      requires i < |all| && all[i] in s.events
      requires var m := RemoveAll(s, Restrict(all[..i], ExpiredIds(s)), ByExpiry);
        all[i] in m.events && m.now == s.now && m.events[all[i]] == s.events[all[i]]
      ensures Timer(RemoveAll(s, Restrict(all[..i], ExpiredIds(s)), ByExpiry), all[i]) ==
        RemoveAll(s, Restrict(all[..i + 1], ExpiredIds(s)), ByExpiry)
    {
      hide Restrict, Remove;
      var ids := Restrict(all[..i], ExpiredIds(s));
      LookupStep(all, i, ExpiredIds(s));
      if all[i] in ExpiredIds(s) {
        var longer := ids + [all[i]];
        assert longer[..|longer| - 1] == ids;
        assert RemoveAll(s, longer, ByExpiry) == Remove(RemoveAll(s, ids, ByExpiry), all[i], ByExpiry);
      } else {
        assert ids + [] == ids;
      }
    }

    method CleanupStaleDelivered()
      requires Valid()
      modifies this`model, records
      ensures Valid() && model == MarkStale(config, old(model))
    {
      hide Wf, Restrict, Emissions, Lists, Held, Aged, MarkStale;
      StaleKeepsWf(config, model);
      ghost var before := model;
      for i := 0 to |eventOrder|
        invariant Reflects() && model == AgedUpTo(config, before, i)
      {
        AgedEffect(config, before, i);
        AgedStep(config, before, i);
        AgeOne(eventOrder[i]);
      }
      AgedAll(config, before);
    }

    static lemma AgedStep(c: Config, s: State, i: nat)
      requires Wf(s) && i < |s.order|
      ensures s.order[i] in s.events
      ensures AgedUpTo(c, s, i + 1) == Touch(AgedUpTo(c, s, i), s.order[i], Aged(c, s.events[s.order[i]], s.now))
    {
      hide Aged;
      assert s.order[i] in Elems(s.order);
    }

    /** One turn of the outer loop of `cleanupStaleDelivered`. */
    method AgeOne(eventId: EventId)
      requires Reflects() && eventId in model.events
      modifies this`model, records
      ensures Reflects() && model == Touch(old(model), eventId, Aged(config, old(model).events[eventId], now))
    {
      hide Restrict, Emissions, Lists, Held;
      Keys(events, model.events, records);
      Open(events, model.events, records, eventId);
      Skip(events, model.events, records, eventId);
      var event := events[eventId];
      ghost var r := model.events[eventId];
      event.AgeDelivered(now, config.staleTimeout);
      assert event.Value() == Aged(config, r, now);
      Retouch(event, Aged(config, r, now));
    }

    /** The store after the first `n` records have been checked. */
    static ghost function AgedUpTo(c: Config, s: State, n: nat): State
      requires n <= |s.order|
    {
      if n == 0 then s else
      if s.order[n - 1] !in s.events then AgedUpTo(c, s, n - 1) else
      Touch(AgedUpTo(c, s, n - 1), s.order[n - 1], Aged(c, s.events[s.order[n - 1]], s.now))
    }

    static lemma {:induction false} AgedFields(c: Config, s: State, n: nat)
      requires Wf(s) && n <= |s.order|
      ensures AgedUpTo(c, s, n).(events := s.events) == s && AgedUpTo(c, s, n).events.Keys == s.events.Keys
    {
      hide Aged, Wf;
      if n > 0 {
        AgedFields(c, s, n - 1);
      }
    }

    /** The `i`th record after the first `n` have been checked. */
    static lemma {:induction false} AgedRecord(c: Config, s: State, n: nat, i: nat)
      requires Wf(s) && n <= |s.order| && i < |s.order|
      ensures s.order[i] in s.events && s.order[i] in AgedUpTo(c, s, n).events
      ensures AgedUpTo(c, s, n).events[s.order[i]] ==
        if i < n then Aged(c, s.events[s.order[i]], s.now) else s.events[s.order[i]]
    {
      hide Aged, Indexed, OldestFirst;
      assert s.order[i] in Elems(s.order);
      if n > 0 {
        AgedRecord(c, s, n - 1, i);
        AgedStep(c, s, n - 1);
      }
    }

    static lemma AgedEffect(c: Config, s: State, n: nat)
      requires Wf(s) && n <= |s.order|
      ensures var m := AgedUpTo(c, s, n);
        && m.(events := s.events) == s && m.events.Keys == s.events.Keys
        && (forall i :: n <= i < |s.order| ==> s.order[i] in m.events && m.events[s.order[i]] == s.events[s.order[i]])
        && (forall i :: 0 <= i < n ==> s.order[i] in m.events && m.events[s.order[i]] == Aged(c, s.events[s.order[i]], s.now))
    {
      hide Aged, Wf, AgedUpTo;
      AgedFields(c, s, n);
      forall i: nat | i < |s.order|
        ensures s.order[i] in s.events && s.order[i] in AgedUpTo(c, s, n).events
        ensures AgedUpTo(c, s, n).events[s.order[i]] ==
          if i < n then Aged(c, s.events[s.order[i]], s.now) else s.events[s.order[i]]
      {
        AgedRecord(c, s, n, i);
      }
    }

    static lemma AgedAll(c: Config, s: State)
      requires Wf(s)
      ensures AgedUpTo(c, s, |s.order|) == MarkStale(c, s)
    {
      hide Aged;
      AgedEffect(c, s, |s.order|);
      var m := AgedUpTo(c, s, |s.order|);
      forall id | id in s.events ensures m.events[id] == Aged(c, s.events[id], s.now) {
        assert id in Elems(s.order);
      }
      assert m.events == MarkStale(c, s).events;
    }

    /** The periodic cleanup. */
    method CleanupTick()
      requires Valid()
      modifies this, records
      ensures Valid() && model == Cleanup(config, old(model))
      ensures records == old(records)
    {
      hide Valid, CleanupExpired, MarkStale, EnforceTotal;
      CleanupExpiredEvents();
      CleanupStaleDelivered();
      EnforceMemoryLimits();
    }

    /** Time passes between turns. */
    method Elapse(ms: nat)
      requires Valid()
      modifies this`now, this`model
      ensures Valid() && model == old(model).(now := old(model).now + ms)
    {
      hide Wf, Restrict, Emissions, Lists, Held;
      ElapseKeepsWf(model, ms);
      now := now + ms;
      model := model.(now := now);
    }

    static lemma ElapseKeepsWf(s: State, ms: nat)
      requires Wf(s)
      ensures Wf(s.(now := s.now + ms))
    {
      assert OldestFirst(s.(now := s.now + ms));
      SameUsersKeepIndex(s, s.(now := s.now + ms));
    }

    // ---------- retry ----------

    method GetPendingWithRetry(userId: UserId, jitter: map<EventId, real>) returns (result: seq<EventId>)
      requires Valid()
      ensures result == RetryIds(config, model, userId, jitter)
    {
      ghost var due := Due(config, model, userId, jitter);
      DueOrder(config, model, userId, jitter);
      if userId !in userEvents {
        assert RetryRanks(model, userId, []) == map[];
        return [];
      }
      var eventIds := userEvents[userId];
      hide Wf, Restrict, Due;
      result := [];
      for i := 0 to |eventIds|
        invariant result == Restrict(eventIds[..i], due)
      {
        LookupStep(eventIds, i, due);
        IndexedIsStored(model, userId, eventIds[i]);
        DueTest(config, model, userId, jitter, eventIds[i]);
        Open(events, model.events, records, eventIds[i]);
        var event := events[eventIds[i]];
        if !event.IsExpired(now) && ShouldRetry(config, event.Value(), userId, now, Draw(jitter, eventIds[i])) {
          result := result + [eventIds[i]];
        }
      }
      assert eventIds[..|eventIds|] == eventIds;
      result := SortForRetry(userId, jitter, result);
    }

    static lemma DueTest(c: Config, s: State, u: UserId, jitter: map<EventId, real>, id: EventId)
      requires Wf(s) && InIndex(s, u, id)
      ensures id in s.events
      ensures id in Due(c, s, u, jitter) <==>
        !s.events[id].Expired(s.now) && ShouldRetry(c, s.events[id], u, s.now, Draw(jitter, id))
    {
    }

    static lemma DueOrder(c: Config, s: State, u: UserId, jitter: map<EventId, real>)
      requires Wf(s)
      ensures u in s.index ==> Restrict(Restrict(s.order, s.index[u]), Due(c, s, u, jitter)) == Restrict(s.order, Due(c, s, u, jitter))
      ensures u !in s.index ==> Restrict(s.order, Due(c, s, u, jitter)) == []
      ensures forall id :: id in Restrict(s.order, Due(c, s, u, jitter)) ==> id in s.events
    {
      var due := Due(c, s, u, jitter);
      RestrictElems(s.order, due);
      assert forall id :: id in Restrict(s.order, due) ==> id in Elems(Restrict(s.order, due));
      forall id | id in due ensures InIndex(s, u, id) {
        assert IsDue(c, s, u, jitter, id);
      }
      if u in s.index {
        RestrictTwice(s.order, s.index[u], due);
        assert s.index[u] * due == due;
      } else {
        assert due == {};
        RestrictCard(s.order, due);
      }
    }

    /** The sort of a retry list: by status, then by creation time. */
    method SortForRetry(userId: UserId, ghost jitter: map<EventId, real>, ids: seq<EventId>) returns (result: seq<EventId>)
      requires Valid() && ids == Restrict(model.order, Due(config, model, userId, jitter))
      ensures result == RetryIds(config, model, userId, jitter)
    {
      DueOrder(config, model, userId, jitter);
      Keys(events, model.events, records);
      hide Wf, Restrict, Due;
      var ranks := map id | id in ids :: RetryRank(events[id].Value(), userId);
      assert ranks == RetryRanks(model, userId, ids);
      result := StableSort(ids, ranks);
    }
  }
}
