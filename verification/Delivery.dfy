// The drivers of the event store: first send, replay on reconnect, periodic retry and
// acknowledgement. Each is proved to be a series of the steps of EventRuns.
module Delivery {
  import opened Ordered
  import opened EventModel
  import opened EventInvariants
  import opened EventLedger
  import opened EventRuns
  import opened EventBatches
  import opened FirstSend
  import opened EventLeaving
  import opened EventStore

  // ---------- replay and retry ----------

  /** `deliverPendingEvents`; the socket closes after `open` more messages. */
  method DeliverPendingEvents(store: EventStoreService, userId: UserId, open: nat) returns (sent: seq<EventId>)
    requires store.Valid()
    modifies store, store.records
    ensures store.Valid() && store.model == Reconnect(old(store.model), userId, open)
    ensures store.records == old(store.records)
    ensures sent == PendingIds(old(store.model), userId)[..if open < |PendingIds(old(store.model), userId)| then open else |PendingIds(old(store.model), userId)|]
  {
    hide Wf, PendingIds, SendStored, EventStoreService.Valid;
    ghost var before := store.model;
    PendingTurns(store, userId);
    var pending := store.GetPending(userId);
    sent := [];
    for i := 0 to |pending|
      invariant store.Valid() && store.records == old(store.records)
      invariant i <= open && sent == pending[..i] && store.model == SendAll(before, userId, pending[..i], Replay)
    {
      if i == open {
        return;
      }
      Turn(before, userId, pending, i, Replay);
      assert pending[..i + 1][..i] == pending[..i];
      store.SendOne(userId, pending[i], Replay);
      sent := sent + [pending[i]];
    }
    assert pending[..|pending|] == pending;
  }

  lemma PendingTurns(store: EventStoreService, userId: UserId)
    requires store.Valid()
    ensures var p := PendingIds(store.model, userId);
      NoDup(p) && forall id :: id in p ==> id in store.model.events && store.model.events[id].Waiting(userId)
  {
    PendingListed(store.model, userId);
  }

  /** When its turn in a batch comes, a record is as it was at the start. */
  lemma Turn(s: State, u: UserId, ids: seq<EventId>, i: nat, via: Via)
    requires NoDup(ids) && i < |ids| && forall id :: id in ids ==> id in s.events && s.events[id].Waiting(u)
    ensures var m := SendAll(s, u, ids[..i], via); ids[i] in m.events && u in m.events[ids[i]].status
  {
    assert ids[i] !in ids[..i] && ids[i] in ids;
    SendAllLeavesOthers(s, u, ids[..i], via, ids[i]);
  }

  /** One user's turn in `retryPendingEvents`. */
  method RetryUser(store: EventStoreService, userId: UserId, active: bool, jitter: map<EventId, real>)
    requires store.Valid()
    modifies store, store.records
    ensures store.Valid() && store.records == old(store.records)
    ensures store.model == if active then RetryBatch(store.config, old(store.model), userId, jitter) else old(store.model)
  {
    hide Wf, RetryIds, SendStored, EventStoreService.Valid;
    ghost var before := store.model;
    DueTurns(store, userId, jitter);
    var toRetry := store.GetPendingWithRetry(userId, jitter);
    if |toRetry| == 0 || !active {
      return;
    }
    for i := 0 to |toRetry|
      invariant store.Valid() && store.records == old(store.records)
      invariant store.model == SendAll(before, userId, toRetry[..i], Retry)
    {
      Turn(before, userId, toRetry, i, Retry);
      assert toRetry[..i + 1][..i] == toRetry[..i];
      store.SendOne(userId, toRetry[i], Retry);
    }
    assert toRetry[..|toRetry|] == toRetry;
  }

  lemma DueTurns(store: EventStoreService, userId: UserId, jitter: map<EventId, real>)
    requires store.Valid()
    ensures var p := RetryIds(store.config, store.model, userId, jitter);
      NoDup(p) && forall id :: id in p ==> id in store.model.events && store.model.events[id].Waiting(userId)
  {
    RetryListed(store.config, store.model, userId, jitter);
    assert forall id :: id in RetryIds(store.config, store.model, userId, jitter) ==>
      IsDue(store.config, store.model, userId, jitter, id);
  }

  lemma IndexedUsers(store: EventStoreService)
    requires store.Valid()
    ensures store.userEvents.Keys == store.model.index.Keys
    ensures forall ids: seq<UserId> :: Elems(ids) == store.userEvents.Keys ==> forall v :: v in store.model.index ==> v in ids
  {
    forall ids: seq<UserId> | Elems(ids) == store.userEvents.Keys
      ensures forall v :: v in store.model.index ==> v in ids
    {
      assert forall v :: v in store.model.index ==> v in Elems(ids);
    }
  }

  /**
   * The retry tick over every indexed user: afterwards no user with an active session has an
   * unexpired event of QoS 1 or 2 that was never sent.
   */
  method RetryPendingEvents(store: EventStoreService, active: set<UserId>, jitters: map<UserId, map<EventId, real>>)
      returns (userIds: seq<UserId>)
    requires store.Valid() && Inv(store.config, store.model)
    modifies store, store.records
    ensures store.Valid() && store.records == old(store.records)
    ensures Elems(userIds) == old(store.model.index.Keys)
    ensures store.model == RetryTick(store.config, old(store.model), userIds, active, jitters)
    ensures forall u, id :: u in active ==> !Unsent(store.model, u, id)
  {
    hide EventStoreService.Valid, Inv, RetryBatch, Unsent;
    ghost var before := store.model;
    IndexedUsers(store);
    userIds := store.GetAllUserIds();
    for i := 0 to |userIds|
      invariant store.Valid() && store.records == old(store.records)
      invariant store.model == RetryTick(store.config, before, userIds[..i], active, jitters)
    {
      assert userIds[..i + 1][..i] == userIds[..i];
      RetryUser(store, userIds[i], userIds[i] in active, JitterOf(jitters, userIds[i]));
    }
    assert userIds[..|userIds|] == userIds;
    forall u, id | u in active ensures !Unsent(store.model, u, id) {
      TickComplete(store.config, before, userIds, active, jitters, u, id);
    }
  }

  // ---------- first send ----------

  /** The send loop of QoS 0 and 1; `thrown` when it comes to a session without a socket. */
  method WriteAll(receivers: seq<Receiver>) returns (written: seq<UserId>, thrown: bool)
    ensures written == Written(receivers) && thrown == Breaks(receivers)
  {
    written := [];
    for i := 0 to |receivers|
      invariant forall j :: 0 <= j < i ==> receivers[j].link != NoSocket
      invariant written == Ids(receivers[..i])
    {
      if receivers[i].link == NoSocket {
        return written, true;
      }
      written := written + [receivers[i].id];
    }
    thrown := false;
  }

  /** The send loop of QoS 2. */
  method WriteStored(store: EventStoreService, receivers: seq<Receiver>, id: EventId, ghost via: Via)
      returns (written: seq<UserId>, thrown: bool)
    requires store.Valid()
    modifies store
    ensures store.Valid() && store.records == old(store.records)
    ensures store.model == LogAll(old(store.model), id, OnlineIds(receivers[..Reached(receivers)]), via)
    ensures written == Written(receivers) && thrown == Breaks(receivers)
  {
    hide EventStoreService.Valid, LogAll, OnlineIds, Reached;
    NobodyOpen(store.model, id, receivers, via);
    written := [];
    for i := 0 to |receivers|
      invariant store.Valid() && store.records == old(store.records)
      invariant forall j :: 0 <= j < i ==> receivers[j].link != NoSocket
      invariant written == Ids(receivers[..i])
      invariant store.model == LogAll(old(store.model), id, OnlineIds(receivers[..i]), via)
    {
      if receivers[i].link == NoSocket {
        return written, true;
      }
      OneMoreOpen(old(store.model), id, receivers, i, via);
      if receivers[i].link == Open {
        store.LogSend(receivers[i].id, id, via);
      }
      written := written + [receivers[i].id];
    }
    thrown := false;
  }

  lemma NobodyOpen(s: State, id: EventId, receivers: seq<Receiver>, via: Via)
    ensures LogAll(s, id, OnlineIds(receivers[..0]), via) == s
  {
  }

  lemma OneMoreOpen(s: State, id: EventId, receivers: seq<Receiver>, i: nat, via: Via)
    requires i < |receivers|
    ensures var m := LogAll(s, id, OnlineIds(receivers[..i]), via);
      LogAll(s, id, OnlineIds(receivers[..i + 1]), via) ==
        if receivers[i].link == Open then Log(m, Sent(id, receivers[i].id, via)) else m
  {
    var online, r := OnlineIds(receivers[..i]), receivers[i];
    assert receivers[..i + 1][..i] == receivers[..i];
    if r.link == Open {
      var more := online + [r.id];
      assert OnlineIds(receivers[..i + 1]) == more && more[..|more| - 1] == online;
      assert LogAll(s, id, more, via) == Log(LogAll(s, id, online, via), Sent(id, r.id, via));
    } else {
      assert OnlineIds(receivers[..i + 1]) == online + [] == online;
    }
  }

  /**
   * `qossing`, after the target ids are known: `written` lists the receivers the loop wrote to, and
   * `thrown` says that it came to a session without a socket, which skips all that follows.
   */
  method Qossing(store: EventStoreService, receivers: seq<Receiver>, targets: seq<UserId>,
      qos: Qos, ttl: int, senderId: UserId, notifySender: bool, id: EventId) returns (written: seq<UserId>, thrown: bool)
    requires store.Valid() && Inv(store.config, store.model) && id !in store.model.births
    modifies store, store.records
    ensures store.Valid() && fresh(store.records - old(store.records))
    ensures store.model == AfterFirstSend(store.config, old(store.model), receivers, targets, qos, ttl, senderId, notifySender, id)
    ensures if qos == 2 && OnlineIds(receivers) + OfflineIds(targets, OnlineIds(receivers)) == []
      then written == [] && !thrown else written == Written(receivers) && thrown == Breaks(receivers)
  {
    hide Wf, EventModel.Create, EventStoreService.Held, EventStoreService.Lists, OnlineIds, OfflineIds, Reached, Dispatch2, CutDispatch;
    var onlineIds, offlineIds := [], [];
    if qos > 0 {
      onlineIds := OnlineIds(receivers);
      offlineIds := OfflineIds(targets, onlineIds);
    }
    NotStored(store, id);
    if qos == 0 {
      written, thrown := WriteAll(receivers);
    } else if qos == 1 {
      written, thrown := WriteAll(receivers);
      if thrown {
        return;
      }
      if |offlineIds| != 0 {
        store.Create(offlineIds, Options(1, ttl, 0, false), id);
      }
    } else {
      QosTwoSend(store.config, store.model, receivers, targets, ttl, senderId, notifySender, id);
      var allTargets := onlineIds + offlineIds;
      if |allTargets| == 0 {
        return [], false;
      }
      CutsAndMarks(store.config, store.model, receivers, targets, Options(2, ttl, senderId, notifySender), id);
      written, thrown := StoreAndSend(store, receivers, onlineIds, allTargets, Options(2, ttl, senderId, notifySender), id);
    }
  }

  lemma CutsAndMarks(c: Config, s: State, receivers: seq<Receiver>, targets: seq<UserId>, opts: Options, id: EventId)
    ensures
      var online := OnlineIds(receivers);
      var offline := OfflineIds(targets, online);
      var m := EventModel.Create(c, s, id, online + offline, opts);
      && OpenReached(receivers) <= |online|
      && CutDispatch(c, s, id, online, offline, OpenReached(receivers), opts) == LogAll(m, id, OnlineIds(receivers[..Reached(receivers)]), Cut)
      && Dispatch2(c, s, id, online, offline, opts) == LiveAll(m, id, online)
  {
    hide OnlineIds, OfflineIds, Reached, LogAll, LiveAll, EventModel.Create;
    OnlinePrefix(receivers, Reached(receivers));
    var online := OnlineIds(receivers);
    assert online[..OpenReached(receivers)] == OnlineIds(receivers[..Reached(receivers)]);
  }

  /** The QoS 2 branch: store, send, and mark if the loop came to its end. */
  method StoreAndSend(store: EventStoreService, receivers: seq<Receiver>, onlineIds: seq<UserId>, allTargets: seq<UserId>,
      opts: Options, id: EventId) returns (written: seq<UserId>, thrown: bool)
    requires store.Valid() && Inv(store.config, store.model) && id !in store.model.births && id !in store.events
    requires allTargets != [] && onlineIds == OnlineIds(receivers) && forall u :: u in onlineIds ==> u in allTargets
    modifies store, store.records
    ensures store.Valid() && fresh(store.records - old(store.records))
    ensures var m := EventModel.Create(store.config, old(store.model), id, allTargets, opts);
      store.model == if Breaks(receivers) then LogAll(m, id, OnlineIds(receivers[..Reached(receivers)]), Cut) else LiveAll(m, id, onlineIds)
    ensures written == Written(receivers) && thrown == Breaks(receivers)
  {
    hide Wf, Inv, EventModel.Create, EventStoreService.Held, EventStoreService.Lists, OnlineIds, Reached, LogAll, MarkAll, LiveAll, Fresh, Trims;
    CreateKeeps(store.config, store.model, id, allTargets, opts);
    FreshStatus(store.model, allTargets, opts);
    store.Create(allTargets, opts, id);
    ghost var m := store.model;
    ghost var via := if Breaks(receivers) then Cut else Live;
    LogAllKeeps(store.config, m, id, OnlineIds(receivers[..Reached(receivers)]), via);
    written, thrown := WriteStored(store, receivers, id, via);
    if thrown {
      return;
    }
    assert receivers[..|receivers|] == receivers;
    LiveAllSplit(m, id, onlineIds);
    MarkAllDelivered(store, onlineIds, id);
  }

  lemma NotStored(store: EventStoreService, id: EventId)
    requires store.Valid() && Ledger(store.model) && id !in store.model.births
    ensures id !in store.events
  {
    assert Accounted(store.model, id);
    EventStoreService.Keys(store.events, store.model.events, store.records);
  }

  lemma AckKeepsBirths(s: State, u: UserId, id: EventId)
    ensures MarkApplied(s, u, id).births == s.births
  {
  }

  /** The marking loop at the end of `qossing`. */
  method MarkAllDelivered(store: EventStoreService, onlineIds: seq<UserId>, id: EventId)
    requires store.Valid() && Inv(store.config, store.model)
    requires id in store.model.events && forall u :: u in onlineIds ==> u in store.model.events[id].status
    modifies store, store.records
    ensures store.Valid() && store.records == old(store.records)
    ensures store.model == MarkAll(old(store.model), id, onlineIds)
  {
    hide Wf, Inv, MarkDelivered, EventStoreService.Reflects;
    ghost var before := store.model;
    for i := 0 to |onlineIds|
      invariant store.Valid() && store.records == old(store.records)
      invariant store.model == MarkAll(before, id, onlineIds[..i])
    {
      assert onlineIds[..i + 1][..i] == onlineIds[..i];
      assert forall u :: u in onlineIds[..i] ==> u in onlineIds;
      MarkAllKeeps(store.config, before, id, onlineIds[..i]);
      MarkDeliveredKeepsWf(store.model, onlineIds[i], id);
      store.MarkDelivered(onlineIds[i], id);
    }
    assert onlineIds[..|onlineIds|] == onlineIds;
  }

  // ---------- acknowledgement ----------

  /** Whether an acknowledgement is reported to the sender of the event. */
  predicate Reports(s: State, u: UserId, id: EventId) {
    id in s.events && s.events[id].opts.notifySender && s.events[id].opts.senderId != 0 && s.events[id].opts.senderId != u
  }

  const DELIVERED_NOTE: Options := Options(1, 3600000, 0, false)

  /** `event:ack`: the report `event:delivered` is stored when the sender is offline. */
  ghost function AckEvent(c: Config, s: State, u: UserId, id: EventId, senderActive: bool, noteId: EventId): State {
    var t := MarkApplied(s, u, id);
    if Reports(s, u, id) && !senderActive then Create(c, t, noteId, [s.events[id].opts.senderId], DELIVERED_NOTE) else t
  }

  /** An acknowledgement with its report is a run of at most two steps. */
  lemma AckIsRun(c: Config, s: State, u: UserId, id: EventId, senderActive: bool, noteId: EventId)
    requires noteId !in s.births
    ensures var run := [Acknowledge(u, id)] +
        if Reports(s, u, id) && !senderActive then [Publish(noteId, [s.events[id].opts.senderId], DELIVERED_NOTE)] else [];
      IsRun(c, s, run) && Exec(c, s, run) == AckEvent(c, s, u, id, senderActive, noteId)
  {
    var a := [Acknowledge(u, id)];
    assert a[..|a| - 1] == [];
    assert Exec(c, s, []) == s && IsRun(c, s, []);
    assert Exec(c, s, a) == Next(c, Exec(c, s, a[..|a| - 1]), a[|a| - 1]);
    assert IsRun(c, s, a) && Exec(c, s, a) == MarkApplied(s, u, id);
    if Reports(s, u, id) && !senderActive {
      var b := a + [Publish(noteId, [s.events[id].opts.senderId], DELIVERED_NOTE)];
      assert b[..1] == a;
    } else {
      assert a + [] == a;
    }
  }

  /**
   * The report of an acknowledgement: of an event stored until then whose sender asked, is known and
   * is somebody else. An inactive sender finds it stored, as QoS 1 and for an hour from now, and
   * nothing else is created.
   */
  lemma ReportEffect(c: Config, s: State, u: UserId, id: EventId, senderActive: bool, noteId: EventId)
    requires c.Sane() && Inv(c, s) && noteId !in s.births
    ensures
      var t := AckEvent(c, s, u, id, senderActive, noteId);
      var asked := id in s.events && s.events[id].opts.notifySender && s.events[id].opts.senderId != 0 && s.events[id].opts.senderId != u;
      if asked && !senderActive then
        && noteId in t.events
        && t.events[noteId] == Rec(Options(1, 3600000, 0, false), s.now, map[s.events[id].opts.senderId := STORED], map[], map[])
        && t.births.Keys == s.births.Keys + {noteId}
      else t.births == s.births && noteId !in t.events
  {
    hide Inv, EventModel.Create, MarkApplied;
    var m := MarkApplied(s, u, id);
    AppliedKeeps(c, s, u, id);
    AckKeepsBirths(s, u, id);
    AckKeepsClock(s, u, id);
    if Reports(s, u, id) && !senderActive {
      NoteEffect(c, m, noteId, s.events[id].opts.senderId);
    } else {
      UnbornUnstored(c, m, noteId);
    }
  }

  lemma NoteEffect(c: Config, s: State, noteId: EventId, sender: UserId)
    requires c.Sane() && Inv(c, s) && noteId !in s.births
    ensures var t := EventModel.Create(c, s, noteId, [sender], DELIVERED_NOTE);
      && noteId in t.events && t.events[noteId] == Rec(Options(1, 3600000, 0, false), s.now, map[sender := STORED], map[], map[])
      && t.births.Keys == s.births.Keys + {noteId}
  {
    hide Inv, EventModel.Create, Trimmed;
    PublishEffect(c, s, noteId, [sender], DELIVERED_NOTE);
    assert (map v | v in [sender] :: STORED) == map[sender := STORED];
  }

  lemma AckKeepsClock(s: State, u: UserId, id: EventId)
    ensures MarkApplied(s, u, id).now == s.now
  {
  }

  lemma UnbornUnstored(c: Config, s: State, id: EventId)
    requires Inv(c, s) && id !in s.births
    ensures id !in s.events
  {
    assert Accounted(s, id);
  }

  /** `sideEffectEvent` of the acknowledgement; `told` says whether the sender was told at once. */
  method AcknowledgeEvent(store: EventStoreService, userId: UserId, id: EventId, senderActive: bool, noteId: EventId)
      returns (told: bool)
    requires store.Valid() && Inv(store.config, store.model) && noteId !in store.model.births
    modifies store, store.records
    ensures store.Valid() && fresh(store.records - old(store.records))
    ensures store.model == AckEvent(store.config, old(store.model), userId, id, senderActive, noteId)
    ensures var s := old(store.model);
      told <==>
        && senderActive && id in s.events && s.events[id].opts.notifySender
        && s.events[id].opts.senderId != 0 && s.events[id].opts.senderId != userId
  {
    hide Wf, MarkApplied, EventModel.Create, EventStoreService.Held, EventStoreService.Lists;
    AppliedKeeps(store.config, store.model, userId, id);
    AckKeepsBirths(store.model, userId, id);
    var notify, sender := SenderOf(store, id);
    store.MarkApplied(userId, id);
    told := false;
    if notify && sender != 0 && sender != userId {
      if senderActive {
        told := true;
      } else {
        NotStored(store, noteId);
        store.Create([sender], DELIVERED_NOTE, noteId);
      }
    }
  }

  /** What `getEvent` shows of the sender; nothing when the event is gone. */
  method SenderOf(store: EventStoreService, id: EventId) returns (notify: bool, sender: UserId)
    requires store.Valid()
    ensures if id in store.model.events
      then notify == store.model.events[id].opts.notifySender && sender == store.model.events[id].opts.senderId
      else !notify
  {
    EventStoreService.Keys(store.events, store.model.events, store.records);
    notify, sender := false, 0;
    if id in store.events {
      EventStoreService.Open(store.events, store.model.events, store.records, id);
      notify, sender := store.events[id].opts.notifySender, store.events[id].opts.senderId;
    }
  }
}
