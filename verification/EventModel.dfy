// The event store as a value: what every operation of the store does to the events, the
// per-user index and the history. The classes in EventStore.dfy are proved against this model.
module EventModel {
  import opened Ordered

  type UserId = int
  type EventId = nat
  type Qos = q: int | 0 <= q <= 2

  datatype Status = STORED | DELIVERED | APPLIED | FAILED

  /** Why a record leaves the store. */
  datatype Reason = ByAck | ByExpiry | ByForce

  datatype Config = Config(
    maxPerUser: int, maxTotal: int,
    deliveredTimeout: int, staleTimeout: int,
    maxAttempts: int, backoffBase: int)
  {
    predicate Sane() {
      maxPerUser >= 1 && maxTotal >= 0
    }
  }

  /** The arguments of `create`. A `ttl` or `senderId` of 0 is falsy in the source: not given. */
  datatype Options = Options(qos: Qos, ttl: int, senderId: int, notifySender: bool)

  /** One stored event with its per-user maps. */
  datatype Rec = Rec(
    opts: Options, createdAt: int,
    status: map<UserId, Status>, attempts: map<UserId, nat>, last: map<UserId, int>)
  {
    function ExpiresAt(): int {
      if opts.ttl != 0 then createdAt + opts.ttl else 0
    }

    predicate Expired(now: int) {
      ExpiresAt() != 0 && now > ExpiresAt()
    }

    function StatusOf(u: UserId): Status {
      if u in status then status[u] else STORED
    }

    function Attempts(u: UserId): nat {
      if u in attempts then attempts[u] else 0
    }

    /** 0 stands for "no attempt yet", as the truthiness tests of the source do. */
    function Last(u: UserId): int {
      if u in last then last[u] else 0
    }

    predicate AllApplied() {
      forall u | u in status :: status[u] == APPLIED
    }

    predicate Waiting(u: UserId) {
      u in status && status[u] != APPLIED
    }

    function WithStatus(u: UserId, x: Status): Rec {
      this.(status := status[u := x])
    }

    function Attempted(u: UserId, now: int): Rec {
      this.(attempts := attempts[u := Attempts(u) + 1], last := last[u := now])
    }
  }

  /**
   * How a message of a stored event reached a user. Cut is a live send of a first send that broke
   * off later, before anybody was marked.
   */
  datatype Via = Live | Cut | Replay | Retry

  /** The history. Nothing in the store reads it. */
  datatype Entry =
    | Removed(id: EventId, reason: Reason, final: map<UserId, Status>)
    | Notified(id: EventId, reason: Reason)
    | Evicted(id: EventId, user: UserId)
    | Sent(id: EventId, user: UserId, via: Via)

  /** What `removeEvent` emitted as `event.expired`. */
  function Emissions(t: seq<Entry>): seq<(EventId, Reason)> {
    if t == [] then []
    else Emissions(t[..|t| - 1]) + if t[|t| - 1].Notified? then [(t[|t| - 1].id, t[|t| - 1].reason)] else []
  }

  lemma LogEmissions(t: seq<Entry>, e: Entry)
    ensures Emissions(t + [e]) == Emissions(t) + if e.Notified? then [(e.id, e.reason)] else []
  {
    assert (t + [e])[..|t + [e]| - 1] == t;
  }

  /** What was asked of `create` for an id, whether or not the event is still stored. */
  datatype Birth = Birth(targets: set<UserId>, opts: Options, at: int)

  /**
   * `order` is the iteration order of the map `events`; a user's index set iterates in that
   * order too. `births` and `trace` are the history.
   */
  datatype State = State(
    now: int,
    events: map<EventId, Rec>, order: seq<EventId>,
    index: map<UserId, set<EventId>>,
    births: map<EventId, Birth>, trace: seq<Entry>)

  function Init(now: int): State {
    State(now, map[], [], map[], map[], [])
  }

  // ---------- reading ----------

  ghost predicate IsPending(s: State, u: UserId, id: EventId) {
    id in s.events && s.events[id].Waiting(u) && !s.events[id].Expired(s.now)
  }

  /** What is pending for `u`, found by scanning every stored event; the index plays no part. */
  ghost function Pending(s: State, u: UserId): set<EventId> {
    set id | id in s.events && IsPending(s, u, id)
  }

  ghost function PendingIds(s: State, u: UserId): seq<EventId> {
    Restrict(s.order, Pending(s, u))
  }

  function Pow2(n: nat): nat {
    if n == 0 then 1 else 2 * Pow2(n - 1)
  }

  predicate ShouldRetry(c: Config, r: Rec, u: UserId, now: int, jitter: real) {
    match r.StatusOf(u)
    case APPLIED => false
    case STORED => true
    case DELIVERED => r.Last(u) == 0 || now - r.Last(u) > c.deliveredTimeout
    case FAILED =>
      r.Attempts(u) < c.maxAttempts &&
      (r.Last(u) == 0 ||
       (now - r.Last(u)) as real > (c.backoffBase * Pow2(r.Attempts(u))) as real * jitter)
  }

  function RetryRank(r: Rec, u: UserId): Rank {
    Rank(match r.StatusOf(u) case STORED => 1 case DELIVERED => 2 case FAILED => 3 case APPLIED => 0, r.createdAt)
  }

  /** The random factors drawn in one retry batch, by event. */
  predicate JitterRange(jitter: map<EventId, real>) {
    forall id | id in jitter :: 0.5 <= jitter[id] < 1.5
  }

  function Draw(jitter: map<EventId, real>, id: EventId): real {
    if id in jitter then jitter[id] else 1.0
  }

  ghost predicate IsDue(c: Config, s: State, u: UserId, jitter: map<EventId, real>, id: EventId) {
    IsPending(s, u, id) && ShouldRetry(c, s.events[id], u, s.now, Draw(jitter, id))
  }

  ghost function Due(c: Config, s: State, u: UserId, jitter: map<EventId, real>): set<EventId> {
    set id | id in s.events && IsDue(c, s, u, jitter, id)
  }

  ghost function RetryRanks(s: State, u: UserId, ids: seq<EventId>): map<EventId, Rank> {
    map id | id in ids :: if id in s.events then RetryRank(s.events[id], u) else Rank(0, 0)
  }

  /** What `getPendingWithRetry` lists: never sent first, then delivered, then failed. */
  ghost function RetryIds(c: Config, s: State, u: UserId, jitter: map<EventId, real>): seq<EventId> {
    var due := Restrict(s.order, Due(c, s, u, jitter));
    StableSort(due, RetryRanks(s, u, due))
  }

  // ---------- well-formed states ----------

  /** The iteration order lists the stored events once each, oldest first. */
  ghost predicate Shape(s: State) {
    && NoDup(s.order)
    && Elems(s.order) == s.events.Keys
    && OldestFirst(s)
    && (forall id :: id in s.events ==> s.events[id].createdAt <= s.now)
  }

  ghost predicate OldestFirst(s: State) {
    forall i, j :: 0 <= i < j < |s.order| && s.order[i] in s.events && s.order[j] in s.events ==>
      s.events[s.order[i]].createdAt <= s.events[s.order[j]].createdAt
  }

  /** The index names only stored events with the user attached, and misses no waiting one. */
  ghost predicate Indexed(s: State) {
    && (forall u :: u in s.index ==> s.index[u] != {})
    && (forall u, id :: InIndex(s, u, id) ==> id in s.events && u in s.events[id].status)
    && (forall u, id :: id in s.events && s.events[id].Waiting(u) ==> InIndex(s, u, id))
  }

  ghost predicate InIndex(s: State, u: UserId, id: EventId) {
    u in s.index && id in s.index[u]
  }

  ghost predicate Wf(s: State) {
    Shape(s) && Indexed(s)
  }

  // ---------- changing ----------

  function Log(s: State, e: Entry): State {
    s.(trace := s.trace + [e])
  }

  function Unindex(index: map<UserId, set<EventId>>, id: EventId): map<UserId, set<EventId>> {
    map u | u in index && index[u] - {id} != {} :: index[u] - {id}
  }

  /** `removeEvent`: the sender hears of any removal that is not by acknowledgement. */
  function Remove(s: State, id: EventId, reason: Reason): State {
    if id !in s.events then s else
    var r := s.events[id];
    var note := if reason != ByAck && r.opts.notifySender && r.opts.senderId != 0 then [Notified(id, reason)] else [];
    s.(events := s.events - {id},
       order := Without(s.order, id),
       index := Unindex(s.index, id),
       trace := s.trace + note + [Removed(id, reason, r.status)])
  }

  lemma RemoveEmissions(s: State, id: EventId, reason: Reason)
    requires id in s.events
    ensures var o := s.events[id].opts;
      Emissions(Remove(s, id, reason).trace) ==
        Emissions(s.trace) + if reason != ByAck && o.notifySender && o.senderId != 0 then [(id, reason)] else []
  {
    var r := s.events[id];
    if reason != ByAck && r.opts.notifySender && r.opts.senderId != 0 {
      LogEmissions(s.trace, Notified(id, reason));
      LogEmissions(s.trace + [Notified(id, reason)], Removed(id, reason, r.status));
    } else {
      LogEmissions(s.trace, Removed(id, reason, r.status));
      assert s.trace + [] + [Removed(id, reason, r.status)] == s.trace + [Removed(id, reason, r.status)];
    }
  }

  function RemoveAll(s: State, ids: seq<EventId>, reason: Reason): State {
    if ids == [] then s else Remove(RemoveAll(s, ids[..|ids| - 1], reason), ids[|ids| - 1], reason)
  }

  function Touch(s: State, id: EventId, r: Rec): State {
    s.(events := s.events[id := r])
  }

  function MarkApplied(s: State, u: UserId, id: EventId): State {
    if id !in s.events then s else
    var r := s.events[id].WithStatus(u, APPLIED);
    if r.AllApplied() then Remove(Touch(s, id, r), id, ByAck) else Touch(s, id, r)
  }

  function MarkDelivered(s: State, u: UserId, id: EventId): State {
    if id !in s.events || s.events[id].StatusOf(u) == APPLIED then s else
    Touch(s, id, s.events[id].WithStatus(u, DELIVERED).Attempted(u, s.now))
  }

  /** `markFailed`, which no source file calls: it has no guard against APPLIED. */
  function MarkFailed(s: State, u: UserId, id: EventId): State {
    if id !in s.events || s.events[id].StatusOf(u) == FAILED then s else
    Touch(s, id, s.events[id].WithStatus(u, FAILED).Attempted(u, s.now))
  }

  /** The end index that `slice(0, end)` uses on an array of length `len`. */
  function SliceEnd(len: nat, end: int): nat {
    if end < 0 then (if len + end < 0 then 0 else len + end)
    else if end > len then len else end
  }

  /** The first half of an eviction: the user's index entry and status go, and it is logged. */
  function Detach(s: State, u: UserId, id: EventId): State
    requires id in s.events && u in s.index
  {
    var r := s.events[id].(status := s.events[id].status - {u});
    Log(Touch(s, id, r).(index := s.index[u := s.index[u] - {id}]), Evicted(id, u))
  }

  /** One turn of the eviction loop: a record nobody is attached to any more is removed. */
  function Evict(s: State, u: UserId, id: EventId): State {
    if id !in s.events || u !in s.index then s else
    var t := Detach(s, u, id);
    if t.events[id].status == map[] then Remove(t, id, ByForce) else t
  }

  function EvictAll(s: State, u: UserId, ids: seq<EventId>): State {
    if ids == [] then s else Evict(EvictAll(s, u, ids[..|ids| - 1]), u, ids[|ids| - 1])
  }

  /** What `enforcePerUserLimit` picks: a negative slice end counts from the back. */
  ghost function Victims(c: Config, s: State, u: UserId): seq<EventId> {
    if u !in s.index || |s.index[u]| <= c.maxPerUser then [] else
    var p := PendingIds(s, u);
    p[..SliceEnd(|p|, |p| - c.maxPerUser)]
  }

  ghost function Enforce(c: Config, s: State, u: UserId): State {
    EvictAll(s, u, Victims(c, s, u))
  }

  ghost function EnforceAll(c: Config, s: State, us: seq<UserId>): State {
    if us == [] then s else Enforce(c, EnforceAll(c, s, us[..|us| - 1]), us[|us| - 1])
  }

  function AllStored(us: set<UserId>): map<UserId, Status> {
    map u | u in us :: STORED
  }

  function Fresh(s: State, targets: seq<UserId>, opts: Options): Rec {
    Rec(opts, s.now, AllStored(Elems(targets)), map[], map[])
  }

  function Insert(s: State, id: EventId, targets: seq<UserId>, opts: Options): State {
    s.(events := s.events[id := Fresh(s, targets, opts)],
       order := s.order + [id],
       index := map u | u in s.index.Keys + Elems(targets) ::
                  (if u in s.index then s.index[u] else {}) + (if u in Elems(targets) then {id} else {}),
       births := s.births[id := Birth(Elems(targets), opts, s.now)])
  }

  function Having(m: map<UserId, Status>, x: Status): set<UserId> {
    set u | u in m && m[u] == x
  }

  function Weight(m: map<UserId, Status>): nat {
    4 * |Having(m, FAILED)| + 3 * |Having(m, DELIVERED)| + 2 * |Having(m, STORED)| + |Having(m, APPLIED)|
  }

  function ForceRank(r: Rec): Rank {
    Rank(0 - Weight(r.status), r.createdAt)
  }

  function RanksOf(s: State, ids: seq<EventId>): map<EventId, Rank> {
    map id | id in ids :: if id in s.events then ForceRank(s.events[id]) else Rank(0, 0)
  }

  function ForceRanks(s: State): map<EventId, Rank> {
    RanksOf(s, s.order)
  }

  /** The removal order of `forceCleanup`: heaviest first, then oldest first. */
  function ForceOrder(s: State): seq<EventId> {
    StableSort(s.order, ForceRanks(s))
  }

  function ForceVictims(c: Config, s: State): seq<EventId> {
    var o := ForceOrder(s);
    o[..SliceEnd(|o|, |o| - c.maxTotal)]
  }

  function ForceCleanup(c: Config, s: State): State {
    RemoveAll(s, ForceVictims(c, s), ByForce)
  }

  ghost function Create(c: Config, s: State, id: EventId, targets: seq<UserId>, opts: Options): State {
    var s0 := if |s.events| >= c.maxTotal then ForceCleanup(c, s) else s;
    EnforceAll(c, Insert(s0, id, targets, opts), targets)
  }

  /** The expiry timer of an event; it may fire at any moment. */
  function Timer(s: State, id: EventId): State {
    if id in s.events && s.events[id].Expired(s.now) then Remove(s, id, ByExpiry) else s
  }

  ghost function ExpiredIds(s: State): set<EventId> {
    set id | id in s.events && s.events[id].Expired(s.now)
  }

  ghost function CleanupExpired(s: State): State {
    RemoveAll(s, Restrict(s.order, ExpiredIds(s)), ByExpiry)
  }

  function Aged(c: Config, r: Rec, now: int): Rec {
    r.(status := map u | u in r.status ::
         if r.status[u] == DELIVERED && r.Last(u) != 0 && now - r.Last(u) > c.staleTimeout then FAILED else r.status[u])
  }

  function MarkStale(c: Config, s: State): State {
    s.(events := map id | id in s.events :: Aged(c, s.events[id], s.now))
  }

  function EnforceTotal(c: Config, s: State): State {
    if |s.events| > c.maxTotal then ForceCleanup(c, s) else s
  }

  /** The periodic cleanup. */
  ghost function Cleanup(c: Config, s: State): State {
    EnforceTotal(c, MarkStale(c, CleanupExpired(s)))
  }

  /** Sending one stored event to a user and recording it, as replay and retry both do. */
  function SendStored(s: State, u: UserId, id: EventId, via: Via): State {
    if id !in s.events then s else
    var t := Log(s, Sent(id, u, via));
    if s.events[id].opts.qos == 1 then MarkApplied(t, u, id)
    else if s.events[id].opts.qos == 2 then MarkDelivered(t, u, id)
    else t
  }

  function SendAll(s: State, u: UserId, ids: seq<EventId>, via: Via): State {
    if ids == [] then s else SendStored(SendAll(s, u, ids[..|ids| - 1], via), u, ids[|ids| - 1], via)
  }

  /** `deliverPendingEvents` to a socket that stays open for `open` more messages. */
  ghost function Reconnect(s: State, u: UserId, open: nat): State {
    var p := PendingIds(s, u);
    SendAll(s, u, p[..if open < |p| then open else |p|], Replay)
  }

  /** One user's batch of a retry tick, when the user's session is active. */
  ghost function RetryBatch(c: Config, s: State, u: UserId, jitter: map<EventId, real>): State {
    SendAll(s, u, RetryIds(c, s, u, jitter), Retry)
  }

  /** The live sends of a fresh QoS 2 event. */
  function LiveAll(s: State, id: EventId, online: seq<UserId>): State {
    if online == [] then s else
    var u := online[|online| - 1];
    MarkDelivered(Log(LiveAll(s, id, online[..|online| - 1]), Sent(id, u, Live)), u, id)
  }

  /** The send loop by itself. */
  function LogAll(s: State, id: EventId, us: seq<UserId>, via: Via): State {
    if us == [] then s else Log(LogAll(s, id, us[..|us| - 1], via), Sent(id, us[|us| - 1], via))
  }

  /** The marking loop by itself. */
  function MarkAll(s: State, id: EventId, us: seq<UserId>): State {
    if us == [] then s else MarkDelivered(MarkAll(s, id, us[..|us| - 1]), us[|us| - 1], id)
  }

  /** A QoS 2 send whose loop throws after `written` open receivers: stored, but nobody marked. */
  ghost function CutDispatch(c: Config, s: State, id: EventId, online: seq<UserId>, offline: seq<UserId>, written: nat, opts: Options): State
    requires written <= |online|
  {
    LogAll(Create(c, s, id, online + offline, opts), id, online[..written], Cut)
  }

  ghost function Dispatch2(c: Config, s: State, id: EventId, online: seq<UserId>, offline: seq<UserId>, opts: Options): State {
    LiveAll(Create(c, s, id, online + offline, opts), id, online)
  }
}
