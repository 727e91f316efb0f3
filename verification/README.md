# A verified model of the WebSocket event server

The program is a NestJS server: devices, browsers and desktops hold WebSocket sessions, events are
stored until every target has acknowledged them, and a notification service renders templates. This
project models the four parts with real state and proves what their runs keep.

| file | what it holds |
|---|---|
| `Wrappers.dfy` | a value that may be missing |
| `Ordered.dfy` | insertion-ordered collections, filtering and stable sorting, as JavaScript has them |
| `EventModel.dfy` | the event store as a value: every operation, with a history of sends, evictions, removals and notices |
| `EventInvariants.dfy`, `EventLedger.dfy`, `EventRuns.dfy` | the step relation of the store, its invariant, and that every step keeps it |
| `EventFates.dfy` | conservation of every (event, target) pair, index agreement, memory bounds, order of forced removal |
| `EventSends.dfy`, `EventHistory.dfy`, `EventBatches.dfy` | how often a message is sent, how a status may change, what a replay and a retry tick leave behind |
| `FirstSend.dfy` | the first send of an event, with receivers that lose their sockets before their turn |
| `EventExamples.dfy` | concrete runs on which the store does not do what one would expect |
| `EventEffects.dfy`, `EventLeaving.dfy`, `EventRetries.dfy` | what each step does to each record, why a record leaves, what a retry lists and in which order |
| `EventLimits.dfy` | runs that reach the global bound and the send bound |
| `EventStore.dfy`, `Delivery.dfy` | `EventRecord`, `EventStoreService` and its drivers as classes and loops that update in place, each proved equal to its operation on the value |
| `Sessions.dfy`, `SessionRuns.dfy`, `SessionFates.dfy` | the registry, the session state machine, suspend timers and presence messages, and what all runs promise |
| `SessionMessages.dfy` | which step says what about a device and exactly who hears it; at most one open socket per session |
| `Gateway.dfy` | sockets, sessions, registry, session manager, lifecycle and gateway as objects that point at each other, and replay from the event store |
| `Server.dfy` | event store and sessions together: who is served, who hears anything, and when a first send breaks off |
| `RateLimit.dfy` | the in-memory rate limiter and its sliding-window bound |
| `Template.dfy`, `TemplateParts.dfy` | the notification renderer and its one-pass specification, of the whole text and part by part |

The event store and the sessions exist twice on purpose: as objects with mutable fields, in the form
of the source, and as values on which runs are reasoned about. Each object carries a ghost `model`,
and every method states `model == Operation(old(model), ...)` together with `Reflects()` or `Valid()`,
which ties every field of every object to the model.

## Assumptions

- The clock is an integer that never goes back, positive where a truthiness test of the source looks
  at it, and read once per turn. One turn without an I/O wait is one step, and in the source so is a
  whole replay or one user's retry batch, sent from one snapshot. In `EventRuns` its messages are single
  steps: a batch is a series of them (`EventBatches.ReplayIsRun`, `EventBatches.RetryIsRun`), and runs
  may also put other steps between messages that are still pending or due when their turn comes.
- Event ids, session objects and timer handles are fresh numbers; a socket connects once.
- `create` gets at least one target and the per-user limit is at least 1.
- Sorting is stable; Map and Set iterate in insertion order. Random jitter is any factor in [0.5, 1.5).
- Timers may fire at any moment after they are due; the expiry timer of an event may even fire
  early, since its callback looks at the clock again. This covers every schedule of the runtime.
- A `ttl`, `senderId`, last attempt or `blockedUntil` of 0 stands for "not given": the source tests
  all four by truthiness.
- `markDelivered` may land at any later moment (step `LateMark`), but only for a user still attached
  to the record; `EventHistory.LateMarkNeedsAttachment` shows that the index needs exactly that.
- The target ids of an event, which the source reads from the database, are an input. Receivers are
  chosen before that read and written to after it, so a receiver may have closed meanwhile. Between
  the last test of a receiver and its turn in the send loop there is no I/O wait.
- A send loop that comes to a session without a socket throws, and nobody awaits the promise it
  rejects (`src/modules/websocket/events/json/base-ws-json.event.ts:76`). Under Node's default this
  ends the process; the model lets the run go on, which covers both.
- Who has an open socket is an input of the store; `Server.dfy` takes it from the session machine.

## Where the code and its description differ

The model follows the code.

- `docs/reliability.md:60` says that forced cleanup removes the lowest priority first. The code sorts
  by weight descending and removes from the front, so the heaviest go first (`EventFates.ForceRanking`).
- `docs/reliability.md:74` gives the retry interval as 3 seconds and the code defaults to 30 000 ms.
  No property depends on the interval.
- `docs/env-detail.md:45` gives 6000 ms as the suspend timeout and the code defaults to 60 000
  (`src/modules/websocket/services/lifecycle-factory.service.ts:27`). The properties hold for any timeout.
- "Exactly one of pending, applied, dropped by the limit, gone" fails in one case: a user whose entry
  was evicted can still acknowledge, and is then attached again as APPLIED. `EventExamples.LateAckReattaches`
  is such a run, `EventFates.OverlapIsLateAck` says that nothing else does it, and
  `EventFates.Conservation` counts such a pair with the record it is attached to.
- An eviction should drop nothing while a user has fewer than the limit pending. The slice end is then
  negative and counts from the back: `EventExamples.DroppedBelowLimit` is a run that loses an event,
  and `EventFates.EvictionCount` gives the exact number and the exact condition.
- `markFailed` has no guard against APPLIED. No source file calls it, so it is not a step;
  `EventHistory.MarkFailedUndoesApplied` gives the exact condition under which it breaks the automaton.
- A first send should reach or store every target. A receiver that was suspended while the target ids
  were read has no socket, and the send loop throws at it. With QoS 1 nothing is stored then, so that
  receiver, those after it and all offline targets lose the event (`FirstSend.BreakLosesTargets`,
  `FirstSend.BreakBeforeAnyone`); a receiver whose socket is closing is written to in vain and stored
  (`FirstSend.ClosingIsBoth`). `FirstSend.LiveOrStored` gives the exact condition, and
  `Server.FirstSendSplit` gives it in terms of the sessions. For the targets alone there is one more
  case: the loop throws after all of them have been written to (`FirstSend.TargetsServed`,
  `FirstSend.BreakAfterTargets`).
- With QoS 2 the record is stored before the loop, so nobody loses the event, but a loop that throws
  marks nobody: a user it wrote to is sent the event once more than the delivery timeout allows
  (`EventExamples.BrokenSendRepeats`). `EventSends.SendBound` and `EventSends.NoEarlyResend` say that
  this is the only such case.
- A rate limit of 1 allows one attempt per epoch, as a limit of 2 does: the first attempt of an epoch
  is never compared with the limit.
- A rendered value that itself contains a placeholder can make the result depend on the order of the
  keys (`Template.OrderCanMatter`). With brace-free keys, and no `{` in values and name, it never does
  (`Template.OrderDoesNotMatter`).
- Sessions of the types `self` and `server` have the empty lifecycle: they stay CONNECTING, are never
  suspended and never leave the registry (`SessionFates.SessionMachine`).

## Model

| member | source | states |
|---|---|---|
| EventFates.Conservation | src/modules/websocket/services/event-store.service.ts:101-155 | In every reachable state, each (event, target) pair given to `create` is in exactly one of four accounts: waiting in a stored record, APPLIED in a stored record, dropped by the per-user limit, or gone with its record; it is evicted at most once, and a record is removed once if it is gone and never if it is stored |
| EventFates.Notices | src/modules/websocket/services/event-store.service.ts:252-282 | Over every run `event.expired` is emitted at most once per event, exactly when the record went for another reason than acknowledgement and its sender asked; a removal as applied happens only with every attached user APPLIED |
| EventFates.OverlapIsLateAck | src/modules/websocket/services/event-store.service.ts:185-195 | A step makes a pair both dropped and attached if and only if it already was, or the step is that user's acknowledgement of a still stored record it was evicted from |
| EventFates.OverlapOverRuns | src/modules/websocket/services/event-store.service.ts:185-195 | After a run a pair is both dropped and attached if and only if some step of the run was such an acknowledgement |
| EventExamples.LateAckReattaches | src/modules/websocket/services/event-store.service.ts:140-149 | A concrete run of three steps after which an evicted pair is attached again |
| EventFates.IndexAgrees | src/modules/websocket/services/event-store.service.ts:197-213 | In every reachable state no user's set is empty, each id in it is stored with the user attached, and looking a user up finds exactly the unexpired, unapplied records that a scan of all events finds, each once |
| EventFates.PendingOldestFirst | src/modules/websocket/services/event-store.service.ts:211-211 | The pending list is in order of creation |
| EventFates.PerUserBound | src/modules/websocket/services/event-store.service.ts:112-115 | No reachable state has more than MAX_EVENTS_PER_USER pending records for any user |
| EventFates.EvictionCount | src/modules/websocket/services/event-store.service.ts:136-155 | With p pending, an eviction drops the oldest p - max when p is at least max; over the set limit with p below it, it drops the oldest 2p - max, and nothing if and only if 2p is at most max |
| EventExamples.DroppedBelowLimit | src/modules/websocket/services/event-store.service.ts:145-145 | A concrete run in which a user with one pending event of three allowed loses it to the next one |
| EventFates.GlobalBound | src/modules/websocket/services/event-store.service.ts:298-303 | Every run keeps at most MAX_EVENTS_TOTAL + 1 events, and at most MAX_EVENTS_TOTAL after a cleanup |
| EventLimits.GlobalBoundIsReached | src/modules/websocket/services/event-store.service.ts:79-82 | For every configuration some run holds MAX_EVENTS_TOTAL + 1 events, so the bound cannot be improved |
| EventFates.ForceRanking | src/modules/websocket/services/event-store.service.ts:321-353 | Forced cleanup leaves exactly MAX_EVENTS_TOTAL records, untouched, and each removed record is heavier than each kept one, or as heavy and no younger; a record weighs 4 for each FAILED, 3 for each DELIVERED, 2 for each STORED and 1 for each APPLIED user |
| EventRuns.NextKeepsInv | src/modules/websocket/services/event-store.service.ts:49-353 | Every step keeps the shape of the map, the index, the ledger of every event and both memory bounds |
| EventRuns.RunKeepsInv | src/modules/websocket/services/event-store.service.ts:49-353 | Every reachable state has the invariant |
| EventRuns.CreateKeeps | src/modules/websocket/services/event-store.service.ts:79-115 | After `create` the new record is stored with every target STORED: an eviction never takes the record just made, and of others it only detaches waiting users |
| EventRuns.CleanupKeeps | src/modules/websocket/services/event-store.service.ts:49-57 | The periodic cleanup keeps the invariant and ends within the global limit |
| EventRuns.ForceCleanupSize | src/modules/websocket/services/event-store.service.ts:348-351 | Forced cleanup at or over the limit leaves exactly the limit |
| EventInvariants.EnforceFits | src/modules/websocket/services/event-store.service.ts:136-155 | An eviction removes exactly its victims from the user's pending set and brings it within the limit |
| EventEffects.AcknowledgeEffect | src/modules/websocket/services/event-store.service.ts:185-195 | An acknowledged event is gone afterwards if and only if everybody else attached is APPLIED, then with one removal by acknowledgement and no notice; otherwise that user is APPLIED and nothing else has changed; no other event is touched |
| EventEffects.StoreSendEffect | src/modules/websocket/services/event-retry-heartbeat.service.ts:39-52 | A replay or retry of QoS 1 acts as the acknowledgement, of QoS 2 marks DELIVERED, counts one attempt and notes the time, of QoS 0 changes nothing; no other event is touched |
| EventEffects.LateMarkEffect | src/modules/websocket/services/event-store.service.ts:157-170 | A late mark leaves an APPLIED user alone and otherwise marks DELIVERED, counts one attempt and notes the time |
| EventEffects.TimerEffect | src/modules/websocket/services/event-store.service.ts:117-128 | The expiry timer removes its event if and only if its time is over, with a notice exactly if the sender asked, and touches no other |
| EventLeaving.AcknowledgedIsSilent | src/modules/websocket/services/event-store.service.ts:192-194 | Over every run, an event applied for the last user who had not is gone for good, with one removal by acknowledgement, and its sender is never notified |
| EventLeaving.CleanupEffect | src/modules/websocket/services/event-store.service.ts:49-57 | A cleanup drops what has expired; if that leaves no more than MAX_EVENTS_TOTAL everything else stays, otherwise exactly that many; what stays is unchanged but for DELIVERED users older than the stale timeout, who are FAILED |
| EventLeaving.LeavesOverRuns | src/modules/websocket/services/event-store.service.ts:79-155 | Over every run, a record leaves only acknowledged by all, expired, emptied by evictions that are counted, at the global limit when an event is created, or with more unexpired events than the limit at a cleanup |
| EventLeaving.PublishEffect | src/modules/websocket/services/event-store.service.ts:79-115 | A new event is stored as of now, STORED for exactly its targets and never tried; other records only lose waiting users |
| EventLeaving.NobodysAreGone | src/modules/websocket/services/event-store.service.ts:150-153 | In every reachable state each stored event has somebody attached |
| EventRetries.RetryOrder | src/modules/websocket/services/event-store.service.ts:240-248 | Of any two listed records the first is STORED and the second not, or DELIVERED before FAILED, or of equal status and no younger |
| EventRetries.RetryMembers | src/modules/websocket/schema/event.record.ts:83-111 | The list holds exactly the unexpired records of the user that were never sent, were delivered longer ago than the timeout, or are FAILED with attempts left and the backoff over |
| EventRetries.FailedBackoff | src/modules/websocket/schema/event.record.ts:100-108 | Whatever the random factor, a FAILED message is retried only with attempts left and after more than half of base * 2^attempts, and with attempts left it is retried once one and a half are over |
| EventRetries.BackoffDoubles | src/modules/websocket/schema/event.record.ts:106-106 | The backoff starts at the base and doubles with each attempt |
| EventSends.SendBound | src/modules/websocket/schema/event.record.ts:83-107 | Over every run in which marks come from the drivers, a QoS 2 event with a TTL is sent to a user at most 1 + (replays) + ttl / (DELIVERED_TIMEOUT + 1) times, plus one exactly if its first send broke off after writing to the user; the stored attempts are the sends, less that one |
| EventLimits.SendBoundIsReached | src/modules/websocket/schema/event.record.ts:94-98 | For every configuration, TTL and number of replays, and a first send that broke off or not, some run reaches the send bound exactly |
| EventSends.NoEarlyResend | src/modules/websocket/services/event-store.service.ts:219-238 | With ttl at most DELIVERED_TIMEOUT, a QoS 2 message that a retry sends is STORED, and was never sent before if and only if no first send of it broke off after writing to the user |
| EventSends.CutsAreCounted | src/modules/websocket/events/json/base-ws-json.event.ts:144-170 | Over every run a message is written and left unmarked at most once per user, and exactly if its first send broke off after writing to the user |
| EventExamples.BrokenSendRepeats | src/modules/websocket/events/json/base-ws-json.event.ts:144-170 | A concrete run of two steps in which a first send that broke off is repeated within the delivery timeout |
| EventSends.StoredOnce | src/modules/websocket/services/event-retry-heartbeat.service.ts:39-49 | A stored QoS 1 message is sent to a user at most once over the whole run by replay and retry together |
| EventHistory.AutomatonHolds | src/modules/websocket/services/event-store.service.ts:157-195 | Between any two points of any run, also with marks that land late: APPLIED stays and stays attached, nobody returns to STORED or starts waiting again, attempts never fall, options never change, and a removed record never comes back |
| EventHistory.MarkFailedUndoesApplied | src/modules/websocket/services/event-store.service.ts:172-183 | `markFailed` obeys the status automaton if and only if the record is not stored or the user is attached and not APPLIED |
| EventHistory.LateMarkNeedsAttachment | src/modules/websocket/services/event-store.service.ts:157-170 | `markDelivered` keeps the index exact if and only if the user is attached to the record |
| EventHistory.FailedUnreachable | src/modules/websocket/services/event-store.service.ts:305-319 | If every event has 0 < ttl <= STALE_TIMEOUT, no run ever sets FAILED |
| EventBatches.ReconnectComplete | src/modules/websocket/lifesycles/base.lifesycle.ts:64-93 | A replay to a socket that stays open sends exactly the pending list in its order; then every QoS 1 record is applied for the user or gone and every QoS 2 record DELIVERED; the batch is a run of single sends |
| EventBatches.ReconnectPartial | src/modules/websocket/lifesycles/base.lifesycle.ts:68-69 | A socket that closes after n messages got the oldest n, and the other records are untouched |
| EventBatches.BatchSends | src/modules/websocket/services/event-retry-heartbeat.service.ts:39-52 | A batch sends exactly its list in order and marks each record by its QoS |
| EventBatches.RetryIsRun | src/modules/websocket/services/event-retry-heartbeat.service.ts:39-52 | A retry batch is a run of single retries, each of which the rules allow when its turn comes |
| EventBatches.TickServes | src/modules/websocket/services/event-retry-heartbeat.service.ts:30-54 | A retry tick keeps the invariant and leaves no served, active user with an unexpired event of QoS 1 or 2 that was never sent |
| EventBatches.TickComplete | src/modules/websocket/services/event-retry-heartbeat.service.ts:30-54 | Serving the users of the index is enough: no active user at all is left with anything unsent |
| EventStore.EventRecord.AgeDelivered | src/modules/websocket/services/event-store.service.ts:308-317 | The loop over the statuses marks FAILED exactly the DELIVERED users whose last attempt is older than the stale timeout |
| EventStore.EventRecord.IsAllApplied | src/modules/websocket/schema/event.record.ts:75-80 | The early-exit loop answers whether every status is APPLIED |
| EventStore.EventStoreService.Create | src/modules/websocket/services/event-store.service.ts:67-134 | Updates records, both maps and all evictions in place, and ends in the state the model's `Create` gives |
| EventStore.EventStoreService.EnforcePerUserLimit | src/modules/websocket/services/event-store.service.ts:136-155 | The eviction loop over `userStatus` and the user's set does what the model's `Enforce` says, removed records included |
| EventStore.EventStoreService.MarkDelivered | src/modules/websocket/services/event-store.service.ts:157-170 | Changes one user's status and attempts, not if APPLIED or gone, and nothing else |
| EventStore.EventStoreService.MarkFailed | src/modules/websocket/services/event-store.service.ts:172-183 | Sets FAILED and counts an attempt, unless already FAILED or gone |
| EventStore.EventStoreService.MarkApplied | src/modules/websocket/services/event-store.service.ts:185-195 | Sets APPLIED in place, and removes the record and its index entries exactly when all are applied: the step of `EventEffects.AcknowledgeEffect` |
| EventStore.EventStoreService.RemoveEvent | src/modules/websocket/services/event-store.service.ts:252-282 | Removes the record from both maps, drops emptied user sets, and emits the notice when due |
| EventStore.EventStoreService.GetPending | src/modules/websocket/services/event-store.service.ts:197-213 | The lookup loop and the sort return the scan of all records, oldest first |
| EventStore.EventStoreService.GetPendingWithRetry | src/modules/websocket/services/event-store.service.ts:219-250 | The lookup loop and the sort return the list of `EventRetries.RetryMembers` and `EventRetries.RetryOrder` |
| EventStore.EventStoreService.ForceCleanup | src/modules/websocket/services/event-store.service.ts:321-353 | Weighs, sorts and removes in place what the model's forced cleanup removes |
| EventStore.EventStoreService.CleanupExpiredEvents | src/modules/websocket/services/event-store.service.ts:284-296 | Removes exactly the expired records, in the order of the map, while iterating over it |
| EventStore.EventStoreService.CleanupStaleDelivered | src/modules/websocket/services/event-store.service.ts:305-319 | Ages every record as `MarkStale` says |
| EventStore.EventStoreService.CleanupTick | src/modules/websocket/services/event-store.service.ts:49-57 | The three cleanups one after the other are the step of `EventLeaving.CleanupEffect` |
| EventStore.EventStoreService.ExpiryTimer | src/modules/websocket/services/event-store.service.ts:117-128 | The timer removes the record only if it is still stored and expired |
| Delivery.DeliverPendingEvents | src/modules/websocket/lifesycles/base.lifesycle.ts:64-93 | The send-and-mark loop over the live store, with its early stop, is the model's `Reconnect`, and returns what was sent |
| Delivery.RetryPendingEvents | src/modules/websocket/services/event-retry-heartbeat.service.ts:30-54 | The nested loops are the model's tick, and no active user has anything unsent afterwards |
| FirstSend.LiveOrStored | src/modules/websocket/events/json/base-ws-json.event.ts:124-143 | For all targets and all receivers with distinct ids (as chosen ones have, `Server.ChosenOk`), QoS 1: everyone is either written to or stored and not both, if and only if no receiver has lost its socket and no target is a receiver whose socket is closing |
| FirstSend.TargetsServed | src/modules/websocket/events/json/base-ws-json.event.ts:124-143 | The same for the targets alone: exactly when the loop ends and no target is closing, or it throws after each target was written to |
| FirstSend.BreakLosesTargets | src/modules/websocket/events/json/base-ws-json.event.ts:124-143 | Concrete receivers and targets: one receiver without a socket, and it and the offline target get nothing |
| FirstSend.BreakBeforeAnyone | src/modules/websocket/events/json/base-ws-json.event.ts:124-143 | The same receivers in the other order: the open one gets nothing either |
| FirstSend.ClosingIsBoth | src/modules/websocket/events/json/base-ws-json.event.ts:47-58 | A receiver whose socket is closing is written to and stored |
| FirstSend.BreakAfterTargets | src/modules/websocket/events/json/base-ws-json.event.ts:124-143 | Concrete receivers where the loop throws and yet the only target is served |
| Server.ChosenOk | src/modules/websocket/events/base-ws.event.ts:73-98 | Chosen receivers are the sender or of its tenant and the type asked for, and no two have the same id |
| Server.ChosenExactly | src/modules/websocket/events/base-ws.event.ts:73-98 | A sender gets exactly those active sessions of its tenant and the type that the event filter keeps |
| Server.HearingExactly | src/modules/websocket/events/json/base-ws-json.event.ts:124-166 | A chosen receiver hears exactly if its socket is open and everybody before it has a socket |
| Server.SenderIsNamed | src/modules/websocket/events/json/base-ws-json.event.ts:147-158 | A QoS 2 event is stored with its TTL and with the sending session's user as sender |
| FirstSend.QosOneStores | src/modules/websocket/events/json/base-ws-json.event.ts:132-142 | The QoS 1 record is attached, as STORED, to exactly those it is stored for, and there is none if the loop threw |
| FirstSend.QosTwoKeepsAll | src/modules/websocket/events/json/base-ws-json.event.ts:144-170 | QoS 2 loses nobody: whether or not the loop throws, every target and open receiver is in the record, DELIVERED exactly if the loop ended and the receiver was open |
| FirstSend.FirstSendIsRun | src/modules/websocket/events/json/base-ws-json.event.ts:101-170 | A first send is a run of at most one step of the store |
| Delivery.Qossing | src/modules/websocket/events/json/base-ws-json.event.ts:101-170 | The send loops stop at the first receiver without a socket and skip what follows; the store ends as the model says for each QoS, and what was written is reported |
| Delivery.AckIsRun | src/modules/websocket/events/json/commons/acknowledge.event.ts:23-62 | An acknowledgement with its report is a run of at most two steps |
| Delivery.ReportEffect | src/modules/websocket/events/json/commons/acknowledge.event.ts:29-61 | A report is stored exactly for a stored event whose sender asked, is known, is somebody else and is not active; it is QoS 1, lives one hour, is STORED for the sender alone, and nothing else is created |
| Delivery.AcknowledgeEvent | src/modules/websocket/events/json/commons/acknowledge.event.ts:23-62 | Applies the event, and tells an active sender at once or stores a QoS 1 report for an inactive one, never both |
| SessionFates.SessionMachine | src/modules/websocket/lifesycles/base.lifesycle.ts:14-53 | At every step boundary a registered session is CONNECTING, ONLINE or SUSPEND, CONNECTING only without a lifecycle; SUSPEND if and only if it has no socket if and only if a timer is armed, which is then its own and due a timeout after the suspension |
| SessionFates.UnregisteredIsOffline | src/modules/websocket/lifesycles/base.lifesycle.ts:37-43 | A session that left the registry is OFFLINE, without socket and without timer |
| SessionFates.SocketsPointBack | src/modules/websocket/services/websocket-sesi-manager.service.ts:50-109 | A session's socket points back at it, and no two sessions, registered or not, share a socket |
| SessionFates.StaleCloseIgnored | src/modules/websocket/websocket.gateway.ts:92-101 | Once a socket was replaced or its close handled, every later close event, in every run, changes nothing but that the socket is closed |
| SessionFates.DetachedForever | src/modules/websocket/services/websocket-sesi-manager.service.ts:66-89 | No run ever gives a detached socket back to a session |
| SessionFates.RemovedAfterTimeout | src/modules/websocket/lifesycles/base.lifesycle.ts:27-44 | A session leaves the registry only when its timer fires, at least `suspendTimeout` after the close event that suspended it, suspended ever since and with no connect of that id in between |
| SessionFates.TimeoutRemoves | src/modules/websocket/lifesycles/base.lifesycle.ts:37-43 | Once the timeout has passed, the timer of a suspended session can fire and removes that session and no other |
| SessionFates.TenantQueryIsScan | src/modules/websocket/services/websocket-registry.service.ts:61-73 | In every reachable state a tenant query with any filter returns what a scan of all registered sessions returns, in the order of registration, and no tenant set is empty |
| SessionFates.ActiveByTypeIsTenant | src/modules/websocket/services/websocket-sesi-manager.service.ts:117-132 | The receivers of a type are exactly the registered sessions with an open socket of that type and of the sender's tenant, each once |
| SessionFates.PresenceTrace | src/modules/websocket/lifesycles/device.lifesycle.ts:5-85 | Over every run the messages about a device are a prefix of (connected (reconnect or suspend reconnect)* suspend disconnected)*, each with the state it stands for; the last one agrees with the registry; only browsers of the device's tenant hear them |
| SessionMessages.ConnectSays | src/modules/websocket/lifesycles/base.lifesycle.ts:14-25 | A connect says one thing about a device, reconnected if the id was registered and else connected, to exactly the connected browsers and desktops of its tenant that ask for no product or for its own, each once |
| SessionMessages.CloseSays | src/modules/websocket/lifesycles/base.lifesycle.ts:46-53 | The close of a device's own socket says suspended to exactly those; a close of any other socket says nothing |
| SessionMessages.TimerSays | src/modules/websocket/lifesycles/base.lifesycle.ts:37-43 | A suspend timer says disconnected to exactly those |
| SessionMessages.OneOpenSocket | src/modules/websocket/services/websocket-sesi-manager.service.ts:50-89 | In every reachable state, of all sockets a session ever had at most its own is open |
| SessionFates.TrackIsLegal | src/modules/websocket/lifesycles/device.lifesycle.ts:5-85 | The presence automaton accepts a history if and only if first message, neighbours and states are legal |
| SessionRuns.NextKeepsInv | src/modules/websocket/services/websocket-registry.service.ts:13-51 | Every step keeps the session machine, the registry with both tenant indexes, and the presence history |
| SessionRuns.RunKeepsInv | src/modules/websocket/services/websocket-sesi-manager.service.ts:29-109 | Every reachable state has the invariant |
| SessionRuns.ConnectRegistered | src/modules/websocket/services/websocket-sesi-manager.service.ts:50-89 | Resume and replace, in every reachable case, end in the same state: new socket, online, no timer, old socket shut; only the resume flag tells them apart |
| SessionRuns.CloseAttached | src/modules/websocket/lifesycles/base.lifesycle.ts:27-53 | The close of a session's own socket suspends it and arms one timer |
| SessionRuns.TimerRetires | src/modules/websocket/lifesycles/base.lifesycle.ts:37-43 | A timer that fires always finds its session suspended, so the guard in the callback never fails |
| Gateway.WebSocketSessionRegistry.Register | src/modules/websocket/services/websocket-registry.service.ts:13-28 | The three maps of objects change as the model's registry does |
| Gateway.WebSocketSessionRegistry.Unregister | src/modules/websocket/services/websocket-registry.service.ts:30-51 | The session leaves the primary map and its tenant's set, an emptied set goes, an unknown id changes nothing |
| Gateway.WebsocketGateway.ResumeSession | src/modules/websocket/services/websocket-sesi-manager.service.ts:50-64 | The assignments to session, client and timer are the model's `Resume` |
| Gateway.WebsocketGateway.ReplaceSession | src/modules/websocket/services/websocket-sesi-manager.service.ts:66-89 | The assignments to session, old and new client and timer are the model's `Replace`, REPLACE included |
| Gateway.WebsocketGateway.CreateSession | src/modules/websocket/services/websocket-sesi-manager.service.ts:91-109 | A new session object, tied to its socket and registered |
| Gateway.WebsocketGateway.EstablishSession | src/modules/websocket/services/websocket-sesi-manager.service.ts:29-48 | Chooses between resume, replace and create as the model does, on any registry |
| Gateway.WebsocketGateway.OnConnect | src/modules/websocket/lifesycles/base.lifesycle.ts:14-25 | Goes online, replays the pending events if the socket is open and none otherwise, then announces a device as connected or reconnected |
| Gateway.WebsocketGateway.OnSuspend | src/modules/websocket/lifesycles/base.lifesycle.ts:46-53 | Drops the socket, clears the old timer and announces the suspension |
| Gateway.WebsocketGateway.OnDisconnect | src/modules/websocket/lifesycles/base.lifesycle.ts:27-44 | All four cases of a disconnect, REPLACE and OFFLINE included |
| Gateway.WebsocketGateway.SuspendTimerFires | src/modules/websocket/lifesycles/base.lifesycle.ts:37-43 | The callback is one `SuspendTimer` step and keeps the invariant |
| Gateway.WebsocketGateway.InterestedBrowsers | src/modules/websocket/lifesycles/device.lifesycle.ts:6-13 | The filter over the tenant's browsers yields the open ones that see the device's product |
| Gateway.WebsocketGateway.HandleConnection | src/modules/websocket/websocket.gateway.ts:40-49 | Once a new socket is authenticated, open or already dead, connecting it is one `NewConnection` step that keeps the invariant, and the event store ends as in that turn of `Server` |
| Gateway.WebsocketGateway.HandleDisconnect | src/modules/websocket/websocket.gateway.ts:92-101 | The guard compares objects: only the session's own socket leads to a disconnect |
| Gateway.WebsocketGateway.Closes | src/modules/websocket/websocket.gateway.ts:70-72 | A close event of any known socket is one `CloseEvent` step and keeps the invariant |
| Gateway.WebsocketGateway.GetActiveSocketsByType | src/modules/websocket/services/websocket-sesi-manager.service.ts:117-132 | The query over the objects returns the receivers of the model |
| Server.ConnectServes | src/modules/websocket/lifesycles/base.lifesycle.ts:14-25 | In every run of store and sessions together, a connect of a device, browser or desktop with an open socket ends online, has sent exactly the pending events, and leaves none unsent |
| Server.RetryServes | src/modules/websocket/services/event-retry-heartbeat.service.ts:36-37 | In every run, a retry tick leaves no user whose registered session has an open socket with anything unsent |
| Server.AtLeastOnce | src/modules/websocket/services/event-retry-heartbeat.service.ts:30-54 | After a retry tick or a connect, in every run in which marks come from the drivers, each pending QoS 2 event of a user served has been sent to it at least once, counted in the history |
| Server.OnlyActiveHear | src/modules/websocket/events/json/base-ws-json.event.ts:144-170 | In every turn of every run, messages of stored events, live, replayed or retried, reach only users whose registered session has an open socket; for live ones this follows from the session machine, however long ago the receivers were chosen |
| Server.LiveStaysInTenant | src/modules/websocket/events/base-ws.event.ts:73-98 | In every turn of every run and for every QoS, a live message reaches only registered sessions with an open socket that are the sender, or of the sender's tenant and of the type asked for when the receivers were chosen |
| Server.BreaksWhenGone | src/modules/websocket/events/json/base-ws-json.event.ts:124-166 | The send loop throws if and only if a chosen receiver has been suspended or has left the registry since |
| Server.FirstSendSplit | src/modules/websocket/events/json/base-ws-json.event.ts:124-143 | In every run, everyone is written to or stored and not both if and only if every chosen receiver is still registered and not suspended and no target's socket is closing |
| Server.TurnsKeep | src/modules/websocket/websocket.gateway.ts:30-101 | Every combined run keeps both invariants |
| Server.StoreRuns | src/modules/websocket/services/event-store.service.ts:49-353 | In every run of store and sessions together the store goes through a run of its own, so what holds over all runs of the store holds for both together |
| Server.SystemSendBound | src/modules/websocket/schema/event.record.ts:83-107 | The send bound over every run of store and sessions together |
| Server.SystemNoEarlyResend | src/modules/websocket/services/event-store.service.ts:219-238 | In every run of both together, what a retry tick is about to send with ttl at most DELIVERED_TIMEOUT is STORED, and was sent before exactly as often as a first send of it broke off |
| Server.SystemStoredOnce | src/modules/websocket/services/event-retry-heartbeat.service.ts:39-49 | A stored QoS 1 message is sent from the store at most once over every run of both together |
| Server.SystemNeverFails | src/modules/websocket/services/event-store.service.ts:305-319 | With every TTL between 0 and STALE_TIMEOUT, no run of both together sets FAILED |
| Server.SystemAutomaton | src/modules/websocket/services/event-store.service.ts:157-195 | The status automaton between any two moments of any run of both together |
| RateLimit.SlidingWindowBound | src/modules/ratelimitters/providers/storage/in-memory.provider.ts:21-72 | Whatever the attempts, any half-open interval of one window holds at most 2 * max(1, maxAttempts - 1) - 1 allowed ones |
| RateLimit.BoundIsReached | src/modules/ratelimitters/providers/storage/in-memory.provider.ts:52-71 | For every limit and every window of at least two milliseconds there are attempts that reach the bound, so it cannot be improved; a window of one will do where the bound is one |
| RateLimit.BlockDuration | src/modules/ratelimitters/providers/storage/in-memory.provider.ts:37-63 | After a denial the remaining time is positive and at most one window; attempts before it ends are denied and do not move the deadline; an attempt exactly then is allowed |
| RateLimit.BlockIsOneWindow | src/modules/ratelimitters/providers/storage/in-memory.provider.ts:52-63 | A denial that meets no deadline ahead starts a block of exactly one window |
| RateLimit.DeadlineIsFirstDenial | src/modules/ratelimitters/providers/storage/in-memory.provider.ts:37-63 | Over every sequence of attempts, the deadline after a denial is one window after the first denial since an attempt was last allowed |
| RateLimit.FreshKey | src/modules/ratelimitters/providers/storage/in-memory.provider.ts:28-66 | Of the attempts within one window of a fresh key's first, the first is allowed and each further one exactly if fewer than maxAttempts have been made, itself included |
| RateLimit.RestRule | src/modules/ratelimitters/services/rate-limit.service.ts:31-38 | A REST rule bounds attempts over ttl seconds and blocks for ttl seconds, with its limit |
| RateLimit.WsRule | src/modules/ratelimitters/services/rate-limit.service.ts:28-30 | A websocket rule bounds attempts over its window in milliseconds and blocks for it |
| RateLimit.InMemoryProvider.Increment | src/modules/ratelimitters/providers/storage/in-memory.provider.ts:21-72 | The in-place update is one `Attempt` on the key's record, and no other key changes |
| RateLimit.RateLimitService.Allow | src/modules/ratelimitters/services/rate-limit.service.ts:44-54 | Charges the key under the rule's window and limit, and allows exactly what is not blocked |
| RateLimit.RateLimitService.GetBlockRemaining | src/modules/ratelimitters/services/rate-limit.service.ts:56-61 | Returns r exactly when the deadline lies ahead, with deadline = now + r and r > 0; up to then an attempt under any rule is denied exactly if it comes before r has passed |
| RateLimit.RemainingIsWait | src/modules/ratelimitters/services/rate-limit.service.ts:56-61 | For a key with a deadline, r is the remaining time if and only if every attempt less than r away is denied and one exactly r away is allowed |
| RateLimit.RateLimitService.Reset | src/modules/ratelimitters/services/rate-limit.service.ts:63-65 | Forgets the key, and only that key |
| TemplateParts.PartsAreRendered | src/modules/notification/helpers/parser.helper.ts:2-25 | When each part is literals without `{` and one-line brace-free holes, with brace-free keys, no `{` in values and name and no `$` in the name, the result is the trimmed concatenation of the rendered parts, by ascending sort order and in the order given where that is equal; a hole shows the name, else the metadata, else the context, else nothing, and a null value shows nothing |
| TemplateParts.FullTextInPlace | src/modules/notification/helpers/parser.helper.ts:11-12 | The text is that of a permutation of the parts whose sort orders, a missing one counted as 0, ascend, with parts of equal sort order in the order given |
| TemplateParts.TrimTakesSpace | src/modules/notification/helpers/parser.helper.ts:24-24 | Trimming takes the white space off both ends, all of it and nothing else |
| Template.ParseRenders | src/modules/notification/helpers/parser.helper.ts:9-24 | For a template of literals without `{` and one-line brace-free holes, brace-free keys, values and name without `{` and no `$` in the name, the result is the trimmed one-pass render: the name first, metadata over context, unknown holes empty |
| Template.OrderDoesNotMatter | src/modules/notification/helpers/parser.helper.ts:14-22 | For such a template and any name without `{`, `$` or not, the order in which the keys are listed does not matter |
| Template.NameStaysPlain | src/modules/notification/helpers/parser.helper.ts:14-14 | With any name without `{`, `$` patterns included, the text is again literals without `{` and one-line holes |
| Template.OrderCanMatter | src/modules/notification/helpers/parser.helper.ts:18-22 | A concrete template and data with a placeholder inside a value for which the order does matter |
| Template.NoLeftover | src/modules/notification/helpers/parser.helper.ts:24-24 | For every template, name, data and key order, no line of the result has `{{` followed later by `}}` |
| Template.StripIsClean | src/modules/notification/helpers/parser.helper.ts:24-24 | Removing the leftmost shortest matches never forms a new one |
| Template.ParseRendersAny | src/modules/notification/helpers/parser.helper.ts:9-24 | For any name without `{`, with the `$` patterns of String.prototype.replace, the result is the trimmed one-pass render of the template whose name holes hold the expanded name |
| Template.Parse | src/modules/notification/helpers/parser.helper.ts:2-25 | The loop over the keys computes the result of `TemplateParts.PartsAreRendered`, which never has a leftover placeholder |
| Ordered.StableSortSorts | src/modules/notification/helpers/parser.helper.ts:11-11 | The sort that all comparators of the source use gives a sorted result |
| Ordered.StableSortIsStable | src/modules/notification/helpers/parser.helper.ts:11-11 | Elements of equal rank keep their order |

## Left out

- Statistics, `getStats`, `getUserStats`, `dumpStore` and logging: counters beside the state.
- `userSequence`, `deliveryErrors`, event names, payloads and the JSON text of messages: stored and sent, never looked at.
- `handleEventExpired`: one message to the sender for each notice; the notices themselves are counted.
- The database (targets, device lists, principals), validation, JWT, HMAC and Firebase: inputs of the model.
- HTTP, mail, WhatsApp and webhook channels, and ProviderFactory: network code without state of its own.
- WebSocketHeartbeatService: its effect on a session is a socket that leaves the open state, which is the step `Drop`.
- BrowserLifecycle's device snapshot: a database query that changes nothing here.
- The binary header event, white lists and the concrete event classes: constants and single filters.
- The event filters of `getReceivers`: any subset of the active sessions may remain.
- A database error while the target ids are read: nothing is sent or stored then.
- EventSends.SendBound: for runs in which every mark comes from a driver that has just sent the message, since a mark without a send is not in the code.
- Delivery.DeliverPendingEvents: the socket closes after a given number of messages; who closed it is not modelled here.
- Template.ParseRenders: not for `{` inside literals, names or values or braces in keys, where `Template.OrderCanMatter` shows that the result can depend on the key order; `Template.NoLeftover` holds there too.
- Template: characters are Unicode scalar values rather than UTF-16 units, and a `content_value` or value is a string or missing.
- Gateway.WebsocketGateway.HandleConnection: authentication and the pre-connect rate limit come before it and are not part of it.
