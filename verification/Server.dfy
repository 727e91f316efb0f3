// The event store and the session machine together: who is served, and who hears anything.
module Server {
  import opened Ordered
  import opened EventModel
  import opened EventInvariants
  import opened EventLedger
  import opened EventRuns
  import opened EventSends
  import opened EventHistory
  import opened EventBatches
  import opened FirstSend
  import Wrappers
  import S = Sessions
  import SR = SessionRuns
  import SF = SessionFates

  /** The receivers that a sender's message has been given, before it is sent. */
  datatype Pick = Pick(sender: S.SessionRef, kind: S.Kind, receivers: seq<S.SessionRef>)

  /** A live message that reached an open socket. */
  datatype Write = Write(sender: S.SessionRef, kind: S.Kind, to: S.SessionRef)

  datatype System = System(store: State, world: S.World, picks: seq<Pick>, writes: seq<Write>)

  /** `getSessionById(u)?.isActive()` */
  ghost function ActiveUsers(w: S.World): set<UserId> {
    set u | u in w.reg.sessions && S.Active(w, w.reg.sessions[u])
  }

  // ---------- first sends between sessions ----------

  function LinkOf(w: S.World, r: S.SessionRef): Link {
    if r !in w.objects || w.objects[r].socket == Wrappers.None then NoSocket
    else if S.Active(w, r) then Open
    else Closing
  }

  function IdOf(w: S.World, r: S.SessionRef): UserId {
    if r in w.objects then w.objects[r].who.id else 0
  }

  /** The receivers chosen earlier, as they are now. */
  function ReceiversOf(w: S.World, refs: seq<S.SessionRef>): (rs: seq<Receiver>)
    ensures |rs| == |refs| && forall i :: 0 <= i < |refs| ==> rs[i] == Receiver(IdOf(w, refs[i]), LinkOf(w, refs[i]))
  {
    seq(|refs|, i requires 0 <= i < |refs| => Receiver(IdOf(w, refs[i]), LinkOf(w, refs[i])))
  }

  /** `getReceivers`: the active sessions of a type, then a filter on the event. */
  function Chosen(w: S.World, sender: S.SessionRef, kind: S.Kind, keep: set<S.SessionRef>): seq<S.SessionRef>
    requires sender in w.objects
  {
    Restrict(S.ActiveByType(w, sender, kind), keep)
  }

  /** The types that `dispatch` writes to without the event store. */
  predicate Direct(kind: S.Kind) {
    kind == S.Self || kind == S.Server
  }

  /** Those of the receivers that the send loop reaches over an open socket. */
  function Hearing(w: S.World, refs: seq<S.SessionRef>): seq<S.SessionRef> {
    Restrict(refs[..Reached(ReceiversOf(w, refs))], set r | r in w.objects && S.Active(w, r))
  }

  function WritesTo(p: Pick, to: seq<S.SessionRef>): (ws: seq<Write>)
    ensures |ws| == |to| && forall i :: 0 <= i < |to| ==> ws[i] == Write(p.sender, p.kind, to[i])
  {
    seq(|to|, i requires 0 <= i < |to| => Write(p.sender, p.kind, to[i]))
  }

  /** A QoS 2 event with no target and no open receiver is not sent at all. */
  predicate ForNobody(qos: Qos, receivers: seq<Receiver>, targets: seq<UserId>) {
    qos == 2 && OnlineIds(receivers) + OfflineIds(targets, OnlineIds(receivers)) == []
  }

  // ---------- turns ----------

  /**
   * One turn of the program. A connect replays the pending events; a retry tick serves the users of
   * the index it is given. The receivers of a message are chosen in one turn and written to in a
   * later one, by which time they may have lost their sockets.
   */
  datatype Turn =
    | Wait(ms: nat)
    | Session(e: SR.Step)
    | Store(op: Step)
    | RetryTurn(users: seq<UserId>, jitters: map<UserId, map<EventId, real>>)
    | Choose(sender: S.SessionRef, kind: S.Kind, keep: set<S.SessionRef>)
    | Send(pick: nat, qos: Qos, targets: seq<UserId>, ttl: int, notifySender: bool, id: EventId)

  ghost predicate Possible(c: Config, y: System, t: Turn) {
    match t
    case Wait(_) => S.Closed(y.world)
    case Session(e) => !e.Elapse? && SR.Enabled(y.world, e)
    case Store(op) =>
      && Enabled(c, y.store, op) && !op.Elapse? && !op.ReplayOne? && !op.RetryOne? && !op.Dispatch? && !op.BrokenDispatch?
    case RetryTurn(users, jitters) =>
      && (forall u :: u in y.store.index ==> u in users)
      && (forall u :: u in jitters ==> JitterRange(jitters[u]))
    case Choose(sender, _, _) => sender in y.world.objects
    case Send(i, _, _, _, _, id) => i < |y.picks| && id !in y.store.births
  }

  /** The type of the session that a connect leads to. */
  function KindOf(w: S.World, who: S.Ident): S.Kind {
    if who.id in w.reg.sessions && w.reg.sessions[who.id] in w.objects then w.objects[w.reg.sessions[who.id]].who.kind else who.kind
  }

  /** The state of the session registered under an id. */
  function PhaseOf(w: S.World, u: UserId): S.Phase {
    if u in w.reg.sessions && w.reg.sessions[u] in w.objects then w.objects[w.reg.sessions[u]].phase else S.OFFLINE
  }

  /** The replay of `onConnect`: it stops at once if the socket is not open. */
  ghost function Replayed(y: System, e: SR.Step): State {
    if e.NewConnection? && e.open && S.Managed(KindOf(y.world, e.who))
    then Reconnect(y.store, e.who.id, |PendingIds(y.store, e.who.id)|)
    else y.store
  }

  /** `dispatch`, with the receivers as they are now. */
  ghost function Dispatched(c: Config, y: System, p: Pick, qos: Qos, targets: seq<UserId>, ttl: int, notifySender: bool, id: EventId): System {
    var receivers := ReceiversOf(y.world, p.receivers);
    if Direct(p.kind) then y.(writes := y.writes + WritesTo(p, Hearing(y.world, p.receivers)))
    else
      y.(store := AfterFirstSend(c, y.store, receivers, targets, qos, ttl, IdOf(y.world, p.sender), notifySender, id),
         writes := y.writes + if ForNobody(qos, receivers, targets) then [] else WritesTo(p, Hearing(y.world, p.receivers)))
  }

  ghost function After(c: Config, y: System, t: Turn): System
    requires Possible(c, y, t)
  {
    match t
    case Wait(ms) => y.(store := Next(c, y.store, Elapse(ms)), world := SR.Next(y.world, SR.Elapse(ms)))
    case Session(e) => y.(store := Replayed(y, e), world := SR.Next(y.world, e))
    case Store(op) => y.(store := Next(c, y.store, op))
    case RetryTurn(users, jitters) => y.(store := RetryTick(c, y.store, users, ActiveUsers(y.world), jitters))
    case Choose(sender, kind, keep) => y.(picks := y.picks + [Pick(sender, kind, Chosen(y.world, sender, kind, keep))])
    case Send(i, qos, targets, ttl, notifySender, id) => Dispatched(c, y, y.picks[i], qos, targets, ttl, notifySender, id)
  }

  /** A receiver is the sender itself, or of the sender's tenant and of the type asked for. */
  ghost predicate MayHear(w: S.World, sender: S.SessionRef, kind: S.Kind, r: S.SessionRef) {
    && sender in w.objects && r in w.objects
    && (if kind == S.Self then r == sender
        else w.objects[r].who.tenant == w.objects[sender].who.tenant && SF.Answers(kind, w.objects[r].who.kind))
  }

  /** What stays true of chosen receivers, however long ago they were chosen. */
  ghost predicate PickOk(w: S.World, p: Pick) {
    && (forall r :: r in p.receivers ==> MayHear(w, p.sender, p.kind, r))
    && (forall i, j :: 0 <= i < j < |p.receivers| ==> IdOf(w, p.receivers[i]) != IdOf(w, p.receivers[j]))
  }

  ghost predicate PicksOk(w: S.World, picks: seq<Pick>) {
    forall p :: p in picks ==> PickOk(w, p)
  }

  ghost predicate SystemInv(c: Config, y: System) {
    Inv(c, y.store) && SR.Inv(y.world) && PicksOk(y.world, y.picks)
  }

  /** Receivers are right when they are chosen. */
  lemma ChosenOk(w: S.World, sender: S.SessionRef, kind: S.Kind, keep: set<S.SessionRef>)
    requires SR.Inv(w) && sender in w.objects
    ensures PickOk(w, Pick(sender, kind, Chosen(w, sender, kind, keep)))
  {
    hide S.ActiveByType, SR.Trace, SR.TimerOk, Restrict, SR.IndexIsScan;
    var all := S.ActiveByType(w, sender, kind);
    var refs := Chosen(w, sender, kind, keep);
    RestrictElems(all, keep);
    forall r | r in refs ensures r in all {
      assert r in Elems(refs);
    }
    if kind == S.Self {
      SelfIsSender(w, sender);
      RestrictNoDup(all, keep);
    } else {
      SF.ActiveMembers(w, sender, kind, sender);
      RestrictNoDup(all, keep);
      forall r | r in refs ensures MayHear(w, sender, kind, r) && SR.Registered(w, r) {
        SF.ActiveMembers(w, sender, kind, r);
      }
      forall i, j | 0 <= i < j < |refs| ensures IdOf(w, refs[i]) != IdOf(w, refs[j]) {
        assert SR.Registered(w, refs[i]) && SR.Registered(w, refs[j]);
      }
    }
  }

  lemma SelfIsSender(w: S.World, sender: S.SessionRef)
    requires sender in w.objects
    ensures S.ActiveByType(w, sender, S.Self) == [sender]
  {
  }

  lemma NextKeepsPicks(w: S.World, e: SR.Step, picks: seq<Pick>)
    requires SR.Inv(w) && SR.Enabled(w, e) && PicksOk(w, picks)
    ensures PicksOk(SR.Next(w, e), picks)
  {
    hide SR.Inv, SR.Next, SR.Enabled;
    forall p | p in picks ensures PickOk(SR.Next(w, e), p) {
      assert PickOk(w, p);
      forall r | r in w.objects ensures r in SR.Next(w, e).objects && SR.Next(w, e).objects[r].who == w.objects[r].who {
        SF.NextKeepsWho(w, e, r);
      }
      forall r | r in p.receivers ensures MayHear(SR.Next(w, e), p.sender, p.kind, r) && IdOf(SR.Next(w, e), r) == IdOf(w, r) {
        assert MayHear(w, p.sender, p.kind, r);
      }
    }
  }

  lemma PickUnique(w: S.World, p: Pick)
    requires PickOk(w, p)
    ensures Unique(ReceiversOf(w, p.receivers))
  {
  }

  lemma ReconnectKeeps(c: Config, s: State, u: UserId)
    requires Inv(c, s)
    ensures Inv(c, Reconnect(s, u, |PendingIds(s, u)|))
  {
    hide SendAll, FitsUsers, Ledger, Indexed, Restrict;
    PendingListed(s, u);
    var p := PendingIds(s, u);
    assert p[..|p|] == p;
    SendAllKeeps(c, s, u, p, Replay);
  }

  lemma AfterKeeps(c: Config, y: System, t: Turn)
    requires c.Sane() && SystemInv(c, y) && Possible(c, y, t)
    ensures SystemInv(c, After(c, y, t))
  {
    hide Inv, SR.Inv, Next, SR.Next, Reconnect, Enabled, PickOk, Chosen, AfterFirstSend;
    match t {
      case Wait(ms) =>
        AnyTime(c, y.store, y.world, ms);
        NextKeepsInv(c, y.store, Elapse(ms));
        SR.NextKeepsInv(y.world, SR.Elapse(ms));
        NextKeepsPicks(y.world, SR.Elapse(ms), y.picks);
      case Session(e) =>
        SR.NextKeepsInv(y.world, e);
        NextKeepsPicks(y.world, e, y.picks);
        if e.NewConnection? {
          ReconnectKeeps(c, y.store, e.who.id);
        }
      case Store(op) => NextKeepsInv(c, y.store, op);
      case RetryTurn(users, jitters) => TickServes(c, y.store, users, ActiveUsers(y.world), jitters);
      case Choose(sender, kind, keep) => ChosenOk(y.world, sender, kind, keep);
      case Send(i, qos, targets, ttl, notifySender, id) =>
        var p := y.picks[i];
        PickUnique(y.world, p);
        FirstSendKeeps(c, y.store, ReceiversOf(y.world, p.receivers), targets, qos, ttl, IdOf(y.world, p.sender), notifySender, id);
    }
  }

  lemma AnyTime(c: Config, s: State, w: S.World, ms: nat)
    requires S.Closed(w)
    ensures Enabled(c, s, Elapse(ms)) && SR.Enabled(w, SR.Elapse(ms))
  {
  }

  // ---------- runs ----------

  ghost predicate Turns(c: Config, y: System, ts: seq<Turn>)
    decreases |ts|, 0
  {
    ts == [] || (Turns(c, y, ts[..|ts| - 1]) && Possible(c, Ran(c, y, ts[..|ts| - 1]), ts[|ts| - 1]))
  }

  ghost function Ran(c: Config, y: System, ts: seq<Turn>): System
    requires Turns(c, y, ts)
    decreases |ts|, 1
  {
    if ts == [] then y else After(c, Ran(c, y, ts[..|ts| - 1]), ts[|ts| - 1])
  }

  ghost function Started(now: int, timeout: nat): System {
    System(EventModel.Init(now), S.Init(timeout, now), [], [])
  }

  lemma {:induction false} TurnsKeep(c: Config, now: int, timeout: nat, ts: seq<Turn>)
    requires c.Sane() && Turns(c, Started(now, timeout), ts)
    ensures SystemInv(c, Ran(c, Started(now, timeout), ts))
    decreases |ts|
  {
    hide SystemInv, After, Possible;
    StartKeeps(c, now, timeout);
    if ts != [] {
      var n := |ts| - 1;
      TurnsKeep(c, now, timeout, ts[..n]);
      AfterKeeps(c, Ran(c, Started(now, timeout), ts[..n]), ts[n]);
    }
  }

  lemma StartKeeps(c: Config, now: int, timeout: nat)
    requires c.Sane()
    ensures SystemInv(c, Started(now, timeout))
  {
    hide Inv, SR.Inv;
    EventStart(c, now);
    SR.InitInv(timeout, now);
  }

  lemma EventStart(c: Config, now: int)
    requires c.Sane()
    ensures Inv(c, EventModel.Init(now))
  {
    RunKeepsInv(c, now, []);
  }

  // ---------- combined runs are runs of the store ----------

  ghost predicate Marks(t: Turn) {
    t.Store? && t.op.LateMark?
  }

  /** The steps of the store in one turn; a late mark only where the turn is one. */
  ghost predicate StepsOf(c: Config, s: State, t: Turn, steps: seq<Step>, after: State) {
    && IsRun(c, s, steps) && Exec(c, s, steps) == after
    && (!Marks(t) ==> Driven(steps))
    && (Lasts(c, t) ==> AllLasting(c, steps))
  }

  /** An event created in the turn lives no longer than the stale timeout. */
  predicate Lasts(c: Config, t: Turn) {
    && (t.Store? && t.op.Publish? ==> Lasting(c, t.op.opts))
    && (t.Send? && t.qos > 0 ==> 0 < t.ttl <= c.staleTimeout)
  }

  lemma NoSteps(c: Config, s: State)
    ensures IsRun(c, s, []) && Exec(c, s, []) == s && Driven([]) && AllLasting(c, [])
  {
  }

  lemma OneStep(c: Config, s: State, e: Step)
    requires Enabled(c, s, e)
    ensures IsRun(c, s, [e]) && Exec(c, s, [e]) == Next(c, s, e)
    ensures !e.LateMark? ==> Driven([e])
    ensures (e.Publish? || e.Dispatch? || e.BrokenDispatch? ==> Lasting(c, e.opts)) ==> AllLasting(c, [e])
  {
    var none: seq<Step> := [];
    assert [e][..0] == none;
    NoSteps(c, s);
  }

  lemma DrivenAppend(a: seq<Step>, b: seq<Step>)
    requires Driven(a) && Driven(b)
    ensures Driven(a + b)
  {
  }

  lemma LastingAppend(c: Config, a: seq<Step>, b: seq<Step>)
    requires AllLasting(c, a) && AllLasting(c, b)
    ensures AllLasting(c, a + b)
  {
    hide Lasting;
  }

  /** A retry tick is a run of single retries. */
  lemma {:induction false} TickIsRun(c: Config, s: State, users: seq<UserId>, active: set<UserId>,
      jitters: map<UserId, map<EventId, real>>) returns (steps: seq<Step>)
    requires Inv(c, s) && forall u :: u in jitters ==> JitterRange(jitters[u])
    ensures IsRun(c, s, steps) && Exec(c, s, steps) == RetryTick(c, s, users, active, jitters) && Driven(steps)
    ensures AllLasting(c, steps)
  {
    hide Inv, IsRun, Exec, RetryIds, SendAll, Evolves, Unsent, JitterRange;
    if users == [] {
      steps := [];
      NoSteps(c, s);
    } else {
      var n := |users| - 1;
      var u := users[n];
      var m := RetryTick(c, s, users[..n], active, jitters);
      steps := TickIsRun(c, s, users[..n], active, jitters);
      TickServes(c, s, users[..n], active, jitters);
      if u in active {
        var batch := BatchIsRun(c, m, u, JitterOf(jitters, u), jitters);
        ExecAppend(c, s, steps, batch);
        DrivenAppend(steps, batch);
        LastingAppend(c, steps, batch);
        steps := steps + batch;
      }
    }
  }

  lemma BatchIsRun(c: Config, s: State, u: UserId, jitter: map<EventId, real>, jitters: map<UserId, map<EventId, real>>)
      returns (steps: seq<Step>)
    requires Inv(c, s) && jitter == JitterOf(jitters, u) && forall v :: v in jitters ==> JitterRange(jitters[v])
    ensures IsRun(c, s, steps) && Exec(c, s, steps) == RetryBatch(c, s, u, jitter) && Driven(steps)
    ensures AllLasting(c, steps)
  {
    hide RetryIds, SendAll, Ledger, FitsUsers, IsRun, Exec;
    RetryListed(c, s, u, jitter);
    RetryIsRun(c, s, u, RetryIds(c, s, u, jitter), jitter);
    steps := RetrySteps(u, RetryIds(c, s, u, jitter), jitter);
  }

  lemma ReconnectIsRun(c: Config, s: State, u: UserId) returns (steps: seq<Step>)
    requires Inv(c, s)
    ensures IsRun(c, s, steps) && Exec(c, s, steps) == Reconnect(s, u, |PendingIds(s, u)|) && Driven(steps)
    ensures AllLasting(c, steps)
  {
    hide PendingIds, Reconnect, IsRun, Exec, Ledger, FitsUsers;
    ReconnectComplete(c, s, u, |PendingIds(s, u)|);
    steps := ReplaySteps(u, PendingIds(s, u));
  }

  lemma FirstSendSteps(c: Config, s: State, w: S.World, p: Pick, qos: Qos, targets: seq<UserId>, ttl: int,
      notifySender: bool, id: EventId) returns (steps: seq<Step>)
    requires PickOk(w, p) && id !in s.births
    ensures IsRun(c, s, steps) && Driven(steps) && ((qos > 0 ==> 0 < ttl <= c.staleTimeout) ==> AllLasting(c, steps))
    ensures Exec(c, s, steps) == AfterFirstSend(c, s, ReceiversOf(w, p.receivers), targets, qos, ttl, IdOf(w, p.sender), notifySender, id)
  {
    hide PickOk, IsRun, Exec, OnlineIds, OfflineIds, Reached, StoredFor, AfterFirstSend;
    PickUnique(w, p);
    var rs := ReceiversOf(w, p.receivers);
    FirstSendIsRun(c, s, rs, targets, qos, ttl, IdOf(w, p.sender), notifySender, id);
    steps := FirstSteps(rs, targets, qos, ttl, IdOf(w, p.sender), notifySender, id);
  }

  lemma TurnIsRun(c: Config, y: System, t: Turn) returns (steps: seq<Step>)
    requires c.Sane() && SystemInv(c, y) && Possible(c, y, t)
    ensures StepsOf(c, y.store, t, steps, After(c, y, t).store)
  {
    hide Inv, SR.Inv, SR.Next, SR.Enabled, Next, Enabled, IsRun, Exec, Driven, PickOk, AfterFirstSend, Reconnect, RetryTick, Chosen;
    hide AllLasting, Lasting;
    NoSteps(c, y.store);
    steps := [];
    match t {
      case Wait(ms) =>
        AnyTime(c, y.store, y.world, ms);
        OneStep(c, y.store, Elapse(ms));
        steps := [Elapse(ms)];
      case Session(e) =>
        if e.NewConnection? && e.open && S.Managed(KindOf(y.world, e.who)) {
          steps := ReconnectIsRun(c, y.store, e.who.id);
        }
      case Store(op) =>
        OneStep(c, y.store, op);
        steps := [op];
      case RetryTurn(users, jitters) => steps := TickIsRun(c, y.store, users, ActiveUsers(y.world), jitters);
      case Choose(_, _, _) =>
      case Send(i, qos, targets, ttl, notifySender, id) =>
        if !Direct(y.picks[i].kind) {
          steps := FirstSendSteps(c, y.store, y.world, y.picks[i], qos, targets, ttl, notifySender, id);
        }
    }
  }

  /** No turn is a mark that a driver did not make. */
  ghost predicate DrivenTurns(ts: seq<Turn>) {
    forall i :: 0 <= i < |ts| ==> !Marks(ts[i])
  }

  /**
   * In every run of store and sessions together the store goes through a run of its own, a driven
   * one unless some turn is a late mark; so whatever holds over all runs of the store holds here.
   */
  lemma {:induction false} StoreRuns(c: Config, now: int, timeout: nat, ts: seq<Turn>) returns (run: seq<Step>)
    requires c.Sane() && Turns(c, Started(now, timeout), ts)
    ensures IsRun(c, EventModel.Init(now), run) && Exec(c, EventModel.Init(now), run) == Ran(c, Started(now, timeout), ts).store
    ensures DrivenTurns(ts) ==> Driven(run)
    ensures (forall i :: 0 <= i < |ts| ==> Lasts(c, ts[i])) ==> AllLasting(c, run)
    decreases |ts|
  {
    hide IsRun, Exec, Driven, SystemInv, After, Possible, AllLasting, Lasts, Marks;
    if ts == [] {
      run := [];
      NoSteps(c, EventModel.Init(now));
    } else {
      var n := |ts| - 1;
      run := StoreRuns(c, now, timeout, ts[..n]);
      TurnsKeep(c, now, timeout, ts[..n]);
      var steps := TurnIsRun(c, Ran(c, Started(now, timeout), ts[..n]), ts[n]);
      ExecAppend(c, EventModel.Init(now), run, steps);
      assert forall i :: 0 <= i < n ==> ts[..n][i] == ts[i];
      if DrivenTurns(ts) {
        DrivenAppend(run, steps);
      }
      if forall i :: 0 <= i < |ts| ==> Lasts(c, ts[i]) {
        LastingAppend(c, run, steps);
      }
      run := run + steps;
    }
  }

  /** The send bound, for store and sessions together. */
  lemma SystemSendBound(c: Config, now: int, timeout: nat, ts: seq<Turn>, id: EventId, u: UserId)
    requires c.Sane() && 0 <= c.deliveredTimeout <= c.staleTimeout && 0 < now
    requires Turns(c, Started(now, timeout), ts) && DrivenTurns(ts)
    requires var s := Ran(c, Started(now, timeout), ts).store; id in s.births && s.births[id].opts.qos == 2 && s.births[id].opts.ttl > 0
    ensures var s := Ran(c, Started(now, timeout), ts).store;
      && Count(CutsOf(id, u), s.trace) <= 1
      && Count(SendsOf(id, u), s.trace) <= 1 + Count(ReplaysOf(id, u), s.trace)
           + s.births[id].opts.ttl / (c.deliveredTimeout + 1) + Count(CutsOf(id, u), s.trace)
  {
    hide Turns, Ran, IsRun, Exec, Driven, CutIn, Count, DrivenTurns;
    var run := StoreRuns(c, now, timeout, ts);
    SendBound(c, now, run, id, u);
    CutsAreCounted(c, now, run, id, u);
  }

  /**
   * What a retry tick is about to send, for store and sessions together: with a time to live no
   * longer than the delivery timeout it is STORED, and was sent before only if a first send of it
   * broke off.
   */
  lemma SystemNoEarlyResend(c: Config, now: int, timeout: nat, ts: seq<Turn>, t: Turn, u: UserId, id: EventId)
    requires c.Sane() && 0 <= c.deliveredTimeout <= c.staleTimeout && 0 < now
    requires Turns(c, Started(now, timeout), ts) && DrivenTurns(ts)
    requires Possible(c, Ran(c, Started(now, timeout), ts), t) && t.RetryTurn?
    requires var s := Ran(c, Started(now, timeout), ts).store;
      IsDue(c, s, u, JitterOf(t.jitters, u), id) && s.events[id].opts.qos == 2 && 0 < s.events[id].opts.ttl <= c.deliveredTimeout
    ensures var s := Ran(c, Started(now, timeout), ts).store;
      && s.events[id].status[u] == STORED
      && Count(SendsOf(id, u), s.trace) == Count(CutsOf(id, u), s.trace) <= 1
  {
    hide Turns, Ran, IsRun, Exec, Driven, CutIn, Count, DrivenTurns, ShouldRetry;
    var s := Ran(c, Started(now, timeout), ts).store;
    var run := StoreRuns(c, now, timeout, ts);
    NoEarlyResend(c, now, run, u, id, Draw(JitterOf(t.jitters, u), id));
    CutsAreCounted(c, now, run, id, u);
  }

  /** QoS 1 from the store at most once, for store and sessions together. */
  lemma SystemStoredOnce(c: Config, now: int, timeout: nat, ts: seq<Turn>, id: EventId, u: UserId)
    requires c.Sane() && 0 < now && Turns(c, Started(now, timeout), ts) && DrivenTurns(ts)
    requires var s := Ran(c, Started(now, timeout), ts).store; id in s.births && s.births[id].opts.qos == 1
    ensures Count(StoreSendsOf(id, u), Ran(c, Started(now, timeout), ts).store.trace) <= 1
  {
    hide Turns, Ran, IsRun, Exec, Driven, Count, DrivenTurns;
    var run := StoreRuns(c, now, timeout, ts);
    StoredOnce(c, now, run, id, u);
  }

  /** FAILED is unreachable, for store and sessions together. */
  lemma SystemNeverFails(c: Config, now: int, timeout: nat, ts: seq<Turn>, id: EventId, u: UserId)
    requires c.Sane() && 0 < now && Turns(c, Started(now, timeout), ts) && forall i :: 0 <= i < |ts| ==> Lasts(c, ts[i])
    ensures var s := Ran(c, Started(now, timeout), ts).store; id in s.events ==> s.events[id].StatusOf(u) != FAILED
  {
    hide Turns, Ran, IsRun, Exec, Driven, AllLasting, Lasts;
    var run := StoreRuns(c, now, timeout, ts);
    FailedUnreachable(c, now, run, id, u);
  }

  /** The status automaton between any two moments of store and sessions together. */
  lemma {:induction false} SystemAutomaton(c: Config, now: int, timeout: nat, ts: seq<Turn>, k: nat)
    requires c.Sane() && Turns(c, Started(now, timeout), ts) && k <= |ts|
    ensures Turns(c, Started(now, timeout), ts[..k])
    ensures Evolves(Ran(c, Started(now, timeout), ts[..k]).store, Ran(c, Started(now, timeout), ts).store)
    decreases |ts|
  {
    hide Evolves, SystemInv, After, Possible;
    if k == |ts| {
      assert ts[..k] == ts;
      FewerSelf(Ran(c, Started(now, timeout), ts).store);
    } else {
      var n := |ts| - 1;
      SystemAutomaton(c, now, timeout, ts[..n], k);
      assert ts[..n][..k] == ts[..k];
      TurnsKeep(c, now, timeout, ts[..n]);
      TurnEvolves(c, Ran(c, Started(now, timeout), ts[..n]), ts[n]);
      EvolvesTwice(Ran(c, Started(now, timeout), ts[..k]).store, Ran(c, Started(now, timeout), ts[..n]).store, Ran(c, Started(now, timeout), ts).store);
    }
  }

  lemma FewerSelf(s: State)
    ensures Evolves(s, s)
  {
    FewerEvolves(s, s);
  }

  lemma TurnEvolves(c: Config, y: System, t: Turn)
    requires c.Sane() && SystemInv(c, y) && Possible(c, y, t)
    ensures Evolves(y.store, After(c, y, t).store)
  {
    hide Inv, SR.Inv, Possible, After, IsRun, Exec, Evolves, Driven;
    var steps := TurnIsRun(c, y, t);
    StepsEvolve(c, y.store, steps);
  }

  lemma {:induction false} StepsEvolve(c: Config, s: State, steps: seq<Step>)
    requires c.Sane() && Inv(c, s) && IsRun(c, s, steps)
    ensures Evolves(s, Exec(c, s, steps)) && Inv(c, Exec(c, s, steps))
  {
    hide Inv, Next, Enabled, Evolves;
    if steps == [] {
      FewerSelf(s);
    } else {
      var n := |steps| - 1;
      StepsEvolve(c, s, steps[..n]);
      var m := Exec(c, s, steps[..n]);
      NextEvolves(c, m, steps[n]);
      NextKeepsInv(c, m, steps[n]);
      EvolvesTwice(s, m, Exec(c, s, steps));
    }
  }

  // ---------- completeness ----------

  /** A connect whose socket is open makes the session active, unless its type has no lifecycle. */
  lemma ConnectActivates(w: S.World, e: SR.Step)
    requires SR.Inv(w) && SR.Enabled(w, e) && e.NewConnection? && e.open
    ensures e.who.id in ActiveUsers(SR.Next(w, e))
    ensures PhaseOf(SR.Next(w, e), e.who.id) == SR.AfterConnect(KindOf(w, e.who))
  {
    hide S.Connect, SR.Tables, SR.Trace, SR.SessionOk, SR.TimerOk, S.Audience;
    if e.who.id in w.reg.sessions {
      SR.ConnectRegistered(w, e.c, e.open, e.fresh_, e.who);
    } else {
      SR.ConnectNew(w, e.c, e.open, e.fresh_, e.who);
    }
  }

  /**
   * Completeness of a connect, in every run: a device, browser or desktop whose socket is open is
   * online and has been sent exactly its pending events, oldest first; none is left unsent.
   */
  lemma ConnectServes(c: Config, now: int, timeout: nat, ts: seq<Turn>, e: SR.Step, id: EventId)
    requires c.Sane() && Turns(c, Started(now, timeout), ts)
    requires Possible(c, Ran(c, Started(now, timeout), ts), Session(e))
    requires e.NewConnection? && e.open && S.Managed(KindOf(Ran(c, Started(now, timeout), ts).world, e.who))
    ensures
      var y := Ran(c, Started(now, timeout), ts);
      var z := After(c, y, Session(e));
      var u := e.who.id;
      && u in ActiveUsers(z.world) && PhaseOf(z.world, u) == S.ONLINE && !Unsent(z.store, u, id)
      && Messages(z.store.trace) == Messages(y.store.trace) + Addressed(u, PendingIds(y.store, u), Replay)
  {
    hide Turns, Ran, Inv, SR.Inv, SR.Next, SR.Enabled, Reconnect, Messages, Addressed, Unsent, ActiveUsers, PendingIds, PhaseOf;
    TurnsKeep(c, now, timeout, ts);
    var y := Ran(c, Started(now, timeout), ts);
    ConnectActivates(y.world, e);
    ReplayServes(c, y.store, e.who.id, id);
  }

  lemma ReplayServes(c: Config, s: State, u: UserId, id: EventId)
    requires Inv(c, s)
    ensures var t := Reconnect(s, u, |PendingIds(s, u)|);
      !Unsent(t, u, id) && Messages(t.trace) == Messages(s.trace) + Addressed(u, PendingIds(s, u), Replay)
  {
    hide Messages, Addressed, PendingIds, FitsUsers, Ledger, IsRun, Exec;
    var t := Reconnect(s, u, |PendingIds(s, u)|);
    ReconnectComplete(c, s, u, |PendingIds(s, u)|);
    ReplayKeepsHistory(c, s, u);
    if Unsent(t, u, id) {
      UnsentBefore(c, s, t, u, id);
    }
  }

  lemma ReplayKeepsHistory(c: Config, s: State, u: UserId)
    requires Inv(c, s)
    ensures var t := Reconnect(s, u, |PendingIds(s, u)|); Inv(c, t) && Evolves(s, t) && t.births == s.births && t.now == s.now
  {
    hide SendAll, FitsUsers, Ledger, Indexed, Restrict, Evolves;
    PendingListed(s, u);
    var p := PendingIds(s, u);
    assert p[..|p|] == p;
    SendAllKeeps(c, s, u, p, Replay);
    SendAllEvolves(s, u, p, Replay);
  }

  /** Completeness of a retry tick, in every run: it leaves no active user with anything unsent. */
  lemma RetryServes(c: Config, now: int, timeout: nat, ts: seq<Turn>, t: Turn, u: UserId, id: EventId)
    requires c.Sane() && Turns(c, Started(now, timeout), ts)
    requires Possible(c, Ran(c, Started(now, timeout), ts), t) && t.RetryTurn?
    requires u in ActiveUsers(Ran(c, Started(now, timeout), ts).world)
    ensures !Unsent(After(c, Ran(c, Started(now, timeout), ts), t).store, u, id)
  {
    hide Turns, Ran, Inv, SR.Inv, Unsent, ActiveUsers, RetryTick;
    TurnsKeep(c, now, timeout, ts);
    var y := Ran(c, Started(now, timeout), ts);
    TickComplete(c, y.store, t.users, ActiveUsers(y.world), t.jitters, u, id);
  }

  lemma MoreTurns(c: Config, y: System, ts: seq<Turn>, t: Turn)
    requires Turns(c, y, ts) && Possible(c, Ran(c, y, ts), t)
    ensures Turns(c, y, ts + [t]) && Ran(c, y, ts + [t]) == After(c, Ran(c, y, ts), t)
  {
    hide After, Possible;
    assert (ts + [t])[..|ts + [t]| - 1] == ts;
  }

  /** What is pending and not STORED has been sent. */
  lemma SentIfNotStored(c: Config, s: State, u: UserId, id: EventId)
    requires Inv(c, s) && SendsOk(c, s) && IsPending(s, u, id) && s.events[id].opts.qos == 2 && !Unsent(s, u, id)
    ensures Count(SendsOf(id, u), s.trace) >= 1
  {
    hide Count, Wf, FitsUsers, Paced, Held, Removals;
    assert Accounted(s, id);
    assert SendOk(c, s, id, u);
    assert Marked(s, id, u) >= 1;
  }

  /**
   * At least once: in every run in which marks come from the drivers, after a retry tick, and after
   * a connect over an open socket, every pending QoS 2 event of the user served has been sent to it.
   */
  lemma AtLeastOnce(c: Config, now: int, timeout: nat, ts: seq<Turn>, t: Turn, u: UserId, id: EventId)
    requires c.Sane() && 0 < now && Turns(c, Started(now, timeout), ts) && DrivenTurns(ts)
    requires Possible(c, Ran(c, Started(now, timeout), ts), t)
    requires var w := Ran(c, Started(now, timeout), ts).world;
      || (t.RetryTurn? && u in ActiveUsers(w))
      || (t.Session? && t.e.NewConnection? && t.e.open && t.e.who.id == u && S.Managed(KindOf(w, t.e.who)))
    ensures var s := After(c, Ran(c, Started(now, timeout), ts), t).store;
      IsPending(s, u, id) && s.events[id].opts.qos == 2 ==> Count(SendsOf(id, u), s.trace) >= 1
  {
    hide Turns, Ran, After, Possible, IsRun, Exec, Driven, Count, SendsOk, Unsent, ActiveUsers, Inv, SR.Inv, KindOf, Messages;
    var s := After(c, Ran(c, Started(now, timeout), ts), t).store;
    MoreTurns(c, Started(now, timeout), ts, t);
    DrivenMore(ts, t);
    var run := StoreRuns(c, now, timeout, ts + [t]);
    RunKeepsSends(c, now, run);
    RunKeepsInv(c, now, run);
    if t.RetryTurn? {
      RetryServes(c, now, timeout, ts, t, u, id);
    } else {
      ConnectServes(c, now, timeout, ts, t.e, id);
    }
    if IsPending(s, u, id) && s.events[id].opts.qos == 2 {
      SentIfNotStored(c, s, u, id);
    }
  }

  lemma DrivenMore(ts: seq<Turn>, t: Turn)
    requires DrivenTurns(ts) && !Marks(t)
    ensures DrivenTurns(ts + [t])
  {
  }

  // ---------- who hears an event ----------

  /** Only the users in `us` may have been sent anything between `s` and `t`. */
  ghost predicate HeardOnlyBy(s: State, t: State, us: set<UserId>) {
    forall id, u {:trigger SendsOf(id, u)} :: u !in us ==> Count(SendsOf(id, u), t.trace) == Count(SendsOf(id, u), s.trace)
  }

  lemma QuietIsUnheard(s: State, t: State, us: set<UserId>)
    requires Quiet(s, t)
    ensures HeardOnlyBy(s, t, us)
  {
    hide Count;
    assert forall id, u {:trigger SendsOf(id, u)} :: CountsSends(SendsOf(id, u));
  }

  lemma SendHeard(s: State, u: UserId, id: EventId, via: Via, us: set<UserId>)
    requires u in us
    ensures HeardOnlyBy(s, SendStored(s, u, id, via), us)
  {
    hide Count, MarkApplied;
    if id in s.events {
      var m := Log(s, Sent(id, u, via));
      LogCounts(s.trace, Sent(id, u, via));
      AppliedIsQuiet(m, u, id);
      QuietIsUnheard(m, MarkApplied(m, u, id), us);
    }
  }

  lemma {:induction false} SendAllHeard(s: State, u: UserId, ids: seq<EventId>, via: Via, us: set<UserId>)
    requires u in us
    ensures HeardOnlyBy(s, SendAll(s, u, ids, via), us)
  {
    hide Count, SendStored;
    if ids != [] {
      SendAllHeard(s, u, ids[..|ids| - 1], via, us);
      SendHeard(SendAll(s, u, ids[..|ids| - 1], via), u, ids[|ids| - 1], via, us);
    }
  }

  lemma {:induction false} LiveHeard(s: State, id: EventId, online: seq<UserId>, us: set<UserId>)
    requires forall u :: u in online ==> u in us
    ensures HeardOnlyBy(s, LiveAll(s, id, online), us)
  {
    hide Count;
    if online != [] {
      var n := |online| - 1;
      LiveHeard(s, id, online[..n], us);
      LogCounts(LiveAll(s, id, online[..n]).trace, Sent(id, online[n], Live));
    }
  }

  lemma {:induction false} LogAllHeard(s: State, id: EventId, online: seq<UserId>, via: Via, us: set<UserId>)
    requires forall u :: u in online ==> u in us
    ensures HeardOnlyBy(s, LogAll(s, id, online, via), us)
  {
    hide Count;
    if online != [] {
      var n := |online| - 1;
      LogAllHeard(s, id, online[..n], via, us);
      LogCounts(LogAll(s, id, online[..n], via).trace, Sent(id, online[n], via));
    }
  }

  lemma {:induction false} TickHeard(c: Config, s: State, users: seq<UserId>, us: set<UserId>, jitters: map<UserId, map<EventId, real>>)
    ensures HeardOnlyBy(s, RetryTick(c, s, users, us, jitters), us)
  {
    hide Count, RetryIds, SendAll;
    if users != [] {
      var n := |users| - 1;
      TickHeard(c, s, users[..n], us, jitters);
      var m, u := RetryTick(c, s, users[..n], us, jitters), users[n];
      if u in us {
        SendAllHeard(m, u, RetryIds(c, m, u, JitterOf(jitters, u)), Retry, us);
      }
    }
  }

  lemma CreateUnheard(c: Config, s: State, id: EventId, targets: seq<UserId>, opts: Options, us: set<UserId>)
    ensures HeardOnlyBy(s, Create(c, s, id, targets, opts), us)
  {
    hide Count, RemoveAll, EnforceAll, ForceVictims, Quiet;
    var m := ForceCleanup(c, s);
    RemoveAllIsQuiet(s, ForceVictims(c, s), ByForce);
    QuietIsUnheard(s, m, us);
    var i := Insert(if |s.events| >= c.maxTotal then m else s, id, targets, opts);
    EnforceAllIsQuiet(c, i, targets);
    QuietIsUnheard(i, EnforceAll(c, i, targets), us);
  }

  lemma CleanupUnheard(c: Config, s: State, us: set<UserId>)
    ensures HeardOnlyBy(s, Cleanup(c, s), us)
  {
    hide Count, RemoveAll, ForceVictims, Quiet, Aged;
    RemoveAllIsQuiet(s, Restrict(s.order, ExpiredIds(s)), ByExpiry);
    QuietIsUnheard(s, CleanupExpired(s), us);
    var b := MarkStale(c, CleanupExpired(s));
    RemoveAllIsQuiet(b, ForceVictims(c, b), ByForce);
    QuietIsUnheard(b, ForceCleanup(c, b), us);
  }

  lemma StoreHeard(c: Config, s: State, op: Step, us: set<UserId>)
    requires Enabled(c, s, op) && !op.ReplayOne? && !op.RetryOne?
    requires op.Dispatch? || op.BrokenDispatch? ==> forall u :: u in op.online ==> u in us
    ensures HeardOnlyBy(s, Next(c, s, op), us)
  {
    hide Count, Create, Cleanup, MarkApplied, LiveAll, LogAll, Remove;
    match op {
      case Elapse(_) =>
      case Publish(id, targets, opts) => CreateUnheard(c, s, id, targets, opts, us);
      case Dispatch(id, online, offline, opts) =>
        CreateUnheard(c, s, id, online + offline, opts, us);
        LiveHeard(Create(c, s, id, online + offline, opts), id, online, us);
      case BrokenDispatch(id, online, offline, written, opts) =>
        CreateUnheard(c, s, id, online + offline, opts, us);
        LogAllHeard(Create(c, s, id, online + offline, opts), id, online[..written], Cut, us);
      case Acknowledge(u, id) =>
        AppliedIsQuiet(s, u, id);
        QuietIsUnheard(s, MarkApplied(s, u, id), us);
      case LateMark(_, _) =>
      case TimerFires(id) =>
        RemoveIsQuiet(s, id, ByExpiry);
        QuietIsUnheard(s, Remove(s, id, ByExpiry), us);
      case CleanupTick => CleanupUnheard(c, s, us);
    }
  }

  /** An open socket belongs to a registered session. */
  lemma OpenIsRegistered(w: S.World, r: S.SessionRef)
    requires SR.Inv(w) && r in w.objects && S.Active(w, r)
    ensures SR.Registered(w, r) && w.objects[r].who.id in ActiveUsers(w)
  {
    hide SR.Tables, SR.Trace, SR.TimerOk;
    assert SR.SessionOk(w, r);
  }

  lemma OnlineAreActive(w: S.World, refs: seq<S.SessionRef>, u: UserId)
    requires SR.Inv(w) && u in OnlineIds(ReceiversOf(w, refs))
    ensures u in ActiveUsers(w)
  {
    hide SR.Inv, OnlineIds, ActiveUsers;
    var rs := ReceiversOf(w, refs);
    OnlineAreOpen(rs, u);
    var i :| 0 <= i < |rs| && rs[i] == Receiver(u, Open);
    OpenIsRegistered(w, refs[i]);
  }

  lemma FirstSendHeard(c: Config, s: State, w: S.World, p: Pick, targets: seq<UserId>, qos: Qos, ttl: int,
      notifySender: bool, id: EventId)
    requires SR.Inv(w) && PickOk(w, p) && id !in s.births
    ensures HeardOnlyBy(s,
      AfterFirstSend(c, s, ReceiversOf(w, p.receivers), targets, qos, ttl, IdOf(w, p.sender), notifySender, id), ActiveUsers(w))
  {
    hide SR.Inv, PickOk, Next, OnlineIds, OfflineIds, ActiveUsers, Count, Reached, StoredFor;
    var rs := ReceiversOf(w, p.receivers);
    var steps := FirstSteps(rs, targets, qos, ttl, IdOf(w, p.sender), notifySender, id);
    PickUnique(w, p);
    FirstSendIsRun(c, s, rs, targets, qos, ttl, IdOf(w, p.sender), notifySender, id);
    if steps != [] {
      var none: seq<Step> := [];
      assert steps[..0] == none;
      assert Exec(c, s, none) == s;
      forall u | u in OnlineIds(rs) ensures u in ActiveUsers(w) {
        OnlineAreActive(w, p.receivers, u);
      }
      StoreHeard(c, s, steps[0], ActiveUsers(w));
    }
  }

  /**
   * In every turn of every run, the messages of stored events, live, replayed or retried, reach
   * only users whose registered session has an open socket.
   */
  lemma OnlyActiveHear(c: Config, now: int, timeout: nat, ts: seq<Turn>, t: Turn)
    requires c.Sane() && Turns(c, Started(now, timeout), ts)
    requires Possible(c, Ran(c, Started(now, timeout), ts), t)
    ensures
      var y := Ran(c, Started(now, timeout), ts);
      var z := After(c, y, t);
      HeardOnlyBy(y.store, z.store, ActiveUsers(z.world))
  {
    hide Turns, Ran, Inv, SR.Inv, SR.Next, SR.Enabled, ActiveUsers, Count, RetryTick, Enabled, PendingIds, SendAll;
    hide AfterFirstSend, PickOk, Next;
    TurnsKeep(c, now, timeout, ts);
    var y := Ran(c, Started(now, timeout), ts);
    match t {
      case Wait(ms) =>
        AnyTime(c, y.store, y.world, ms);
        StoreHeard(c, y.store, Elapse(ms), ActiveUsers(SR.Next(y.world, SR.Elapse(ms))));
      case Session(e) =>
        if e.NewConnection? && e.open {
          ConnectActivates(y.world, e);
          var p := PendingIds(y.store, e.who.id);
          SendAllHeard(y.store, e.who.id, p[..|p|], Replay, ActiveUsers(SR.Next(y.world, e)));
        }
      case Store(op) => StoreHeard(c, y.store, op, ActiveUsers(y.world));
      case RetryTurn(users, jitters) => TickHeard(c, y.store, users, ActiveUsers(y.world), jitters);
      case Choose(_, _, _) =>
      case Send(i, qos, targets, ttl, notifySender, id) =>
        FirstSendHeard(c, y.store, y.world, y.picks[i], targets, qos, ttl, notifySender, id);
    }
  }

  // ---------- who hears a live message ----------

  lemma HearingAre(w: S.World, p: Pick)
    requires PickOk(w, p)
    ensures forall r :: r in Hearing(w, p.receivers) ==> MayHear(w, p.sender, p.kind, r) && r in w.objects && S.Active(w, r)
  {
    var refs := p.receivers[..Reached(ReceiversOf(w, p.receivers))];
    var open := set r | r in w.objects && S.Active(w, r);
    RestrictElems(refs, open);
    forall r | r in Hearing(w, p.receivers) ensures MayHear(w, p.sender, p.kind, r) && S.Active(w, r) {
      assert r in Elems(Restrict(refs, open));
      assert r in p.receivers;
    }
  }

  /**
   * In every turn of every run, whatever the QoS and however long ago the receivers were chosen,
   * each new live message reaches a registered session with an open socket which is the sender's
   * own, or of the sender's tenant and of the type the message is for.
   */
  lemma LiveStaysInTenant(c: Config, now: int, timeout: nat, ts: seq<Turn>, t: Turn, k: nat)
    requires c.Sane() && Turns(c, Started(now, timeout), ts)
    requires Possible(c, Ran(c, Started(now, timeout), ts), t)
    requires var y := Ran(c, Started(now, timeout), ts); |y.writes| <= k < |After(c, y, t).writes|
    ensures
      var z := After(c, Ran(c, Started(now, timeout), ts), t);
      var m := z.writes[k];
      && MayHear(z.world, m.sender, m.kind, m.to)
      && SR.Registered(z.world, m.to) && S.Active(z.world, m.to)
  {
    hide Turns, Ran, Inv, SR.Inv, SR.Next, SR.Enabled, Enabled, Next, Replayed, RetryTick, AfterFirstSend, PickOk, MayHear;
    hide ForNobody, Hearing, Chosen, S.Active;
    TurnsKeep(c, now, timeout, ts);
    var y := Ran(c, Started(now, timeout), ts);
    var p := y.picks[t.pick];
    var to := Hearing(y.world, p.receivers);
    HearingAre(y.world, p);
    assert After(c, y, t).writes[k] == Write(p.sender, p.kind, to[k - |y.writes|]);
    OpenIsRegistered(y.world, to[k - |y.writes|]);
  }

  /** What a sender gets: exactly those active sessions of its tenant and the type that the filter keeps. */
  lemma ChosenExactly(w: S.World, sender: S.SessionRef, kind: S.Kind, keep: set<S.SessionRef>, b: S.SessionRef)
    requires SR.Inv(w) && sender in w.objects && kind != S.Self
    ensures b in Chosen(w, sender, kind, keep) <==> b in keep && SF.ReceiverOf(w, sender, kind, b)
  {
    hide S.ActiveByType, SR.Inv, Restrict, SF.ReceiverOf;
    SF.ActiveMembers(w, sender, kind, b);
    RestrictElems(S.ActiveByType(w, sender, kind), keep);
    assert b in Chosen(w, sender, kind, keep) <==> b in Elems(Chosen(w, sender, kind, keep));
  }

  /** A receiver is reached when it stands before the break. */
  lemma ReachedIsBefore(w: S.World, p: Pick, i: nat, n: nat)
    requires PickOk(w, p) && i < |p.receivers| && n <= |p.receivers|
    ensures p.receivers[i] in p.receivers[..n] <==> i < n
  {
    var refs := p.receivers;
    assert forall k :: 0 <= k < |refs| && refs[k] == refs[i] ==> k == i;
    if i < n {
      assert refs[..n][i] == refs[i];
    }
  }

  /** The loop gets to a place exactly when everybody before it and there has a socket. */
  lemma ReachedIs(rs: seq<Receiver>, i: nat)
    requires i < |rs|
    ensures i < Reached(rs) <==> forall j :: 0 <= j <= i ==> rs[j].link != NoSocket
  {
    hide Reached;
    var n := Reached(rs);
    if n <= i {
      assert rs[n].link == NoSocket;
    }
  }

  lemma HearingIs(w: S.World, refs: seq<S.SessionRef>, r: S.SessionRef)
    ensures r in Hearing(w, refs) <==> r in refs[..Reached(ReceiversOf(w, refs))] && r in w.objects && S.Active(w, r)
  {
    hide S.Active, Reached, Restrict;
    var front := refs[..Reached(ReceiversOf(w, refs))];
    var open := set q | q in w.objects && S.Active(w, q);
    RestrictElems(front, open);
    assert r in Hearing(w, refs) <==> r in Elems(Hearing(w, refs));
  }

  ghost predicate HasSocket(w: S.World, r: S.SessionRef) {
    r in w.objects && w.objects[r].socket.Some?
  }

  lemma LinkIs(w: S.World, r: S.SessionRef)
    ensures LinkOf(w, r) != NoSocket <==> HasSocket(w, r)
    ensures S.Active(w, r) ==> HasSocket(w, r)
  {
  }

  /** Who hears: exactly the receivers over an open socket that come before any without a socket. */
  lemma HearingExactly(w: S.World, p: Pick, i: nat)
    requires PickOk(w, p) && i < |p.receivers|
    ensures p.receivers[i] in Hearing(w, p.receivers) <==>
      S.Active(w, p.receivers[i]) && forall j :: 0 <= j < i ==> HasSocket(w, p.receivers[j])
  {
    hide S.Active, Reached, Hearing, LinkOf, PickOk, HasSocket;
    var refs := p.receivers;
    var rs := ReceiversOf(w, refs);
    HearingIs(w, refs, refs[i]);
    ReachedIsBefore(w, p, i, Reached(rs));
    ReachedIs(rs, i);
    forall j | 0 <= j <= i ensures rs[j].link != NoSocket <==> HasSocket(w, refs[j]) {
      LinkIs(w, refs[j]);
    }
    LinkIs(w, refs[i]);
    ActiveIsObject(w, refs[i]);
  }

  lemma ActiveIsObject(w: S.World, r: S.SessionRef)
    ensures S.Active(w, r) ==> r in w.objects
  {
  }

  /** A QoS 2 event names the sending session's user as its sender. */
  lemma SenderIsNamed(c: Config, y: System, i: nat, targets: seq<UserId>, ttl: int, notifySender: bool, id: EventId, u: UserId)
    requires c.Sane() && SystemInv(c, y) && Possible(c, y, Send(i, 2, targets, ttl, notifySender, id))
    requires !Direct(y.picks[i].kind) && u in targets
    ensures var t, p := After(c, y, Send(i, 2, targets, ttl, notifySender, id)).store, y.picks[i];
      && id in t.events && u in t.events[id].status
      && (p.sender in y.world.objects ==> t.events[id].opts == Options(2, ttl, y.world.objects[p.sender].who.id, notifySender))
  {
    hide Inv, SR.Inv, PickOk, AfterFirstSend;
    QosTwoKeepsAll(c, y.store, ReceiversOf(y.world, y.picks[i].receivers), targets, ttl, IdOf(y.world, y.picks[i].sender), notifySender, id, u);
  }

  // ---------- when a first send breaks off ----------

  /** The loop throws exactly when a receiver has been suspended, or has left, since it was chosen. */
  lemma BreaksWhenGone(w: S.World, p: Pick)
    requires SR.Inv(w) && PickOk(w, p)
    ensures Breaks(ReceiversOf(w, p.receivers)) <==>
      exists r :: r in p.receivers && (!SR.Registered(w, r) || w.objects[r].phase == S.SUSPEND)
  {
    hide SR.Tables, SR.Trace, SR.TimerOk, Reached, S.Active;
    var rs := ReceiversOf(w, p.receivers);
    BreaksAtNoSocket(rs);
    forall r | r in p.receivers ensures LinkOf(w, r) == NoSocket <==> !SR.Registered(w, r) || w.objects[r].phase == S.SUSPEND {
      assert MayHear(w, p.sender, p.kind, r);
      assert SR.SessionOk(w, r);
    }
    if i :| 0 <= i < |rs| && rs[i].link == NoSocket {
      assert p.receivers[i] in p.receivers;
    }
    if r :| r in p.receivers && LinkOf(w, r) == NoSocket {
      var i :| 0 <= i < |p.receivers| && p.receivers[i] == r;
      assert rs[i].link == NoSocket;
    }
  }

  /**
   * The QoS 1 split in every run: every target and every receiver is either written to or stored,
   * and not both, if and only if every chosen receiver is still registered and not suspended, and
   * none that is a target has a socket that is closing.
   */
  lemma FirstSendSplit(c: Config, now: int, timeout: nat, ts: seq<Turn>, i: nat, targets: seq<UserId>)
    requires c.Sane() && Turns(c, Started(now, timeout), ts)
    requires i < |Ran(c, Started(now, timeout), ts).picks|
    ensures
      var w, p := Ran(c, Started(now, timeout), ts).world, Ran(c, Started(now, timeout), ts).picks[i];
      var receivers := ReceiversOf(w, p.receivers);
      (forall u :: u in targets || u in Ids(receivers) ==> ServedOnce(receivers, targets, u)) <==>
        && (forall r :: r in p.receivers ==> SR.Registered(w, r) && w.objects[r].phase != S.SUSPEND)
        && (forall u :: u in targets ==> !LinkedAs(receivers, u, Closing))
  {
    hide Turns, Ran, Inv, SR.Inv, PickOk, ServedOnce, LinkedAs, Unique, Breaks;
    TurnsKeep(c, now, timeout, ts);
    var y := Ran(c, Started(now, timeout), ts);
    var p := y.picks[i];
    PickUnique(y.world, p);
    LiveOrStored(ReceiversOf(y.world, p.receivers), targets);
    BreaksWhenGone(y.world, p);
  }
}
