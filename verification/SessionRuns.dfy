// Runs of the session machine: every step, and what all runs keep.
module SessionRuns {
  import opened Ordered
  import opened Sessions
  import opened Wrappers

  /**
   * One step. `Drop` is a socket that leaves the open state (a close frame, the heartbeat, the
   * network); `CloseEvent` is its close event, which may be delivered any number of times.
   */
  datatype Step =
    | Elapse(ms: nat)
    | NewConnection(c: SocketId, open: bool, fresh_: SessionRef, who: Ident)
    | Drop(c: SocketId)
    | CloseEvent(c: SocketId, t: TimerId)
    | SuspendTimer(t: TimerId)

  ghost predicate Enabled(w: World, e: Step) {
    Closed(w) &&
    match e
    case Elapse(_) => true
    case NewConnection(c, _, f, _) => c !in w.clients && f !in w.objects
    case Drop(c) => c in w.clients
    case CloseEvent(c, t) => c in w.clients && t !in w.timers
    case SuspendTimer(t) => t in w.timers && w.timers[t].due <= w.now
  }

  ghost function Next(w: World, e: Step): World
    requires Enabled(w, e)
  {
    match e
    case Elapse(ms) => w.(now := w.now + ms)
    case NewConnection(c, open, f, who) => Connect(w, c, open, f, who)
    case Drop(c) => Shut(w, Some(c))
    case CloseEvent(c, t) => Close(w, c, t)
    case SuspendTimer(t) => TimerFires(w, t)
  }

  // ---------- the session machine ----------

  predicate Registered(w: World, r: SessionRef) {
    r in w.objects && w.objects[r].who.id in w.reg.sessions && w.reg.sessions[w.objects[r].who.id] == r
  }

  /** What holds of every session between two steps. */
  ghost predicate SessionOk(w: World, r: SessionRef)
    requires r in w.objects
  {
    var s := w.objects[r];
    && (Registered(w, r) ==>
      && (if Managed(s.who.kind) then s.phase == ONLINE || s.phase == SUSPEND else s.phase == CONNECTING)
      && (s.phase == SUSPEND <==> s.socket == None)
      && (s.phase == SUSPEND <==> s.timer.Some?)
      && (s.timer.Some? ==> s.timer.value in w.timers && w.timers[s.timer.value] == Timer(r, s.lastSeen + w.timeout)))
    && (!Registered(w, r) ==> s.phase == OFFLINE && s.socket == None)
    && (s.socket.Some? ==> s.socket.value in w.clients && w.clients[s.socket.value].session == Some(r))
  }

  /** An armed timer is the one its registered session knows. */
  ghost predicate TimerOk(w: World, t: TimerId)
    requires t in w.timers
  {
    var r := w.timers[t].session;
    Registered(w, r) && w.objects[r].timer == Some(t)
  }

  ghost predicate Machine(w: World) {
    && Closed(w)
    && (forall id :: id in w.reg.sessions ==> w.objects[w.reg.sessions[id]].who.id == id)
    && (forall r :: r in w.objects ==> SessionOk(w, r))
    && (forall t :: t in w.timers ==> TimerOk(w, t))
  }

  // ---------- the registry and its indexes ----------

  ghost function Members(w: World, t: Tenant, g: Group): set<SessionRef> {
    set r | r in w.objects && w.objects[r].who.tenant == t && InGroup(w.objects[r].who.kind, g)
  }

  /** The index holds, tenant by tenant, what a scan of the registry in its own order finds. */
  ghost predicate IndexIsScan(w: World, g: Group) {
    && (forall t :: t in IndexOf(w.reg, g) ==> IndexOf(w.reg, g)[t] != [])
    && (forall t :: Lookup(IndexOf(w.reg, g), t) == Restrict(w.reg.order, Members(w, t, g)))
  }

  ghost predicate Tables(w: World) {
    && NoDup(w.reg.order)
    && (forall r :: r in w.reg.order <==> Registered(w, r))
    && IndexIsScan(w, Devices) && IndexIsScan(w, Browsers)
  }

  // ---------- the messages about devices ----------

  /** What the tenant's browsers have been told about a device. */
  datatype Presence = Absent | Present | Away

  function Told(p: Presence, m: Message): Option<Presence> {
    match m.what
    case Connected => if p == Absent && m.phase == ONLINE then Some(Present) else None
    case Reconnect => if p != Absent && m.phase == ONLINE then Some(Present) else None
    case Suspended => if p == Present && m.phase == SUSPEND then Some(Away) else None
    case Disconnected => if p == Away && m.phase == OFFLINE then Some(Absent) else None
  }

  /** None when the messages about `id` are not in a legal order. */
  function Track(sent: seq<Message>, id: UserId): Option<Presence> {
    if sent == [] then Some(Absent)
    else
      var n := |sent| - 1;
      var p := Track(sent[..n], id);
      if sent[n].id != id || p == None then p else Told(p.value, sent[n])
  }

  function PresenceOf(w: World, id: UserId): Presence {
    if id !in w.reg.sessions || w.reg.sessions[id] !in w.objects then Absent
    else
      var s := w.objects[w.reg.sessions[id]];
      if s.who.kind != Device then Absent else if s.phase == SUSPEND then Away else Present
  }

  ghost predicate WithinTenant(w: World, m: Message) {
    forall b :: b in m.to ==>
      b in w.objects && InGroup(w.objects[b].who.kind, Browsers) && w.objects[b].who.tenant == m.tenant
  }

  ghost predicate Trace(w: World) {
    && (forall id :: Track(w.sent, id) == Some(PresenceOf(w, id)))
    && (forall m :: m in w.sent ==> WithinTenant(w, m))
  }

  ghost predicate Inv(w: World) {
    Machine(w) && Tables(w) && Trace(w)
  }

  lemma InitInv(timeout: nat, now: int)
    ensures Inv(Init(timeout, now))
  {
  }

  // ---------- each step in one piece ----------

  ghost function Cleared(timer: Option<TimerId>): set<TimerId> {
    if timer.Some? then {timer.value} else {}
  }

  ghost function AfterConnect(kind: Kind): Phase {
    if Managed(kind) then ONLINE else CONNECTING
  }

  /** Session `r` on the new socket `c`: online, with no timer, the old socket shut. */
  ghost function Rebound(w: World, r: SessionRef, c: SocketId, open: bool): World
    requires r in w.objects
  {
    var s := w.objects[r];
    w.(objects := w.objects[r := Session(s.who, AfterConnect(s.who.kind), Some(c), None, w.now)],
       clients := Shut(w, s.socket).clients[c := Client(Some(r), open, s.phase == SUSPEND || !InGroup(s.who.kind, Browsers))],
       timers := w.timers - Cleared(s.timer))
  }

  ghost function Arrived(w: World, f: SessionRef, who: Ident, c: SocketId, open: bool): World {
    w.(objects := w.objects[f := Session(who, AfterConnect(who.kind), Some(c), None, w.now)],
       clients := w.clients[c := Client(Some(f), open, false)],
       reg := Register(w.reg, f, who))
  }

  ghost function Paused(w: World, r: SessionRef, c: SocketId, t: TimerId): World
    requires r in w.objects
  {
    w.(objects := w.objects[r := Session(w.objects[r].who, SUSPEND, None, Some(t), w.now)],
       clients := Shut(w, Some(c)).clients,
       timers := w.timers[t := Timer(r, w.now + w.timeout)])
  }

  ghost function Retired(w: World, r: SessionRef, t: TimerId): World
    requires r in w.objects
  {
    var s := w.objects[r];
    w.(objects := w.objects[r := s.(phase := OFFLINE)],
       timers := w.timers - {t},
       reg := Unregister(w.reg, s.who.id, s.who))
  }

  lemma EstablishRegistered(w: World, c: SocketId, client: Client, f: SessionRef, who: Ident)
    requires Machine(w) && c !in w.clients && who.id in w.reg.sessions && client.session == None
    ensures
      var r := w.reg.sessions[who.id];
      var s := w.objects[r];
      var resume := s.phase == SUSPEND || !InGroup(s.who.kind, Browsers);
      Establish(w.(clients := w.clients[c := client]), c, f, who) ==
        w.(objects := w.objects[r := Session(s.who, CONNECTING, Some(c), None, w.now)],
           clients := Shut(w, s.socket).clients[c := client.(session := Some(r), resume := resume)],
           timers := w.timers - Cleared(s.timer))
  {
    hide Replace, Resume, TimerOk, Shut;
    var r := w.reg.sessions[who.id];
    assert SessionOk(w, r);
    if w.objects[r].phase == SUSPEND {
      ResumeIs(w, c, client, r);
    } else {
      ReplaceIs(w, c, client, r);
    }
  }

  /** Session `r` with the socket `c`, before it goes online. */
  ghost function Tied(w: World, r: SessionRef, c: SocketId, client: Client, resume: bool): World
    requires r in w.objects
  {
    var s := w.objects[r];
    w.(objects := w.objects[r := Session(s.who, CONNECTING, Some(c), None, w.now)],
       clients := Shut(w, s.socket).clients[c := client.(session := Some(r), resume := resume)],
       timers := w.timers - Cleared(s.timer))
  }

  lemma ResumeIs(w: World, c: SocketId, client: Client, r: SessionRef)
    requires r in w.objects && c !in w.clients && w.objects[r].socket == None
    ensures Resume(w.(clients := w.clients[c := client]), r, c) == Tied(w, r, c, client, true)
  {
    assert w.clients[c := client][c := client.(session := Some(r), resume := true)] == w.clients[c := client.(session := Some(r), resume := true)];
  }

  lemma ReplaceIs(w: World, c: SocketId, client: Client, r: SessionRef)
    requires r in w.objects && c !in w.clients && w.objects[r].timer == None
    requires w.objects[r].socket.Some? && w.objects[r].socket.value in w.clients
    ensures Replace(w.(clients := w.clients[c := client]), r, c) == Tied(w, r, c, client, !InGroup(w.objects[r].who.kind, Browsers))
  {
    var met := w.(clients := w.clients[c := client]);
    var v := Replace(met, r, c);
    var t := Tied(w, r, c, client, !InGroup(w.objects[r].who.kind, Browsers));
    assert v.objects == t.objects;
    assert v.clients == t.clients;
    assert v.timers == t.timers;
  }

  /** A connect with a registered id: whatever it was doing, the session now has the new socket. */
  lemma ConnectRegistered(w: World, c: SocketId, open: bool, f: SessionRef, who: Ident)
    requires Machine(w) && c !in w.clients && who.id in w.reg.sessions
    ensures var r := w.reg.sessions[who.id]; Connect(w, c, open, f, who) == Announce(Rebound(w, r, c, open), r, Reconnect)
  {
    hide Establish, OnConnect, SessionOk, TimerOk, Shut, Audience;
    var r := w.reg.sessions[who.id];
    var met := w.(clients := w.clients[c := Client(None, open, false)]);
    EstablishRegistered(w, c, Client(None, open, false), f, who);
    ConnectedIs(Establish(met, c, f, who), r, c, w.objects, w.objects[r].who);
  }

  /** Going online after the socket is bound. */
  lemma ConnectedIs(w: World, r: SessionRef, c: SocketId, was: map<SessionRef, Session>, who: Ident)
    requires w.objects == was[r := Session(who, CONNECTING, Some(c), None, w.now)] && c in w.clients
    ensures OnConnect(w, r) ==
      Announce(w.(objects := was[r := Session(who, AfterConnect(who.kind), Some(c), None, w.now)]), r,
        if w.clients[c].resume then Reconnect else Connected)
  {
    assert w.objects[r := Session(who, ONLINE, Some(c), None, w.now)] == was[r := Session(who, ONLINE, Some(c), None, w.now)];
  }

  lemma ConnectNew(w: World, c: SocketId, open: bool, f: SessionRef, who: Ident)
    requires Machine(w) && c !in w.clients && f !in w.objects && who.id !in w.reg.sessions
    ensures Connect(w, c, open, f, who) == Announce(Arrived(w, f, who, c, open), f, Connected)
  {
    var met := w.(clients := w.clients[c := Client(None, open, false)]);
    var w1 := Establish(met, c, f, who);
    assert w1.clients == w.clients[c := Client(Some(f), open, false)];
    assert w1.objects == w.objects[f := Session(who, CONNECTING, Some(c), None, w.now)];
    assert w1.reg == Register(w.reg, f, who);
    ConnectedIs(w1, f, c, w.objects, who);
  }

  /** The close event of a socket that no session holds. */
  ghost predicate Detached(w: World, c: SocketId) {
    forall r :: r in w.objects ==> w.objects[r].socket != Some(c)
  }

  lemma CloseDetached(w: World, c: SocketId, t: TimerId)
    requires Machine(w) && c in w.clients && Detached(w, c)
    ensures Close(w, c, t) == Shut(w, Some(c))
  {
  }

  /** Who hears of a device depends on the sessions' identities and sockets alone. */
  lemma AudienceCong(v: World, w: World, r: SessionRef)
    requires v.reg == w.reg && v.clients == w.clients && v.objects.Keys == w.objects.Keys && r in w.objects
    requires forall b :: b in w.objects ==> v.objects[b].who == w.objects[b].who && v.objects[b].socket == w.objects[b].socket
    ensures Audience(v, r) == Audience(w, r)
  {
    assert forall b :: b in w.objects ==> (Interested(v, r, b) <==> Interested(w, r, b));
    assert (set b | b in v.objects && Interested(v, r, b)) == (set b | b in w.objects && Interested(w, r, b));
  }

  /** The close event of the socket that session `r` holds. */
  lemma CloseAttached(w: World, c: SocketId, t: TimerId, r: SessionRef)
    requires Machine(w) && c in w.clients && r in w.objects && w.objects[r].socket == Some(c) && Managed(w.objects[r].who.kind)
    ensures Close(w, c, t) == Announce(Paused(w, r, c, t), r, Suspended)
  {
    hide Audience, OnDisconnect, TimerOk, Announce;
    assert SessionOk(w, r);
    PauseIs(Shut(w, Some(c)), r, t);
  }

  lemma PauseIs(w: World, r: SessionRef, t: TimerId)
    requires r in w.objects && Closed(w) && Managed(w.objects[r].who.kind)
    requires w.objects[r].phase == ONLINE && w.objects[r].timer == None
    ensures OnDisconnect(w, r, t) ==
      Announce(w.(objects := w.objects[r := Session(w.objects[r].who, SUSPEND, None, Some(t), w.now)],
                  timers := w.timers[t := Timer(r, w.now + w.timeout)]), r, Suspended)
  {
    hide Audience, OnSuspend, OnDisconnect, Interested, Closed;
    var s := w.objects[r];
    var armed := w.(objects := w.objects[r := Session(s.who, SUSPEND, None, Some(t), w.now)],
                    timers := w.timers[t := Timer(r, w.now + w.timeout)]);
    var seen := PutSession(w, r, s.(lastSeen := w.now));
    DisconnectIs(w, r, t);
    SuspendIs(seen, r);
    var suspended := seen.(objects := seen.objects[r := seen.objects[r].(phase := SUSPEND, socket := None)]);
    AudienceCong(suspended, armed, r);
    assert suspended.objects[r := armed.objects[r]] == armed.objects;
  }

  lemma DisconnectIs(w: World, r: SessionRef, t: TimerId)
    requires r in w.objects && Closed(w) && Managed(w.objects[r].who.kind)
    requires w.objects[r].phase != REPLACE && w.objects[r].phase != OFFLINE
    ensures
      var suspended := OnSuspend(PutSession(w, r, w.objects[r].(lastSeen := w.now)), r);
      r in suspended.objects &&
      OnDisconnect(w, r, t) == suspended.(
        timers := suspended.timers[t := Timer(r, w.now + w.timeout)],
        objects := suspended.objects[r := suspended.objects[r].(timer := Some(t))])
  {
    hide Audience, Closed;
  }

  lemma SuspendIs(w: World, r: SessionRef)
    requires r in w.objects && w.objects[r].timer == None
    ensures OnSuspend(w, r) ==
      Announce(w.(objects := w.objects[r := w.objects[r].(phase := SUSPEND, socket := None)]), r, Suspended)
  {
  }

  /** The sessions without a lifecycle keep their socket for good. */
  lemma CloseUnmanaged(w: World, c: SocketId, t: TimerId, r: SessionRef)
    requires Machine(w) && c in w.clients && r in w.objects && w.objects[r].socket == Some(c) && !Managed(w.objects[r].who.kind)
    ensures Close(w, c, t) == Shut(w, Some(c))
  {
    assert SessionOk(w, r);
  }

  /** A suspend timer that fires retires its session. */
  lemma TimerRetires(w: World, t: TimerId)
    requires Machine(w) && t in w.timers
    ensures var r := w.timers[t].session; w.objects[r].phase == SUSPEND && TimerFires(w, t) == Announce(Retired(w, r, t), r, Disconnected)
  {
    hide Audience;
    assert TimerOk(w, t);
    assert SessionOk(w, w.timers[t].session);
  }

  // ---------- the machine invariant ----------

  /** `v` differs from `w` at session `r` and its timer only; sockets keep their sessions. */
  ghost predicate TouchesOnly(w: World, v: World, r: SessionRef) {
    TouchesSession(w, v, r) && TouchesTimers(w, v, r)
  }

  ghost predicate TouchesSession(w: World, v: World, r: SessionRef) {
    && r in v.objects && v.objects.Keys == w.objects.Keys + {r} && v.timeout == w.timeout
    && (forall q :: q in w.objects && q != r ==> v.objects[q] == w.objects[q] && (Registered(v, q) <==> Registered(w, q)))
    && (forall c :: c in w.clients ==> c in v.clients && v.clients[c].session == w.clients[c].session)
    && (forall c :: c in v.clients && c !in w.clients && v.clients[c].session.Some? ==> v.clients[c].session.value in v.objects)
  }

  ghost predicate TouchesTimers(w: World, v: World, r: SessionRef) {
    && (forall t :: t in w.timers && w.timers[t].session != r ==> t in v.timers && v.timers[t] == w.timers[t])
    && (forall t :: t in v.timers && v.timers[t].session != r ==> t in w.timers && v.timers[t] == w.timers[t])
  }

  lemma TouchKeepsMachine(w: World, v: World, r: SessionRef)
    requires Machine(w) && TouchesOnly(w, v, r) && SessionOk(v, r)
    requires forall id :: id in v.reg.sessions ==> v.reg.sessions[id] in v.objects && v.objects[v.reg.sessions[id]].who.id == id
    requires forall t :: t in v.timers && v.timers[t].session == r ==> TimerOk(v, t)
    ensures Machine(v)
  {
    hide SessionOk, TimerOk;
    forall q | q in v.objects && q != r ensures SessionOk(v, q) {
      TouchKeepsSession(w, v, r, q);
    }
    forall t | t in v.timers && v.timers[t].session != r ensures TimerOk(v, t) {
      TouchKeepsTimer(w, v, r, t);
    }
  }

  lemma TouchKeepsSession(w: World, v: World, r: SessionRef, q: SessionRef)
    requires Machine(w) && TouchesOnly(w, v, r) && q in v.objects && q != r
    ensures SessionOk(v, q)
  {
    assert SessionOk(w, q);
  }

  lemma TouchKeepsTimer(w: World, v: World, r: SessionRef, t: TimerId)
    requires Machine(w) && TouchesOnly(w, v, r) && t in v.timers && v.timers[t].session != r
    ensures TimerOk(v, t)
  {
    assert TimerOk(w, t);
  }

  lemma AnnounceKeepsMachine(w: World, r: SessionRef, what: Label)
    requires Machine(w) && r in w.objects
    ensures Machine(Announce(w, r, what)) && Announce(w, r, what) == w.(sent := Announce(w, r, what).sent)
    ensures Tables(w) ==> Tables(Announce(w, r, what))
  {
    var v := Announce(w, r, what);
    assert forall q :: Registered(v, q) <==> Registered(w, q);
    forall q | q in v.objects ensures SessionOk(v, q) {
      assert SessionOk(w, q);
    }
    forall t | t in v.timers ensures TimerOk(v, t) {
      assert TimerOk(w, t);
    }
    if Tables(w) {
      SameTables(w, v);
    }
  }

  // ---------- the tables ----------

  lemma SameTables(w: World, v: World)
    requires Tables(w) && v.reg == w.reg && v.objects.Keys == w.objects.Keys
    requires forall r :: r in w.objects ==> v.objects[r].who == w.objects[r].who
    ensures Tables(v)
  {
    assert forall r :: Registered(v, r) <==> Registered(w, r);
    forall t, g ensures Members(v, t, g) == Members(w, t, g) {
    }
  }

  /** Appending a new session to the scan and to its tenant's group is the same. */
  lemma IndexRegister(w: World, v: World, f: SessionRef, who: Ident, g: Group)
    requires Machine(w) && Tables(w) && f !in w.objects && who.id !in w.reg.sessions
    requires v.reg == Register(w.reg, f, who) && v.objects.Keys == w.objects.Keys + {f} && v.objects[f].who == who
    requires forall r :: r in w.objects ==> v.objects[r].who == w.objects[r].who
    ensures IndexIsScan(v, g)
  {
    hide Joined, SessionOk, TimerOk, NoDup;
    assert f !in w.reg.order;
    JoinedLookup(IndexOf(w.reg, g), who.tenant, f);
    forall t ensures Lookup(IndexOf(v.reg, g), t) == Restrict(v.reg.order, Members(v, t, g)) {
      hide Joined, Lookup, Restrict, Machine;
      RestrictSnoc(w.reg.order, f, Members(v, t, g));
      RestrictCong(w.reg.order, Members(v, t, g), Members(w, t, g));
      RestrictElems(w.reg.order, Members(w, t, g));
      assert f !in Elems(Restrict(w.reg.order, Members(w, t, g)));
    }
  }

  lemma RestrictSnoc(order: seq<SessionRef>, f: SessionRef, keep: set<SessionRef>)
    ensures Restrict(order + [f], keep) == Restrict(order, keep) + if f in keep then [f] else []
  {
    assert (order + [f])[..|order|] == order;
  }

  lemma JoinedLookup(index: Index, t: Tenant, r: SessionRef)
    requires forall u :: u in index ==> index[u] != []
    ensures forall u :: u in Joined(index, t, r) ==> Joined(index, t, r)[u] != []
    ensures forall u :: Lookup(Joined(index, t, r), u) == Lookup(index, u) + if u == t && r !in Lookup(index, t) then [r] else []
  {
  }

  lemma RegisterKeepsTables(w: World, v: World, f: SessionRef, who: Ident)
    requires Machine(w) && Tables(w) && f !in w.objects && who.id !in w.reg.sessions
    requires v.reg == Register(w.reg, f, who) && v.objects.Keys == w.objects.Keys + {f} && v.objects[f].who == who
    requires forall r :: r in w.objects ==> v.objects[r].who == w.objects[r].who
    ensures Tables(v)
    ensures forall r :: Registered(v, r) <==> Registered(w, r) || r == f
  {
    hide IndexIsScan;
    IndexRegister(w, v, f, who, Devices);
    IndexRegister(w, v, f, who, Browsers);
    assert f !in w.reg.order && v.reg.order == w.reg.order + [f];
  }

  lemma LeftLookup(index: Index, t: Tenant, r: SessionRef)
    requires forall u :: u in index ==> index[u] != []
    ensures forall u :: u in Left(index, t, r) ==> Left(index, t, r)[u] != []
    ensures forall u :: Lookup(Left(index, t, r), u) == if u == t then Without(Lookup(index, t), r) else Lookup(index, u)
  {
  }

  lemma IndexUnregister(w: World, v: World, r: SessionRef, g: Group)
    requires Machine(w) && Tables(w) && Registered(w, r)
    requires v.reg == Unregister(w.reg, w.objects[r].who.id, w.objects[r].who) && v.objects.Keys == w.objects.Keys
    requires forall q :: q in w.objects ==> v.objects[q].who == w.objects[q].who
    ensures IndexIsScan(v, g)
  {
    var who := w.objects[r].who;
    LeftLookup(IndexOf(w.reg, g), who.tenant, r);
    forall t ensures Lookup(IndexOf(v.reg, g), t) == Restrict(v.reg.order, Members(v, t, g)) {
      hide Left, Lookup, Without, Restrict;
      assert Members(v, t, g) == Members(w, t, g);
      WithoutRestrict(w.reg.order, Members(w, t, g), r);
      if r !in Members(w, t, g) {
        assert Members(w, t, g) - {r} == Members(w, t, g);
      }
    }
  }

  lemma UnregisterKeepsTables(w: World, v: World, r: SessionRef)
    requires Machine(w) && Tables(w) && Registered(w, r)
    requires v.reg == Unregister(w.reg, w.objects[r].who.id, w.objects[r].who) && v.objects.Keys == w.objects.Keys
    requires forall q :: q in w.objects ==> v.objects[q].who == w.objects[q].who
    ensures Tables(v)
    ensures forall q :: Registered(v, q) <==> Registered(w, q) && q != r
  {
    IndexUnregister(w, v, r, Devices);
    IndexUnregister(w, v, r, Browsers);
    WithoutElems(w.reg.order, r);
    RestrictNoDup(w.reg.order, Elems(w.reg.order) - {r});
    assert forall q :: q in v.reg.order <==> q in Elems(v.reg.order);
  }

  // ---------- the messages ----------

  lemma TrackSnoc(sent: seq<Message>, m: Message, id: UserId)
    ensures Track(sent + [m], id) ==
      if m.id != id || Track(sent, id) == None then Track(sent, id) else Told(Track(sent, id).value, m)
  {
    assert (sent + [m])[..|sent|] == sent;
  }

  /** The tenant index gives a device's message to browsers of its own tenant only. */
  lemma AudienceWithinTenant(w: World, r: SessionRef, what: Label)
    requires Tables(w) && r in w.objects
    ensures WithinTenant(w, Message(what, w.objects[r].who.id, w.objects[r].who.tenant, w.objects[r].phase, Audience(w, r)))
  {
    hide Restrict;
    var tenant := w.objects[r].who.tenant;
    var group := Lookup(w.reg.browsers, tenant);
    assert group == Restrict(w.reg.order, Members(w, tenant, Browsers));
    RestrictElems(w.reg.order, Members(w, tenant, Browsers));
    RestrictElems(group, set b | b in w.objects && Interested(w, r, b));
    forall b | b in Audience(w, r) ensures b in Members(w, tenant, Browsers) {
      assert b in Elems(Audience(w, r));
    }
  }

  /** The message a device's browsers get fits what they were told before. */
  ghost predicate Tells(w: World, v: World, r: SessionRef, what: Label)
    requires r in v.objects
  {
    var s := v.objects[r];
    && (forall id :: id != s.who.id || s.who.kind != Device ==> PresenceOf(v, id) == PresenceOf(w, id))
    && (s.who.kind == Device ==>
         Told(PresenceOf(w, s.who.id), Message(what, s.who.id, s.who.tenant, s.phase, Audience(v, r))) == Some(PresenceOf(v, s.who.id)))
  }

  /** One message about `r` is added; nothing else that a browser could tell has changed. */
  lemma AnnounceKeepsTrace(w: World, v: World, r: SessionRef, what: Label)
    requires Trace(w) && Tables(v) && r in v.objects && v.sent == w.sent
    requires forall q :: q in w.objects ==> q in v.objects && v.objects[q].who == w.objects[q].who
    requires Tells(w, v, r, what)
    ensures Trace(Announce(v, r, what))
  {
    hide Audience, Tables, Track, WithinTenant, Tells, PresenceOf;
    forall id ensures Track(Announce(v, r, what).sent, id) == Some(PresenceOf(Announce(v, r, what), id)) {
      AnnounceTracked(w, v, r, what, id);
    }
    forall n | n in Announce(v, r, what).sent ensures WithinTenant(Announce(v, r, what), n) {
      AnnounceWithin(w, v, r, what, n);
    }
  }

  lemma AnnounceTracked(w: World, v: World, r: SessionRef, what: Label, id: UserId)
    requires Track(w.sent, id) == Some(PresenceOf(w, id)) && r in v.objects && v.sent == w.sent && Tells(w, v, r, what)
    ensures Track(Announce(v, r, what).sent, id) == Some(PresenceOf(Announce(v, r, what), id))
  {
    hide Audience, Track;
    var s := v.objects[r];
    TrackSnoc(w.sent, Message(what, s.who.id, s.who.tenant, s.phase, Audience(v, r)), id);
    assert PresenceOf(Announce(v, r, what), id) == PresenceOf(v, id);
  }

  lemma AnnounceWithin(w: World, v: World, r: SessionRef, what: Label, n: Message)
    requires Tables(v) && r in v.objects && v.sent == w.sent && forall m :: m in w.sent ==> WithinTenant(w, m)
    requires forall q :: q in w.objects ==> q in v.objects && v.objects[q].who == w.objects[q].who
    requires n in Announce(v, r, what).sent
    ensures WithinTenant(Announce(v, r, what), n)
  {
    hide Audience, Tables;
    AudienceWithinTenant(v, r, what);
    if n in w.sent {
      assert WithinTenant(w, n);
    }
  }

  // ---------- every step keeps the invariant ----------

  lemma AnnounceKeeps(w: World, v: World, r: SessionRef, what: Label)
    requires Inv(w) && Machine(v) && Tables(v) && r in v.objects && v.sent == w.sent && Tells(w, v, r, what)
    requires forall q :: q in w.objects ==> q in v.objects && v.objects[q].who == w.objects[q].who
    ensures Inv(Announce(v, r, what))
  {
    hide Machine, Tables, Trace;
    AnnounceKeepsTrace(w, v, r, what);
    AnnounceKeepsMachine(v, r, what);
  }

  lemma OnlyTimer(w: World, r: SessionRef)
    requires Machine(w)
    ensures forall t :: t in w.timers && w.timers[t].session == r ==> r in w.objects && w.objects[r].timer == Some(t)
  {
    hide SessionOk;
    assert forall t :: t in w.timers ==> TimerOk(w, t);
  }

  /** The timer a session names, if it is armed, is that session's. */
  lemma OwnTimer(w: World, r: SessionRef)
    requires Machine(w) && Registered(w, r)
    ensures var timer := w.objects[r].timer; timer.Some? ==> timer.value in w.timers && w.timers[timer.value].session == r
  {
    hide TimerOk;
    assert SessionOk(w, r);
  }

  lemma ReboundTouches(w: World, r: SessionRef, c: SocketId, open: bool)
    requires Machine(w) && c !in w.clients && Registered(w, r)
    ensures TouchesOnly(w, Rebound(w, r, c, open), r)
    ensures forall t :: t in Rebound(w, r, c, open).timers ==> Rebound(w, r, c, open).timers[t].session != r
  {
    hide SessionOk, TimerOk, TouchesSession, Machine;
    OnlyTimer(w, r);
    OwnTimer(w, r);
    ReboundSession(w, r, c, open);
  }

  lemma ReboundSession(w: World, r: SessionRef, c: SocketId, open: bool)
    requires Machine(w) && c !in w.clients && Registered(w, r)
    ensures TouchesSession(w, Rebound(w, r, c, open), r)
  {
    hide SessionOk, TimerOk, InGroup, AfterConnect, Cleared;
    var v := Rebound(w, r, c, open);
    assert forall q :: q in w.objects && q != r ==> (Registered(v, q) <==> Registered(w, q));
  }

  lemma ReboundIsOk(w: World, r: SessionRef, c: SocketId, open: bool)
    requires Registered(w, r)
    ensures SessionOk(Rebound(w, r, c, open), r)
  {
  }

  lemma ReboundKeeps(w: World, r: SessionRef, c: SocketId, open: bool)
    requires Machine(w) && c !in w.clients && Registered(w, r)
    ensures Machine(Rebound(w, r, c, open))
  {
    hide SessionOk, TimerOk, TouchesOnly;
    var v := Rebound(w, r, c, open);
    ReboundIsOk(w, r, c, open);
    ReboundTouches(w, r, c, open);
    TouchKeepsMachine(w, v, r);
  }

  lemma ReboundTells(w: World, r: SessionRef, c: SocketId, open: bool)
    requires Machine(w) && Registered(w, r)
    ensures Tells(w, Rebound(w, r, c, open), r, Reconnect)
  {
    hide Audience, SessionOk, TimerOk;
  }

  lemma ConnectRegisteredKeeps(w: World, c: SocketId, open: bool, f: SessionRef, who: Ident)
    requires Inv(w) && c !in w.clients && f !in w.objects && who.id in w.reg.sessions
    ensures Inv(Connect(w, c, open, f, who))
  {
    hide Audience, IndexIsScan, SessionOk, TimerOk, Tells, Connect, Announce;
    ConnectRegistered(w, c, open, f, who);
    var r := w.reg.sessions[who.id];
    ReboundKeeps(w, r, c, open);
    ReboundTells(w, r, c, open);
    SameTables(w, Rebound(w, r, c, open));
    AnnounceKeeps(w, Rebound(w, r, c, open), r, Reconnect);
  }

  lemma ArrivedKeeps(w: World, f: SessionRef, who: Ident, c: SocketId, open: bool)
    requires Machine(w) && Tables(w) && c !in w.clients && f !in w.objects && who.id !in w.reg.sessions
    ensures Machine(Arrived(w, f, who, c, open)) && Tables(Arrived(w, f, who, c, open))
  {
    hide IndexIsScan, SessionOk, TimerOk, TouchesOnly, Register;
    var v := Arrived(w, f, who, c, open);
    RegisterKeepsTables(w, v, f, who);
    ArrivedTouches(w, f, who, c, open);
    TouchKeepsMachine(w, v, f);
  }

  lemma ArrivedIsOk(w: World, f: SessionRef, who: Ident, c: SocketId, open: bool)
    ensures SessionOk(Arrived(w, f, who, c, open), f)
  {
  }

  lemma ArrivedTouches(w: World, f: SessionRef, who: Ident, c: SocketId, open: bool)
    requires Machine(w) && c !in w.clients && f !in w.objects && who.id !in w.reg.sessions
    ensures var v := Arrived(w, f, who, c, open);
      && TouchesOnly(w, v, f) && SessionOk(v, f)
      && (forall id :: id in v.reg.sessions ==> v.reg.sessions[id] in v.objects && v.objects[v.reg.sessions[id]].who.id == id)
      && forall t :: t in v.timers ==> v.timers[t].session != f
  {
    hide TimerOk, SessionOk, Joined;
    OnlyTimer(w, f);
    ArrivedIsOk(w, f, who, c, open);
  }

  lemma ConnectNewKeeps(w: World, c: SocketId, open: bool, f: SessionRef, who: Ident)
    requires Inv(w) && c !in w.clients && f !in w.objects && who.id !in w.reg.sessions
    ensures Inv(Connect(w, c, open, f, who))
  {
    hide Audience, IndexIsScan, SessionOk, TimerOk, Connect, Announce;
    ConnectNew(w, c, open, f, who);
    ArrivedKeeps(w, f, who, c, open);
    AnnounceKeeps(w, Arrived(w, f, who, c, open), f, Connected);
  }

  lemma ShutKeeps(w: World, socket: Option<SocketId>)
    requires Inv(w)
    ensures Inv(Shut(w, socket))
  {
    hide Audience, IndexIsScan, Restrict, SessionOk, TimerOk;
    var v := Shut(w, socket);
    ShutKeepsMachine(w, socket);
    SameTables(w, v);
    assert forall id :: PresenceOf(v, id) == PresenceOf(w, id);
    assert forall m :: WithinTenant(w, m) ==> WithinTenant(v, m);
  }

  lemma ShutKeepsMachine(w: World, socket: Option<SocketId>)
    requires Machine(w)
    ensures Machine(Shut(w, socket))
  {
    var v := Shut(w, socket);
    assert forall r :: Registered(v, r) <==> Registered(w, r);
    forall r | r in v.objects ensures SessionOk(v, r) {
      assert SessionOk(w, r);
    }
    forall t | t in v.timers ensures TimerOk(v, t) {
      assert TimerOk(w, t);
    }
  }

  lemma CloseKeeps(w: World, c: SocketId, t: TimerId)
    requires Inv(w) && c in w.clients && t !in w.timers
    ensures Inv(Close(w, c, t))
  {
    var session := w.clients[c].session;
    if Detached(w, c) {
      CloseDetached(w, c, t);
      ShutKeeps(w, Some(c));
    } else {
      var r :| r in w.objects && w.objects[r].socket == Some(c);
      if Managed(w.objects[r].who.kind) {
        SuspendKeeps(w, c, t, r);
      } else {
        CloseUnmanaged(w, c, t, r);
        ShutKeeps(w, Some(c));
      }
    }
  }

  lemma SuspendKeeps(w: World, c: SocketId, t: TimerId, r: SessionRef)
    requires Inv(w) && c in w.clients && t !in w.timers
    requires r in w.objects && w.objects[r].socket == Some(c) && Managed(w.objects[r].who.kind)
    ensures Inv(Close(w, c, t))
  {
    hide Audience, IndexIsScan, SessionOk, TimerOk, Tells, Close, Announce;
    CloseAttached(w, c, t, r);
    PausedKeeps(w, r, c, t);
    PausedTells(w, r, c, t);
    SameTables(w, Paused(w, r, c, t));
    AnnounceKeeps(w, Paused(w, r, c, t), r, Suspended);
  }

  lemma PausedKeeps(w: World, r: SessionRef, c: SocketId, t: TimerId)
    requires Machine(w) && t !in w.timers
    requires r in w.objects && w.objects[r].socket == Some(c) && Managed(w.objects[r].who.kind)
    ensures Machine(Paused(w, r, c, t)) && Registered(w, r)
  {
    hide SessionOk, TimerOk, TouchesOnly;
    PausedIsOk(w, r, c, t);
    PausedTouches(w, r, c, t);
    TouchKeepsMachine(w, Paused(w, r, c, t), r);
  }

  lemma PausedIsOk(w: World, r: SessionRef, c: SocketId, t: TimerId)
    requires Machine(w) && t !in w.timers
    requires r in w.objects && w.objects[r].socket == Some(c) && Managed(w.objects[r].who.kind)
    ensures Registered(w, r) && w.objects[r].timer == None && SessionOk(Paused(w, r, c, t), r) && TimerOk(Paused(w, r, c, t), t)
  {
    assert SessionOk(w, r);
  }

  lemma PausedTouches(w: World, r: SessionRef, c: SocketId, t: TimerId)
    requires Machine(w) && t !in w.timers && Registered(w, r) && w.objects[r].timer == None
    ensures TouchesOnly(w, Paused(w, r, c, t), r)
    ensures forall u :: u in Paused(w, r, c, t).timers && Paused(w, r, c, t).timers[u].session == r ==> u == t
  {
    hide SessionOk, TimerOk, TouchesSession, Machine;
    OnlyTimer(w, r);
    PausedSession(w, r, c, t);
  }

  lemma PausedSession(w: World, r: SessionRef, c: SocketId, t: TimerId)
    requires r in w.objects
    ensures TouchesSession(w, Paused(w, r, c, t), r)
  {
    var v := Paused(w, r, c, t);
    assert forall q :: q in w.objects && q != r ==> (Registered(v, q) <==> Registered(w, q));
  }

  lemma PausedTells(w: World, r: SessionRef, c: SocketId, t: TimerId)
    requires Machine(w) && Registered(w, r) && w.objects[r].socket == Some(c)
    ensures Tells(w, Paused(w, r, c, t), r, Suspended)
  {
    hide Audience;
    assert SessionOk(w, r);
  }

  lemma RetiredKeeps(w: World, r: SessionRef, t: TimerId)
    requires Machine(w) && Tables(w) && t in w.timers && w.timers[t].session == r
    ensures r in w.objects && Machine(Retired(w, r, t)) && Tables(Retired(w, r, t))
  {
    hide IndexIsScan, SessionOk, TouchesOnly, Unregister;
    assert TimerOk(w, t);
    var v := Retired(w, r, t);
    UnregisterKeepsTables(w, v, r);
    RetiredTouches(w, r, t);
    TouchKeepsMachine(w, v, r);
  }

  lemma RetiredTouches(w: World, r: SessionRef, t: TimerId)
    requires Machine(w) && Registered(w, r) && t in w.timers && w.timers[t].session == r
    ensures var v := Retired(w, r, t);
      && TouchesOnly(w, v, r) && SessionOk(v, r)
      && (forall id :: id in v.reg.sessions ==> v.reg.sessions[id] in v.objects && v.objects[v.reg.sessions[id]].who.id == id)
      && forall u :: u in v.timers ==> v.timers[u].session != r
  {
    hide TimerOk, Without, Left;
    OnlyTimer(w, r);
    assert SessionOk(w, r);
  }

  lemma RetiredTells(w: World, r: SessionRef, t: TimerId)
    requires Machine(w) && t in w.timers && w.timers[t].session == r && r in w.objects
    ensures Tells(w, Retired(w, r, t), r, Disconnected)
  {
    hide Audience;
    assert TimerOk(w, t) && SessionOk(w, r);
  }

  lemma TimerKeeps(w: World, t: TimerId)
    requires Inv(w) && t in w.timers
    ensures Inv(TimerFires(w, t))
  {
    hide Audience, IndexIsScan, SessionOk, TimerOk, Tells, TimerFires, Announce;
    TimerRetires(w, t);
    var r := w.timers[t].session;
    RetiredKeeps(w, r, t);
    RetiredTells(w, r, t);
    AnnounceKeeps(w, Retired(w, r, t), r, Disconnected);
  }

  lemma NextKeepsInv(w: World, e: Step)
    requires Inv(w) && Enabled(w, e)
    ensures Inv(Next(w, e))
  {
    hide Connect, Close, TimerFires, Shut, SessionOk, TimerOk, Tables, Trace;
    match e {
      case Elapse(ms) => ElapseKeeps(w, ms);
      case NewConnection(c, open, f, who) =>
        if who.id in w.reg.sessions {
          ConnectRegisteredKeeps(w, c, open, f, who);
        } else {
          ConnectNewKeeps(w, c, open, f, who);
        }
      case Drop(c) => ShutKeeps(w, Some(c));
      case CloseEvent(c, t) => CloseKeeps(w, c, t);
      case SuspendTimer(t) => TimerKeeps(w, t);
    }
  }

  lemma ElapseKeeps(w: World, ms: nat)
    requires Inv(w)
    ensures Inv(w.(now := w.now + ms))
  {
    hide Audience, IndexIsScan, Restrict;
    var v := w.(now := w.now + ms);
    assert forall r :: Registered(v, r) <==> Registered(w, r);
    forall r | r in v.objects ensures SessionOk(v, r) {
      assert SessionOk(w, r);
    }
    forall t | t in v.timers ensures TimerOk(v, t) {
      assert TimerOk(w, t);
    }
    SameTables(w, v);
    assert forall id :: PresenceOf(v, id) == PresenceOf(w, id);
    assert forall m :: WithinTenant(w, m) ==> WithinTenant(v, m);
  }

  // ---------- runs ----------

  ghost predicate IsRun(w: World, run: seq<Step>)
    decreases |run|, 0
  {
    run == [] || (IsRun(w, run[..|run| - 1]) && Enabled(Exec(w, run[..|run| - 1]), run[|run| - 1]))
  }

  ghost function Exec(w: World, run: seq<Step>): World
    requires IsRun(w, run)
    decreases |run|, 1
  {
    if run == [] then w else Next(Exec(w, run[..|run| - 1]), run[|run| - 1])
  }

  lemma {:induction false} RunKeepsInv(w: World, run: seq<Step>)
    requires Inv(w) && IsRun(w, run)
    ensures Inv(Exec(w, run))
    decreases |run|
  {
    hide Inv, Next;
    if run != [] {
      var n := |run| - 1;
      RunKeepsInv(w, run[..n]);
      NextKeepsInv(Exec(w, run[..n]), run[n]);
    }
  }

  lemma {:induction false} PrefixIsRun(w: World, run: seq<Step>, n: nat)
    requires IsRun(w, run) && n <= |run|
    ensures IsRun(w, run[..n])
    decreases |run|
  {
    if n < |run| {
      PrefixIsRun(w, run[..|run| - 1], n);
      assert run[..|run| - 1][..n] == run[..n];
    } else {
      assert run[..n] == run;
    }
  }
}
