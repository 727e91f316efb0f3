// Sessions, sockets, the registry and the gateway as the source has them: objects that point at
// each other and are updated in place. Each method is proved against the operation of the same
// name in Sessions.
module Gateway {
  import opened Ordered
  import opened Sessions
  import opened Wrappers
  import opened SessionRuns
  import EM = EventModel
  import ES = EventStore
  import Delivery
  import Server

  const OPEN := 1
  const CLOSING := 2

  class WsClient {
    const ref: SocketId
    var session: WsSession?
    var readyState: int
    var isResume: bool

    constructor (ref: SocketId, readyState: int)
      ensures this.ref == ref && this.readyState == readyState && session == null && !isResume
    {
      this.ref, this.readyState, session, isResume := ref, readyState, null, false;
    }

    function Value(): Client
      reads this
    {
      Client(if session == null then None else Some(session.ref), readyState == OPEN, isResume)
    }

    method Attach(session: WsSession, resume: bool)
      modifies this`session, this`isResume
      ensures Value() == old(Value()).(session := Some(session.ref), resume := resume)
      ensures this.session == session
    {
      isResume := resume;
      this.session := session;
    }

    /** `close` and `terminate`: the close event comes later. */
    method Close()
      modifies this`readyState
      ensures Value() == old(Value()).(open := false)
    {
      readyState := CLOSING;
    }
  }

  class WsSession {
    const ref: SessionRef
    const who: Ident
    var state: Phase
    var socket: WsClient?
    var suspendTimer: Option<TimerId>
    var lastSeen: int

    constructor (ref: SessionRef, who: Ident, socket: WsClient, now: int)
      ensures this.ref == ref && this.who == who && this.socket == socket
      ensures Value() == Session(who, CONNECTING, Some(socket.ref), None, now)
    {
      this.ref, this.who, state, this.socket, suspendTimer, lastSeen := ref, who, CONNECTING, socket, None, now;
    }

    function Value(): Session
      reads this
    {
      Session(who, state, if socket == null then None else Some(socket.ref), suspendTimer, lastSeen)
    }

    method Bind(client: WsClient, timer: Option<TimerId>, now: int)
      modifies this
      ensures Value() == old(Value()).(socket := Some(client.ref), phase := CONNECTING, timer := timer, lastSeen := now)
      ensures socket == client
    {
      suspendTimer := timer;
      socket := client;
      state := CONNECTING;
      lastSeen := now;
    }

    predicate IsActive()
      reads this, socket
    {
      socket != null && socket.readyState == OPEN
    }
  }

  // ---------- the registry ----------

  function Refs(sessions: seq<WsSession>): seq<SessionRef> {
    seq(|sessions|, i requires 0 <= i < |sessions| => sessions[i].ref)
  }

  /** The session is the one the number `ref` stands for. */
  ghost predicate Known(objects: map<SessionRef, WsSession>, s: WsSession) {
    s.ref in objects && objects[s.ref] == s
  }

  lemma RefsMember(objects: map<SessionRef, WsSession>, xs: seq<WsSession>, x: WsSession)
    requires Known(objects, x) && forall y :: y in xs ==> Known(objects, y)
    ensures x in xs <==> x.ref in Refs(xs)
  {
    if x in xs {
      var i :| 0 <= i < |xs| && xs[i] == x;
      assert Refs(xs)[i] == x.ref;
    }
    if x.ref in Refs(xs) {
      var i :| 0 <= i < |xs| && Refs(xs)[i] == x.ref;
      assert xs[i] in xs;
    }
  }

  /** Keeping sessions is keeping their references. */
  lemma {:induction false} RefsRestrict(objects: map<SessionRef, WsSession>, xs: seq<WsSession>, keep: set<WsSession>, refs: set<SessionRef>)
    requires forall x :: x in xs ==> Known(objects, x) && (x in keep <==> x.ref in refs)
    ensures Refs(Restrict(xs, keep)) == Restrict(Refs(xs), refs)
  {
    if xs != [] {
      var n := |xs| - 1;
      RefsRestrict(objects, xs[..n], keep, refs);
      assert Refs(xs)[..n] == Refs(xs[..n]);
    }
  }

  lemma RefsWithout(objects: map<SessionRef, WsSession>, xs: seq<WsSession>, x: WsSession)
    requires Known(objects, x) && forall y :: y in xs ==> Known(objects, y)
    ensures Refs(Without(xs, x)) == Without(Refs(xs), x.ref)
    ensures forall y :: y in Without(xs, x) ==> y in xs
  {
    forall y | y in xs ensures y in Elems(xs) - {x} <==> y.ref in Elems(Refs(xs)) - {x.ref} {
      RefsMember(objects, xs, y);
    }
    RefsRestrict(objects, xs, Elems(xs) - {x}, Elems(Refs(xs)) - {x.ref});
    RestrictElems(xs, Elems(xs) - {x});
    forall y | y in Without(xs, x) ensures y in xs {
      assert y in Elems(Without(xs, x));
    }
  }

  type Groups = map<Tenant, seq<WsSession>>

  function GroupRefs(groups: Groups): Index {
    map t | t in groups :: Refs(groups[t])
  }

  ghost predicate GroupsKnown(objects: map<SessionRef, WsSession>, groups: Groups) {
    forall t, s :: t in groups && s in groups[t] ==> Known(objects, s)
  }

  class WebSocketSessionRegistry {
    var sessions: map<UserId, WsSession>
    /** The insertion order in which the map `sessions` iterates. */
    var order: seq<WsSession>
    var tenantDevices: Groups
    var tenantBrowsers: Groups

    constructor ()
      ensures Value() == Registry(map[], [], map[], map[])
      ensures Holds(map[])
    {
      sessions, order, tenantDevices, tenantBrowsers := map[], [], map[], map[];
    }

    function Value(): Registry
      reads this
    {
      Registry(map id | id in sessions :: sessions[id].ref, Refs(order), GroupRefs(tenantDevices), GroupRefs(tenantBrowsers))
    }

    ghost predicate Holds(objects: map<SessionRef, WsSession>)
      reads this
    {
      && (forall id :: id in sessions ==> Known(objects, sessions[id]))
      && (forall s :: s in order ==> Known(objects, s))
      && GroupsKnown(objects, tenantDevices) && GroupsKnown(objects, tenantBrowsers)
    }

    static function GroupOf(groups: Groups, t: Tenant): seq<WsSession> {
      if t in groups then groups[t] else []
    }

    static function Added(groups: Groups, t: Tenant, s: WsSession): Groups {
      groups[t := if s in GroupOf(groups, t) then GroupOf(groups, t) else GroupOf(groups, t) + [s]]
    }

    static function Deleted(groups: Groups, t: Tenant, s: WsSession): Groups {
      if t !in groups then groups
      else
        var rest := Without(groups[t], s);
        if rest == [] then groups - {t} else groups[t := rest]
    }

    static lemma AddedIsJoined(objects: map<SessionRef, WsSession>, groups: Groups, t: Tenant, s: WsSession)
      requires GroupsKnown(objects, groups) && Known(objects, s)
      ensures GroupRefs(Added(groups, t, s)) == Joined(GroupRefs(groups), t, s.ref)
      ensures GroupsKnown(objects, Added(groups, t, s))
    {
      RefsMember(objects, GroupOf(groups, t), s);
      assert Refs(GroupOf(groups, t) + [s]) == Refs(GroupOf(groups, t)) + [s.ref];
    }

    static lemma DeletedIsLeft(objects: map<SessionRef, WsSession>, groups: Groups, t: Tenant, s: WsSession)
      requires GroupsKnown(objects, groups) && Known(objects, s)
      ensures GroupRefs(Deleted(groups, t, s)) == Left(GroupRefs(groups), t, s.ref)
      ensures GroupsKnown(objects, Deleted(groups, t, s))
    {
      hide Without;
      if t in groups {
        RefsWithout(objects, groups[t], s);
        assert Refs([]) == [];
        assert Without(groups[t], s) != [] ==> Refs(Without(groups[t], s)) != [];
      }
    }

    static function Replaced(order: seq<WsSession>, old_: WsSession, s: WsSession): seq<WsSession> {
      seq(|order|, i requires 0 <= i < |order| => if order[i] == old_ then s else order[i])
    }

    method Register(session: WsSession, ghost objects: map<SessionRef, WsSession>)
      requires Holds(objects) && Known(objects, session)
      modifies this
      ensures Value() == Sessions.Register(old(Value()), session.ref, session.who)
      ensures Holds(objects)
    {
      hide Added, Joined, GroupRefs, GroupsKnown;
      var tenantId := session.who.tenant;
      AddedIsJoined(objects, tenantDevices, tenantId, session);
      AddedIsJoined(objects, tenantBrowsers, tenantId, session);
      SetSession(session, objects);
      if session.who.kind == Device {
        tenantDevices := Added(tenantDevices, tenantId, session);
      } else if session.who.kind == Browser || session.who.kind == Desktop {
        tenantBrowsers := Added(tenantBrowsers, tenantId, session);
      }
    }

    /** `sessions.set` */
    method SetSession(session: WsSession, ghost objects: map<SessionRef, WsSession>)
      requires Holds(objects) && Known(objects, session)
      modifies this`sessions, this`order
      ensures var reg := old(Value()); Value() == reg.(
        sessions := reg.sessions[session.who.id := session.ref],
        order := if session.who.id in reg.sessions then Swapped(reg.order, reg.sessions[session.who.id], session.ref) else reg.order + [session.ref])
      ensures Holds(objects)
    {
      var id := session.who.id;
      ghost var reg := Value();
      if id in sessions {
        assert forall i :: 0 <= i < |order| ==> order[i] in order;
        order := Replaced(order, sessions[id], session);
        assert Refs(order) == Swapped(reg.order, reg.sessions[id], session.ref);
      } else {
        order := order + [session];
        assert Refs(order) == reg.order + [session.ref];
      }
      sessions := sessions[id := session];
    }

    method Unregister(sessionId: UserId, ghost objects: map<SessionRef, WsSession>)
      requires Holds(objects)
      modifies this
      ensures Value() == if sessionId in old(sessions)
        then Sessions.Unregister(old(Value()), sessionId, old(sessions)[sessionId].who) else old(Value())
      ensures Holds(objects)
    {
      hide Deleted, Left, GroupRefs, GroupsKnown, Refs, Without;
      if sessionId !in sessions {
        return;
      }
      var session := sessions[sessionId];
      var tenantId := session.who.tenant;
      DeletedIsLeft(objects, tenantDevices, tenantId, session);
      DeletedIsLeft(objects, tenantBrowsers, tenantId, session);
      RefsWithout(objects, order, session);
      if session.who.kind == Device {
        tenantDevices := Deleted(tenantDevices, tenantId, session);
      } else if session.who.kind == Browser || session.who.kind == Desktop {
        tenantBrowsers := Deleted(tenantBrowsers, tenantId, session);
      }
      sessions := sessions - {sessionId};
      order := Without(order, session);
    }

    function Find(sessionId: UserId): (session: WsSession?)
      reads this
    {
      if sessionId in sessions then sessions[sessionId] else null
    }

    function GetDevicesByTenant(tenantId: Tenant): seq<WsSession>
      reads this
    {
      GroupOf(tenantDevices, tenantId)
    }

    function GetBrowsersByTenant(tenantId: Tenant): seq<WsSession>
      reads this
    {
      GroupOf(tenantBrowsers, tenantId)
    }
  }

  // ---------- the gateway, the session manager and the lifecycles ----------

  datatype PendingTimer = PendingTimer(session: WsSession, due: int)

  ghost predicate SessionsHeld(objects: map<SessionRef, WsSession>, vals: map<SessionRef, Session>, clients: map<SocketId, WsClient>)
    reads objects.Values
  {
    objects.Keys == vals.Keys && forall r :: r in objects ==>
      objects[r].ref == r && objects[r].Value() == vals[r] && (objects[r].socket != null ==> KnownClient(clients, objects[r].socket))
  }

  ghost predicate ClientsHeld(clients: map<SocketId, WsClient>, vals: map<SocketId, Client>, objects: map<SessionRef, WsSession>)
    reads clients.Values
  {
    clients.Keys == vals.Keys && forall c :: c in clients ==>
      clients[c].ref == c && clients[c].Value() == vals[c] && (clients[c].session != null ==> Known(objects, clients[c].session))
  }

  ghost predicate TimersHeld(timers: map<TimerId, PendingTimer>, vals: map<TimerId, Timer>, objects: map<SessionRef, WsSession>) {
    timers.Keys == vals.Keys && forall t :: t in timers ==>
      vals[t] == Timer(timers[t].session.ref, timers[t].due) && Known(objects, timers[t].session)
  }

  ghost predicate KnownClient(clients: map<SocketId, WsClient>, c: WsClient) {
    c.ref in clients && clients[c.ref] == c
  }

  lemma SkipSession(objects: map<SessionRef, WsSession>, vals: map<SessionRef, Session>, clients: map<SocketId, WsClient>, s: WsSession)
    requires SessionsHeld(objects, vals, clients) && Known(objects, s)
    ensures SessionsHeld(objects - {s.ref}, vals - {s.ref}, clients) && s !in (objects - {s.ref}).Values
    ensures s.ref in vals && vals[s.ref] == s.Value() && (s.socket != null ==> KnownClient(clients, s.socket))
  {
  }

  lemma PutSessionBack(objects: map<SessionRef, WsSession>, vals: map<SessionRef, Session>, clients: map<SocketId, WsClient>, s: WsSession)
    requires SessionsHeld(objects - {s.ref}, vals - {s.ref}, clients)
    requires s.socket != null ==> KnownClient(clients, s.socket)
    ensures SessionsHeld(objects[s.ref := s], vals[s.ref := s.Value()], clients)
  {
    assert objects[s.ref := s].Keys == (objects - {s.ref}).Keys + {s.ref};
    assert vals[s.ref := s.Value()].Keys == (vals - {s.ref}).Keys + {s.ref};
    assert forall x :: x in objects && x != s.ref ==> x in objects - {s.ref} && x in vals - {s.ref};
  }

  lemma SkipClient(clients: map<SocketId, WsClient>, vals: map<SocketId, Client>, objects: map<SessionRef, WsSession>, c: WsClient)
    requires ClientsHeld(clients, vals, objects) && KnownClient(clients, c)
    ensures ClientsHeld(clients - {c.ref}, vals - {c.ref}, objects) && c !in (clients - {c.ref}).Values
    ensures c.ref in vals && vals[c.ref] == c.Value() && (c.session != null ==> Known(objects, c.session))
  {
  }

  lemma PutClientBack(clients: map<SocketId, WsClient>, vals: map<SocketId, Client>, objects: map<SessionRef, WsSession>, c: WsClient)
    requires ClientsHeld(clients - {c.ref}, vals - {c.ref}, objects)
    requires c.session != null ==> Known(objects, c.session)
    ensures ClientsHeld(clients[c.ref := c], vals[c.ref := c.Value()], objects)
  {
    assert clients[c.ref := c].Keys == (clients - {c.ref}).Keys + {c.ref};
    assert vals[c.ref := c.Value()].Keys == (vals - {c.ref}).Keys + {c.ref};
    assert forall x :: x in clients && x != c.ref ==> x in clients - {c.ref} && x in vals - {c.ref};
  }

  class WebsocketGateway {
    const suspendTimeout: nat
    const registry: WebSocketSessionRegistry
    const eventStore: ES.EventStoreService
    /** What Date.now() returns in the current turn. */
    var now: int
    /** The armed timers of the runtime. */
    var timers: map<TimerId, PendingTimer>
    var sent: seq<Message>
    ghost var objects: map<SessionRef, WsSession>
    ghost var clients: map<SocketId, WsClient>
    /** All of it as a value. */
    ghost var model: World

    constructor (suspendTimeout: nat, eventStore: ES.EventStoreService, now: int)
      ensures Reflects() && Inv(model) && model == Init(suspendTimeout, now) && this.eventStore == eventStore
      ensures fresh(registry) && objects == map[] && clients == map[]
    {
      this.suspendTimeout, this.eventStore, this.now := suspendTimeout, eventStore, now;
      registry := new WebSocketSessionRegistry();
      timers, sent := map[], [];
      objects, clients, model := map[], map[], Init(suspendTimeout, now);
      new;
      InitInv(suspendTimeout, now);
    }

    ghost predicate Reflects()
      reads this, registry, objects.Values, clients.Values
    {
      && model.timeout == suspendTimeout && model.now == now && model.sent == sent
      && model.reg == registry.Value() && registry.Holds(objects)
      && SessionsHeld(objects, model.objects, clients)
      && ClientsHeld(clients, model.clients, objects)
      && TimersHeld(timers, model.timers, objects)
    }

    /** `clearTimeout` */
    method ClearTimer(timer: Option<TimerId>)
      requires Reflects()
      modifies this`timers, this`model
      ensures Reflects() && model == Clear(old(model), timer)
    {
      if timer.Some? {
        timers := timers - {timer.value};
      }
      model := Clear(model, timer);
    }

    /** Closes a socket if it is open. */
    method ShutSocket(socket: WsClient?)
      requires Reflects() && (socket != null ==> KnownClient(clients, socket))
      modifies this`model, socket
      ensures Reflects() && model == Shut(old(model), if socket == null then None else Some(socket.ref))
    {
      model := Shut(model, if socket == null then None else Some(socket.ref));
      if socket != null && socket.readyState == OPEN {
        socket.Close();
      }
    }

    /** The assignments that tie a session to its new socket. */
    method BindSocket(session: WsSession, client: WsClient, timer: Option<TimerId>, isResume: bool)
      requires Reflects() && Known(objects, session) && KnownClient(clients, client)
      modifies this`model, session, client
      ensures Reflects()
      ensures session.ref in old(model).objects && client.ref in old(model).clients
      ensures model == Bind(old(model), session.ref, old(model).objects[session.ref].(timer := timer), client.ref, isResume)
    {
      hide SessionsHeld, ClientsHeld, TimersHeld, WebSocketSessionRegistry.Value, WebSocketSessionRegistry.Holds;
      SkipSession(objects, model.objects, clients, session);
      SkipClient(clients, model.clients, objects, client);
      session.Bind(client, timer, now);
      client.Attach(session, isResume);
      PutSessionBack(objects, model.objects, clients, session);
      PutClientBack(clients, model.clients, objects, client);
      model := Bind(model, session.ref, model.objects[session.ref].(timer := timer), client.ref, isResume);
      assert objects[session.ref := session] == objects && clients[client.ref := client] == clients;
    }

    /** Assigns `state` and `lastSeen`. */
    method SetState(session: WsSession, state: Phase, lastSeen: int)
      requires Reflects() && Known(objects, session)
      modifies this`model, session`state, session`lastSeen
      ensures Reflects() && session.state == state
      ensures session.ref in old(model).objects
      ensures model == PutSession(old(model), session.ref, old(model).objects[session.ref].(phase := state, lastSeen := lastSeen))
    {
      hide SessionsHeld, ClientsHeld, TimersHeld, WebSocketSessionRegistry.Value, WebSocketSessionRegistry.Holds;
      SkipSession(objects, model.objects, clients, session);
      model := PutSession(model, session.ref, model.objects[session.ref].(phase := state, lastSeen := lastSeen));
      session.state := state;
      session.lastSeen := lastSeen;
      PutSessionBack(objects, old(model).objects, clients, session);
      assert objects[session.ref := session] == objects;
    }

    // ---------- the session manager ----------

    static lemma ShutFacts(w: World, socket: Option<SocketId>, timer: Option<TimerId>)
      ensures Shut(w, socket) == w.(clients := Shut(w, socket).clients)
      ensures Clear(w, timer) == w.(timers := Clear(w, timer).timers)
      ensures Clear(Shut(w, socket), timer).objects == w.objects
    {
    }

    method ResumeSession(session: WsSession, client: WsClient)
      requires Reflects() && Known(objects, session) && KnownClient(clients, client) && session.socket != client
      modifies this`model, this`timers, session, client, session.socket
      ensures Reflects()
      ensures session.ref in old(model).objects && client.ref in old(model).clients
      ensures model == Resume(old(model), session.ref, client.ref)
    {
      hide SessionsHeld, ClientsHeld, TimersHeld, WebSocketSessionRegistry.Value, WebSocketSessionRegistry.Holds, Bind, Shut, Clear;
      SkipSession(objects, model.objects, clients, session);
      SkipClient(clients, model.clients, objects, client);
      ShutFacts(model, session.Value().socket, session.suspendTimer);
      ShutSocket(session.socket);
      ClearTimer(session.suspendTimer);
      BindSocket(session, client, None, true);
    }

    method ReplaceSession(session: WsSession, client: WsClient)
      requires Reflects() && Known(objects, session) && KnownClient(clients, client) && session.socket != client
      modifies this`model, this`timers, session, client, session.socket
      ensures Reflects()
      ensures session.ref in old(model).objects && client.ref in old(model).clients
      ensures model == Replace(old(model), session.ref, client.ref)
    {
      hide SessionsHeld, ClientsHeld, TimersHeld, WebSocketSessionRegistry.Value, WebSocketSessionRegistry.Holds, Bind, Shut, Clear;
      SkipSession(objects, model.objects, clients, session);
      SkipClient(clients, model.clients, objects, client);
      var resume := !(session.who.kind == Browser || session.who.kind == Desktop);
      var open := IsOpen(session);
      if open {
        Supersede(session);
        BindSocket(session, client, None, resume);
      } else {
        BindSocket(session, client, session.suspendTimer, resume);
      }
    }

    method IsOpen(session: WsSession) returns (open: bool)
      requires Reflects() && Known(objects, session)
      ensures session.ref in model.objects && open == Open(model, model.objects[session.ref].socket)
    {
      open := session.socket != null && session.socket.readyState == OPEN;
    }

    /** The old socket of a session that is being replaced. */
    method Supersede(session: WsSession)
      requires Reflects() && Known(objects, session)
      modifies this`model, this`timers, session`state, session`lastSeen, session.socket
      ensures Reflects()
      ensures session.ref in old(model).objects
      ensures var s := old(model).objects[session.ref];
        model == Shut(Clear(PutSession(old(model), session.ref, s.(phase := REPLACE)), s.timer), s.socket)
    {
      hide ClientsHeld, TimersHeld, WebSocketSessionRegistry.Value, WebSocketSessionRegistry.Holds, Shut, Clear;
      SkipSession(objects, model.objects, clients, session);
      var socket := session.socket;
      SetState(session, REPLACE, session.lastSeen);
      ClearTimer(session.suspendTimer);
      ShutSocket(socket);
    }

    static lemma Grow(objects: map<SessionRef, WsSession>, s: WsSession, timers: map<TimerId, PendingTimer>, vals: map<TimerId, Timer>,
        clients: map<SocketId, WsClient>, cvals: map<SocketId, Client>)
      requires s.ref !in objects && TimersHeld(timers, vals, objects) && ClientsHeld(clients, cvals, objects)
      ensures TimersHeld(timers, vals, objects[s.ref := s]) && ClientsHeld(clients, cvals, objects[s.ref := s])
    {
    }

    static lemma GrowGroups(objects: map<SessionRef, WsSession>, s: WsSession, groups: Groups)
      requires s.ref !in objects && GroupsKnown(objects, groups)
      ensures GroupsKnown(objects[s.ref := s], groups)
    {
      forall t, x | t in groups && x in groups[t] ensures Known(objects[s.ref := s], x) {
        assert Known(objects, x);
      }
    }

    static lemma GrowRegistry(registry: WebSocketSessionRegistry, objects: map<SessionRef, WsSession>, s: WsSession)
      requires s.ref !in objects && registry.Holds(objects)
      ensures registry.Holds(objects[s.ref := s])
    {
      GrowGroups(objects, s, registry.tenantDevices);
      GrowGroups(objects, s, registry.tenantBrowsers);
    }

    /** `new WsSession` with its socket. */
    method AddSession(ref: SessionRef, who: Ident, client: WsClient) returns (session: WsSession)
      requires Reflects() && KnownClient(clients, client) && ref !in objects
      modifies this`model, this`objects
      ensures Reflects() && session.ref == ref && session.who == who && fresh(session) && session.socket == client
      ensures objects == old(objects)[ref := session]
      ensures model == PutSession(old(model), ref, Session(who, CONNECTING, Some(client.ref), None, now))
    {
      hide SessionsHeld, ClientsHeld, TimersHeld, WebSocketSessionRegistry.Value, WebSocketSessionRegistry.Holds;
      session := new WsSession(ref, who, client, now);
      Grow(objects, session, timers, model.timers, clients, model.clients);
      GrowRegistry(registry, objects, session);
      SessionKeys();
      assert objects - {ref} == objects && model.objects - {ref} == model.objects;
      PutSessionBack(objects, model.objects, clients, session);
      objects := objects[ref := session];
      model := PutSession(model, ref, session.Value());
    }

    method AttachClient(client: WsClient, session: WsSession)
      requires Reflects() && KnownClient(clients, client) && Known(objects, session)
      modifies this`model, client
      ensures Reflects()
      ensures client.ref in old(model).clients
      ensures model == old(model).(clients := old(model).clients[client.ref := old(model).clients[client.ref].(session := Some(session.ref))])
    {
      hide SessionsHeld, ClientsHeld, TimersHeld, WebSocketSessionRegistry.Value, WebSocketSessionRegistry.Holds;
      SkipClient(clients, model.clients, objects, client);
      client.Attach(session, client.isResume);
      PutClientBack(clients, model.clients, objects, client);
      model := model.(clients := model.clients[client.ref := model.clients[client.ref].(session := Some(session.ref))]);
      assert clients[client.ref := client] == clients;
    }

    /** A new session object. */
    method CreateSession(ref: SessionRef, who: Ident, client: WsClient) returns (session: WsSession)
      requires Reflects() && KnownClient(clients, client) && ref !in objects
      modifies this`model, this`objects, client, registry
      ensures Reflects() && session.ref == ref && fresh(session) && objects == old(objects)[ref := session]
      ensures client.ref in old(model).clients
      ensures model == Sessions.CreateSession(old(model), ref, who, client.ref)
    {
      hide SessionsHeld, ClientsHeld, TimersHeld, WebSocketSessionRegistry.Value, WebSocketSessionRegistry.Holds, Register;
      session := AddSession(ref, who, client);
      AttachClient(client, session);
      registry.Register(session, objects);
      model := model.(reg := Register(model.reg, ref, who));
    }

    lemma SessionKeys()
      requires Reflects()
      ensures objects.Keys == model.objects.Keys
      ensures SessionsHeld(objects, model.objects, clients)
    {
    }

    method EstablishSession(who: Ident, client: WsClient, ref: SessionRef) returns (session: WsSession)
      requires Reflects() && Closed(model) && KnownClient(clients, client) && ref !in objects
      requires forall r :: r in objects ==> objects[r].socket != client
      modifies this`model, this`objects, this`timers, client, registry, objects.Values, clients.Values
      ensures Reflects() && Known(objects, session) && session.ref == Established(old(model), who.id, ref)
      ensures objects == (if session.ref in old(objects) then old(objects) else old(objects)[ref := session])
      ensures session.ref in old(objects) || fresh(session)
      ensures client.ref in old(model).clients
      ensures model == Establish(old(model), client.ref, ref, who)
    {
      hide SessionsHeld, ClientsHeld, TimersHeld, WebSocketSessionRegistry.Holds, Resume, Replace, Sessions.CreateSession;
      RegistryKnown(who.id);
      SkipClient(clients, model.clients, objects, client);
      var found := registry.Find(who.id);
      if found != null {
        session := found;
        SkipSession(objects, model.objects, clients, session);
        if session.state == SUSPEND {
          ResumeSession(session, client);
        } else {
          ReplaceSession(session, client);
        }
      } else {
        session := CreateSession(ref, who, client);
      }
    }

    lemma RegistryKnown(id: UserId)
      requires Reflects()
      ensures id in registry.sessions <==> id in model.reg.sessions
      ensures id in registry.sessions ==> Known(objects, registry.sessions[id]) && model.reg.sessions[id] == registry.sessions[id].ref
    {
    }

    // ---------- the device's messages ----------

    /** The browsers of a device's tenant that are connected and may see its product. */
    method InterestedBrowsers(session: WsSession) returns (to: seq<SessionRef>)
      requires Reflects() && Known(objects, session)
      ensures session.ref in model.objects && to == Audience(model, session.ref)
    {
      hide WebSocketSessionRegistry.Holds, TimersHeld;
      var group := registry.GetBrowsersByTenant(session.who.tenant);
      GroupKnown(session.who.tenant);
      ghost var keep := set b | b in model.objects && Interested(model, session.ref, b);
      to := [];
      for i := 0 to |group|
        invariant to == Restrict(Refs(group[..i]), keep)
      {
        var b := group[i];
        assert b in group && Known(objects, b);
        assert Refs(group[..i + 1]) == Refs(group[..i]) + [b.ref];
        RestrictAppend(Refs(group[..i]), [b.ref], keep);
        assert Restrict([b.ref], keep) == if b.ref in keep then [b.ref] else [];
        var wanted := b.IsActive() && (b.who.product == None || b.who.product == session.who.deviceProduct);
        assert wanted <==> b.ref in keep;
        if wanted {
          to := to + [b.ref];
        }
      }
      assert group[..|group|] == group;
    }

    lemma GroupKnown(t: Tenant)
      requires Reflects()
      ensures forall b :: b in registry.GetBrowsersByTenant(t) ==> Known(objects, b)
      ensures Refs(registry.GetBrowsersByTenant(t)) == Lookup(model.reg.browsers, t)
      ensures forall b :: b in registry.GetDevicesByTenant(t) ==> Known(objects, b)
      ensures Refs(registry.GetDevicesByTenant(t)) == Lookup(model.reg.devices, t)
    {
    }

    /** One presence message, as the device lifecycle's hooks send it. */
    method Announce(session: WsSession, what: Label)
      requires Reflects() && Known(objects, session)
      modifies this`sent, this`model
      ensures Reflects()
      ensures session.ref in old(model).objects && model == Sessions.Announce(old(model), session.ref, what)
    {
      hide WebSocketSessionRegistry.Value, WebSocketSessionRegistry.Holds, TimersHeld, ClientsHeld, Audience;
      if session.who.kind == Device {
        var to := InterestedBrowsers(session);
        sent := sent + [Message(what, session.who.id, session.who.tenant, session.state, to)];
      }
      model := Sessions.Announce(model, session.ref, what);
    }

    // ---------- the lifecycles ----------

    /** What going online leaves of the pending events: replayed if the socket is open. */
    static ghost function Delivered(s: EM.State, w: World, r: SessionRef): EM.State
      requires r in w.objects
    {
      var who := w.objects[r].who;
      if Managed(who.kind) && Active(w, r) then EM.Reconnect(s, who.id, |EM.PendingIds(s, who.id)|) else s
    }

    /** Replays the pending events, to the end if the socket is open and not at all otherwise. */
    method DeliverPending(session: WsSession, ghost w: World)
      requires Reflects() && Known(objects, session) && eventStore.Valid()
      requires session.ref in w.objects && Managed(session.who.kind) && w.objects[session.ref].who == session.who
      requires session.IsActive() == Active(w, session.ref)
      modifies eventStore, eventStore.records
      ensures eventStore.Valid() && eventStore.records == old(eventStore.records)
      ensures eventStore.model == Delivered(old(eventStore.model), w, session.ref)
      ensures Reflects()
    {
      hide Reflects, EM.PendingIds, EM.SendAll;
      PendingFits(eventStore, session.who.id);
      var open := if session.IsActive() then |eventStore.eventOrder| else 0;
      NothingReplayed(eventStore.model, session.who.id);
      var ids := Delivery.DeliverPendingEvents(eventStore, session.who.id, open);
    }

    static lemma NothingReplayed(s: EM.State, u: UserId)
      ensures EM.Reconnect(s, u, 0) == s
    {
    }

    static lemma PendingFits(store: ES.EventStoreService, u: UserId)
      requires store.Valid()
      ensures |EM.PendingIds(store.model, u)| <= |store.eventOrder|
      ensures forall n: nat :: n >= |store.eventOrder| ==>
        EM.Reconnect(store.model, u, n) == EM.Reconnect(store.model, u, |EM.PendingIds(store.model, u)|)
    {
      RestrictElems(store.model.order, EM.Pending(store.model, u));
    }

    lemma ActiveIs(session: WsSession)
      requires Reflects() && Known(objects, session)
      ensures session.ref in model.objects && model.objects[session.ref] == session.Value() && model.now == now
      ensures session.IsActive() == Active(model, session.ref)
    {
    }

    method IsResumed(session: WsSession) returns (resumed: bool)
      requires Reflects() && Known(objects, session)
      ensures session.ref in model.objects
      ensures var socket := model.objects[session.ref].socket;
        resumed == (socket.Some? && socket.value in model.clients && model.clients[socket.value].resume)
    {
      resumed := session.socket != null && session.socket.isResume;
    }

    method OnConnect(session: WsSession)
      requires Reflects() && Known(objects, session) && eventStore.Valid()
      modifies this`sent, this`model, session, eventStore, eventStore.records
      ensures Reflects() && eventStore.Valid() && eventStore.records == old(eventStore.records)
      ensures session.ref in old(model).objects && model == Sessions.OnConnect(old(model), session.ref)
      ensures eventStore.model == Delivered(old(eventStore.model), old(model), session.ref)
    {
      hide Reflects, Sessions.Announce, Active, EM.Reconnect, EM.PendingIds, ES.EventStoreService.Valid;
      ActiveIs(session);
      if session.who.kind != Device && session.who.kind != Browser && session.who.kind != Desktop {
        return;
      }
      ghost var w := model;
      SetState(session, ONLINE, now);
      DeliverPending(session, w);
      var resumed := IsResumed(session);
      if resumed {
        Announce(session, Reconnect);
      } else {
        Announce(session, Connected);
      }
    }

    method LoseSocket(session: WsSession)
      requires Reflects() && Known(objects, session)
      modifies this`model, session
      ensures Reflects()
      ensures session.ref in old(model).objects
      ensures model == PutSession(old(model), session.ref, old(model).objects[session.ref].(phase := SUSPEND, socket := None))
    {
      hide SessionsHeld, ClientsHeld, TimersHeld, WebSocketSessionRegistry.Value, WebSocketSessionRegistry.Holds;
      SkipSession(objects, model.objects, clients, session);
      model := PutSession(model, session.ref, model.objects[session.ref].(phase := SUSPEND, socket := None));
      session.state := SUSPEND;
      session.socket := null;
      PutSessionBack(objects, old(model).objects, clients, session);
      assert objects[session.ref := session] == objects;
    }

    method OnSuspend(session: WsSession)
      requires Reflects() && Known(objects, session)
      modifies this`sent, this`timers, this`model, session
      ensures Reflects()
      ensures session.ref in old(model).objects && model == Sessions.OnSuspend(old(model), session.ref)
    {
      hide SessionsHeld, ClientsHeld, TimersHeld, WebSocketSessionRegistry.Value, WebSocketSessionRegistry.Holds, Sessions.Announce;
      SkipSession(objects, model.objects, clients, session);
      LoseSocket(session);
      SkipSession(objects, model.objects, clients, session);
      ClearTimer(session.suspendTimer);
      Announce(session, Suspended);
    }

    static lemma TimerAdded(timers: map<TimerId, PendingTimer>, vals: map<TimerId, Timer>, objects: map<SessionRef, WsSession>, t: TimerId, p: PendingTimer)
      requires TimersHeld(timers, vals, objects) && Known(objects, p.session)
      ensures TimersHeld(timers[t := p], vals[t := Timer(p.session.ref, p.due)], objects)
    {
    }

    /** `suspendTimer = setTimeout(...)`; the runtime's handle is `t`. */
    method ArmTimer(session: WsSession, t: TimerId)
      requires Reflects() && Known(objects, session)
      modifies this`timers, this`model, session
      ensures Reflects()
      ensures session.ref in old(model).objects
      ensures model == old(model).(
        timers := old(model).timers[t := Timer(session.ref, now + suspendTimeout)],
        objects := old(model).objects[session.ref := old(model).objects[session.ref].(timer := Some(t))])
    {
      hide SessionsHeld, ClientsHeld, TimersHeld, WebSocketSessionRegistry.Value, WebSocketSessionRegistry.Holds;
      SkipSession(objects, model.objects, clients, session);
      TimerAdded(timers, model.timers, objects, t, PendingTimer(session, now + suspendTimeout));
      model := model.(
        timers := model.timers[t := Timer(session.ref, now + suspendTimeout)],
        objects := model.objects[session.ref := model.objects[session.ref].(timer := Some(t))]);
      timers := timers[t := PendingTimer(session, now + suspendTimeout)];
      session.suspendTimer := Some(t);
      PutSessionBack(objects, old(model).objects, clients, session);
      assert objects[session.ref := session] == objects;
    }

    /** `unregister` and the message that the device is gone. */
    method Retire(session: WsSession)
      requires Reflects() && Closed(model) && Known(objects, session)
      modifies this`sent, this`model, registry
      ensures Reflects()
      ensures session.ref in old(model).objects && model == Sessions.Retire(old(model), session.ref)
    {
      hide ClientsHeld, TimersHeld, WebSocketSessionRegistry.Holds, Sessions.Announce, Unregister;
      RegistryKnown(session.who.id);
      registry.Unregister(session.who.id, objects);
      ghost var id := session.who.id;
      ghost var who := if id in model.reg.sessions then model.objects[model.reg.sessions[id]].who else session.who;
      UnregisterAbsent(model.reg, id, who);
      model := model.(reg := Unregister(model.reg, id, who));
      Announce(session, Disconnected);
    }

    static lemma UnregisterAbsent(reg: Registry, id: UserId, who: Ident)
      ensures id !in reg.sessions ==> Unregister(reg, id, who) == reg
    {
    }

    method OnDisconnect(session: WsSession, t: TimerId)
      requires Reflects() && Closed(model) && Known(objects, session)
      modifies this`sent, this`timers, this`model, session, registry
      ensures Reflects()
      ensures session.ref in old(model).objects && model == Sessions.OnDisconnect(old(model), session.ref, t)
    {
      hide SessionsHeld, ClientsHeld, TimersHeld, WebSocketSessionRegistry.Value, WebSocketSessionRegistry.Holds;
      hide Sessions.Announce, Sessions.OnSuspend, Sessions.Retire, Closed;
      SkipSession(objects, model.objects, clients, session);
      if session.who.kind != Device && session.who.kind != Browser && session.who.kind != Desktop {
        return;
      }
      StaysClosed(model, session.ref, model.objects[session.ref].(lastSeen := now));
      SetState(session, session.state, now);
      if session.state == REPLACE {
        return;
      }
      if session.state == OFFLINE {
        Retire(session);
        return;
      }
      OnSuspend(session);
      ArmTimer(session, t);
    }

    static lemma StaysClosed(w: World, r: SessionRef, s: Session)
      requires Closed(w) && r in w.objects
      ensures Closed(PutSession(w, r, s))
    {
    }

    /** The callback of a suspend timer. */
    method SuspendTimerFires(t: TimerId)
      requires Reflects() && Inv(model) && t in timers && timers[t].due <= now
      modifies this`sent, this`timers, this`model, registry, objects.Values
      ensures Reflects() && Inv(model)
      ensures Enabled(old(model), SuspendTimer(t)) && model == Next(old(model), SuspendTimer(t))
    {
      hide SessionsHeld, ClientsHeld, WebSocketSessionRegistry.Value, WebSocketSessionRegistry.Holds, Sessions.Retire, Inv;
      InvClosed(model);
      NextKeepsInv(model, SuspendTimer(t));
      var session := timers[t].session;
      SkipSession(objects, model.objects, clients, session);
      timers := timers - {t};
      model := model.(timers := model.timers - {t});
      if session.state == SUSPEND {
        StaysClosed(model, session.ref, model.objects[session.ref].(phase := OFFLINE));
        SetState(session, OFFLINE, session.lastSeen);
        Retire(session);
      }
    }

    static lemma InvClosed(w: World)
      requires Inv(w)
      ensures Closed(w)
    {
    }

    // ---------- the gateway ----------

    /** The first assignments to a new socket. */
    method Meet(client: WsClient)
      requires Reflects() && client.session == null && client.ref !in clients
      modifies this`clients, this`model, client
      ensures Reflects() && clients == old(clients)[client.ref := client]
      ensures model == old(model).(clients := old(model).clients[client.ref := Client(None, old(client.readyState) == OPEN, false)])
      ensures forall r :: r in objects ==> objects[r].socket != client
    {
      hide SessionsHeld, ClientsHeld, TimersHeld, WebSocketSessionRegistry.Value, WebSocketSessionRegistry.Holds;
      NotYetKnown(clients, model.clients, objects, model.objects, client);
      client.isResume := false;
      GrowClients(clients, model.clients, objects, model.objects, client);
      clients := clients[client.ref := client];
      model := model.(clients := model.clients[client.ref := client.Value()]);
    }

    static lemma NotYetKnown(clients: map<SocketId, WsClient>, cvals: map<SocketId, Client>,
        objects: map<SessionRef, WsSession>, vals: map<SessionRef, Session>, c: WsClient)
      requires SessionsHeld(objects, vals, clients) && ClientsHeld(clients, cvals, objects) && c.ref !in clients
      ensures c !in clients.Values && forall r :: r in objects ==> objects[r].socket != c
      ensures c.ref !in cvals
    {
      assert forall r :: r in objects && objects[r].socket != null ==> KnownClient(clients, objects[r].socket);
    }

    static lemma GrowClients(clients: map<SocketId, WsClient>, cvals: map<SocketId, Client>,
        objects: map<SessionRef, WsSession>, vals: map<SessionRef, Session>, c: WsClient)
      requires SessionsHeld(objects, vals, clients) && ClientsHeld(clients, cvals, objects) && c.ref !in clients && c.session == null
      ensures SessionsHeld(objects, vals, clients[c.ref := c])
      ensures ClientsHeld(clients[c.ref := c], cvals[c.ref := c.Value()], objects)
    {
      assert clients - {c.ref} == clients && cvals - {c.ref} == cvals;
      PutClientBack(clients, cvals, objects, c);
    }

    static lemma ConnectIs(w: World, c: SocketId, open: bool, f: SessionRef, who: Ident)
      requires Closed(w)
      ensures
        var met := w.(clients := w.clients[c := Client(None, open, false)]);
        && Closed(met) && Established(met, who.id, f) == Established(w, who.id, f)
        && Established(w, who.id, f) in Establish(met, c, f, who).objects
        && Connect(w, c, open, f, who) == Sessions.OnConnect(Establish(met, c, f, who), Established(w, who.id, f))
    {
      hide Sessions.OnConnect;
    }

    /** A new socket is met, gets its session, and the session goes online. */
    method Accept(client: WsClient, who: Ident, ref: SessionRef)
      requires Reflects() && Closed(model) && client.session == null && client.ref !in clients && ref !in objects
      requires eventStore.Valid()
      modifies this, client, registry, objects.Values, clients.Values, eventStore, eventStore.records
      ensures Reflects() && eventStore.Valid() && eventStore.records == old(eventStore.records)
      ensures model == Connect(old(model), client.ref, old(client.readyState) == OPEN, ref, who)
      ensures
        var met := old(model).(clients := old(model).clients[client.ref := Client(None, old(client.readyState) == OPEN, false)]);
        var r := Established(old(model), who.id, ref);
        && Closed(met) && r in Establish(met, client.ref, ref, who).objects
        && eventStore.model == Delivered(old(eventStore.model), Establish(met, client.ref, ref, who), r)
      ensures clients == old(clients)[client.ref := client]
    {
      hide Reflects, Closed, Established, Connect, Sessions.OnConnect, Establish, Delivered, ES.EventStoreService.Valid;
      ConnectIs(model, client.ref, client.readyState == OPEN, ref, who);
      Meet(client);
      var session := EstablishSession(who, client, ref);
      OnConnect(session);
    }

    /** A connection of a new socket that has been authenticated; `ref` names a new session object. */
    method HandleConnection(client: WsClient, who: Ident, ref: SessionRef)
      requires Reflects() && Inv(model) && client.session == null && client.ref !in clients && ref !in objects
      requires eventStore.Valid()
      modifies this, client, registry, objects.Values, clients.Values, eventStore, eventStore.records
      ensures Reflects() && Inv(model) && eventStore.Valid() && eventStore.records == old(eventStore.records)
      ensures var step := NewConnection(client.ref, old(client.readyState) == OPEN, ref, who);
        && Enabled(old(model), step) && model == Next(old(model), step)
        && eventStore.model == Server.Replayed(Server.System(old(eventStore.model), old(model), [], []), step)
      ensures clients == old(clients)[client.ref := client]
    {
      hide SessionsHeld, ClientsHeld, TimersHeld, Inv, Connect, Establish, Delivered, Server.Replayed, ES.EventStoreService.Valid;
      hide WebSocketSessionRegistry.Value, WebSocketSessionRegistry.Holds;
      InvClosed(model);
      SessionKeys();
      NotYetKnown(clients, model.clients, objects, model.objects, client);
      NextKeepsInv(model, NewConnection(client.ref, client.readyState == OPEN, ref, who));
      DeliveredIsReplayed(eventStore.model, model, client.ref, client.readyState == OPEN, ref, who);
      Accept(client, who, ref);
    }

    /** The session a connect leads to: its id and type, and active exactly if the socket is open. */
    static lemma EstablishedIs(w: World, c: SocketId, open: bool, f: SessionRef, who: Ident)
      requires Inv(w) && c !in w.clients && f !in w.objects
      ensures
        var met := w.(clients := w.clients[c := Client(None, open, false)]);
        var r := Established(w, who.id, f);
        Closed(met) &&
        var v := Establish(met, c, f, who);
        && r in v.objects && v.objects[r].who.id == who.id && v.objects[r].who.kind == Server.KindOf(w, who)
        && (Active(v, r) <==> open)
    {
      hide Tables, Trace, SessionOk, TimerOk, Shut;
      if who.id in w.reg.sessions {
        EstablishRegistered(w, c, Client(None, open, false), f, who);
      }
    }

    static lemma DeliveredIsReplayed(s: EM.State, w: World, c: SocketId, open: bool, f: SessionRef, who: Ident)
      requires Inv(w) && c !in w.clients && f !in w.objects
      ensures
        var met := w.(clients := w.clients[c := Client(None, open, false)]);
        Closed(met) &&
        var v := Establish(met, c, f, who);
        && Established(w, who.id, f) in v.objects
        && Delivered(s, v, Established(w, who.id, f)) == Server.Replayed(Server.System(s, w, [], []), NewConnection(c, open, f, who))
    {
      hide Inv, Establish, Active, Managed, EM.Reconnect, EM.PendingIds;
      EstablishedIs(w, c, open, f, who);
    }

    method HandleDisconnect(client: WsClient, t: TimerId)
      requires Reflects() && Closed(model) && KnownClient(clients, client)
      modifies this`sent, this`timers, this`model, registry, objects.Values
      ensures Reflects()
      ensures client.ref in old(model).clients && model == Sessions.HandleDisconnect(old(model), client.ref, t)
    {
      hide SessionsHeld, ClientsHeld, TimersHeld, WebSocketSessionRegistry.Value, WebSocketSessionRegistry.Holds, Sessions.OnDisconnect;
      SkipClient(clients, model.clients, objects, client);
      var session := client.session;
      if session == null {
        return;
      }
      SkipSession(objects, model.objects, clients, session);
      if session.socket != client {
        return;
      }
      OnDisconnect(session, t);
    }

    /** The close event of a socket. */
    method Closes(client: WsClient, t: TimerId)
      requires Reflects() && Inv(model) && KnownClient(clients, client) && t !in timers
      modifies this`sent, this`timers, this`model, registry, objects.Values, client
      ensures Reflects() && Inv(model)
      ensures Enabled(old(model), CloseEvent(client.ref, t)) && model == Next(old(model), CloseEvent(client.ref, t))
    {
      hide SessionsHeld, ClientsHeld, WebSocketSessionRegistry.Value, WebSocketSessionRegistry.Holds, Sessions.HandleDisconnect, Inv;
      InvClosed(model);
      SkipClient(clients, model.clients, objects, client);
      NextKeepsInv(model, CloseEvent(client.ref, t));
      ShutSocket(client);
      HandleDisconnect(client, t);
    }

    /** A socket leaves the open state: the heartbeat, an error, the other side. */
    method Drops(client: WsClient)
      requires Reflects() && Inv(model) && KnownClient(clients, client)
      modifies this`model, client
      ensures Reflects() && Inv(model)
      ensures Enabled(old(model), Drop(client.ref)) && model == Next(old(model), Drop(client.ref))
    {
      hide SessionsHeld, ClientsHeld, TimersHeld, WebSocketSessionRegistry.Value, WebSocketSessionRegistry.Holds, Inv, Shut;
      InvClosed(model);
      SkipClient(clients, model.clients, objects, client);
      NextKeepsInv(model, Drop(client.ref));
      ShutSocket(client);
    }

    method NextTurn(ms: nat)
      requires Reflects() && Inv(model)
      modifies this`now, this`model
      ensures Reflects() && Inv(model)
      ensures Enabled(old(model), Elapse(ms)) && model == Next(old(model), Elapse(ms))
    {
      hide SessionsHeld, ClientsHeld, TimersHeld, WebSocketSessionRegistry.Value, WebSocketSessionRegistry.Holds, Inv;
      InvClosed(model);
      NextKeepsInv(model, Elapse(ms));
      now := now + ms;
      model := model.(now := now);
    }

    // ---------- queries ----------

    method ActiveAmong(group: seq<WsSession>) returns (active: seq<WsSession>)
      requires Reflects() && forall b :: b in group ==> Known(objects, b)
      ensures Refs(active) == ActiveOf(model, Refs(group))
    {
      hide WebSocketSessionRegistry.Value, WebSocketSessionRegistry.Holds, TimersHeld;
      ghost var keep := set r | r in model.objects && Active(model, r);
      active := [];
      for i := 0 to |group|
        invariant Refs(active) == Restrict(Refs(group[..i]), keep)
      {
        var b := group[i];
        assert b in group && Known(objects, b);
        assert Refs(group[..i + 1]) == Refs(group[..i]) + [b.ref];
        RestrictAppend(Refs(group[..i]), [b.ref], keep);
        assert Restrict([b.ref], keep) == if b.ref in keep then [b.ref] else [];
        var isActive := b.IsActive();
        assert isActive <==> b.ref in keep;
        if isActive {
          assert Refs(active + [b]) == Refs(active) + [b.ref];
          active := active + [b];
        }
      }
      assert group[..|group|] == group;
    }

    /** Who gets what a session sends to a type: open sockets of the session's tenant only. */
    method GetActiveSocketsByType(session: WsSession, kind: Kind) returns (to: seq<WsSession>)
      requires Reflects() && Inv(model) && Known(objects, session)
      ensures session.ref in model.objects && Refs(to) == ActiveByType(model, session.ref, kind)
    {
      hide SessionsHeld, ClientsHeld, WebSocketSessionRegistry.Value, WebSocketSessionRegistry.Holds, TimersHeld, Inv, ActiveOf;
      SkipSession(objects, model.objects, clients, session);
      GroupKnown(session.who.tenant);
      match kind {
        case Browser => to := ActiveAmong(registry.GetBrowsersByTenant(session.who.tenant));
        case Desktop => to := ActiveAmong(registry.GetBrowsersByTenant(session.who.tenant));
        case Device => to := ActiveAmong(registry.GetDevicesByTenant(session.who.tenant));
        case Self => to := [session];
        case Server => to := [];
      }
    }
  }
}
