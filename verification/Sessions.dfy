// The session registry, the session state machine and the gateway's connect and disconnect, as a
// state and the steps on it. A number stands for the identity of an object: a session, a socket,
// a timer handle.
module Sessions {
  import opened Wrappers
  import opened Ordered

  type UserId = int
  type SessionRef = nat
  type SocketId = nat
  type TimerId = nat
  type Tenant = string

  datatype Kind = Browser | Device | Self | Desktop | Server
  datatype Product = Absensi | Monitoring | Bell
  datatype Phase = CONNECTING | ONLINE | SUSPEND | REPLACE | OFFLINE

  /** The part of a session that never changes: its id, its type, its product and its principal. */
  datatype Ident = Ident(id: UserId, kind: Kind, tenant: Tenant, product: Option<Product>, deviceProduct: Option<Product>)

  datatype Session = Session(who: Ident, phase: Phase, socket: Option<SocketId>, timer: Option<TimerId>, lastSeen: int)

  datatype Client = Client(session: Option<SessionRef>, open: bool, resume: bool)

  /** An armed `setTimeout`. */
  datatype Timer = Timer(session: SessionRef, due: int)

  // ---------- the registry ----------

  type Index = map<Tenant, seq<SessionRef>>

  /** `order` is the insertion order in which the map `sessions` iterates. */
  datatype Registry = Registry(sessions: map<UserId, SessionRef>, order: seq<SessionRef>, devices: Index, browsers: Index)

  datatype Group = Devices | Browsers

  predicate InGroup(kind: Kind, g: Group) {
    match g
    case Devices => kind == Device
    case Browsers => kind == Browser || kind == Desktop
  }

  function Lookup(index: Index, t: Tenant): seq<SessionRef> {
    if t in index then index[t] else []
  }

  function Joined(index: Index, t: Tenant, r: SessionRef): Index {
    var group := Lookup(index, t);
    index[t := if r in group then group else group + [r]]
  }

  function Left(index: Index, t: Tenant, r: SessionRef): Index {
    if t !in index then index
    else
      var rest := Without(index[t], r);
      if rest == [] then index - {t} else index[t := rest]
  }

  /** A map that gets a value for a key it has keeps the key's place. */
  function Swapped(order: seq<SessionRef>, old_: SessionRef, r: SessionRef): seq<SessionRef> {
    seq(|order|, i requires 0 <= i < |order| => if order[i] == old_ then r else order[i])
  }

  function Register(reg: Registry, r: SessionRef, who: Ident): Registry {
    Registry(
      reg.sessions[who.id := r],
      if who.id in reg.sessions then Swapped(reg.order, reg.sessions[who.id], r) else reg.order + [r],
      if InGroup(who.kind, Devices) then Joined(reg.devices, who.tenant, r) else reg.devices,
      if InGroup(who.kind, Browsers) then Joined(reg.browsers, who.tenant, r) else reg.browsers)
  }

  /** `who` is what the registered session carries. */
  function Unregister(reg: Registry, id: UserId, who: Ident): Registry {
    if id !in reg.sessions then reg
    else
      var r := reg.sessions[id];
      Registry(
        reg.sessions - {id},
        Without(reg.order, r),
        if InGroup(who.kind, Devices) then Left(reg.devices, who.tenant, r) else reg.devices,
        if InGroup(who.kind, Browsers) then Left(reg.browsers, who.tenant, r) else reg.browsers)
  }

  function IndexOf(reg: Registry, g: Group): Index {
    match g case Devices => reg.devices case Browsers => reg.browsers
  }

  // ---------- the state ----------

  datatype Label = Connected | Reconnect | Suspended | Disconnected

  /** A presence message about a device and the browser sessions it goes to. */
  datatype Message = Message(what: Label, id: UserId, tenant: Tenant, phase: Phase, to: seq<SessionRef>)

  datatype World = World(
    timeout: nat,
    reg: Registry,
    objects: map<SessionRef, Session>,
    clients: map<SocketId, Client>,
    timers: map<TimerId, Timer>,
    now: int,
    sent: seq<Message>)

  function Init(timeout: nat, now: int): World {
    World(timeout, Registry(map[], [], map[], map[]), map[], map[], map[], now, [])
  }

  predicate Open(w: World, socket: Option<SocketId>) {
    socket.Some? && socket.value in w.clients && w.clients[socket.value].open
  }

  /** `isActive`. */
  predicate Active(w: World, r: SessionRef) {
    r in w.objects && Open(w, w.objects[r].socket)
  }

  function PutSession(w: World, r: SessionRef, s: Session): World {
    w.(objects := w.objects[r := s])
  }

  /** `close` and `terminate` leave the socket not open. */
  function Shut(w: World, socket: Option<SocketId>): World {
    if Open(w, socket) then w.(clients := w.clients[socket.value := w.clients[socket.value].(open := false)]) else w
  }

  function Clear(w: World, timer: Option<TimerId>): World {
    if timer.Some? then w.(timers := w.timers - {timer.value}) else w
  }

  /** The session gets the socket, and the socket the session. */
  function Bind(w: World, r: SessionRef, s: Session, c: SocketId, resume: bool): World
    requires c in w.clients
  {
    w.(objects := w.objects[r := s.(socket := Some(c), phase := CONNECTING, lastSeen := w.now)],
       clients := w.clients[c := w.clients[c].(session := Some(r), resume := resume)])
  }

  function Resume(w: World, r: SessionRef, c: SocketId): World
    requires r in w.objects && c in w.clients
  {
    var s := w.objects[r];
    Bind(Clear(Shut(w, s.socket), s.timer), r, s.(timer := None), c, true)
  }

  function Replace(w: World, r: SessionRef, c: SocketId): World
    requires r in w.objects && c in w.clients
  {
    var s := w.objects[r];
    var resume := !InGroup(s.who.kind, Browsers);
    if Open(w, s.socket) then
      var replaced := Shut(Clear(PutSession(w, r, s.(phase := REPLACE)), s.timer), s.socket);
      Bind(replaced, r, replaced.objects[r].(timer := None), c, resume)
    else Bind(w, r, s, c, resume)
  }

  function CreateSession(w: World, r: SessionRef, who: Ident, c: SocketId): World
    requires c in w.clients
  {
    w.(objects := w.objects[r := Session(who, CONNECTING, Some(c), None, w.now)],
       clients := w.clients[c := w.clients[c].(session := Some(r))],
       reg := Register(w.reg, r, who))
  }

  /** What a session refers to exists. */
  predicate Closed(w: World) {
    && (forall id :: id in w.reg.sessions ==> w.reg.sessions[id] in w.objects)
    && (forall c :: c in w.clients && w.clients[c].session.Some? ==> w.clients[c].session.value in w.objects)
    && (forall t :: t in w.timers ==> w.timers[t].session in w.objects)
  }

  /** The session that a connect with id `id` gets: the registered one, or a new object. */
  function Established(w: World, id: UserId, fresh_: SessionRef): SessionRef {
    if id in w.reg.sessions then w.reg.sessions[id] else fresh_
  }

  function Establish(w: World, c: SocketId, fresh_: SessionRef, who: Ident): World
    requires Closed(w) && c in w.clients
  {
    if who.id in w.reg.sessions then
      var r := w.reg.sessions[who.id];
      if w.objects[r].phase == SUSPEND then Resume(w, r, c) else Replace(w, r, c)
    else CreateSession(w, fresh_, who, c)
  }

  /** The types whose lifecycle is not the empty one. */
  predicate Managed(kind: Kind) {
    kind == Device || kind == Browser || kind == Desktop
  }

  // ---------- queries ----------

  function ActiveOf(w: World, group: seq<SessionRef>): seq<SessionRef> {
    Restrict(group, set r | r in w.objects && Active(w, r))
  }

  /** `getActiveScoketsByType`: who gets what session `r` sends to a type. */
  function ActiveByType(w: World, r: SessionRef, kind: Kind): seq<SessionRef>
    requires r in w.objects
  {
    var tenant := w.objects[r].who.tenant;
    match kind
    case Browser => ActiveOf(w, Lookup(w.reg.browsers, tenant))
    case Desktop => ActiveOf(w, Lookup(w.reg.browsers, tenant))
    case Device => ActiveOf(w, Lookup(w.reg.devices, tenant))
    case Self => [r]
    case Server => []
  }

  // ---------- the device's messages ----------

  predicate Interested(w: World, r: SessionRef, b: SessionRef) {
    r in w.objects && Active(w, b) &&
    (w.objects[b].who.product == None || w.objects[b].who.product == w.objects[r].who.deviceProduct)
  }

  function Audience(w: World, r: SessionRef): seq<SessionRef>
    requires r in w.objects
  {
    Restrict(Lookup(w.reg.browsers, w.objects[r].who.tenant), set b | b in w.objects && Interested(w, r, b))
  }

  function Announce(w: World, r: SessionRef, what: Label): World
    requires r in w.objects
  {
    var s := w.objects[r];
    if s.who.kind != Device then w
    else w.(sent := w.sent + [Message(what, s.who.id, s.who.tenant, s.phase, Audience(w, r))])
  }

  // ---------- the lifecycle ----------

  function OnConnect(w: World, r: SessionRef): World
    requires r in w.objects
  {
    var s := w.objects[r];
    if !Managed(s.who.kind) then w
    else
      var online := PutSession(w, r, s.(lastSeen := w.now, phase := ONLINE));
      var resumed := s.socket.Some? && s.socket.value in w.clients && w.clients[s.socket.value].resume;
      Announce(online, r, if resumed then Reconnect else Connected)
  }

  function OnSuspend(w: World, r: SessionRef): World
    requires r in w.objects
  {
    var s := w.objects[r];
    Announce(Clear(PutSession(w, r, s.(phase := SUSPEND, socket := None)), s.timer), r, Suspended)
  }

  function Retire(w: World, r: SessionRef): World
    requires r in w.objects && Closed(w)
  {
    var id := w.objects[r].who.id;
    var who := if id in w.reg.sessions then w.objects[w.reg.sessions[id]].who else w.objects[r].who;
    Announce(w.(reg := Unregister(w.reg, id, who)), r, Disconnected)
  }

  /** `t` is the handle that `setTimeout` returns if it is called. */
  function OnDisconnect(w: World, r: SessionRef, t: TimerId): World
    requires r in w.objects && Closed(w)
  {
    var s := w.objects[r];
    if !Managed(s.who.kind) then w
    else
      var seen := PutSession(w, r, s.(lastSeen := w.now));
      if s.phase == REPLACE then seen
      else if s.phase == OFFLINE then Retire(seen, r)
      else
        var suspended := OnSuspend(seen, r);
        suspended.(
          timers := suspended.timers[t := Timer(r, w.now + w.timeout)],
          objects := suspended.objects[r := suspended.objects[r].(timer := Some(t))])
  }

  /** The callback of the suspend timer. */
  function TimerFires(w: World, t: TimerId): World
    requires t in w.timers && Closed(w)
  {
    var r := w.timers[t].session;
    var spent := w.(timers := w.timers - {t});
    if w.objects[r].phase == SUSPEND then Retire(PutSession(spent, r, w.objects[r].(phase := OFFLINE)), r) else spent
  }

  // ---------- the gateway ----------

  /** A connection whose authentication succeeded. The socket may have closed meanwhile. */
  function Connect(w: World, c: SocketId, open: bool, fresh_: SessionRef, who: Ident): World
    requires Closed(w)
  {
    var met := w.(clients := w.clients[c := Client(None, open, false)]);
    OnConnect(Establish(met, c, fresh_, who), Established(w, who.id, fresh_))
  }

  function HandleDisconnect(w: World, c: SocketId, t: TimerId): World
    requires c in w.clients && Closed(w)
  {
    var session := w.clients[c].session;
    if session == None || w.objects[session.value].socket != Some(c) then w
    else OnDisconnect(w, session.value, t)
  }

  /** The socket's close event. */
  function Close(w: World, c: SocketId, t: TimerId): World
    requires c in w.clients && Closed(w)
  {
    HandleDisconnect(Shut(w, Some(c)), c, t)
  }
}
