// What the runs of the session machine promise.
module SessionFates {
  import opened Ordered
  import opened Sessions
  import opened Wrappers
  import opened SessionRuns

  /** A state some run of the program reaches. */
  ghost predicate Reachable(w: World) {
    exists timeout: nat, now: int, run: seq<Step> :: IsRun(Init(timeout, now), run) && w == Exec(Init(timeout, now), run)
  }

  lemma ReachableInv(w: World)
    requires Reachable(w)
    ensures Inv(w)
  {
    var timeout: nat, now: int, run: seq<Step> :| IsRun(Init(timeout, now), run) && w == Exec(Init(timeout, now), run);
    InitInv(timeout, now);
    RunKeepsInv(Init(timeout, now), run);
  }

  ghost predicate Armed(w: World, r: SessionRef) {
    exists t :: t in w.timers && w.timers[t].session == r
  }

  /**
   * The session machine: a registered session is CONNECTING, ONLINE or SUSPEND, and CONNECTING
   * only for the types without a lifecycle; it is suspended iff it has no socket iff a suspend
   * timer is armed for it; the timer is due a timeout after the suspension.
   */
  lemma SessionMachine(w: World, r: SessionRef)
    requires Reachable(w) && Registered(w, r)
    ensures
      var s := w.objects[r];
      && s.phase in {CONNECTING, ONLINE, SUSPEND}
      && (s.phase == CONNECTING <==> !Managed(s.who.kind))
      && (s.phase == SUSPEND <==> s.socket == None)
      && (s.phase == SUSPEND <==> Armed(w, r))
      && forall t :: t in w.timers && w.timers[t].session == r ==> s.timer == Some(t) && w.timers[t].due == s.lastSeen + w.timeout
  {
    ReachableInv(w);
    assert SessionOk(w, r);
    assert forall t :: t in w.timers ==> TimerOk(w, t);
  }

  /** A session that left the registry is OFFLINE, holds no socket and has no timer. */
  lemma UnregisteredIsOffline(w: World, r: SessionRef)
    requires Reachable(w) && r in w.objects && !Registered(w, r)
    ensures w.objects[r].phase == OFFLINE && w.objects[r].socket == None && !Armed(w, r)
  {
    ReachableInv(w);
    assert SessionOk(w, r);
    assert forall t :: t in w.timers ==> TimerOk(w, t);
  }

  /** Sockets and sessions point at each other, and no two sessions share a socket. */
  lemma SocketsPointBack(w: World, q: SessionRef, r: SessionRef, c: SocketId)
    requires Reachable(w) && q in w.objects && r in w.objects
    requires w.objects[q].socket == Some(c) && w.objects[r].socket == Some(c)
    ensures q == r && Registered(w, r) && c in w.clients && w.clients[c].session == Some(r)
  {
    ReachableInv(w);
    assert SessionOk(w, q) && SessionOk(w, r);
  }

  // ---------- stale sockets ----------

  /** A close event either only marks the socket closed or suspends the session that holds it. */
  lemma CloseCases(w: World, c: SocketId, t: TimerId) returns (r: SessionRef)
    requires Machine(w) && c in w.clients
    ensures
      || Close(w, c, t) == Shut(w, Some(c))
      || (Registered(w, r) && w.objects[r].socket == Some(c) && Close(w, c, t) == Announce(Paused(w, r, c, t), r, Suspended))
  {
    hide Close, Shut, Audience, TimerOk;
    r := 0;
    if Detached(w, c) {
      CloseDetached(w, c, t);
    } else {
      r :| r in w.objects && w.objects[r].socket == Some(c);
      assert SessionOk(w, r);
      if Managed(w.objects[r].who.kind) {
        CloseAttached(w, c, t, r);
      } else {
        CloseUnmanaged(w, c, t, r);
      }
    }
  }

  /** No step gives a detached socket back to a session. */
  lemma NextKeepsDetached(w: World, e: Step, c: SocketId)
    requires Inv(w) && Enabled(w, e) && c in w.clients && Detached(w, c)
    ensures c in Next(w, e).clients && Detached(Next(w, e), c)
  {
    hide Connect, Close, TimerFires, Tables, Trace, TimerOk, SessionOk, Audience, Register, Unregister;
    match e {
      case Elapse(_) =>
      case NewConnection(d, open, f, who) =>
        if who.id in w.reg.sessions {
          ConnectRegistered(w, d, open, f, who);
        } else {
          ConnectNew(w, d, open, f, who);
        }
      case Drop(_) =>
      case CloseEvent(d, t) =>
        var r := CloseCases(w, d, t);
      case SuspendTimer(t) => TimerRetires(w, t);
    }
  }

  lemma {:induction false} DetachedForever(w: World, run: seq<Step>, c: SocketId)
    requires Inv(w) && IsRun(w, run) && c in w.clients && Detached(w, c)
    ensures c in Exec(w, run).clients && Detached(Exec(w, run), c)
    decreases |run|
  {
    hide Inv, Next, Detached;
    if run != [] {
      var n := |run| - 1;
      DetachedForever(w, run[..n], c);
      RunKeepsInv(w, run[..n]);
      NextKeepsDetached(Exec(w, run[..n]), run[n], c);
    }
  }

  /** The socket that a connect replaces, or whose close is handled, is detached. */
  lemma Detaches(w: World, e: Step, c: SocketId, r: SessionRef)
    requires Inv(w) && Enabled(w, e) && r in w.objects && w.objects[r].socket == Some(c) && Managed(w.objects[r].who.kind)
    requires (e.NewConnection? && e.who.id == w.objects[r].who.id) || (e.CloseEvent? && e.c == c)
    ensures c in Next(w, e).clients && Detached(Next(w, e), c)
  {
    hide Audience, Restrict, Connect, Close, Tables, Trace, TimerOk;
    assert forall q :: q in w.objects ==> SessionOk(w, q);
    if e.NewConnection? {
      ConnectRegistered(w, e.c, e.open, e.fresh_, e.who);
    } else {
      CloseAttached(w, c, e.t, r);
    }
  }

  /** From then on, in every run, its close events change nothing but that it is closed. */
  lemma StaleCloseIgnored(w: World, e: Step, c: SocketId, r: SessionRef, run: seq<Step>, t: TimerId)
    requires Reachable(w) && Enabled(w, e) && r in w.objects && w.objects[r].socket == Some(c) && Managed(w.objects[r].who.kind)
    requires (e.NewConnection? && e.who.id == w.objects[r].who.id) || (e.CloseEvent? && e.c == c)
    requires IsRun(Next(w, e), run)
    ensures
      var v := Exec(Next(w, e), run);
      c in v.clients && Closed(v) && Close(v, c, t) == v.(clients := v.clients[c := v.clients[c].(open := false)])
  {
    hide Inv, Next, Close, Detached;
    ReachableInv(w);
    Detaches(w, e, c, r);
    NextKeepsInv(w, e);
    DetachedForever(Next(w, e), run, c);
    RunKeepsInv(Next(w, e), run);
    var v := Exec(Next(w, e), run);
    ClosedIsShut(v, c, t);
  }

  lemma ClosedIsShut(v: World, c: SocketId, t: TimerId)
    requires Inv(v) && c in v.clients && Detached(v, c)
    ensures Closed(v) && Close(v, c, t) == v.(clients := v.clients[c := v.clients[c].(open := false)])
  {
    CloseDetached(v, c, t);
    assert v.clients[c := v.clients[c]] == v.clients;
  }

  // ---------- removal ----------

  ghost predicate SuspendedAs(w: World, id: UserId, r: SessionRef) {
    id in w.reg.sessions && w.reg.sessions[id] == r && r in w.objects && w.objects[r].phase == SUSPEND
  }

  ghost predicate ConnectsAs(e: Step, id: UserId) {
    e.NewConnection? && e.who.id == id
  }

  /** Where a suspended session comes from: one step before, or a close event just now. */
  lemma SuspendedBefore(w: World, e: Step, id: UserId, r: SessionRef)
    requires Inv(w) && Enabled(w, e) && SuspendedAs(Next(w, e), id, r)
    ensures !ConnectsAs(e, id)
    ensures
      || (SuspendedAs(w, id, r) && w.objects[r].lastSeen == Next(w, e).objects[r].lastSeen)
      || (e.CloseEvent? && Registered(w, r) && w.objects[r].socket == Some(e.c) && Next(w, e).objects[r].lastSeen == w.now)
  {
    hide Connect, Close, TimerFires, Tables, Trace, TimerOk, SessionOk, Audience, Without, Joined, Left, Swapped;
    match e {
      case Elapse(_) =>
      case NewConnection(d, open, f, who) =>
        if who.id in w.reg.sessions {
          ConnectRegistered(w, d, open, f, who);
        } else {
          ConnectNew(w, d, open, f, who);
        }
      case Drop(_) =>
      case CloseEvent(d, t) =>
        var q := CloseCases(w, d, t);
      case SuspendTimer(t) => TimerRetires(w, t);
    }
  }

  /** An armed timer is its session's, and due a timeout after the suspension. */
  lemma TimerIsDue(w: World, t: TimerId)
    requires Machine(w) && t in w.timers
    ensures var r := w.timers[t].session;
      Registered(w, r) && w.timers[t].due == w.objects[r].lastSeen + w.timeout
  {
    assert TimerOk(w, t);
    assert SessionOk(w, w.timers[t].session);
  }

  /** Which step takes an id out of the registry. */
  lemma OnlyTimersRemove(w: World, e: Step, id: UserId)
    requires Inv(w) && Enabled(w, e) && id in w.reg.sessions && id !in Next(w, e).reg.sessions
    ensures e.SuspendTimer? && SuspendedAs(w, id, w.reg.sessions[id])
    ensures w.now >= w.objects[w.reg.sessions[id]].lastSeen + w.timeout
  {
    hide Connect, Close, TimerFires, Tables, Trace, Audience, SessionOk, TimerOk, Without, Joined, Left, Swapped;
    match e {
      case Elapse(_) =>
      case NewConnection(d, open, f, who) =>
        if who.id in w.reg.sessions {
          ConnectRegistered(w, d, open, f, who);
        } else {
          ConnectNew(w, d, open, f, who);
        }
      case Drop(_) =>
      case CloseEvent(d, t) =>
        var q := CloseCases(w, d, t);
      case SuspendTimer(t) =>
        TimerRetires(w, t);
        TimerIsDue(w, t);
    }
  }

  ghost predicate SuspendedSince(w: World, run: seq<Step>, k: nat, id: UserId, r: SessionRef)
    requires IsRun(w, run) && k < |run|
    requires forall n: nat :: n <= |run| ==> IsRun(w, run[..n])
  {
    && run[k].CloseEvent?
    && Registered(Exec(w, run[..k]), r) && Exec(w, run[..k]).objects[r].socket == Some(run[k].c)
    && (forall n: nat :: k < n <= |run| ==> SuspendedAs(Exec(w, run[..n]), id, r))
    && (forall n: nat :: k <= n < |run| ==> !ConnectsAs(run[n], id))
  }

  lemma NothingSuspended(w: World, id: UserId, r: SessionRef)
    requires w.objects == map[]
    ensures !SuspendedAs(w, id, r)
  {
  }

  /** Every suspended session was suspended by a close event, and has been suspended ever since. */
  lemma {:induction false} SuspensionBegins(w: World, run: seq<Step>, id: UserId, r: SessionRef) returns (k: nat)
    requires Inv(w) && IsRun(w, run) && w.objects == map[] && SuspendedAs(Exec(w, run), id, r)
    ensures k < |run| && forall n: nat :: n <= |run| ==> IsRun(w, run[..n])
    ensures SuspendedSince(w, run, k, id, r)
    ensures Exec(w, run).objects[r].lastSeen == Exec(w, run[..k]).now
    decreases |run|
  {
    hide Inv, Next, Enabled, Registered;
    forall n: nat | n <= |run| ensures IsRun(w, run[..n]) {
      PrefixIsRun(w, run, n);
    }
    NothingSuspended(w, id, r);
    var m := |run| - 1;
    var front := run[..m];
    RunKeepsInv(w, front);
    SuspendedBefore(Exec(w, front), run[m], id, r);
    assert run[..|run|] == run;
    if SuspendedAs(Exec(w, front), id, r) && Exec(w, front).objects[r].lastSeen == Exec(w, run).objects[r].lastSeen {
      k := SuspensionBegins(w, front, id, r);
      assert forall n: nat :: n <= m ==> front[..n] == run[..n];
    } else {
      k := m;
    }
  }

  /**
   * Removal: a session leaves the registry only through its suspend timer, at least the timeout
   * after the close event that suspended it, with no connect of that id in between.
   */
  lemma RemovedAfterTimeout(timeout: nat, now: int, run: seq<Step>, e: Step, id: UserId) returns (k: nat)
    requires IsRun(Init(timeout, now), run) && Enabled(Exec(Init(timeout, now), run), e)
    requires id in Exec(Init(timeout, now), run).reg.sessions
    requires id !in Next(Exec(Init(timeout, now), run), e).reg.sessions
    ensures e.SuspendTimer?
    ensures k < |run| && forall n: nat :: n <= |run| ==> IsRun(Init(timeout, now), run[..n])
    ensures SuspendedSince(Init(timeout, now), run, k, id, Exec(Init(timeout, now), run).reg.sessions[id])
    ensures Exec(Init(timeout, now), run).now - Exec(Init(timeout, now), run[..k]).now >= timeout
  {
    hide Inv, Next, SuspendedSince;
    var w := Init(timeout, now);
    InitInv(timeout, now);
    RunKeepsInv(w, run);
    OnlyTimersRemove(Exec(w, run), e, id);
    TimeoutIsFixed(w, run);
    k := SuspensionBegins(w, run, id, Exec(w, run).reg.sessions[id]);
  }

  lemma NextKeepsTimeout(w: World, e: Step)
    requires Inv(w) && Enabled(w, e)
    ensures Next(w, e).timeout == w.timeout
  {
    hide Connect, Close, TimerFires, Tables, Trace, TimerOk, SessionOk, Audience, Register, Unregister;
    match e {
      case Elapse(_) =>
      case NewConnection(d, open, f, who) =>
        if who.id in w.reg.sessions {
          ConnectRegistered(w, d, open, f, who);
        } else {
          ConnectNew(w, d, open, f, who);
        }
      case Drop(_) =>
      case CloseEvent(d, t) =>
        var r := CloseCases(w, d, t);
      case SuspendTimer(t) => TimerRetires(w, t);
    }
  }

  /** No step changes who a session is, or forgets a session object. */
  lemma NextKeepsWho(w: World, e: Step, r: SessionRef)
    requires Inv(w) && Enabled(w, e) && r in w.objects
    ensures r in Next(w, e).objects && Next(w, e).objects[r].who == w.objects[r].who
  {
    hide Connect, Close, TimerFires, Tables, Trace, TimerOk, SessionOk, Audience, Register, Unregister;
    match e {
      case Elapse(_) =>
      case NewConnection(d, open, f, who) =>
        if who.id in w.reg.sessions {
          ConnectRegistered(w, d, open, f, who);
        } else {
          ConnectNew(w, d, open, f, who);
        }
      case Drop(_) =>
      case CloseEvent(d, t) =>
        var q := CloseCases(w, d, t);
      case SuspendTimer(t) => TimerRetires(w, t);
    }
  }

  lemma {:induction false} TimeoutIsFixed(w: World, run: seq<Step>)
    requires Inv(w) && IsRun(w, run)
    ensures Exec(w, run).timeout == w.timeout
    decreases |run|
  {
    hide Next, Inv;
    if run != [] {
      RunKeepsInv(w, run[..|run| - 1]);
      TimeoutIsFixed(w, run[..|run| - 1]);
      NextKeepsTimeout(Exec(w, run[..|run| - 1]), run[|run| - 1]);
    }
  }

  /** And once the timeout has passed, the timer of a suspended session can fire and removes it. */
  lemma TimeoutRemoves(w: World, r: SessionRef) returns (t: TimerId)
    requires Reachable(w) && Registered(w, r)
    requires w.objects[r].phase == SUSPEND && w.now >= w.objects[r].lastSeen + w.timeout
    ensures Enabled(w, SuspendTimer(t))
    ensures var v := Next(w, SuspendTimer(t));
      && v.reg.sessions == w.reg.sessions - {w.objects[r].who.id}
      && v.objects == w.objects[r := w.objects[r].(phase := OFFLINE)]
  {
    hide Audience, Without, Left, TimerFires, Tables, Trace;
    ReachableInv(w);
    assert SessionOk(w, r);
    t := w.objects[r].timer.value;
    TimerRetires(w, t);
  }

  // ---------- tenants ----------

  /** The tenant queries return what a scan of the registry finds, in the registry's order. */
  lemma TenantQueryIsScan(w: World, t: Tenant, g: Group, keep: set<SessionRef>)
    requires Reachable(w)
    ensures Restrict(Lookup(IndexOf(w.reg, g), t), keep) == Restrict(w.reg.order, Members(w, t, g) * keep)
    ensures t in IndexOf(w.reg, g) ==> IndexOf(w.reg, g)[t] != []
    ensures NoDup(w.reg.order) && forall r :: r in w.reg.order <==> Registered(w, r)
  {
    hide Machine, Trace, Restrict;
    ReachableInv(w);
    RestrictTwice(w.reg.order, Members(w, t, g), keep);
  }

  /** A type answers the type asked for; browsers and desktops answer each other's. */
  predicate Answers(kind: Kind, other: Kind) {
    && (InGroup(other, Devices) || InGroup(other, Browsers))
    && (InGroup(kind, Devices) <==> InGroup(other, Devices))
    && (InGroup(kind, Browsers) <==> InGroup(other, Browsers))
  }

  /** Whom session `r` gets when it asks for a type. */
  ghost predicate ReceiverOf(w: World, r: SessionRef, kind: Kind, b: SessionRef)
    requires r in w.objects
  {
    && Registered(w, b) && Active(w, b) && w.objects[b].who.tenant == w.objects[r].who.tenant
    && Answers(kind, w.objects[b].who.kind)
  }

  lemma ActiveMembers(w: World, r: SessionRef, kind: Kind, b: SessionRef)
    requires Inv(w) && r in w.objects && kind != Self
    ensures NoDup(ActiveByType(w, r, kind))
    ensures b in ActiveByType(w, r, kind) <==> ReceiverOf(w, r, kind, b)
  {
    hide Machine, Trace, Restrict, Active;
    var g := if kind == Device then Devices else Browsers;
    var tenant := w.objects[r].who.tenant;
    var active := set q | q in w.objects && Active(w, q);
    RestrictTwice(w.reg.order, Members(w, tenant, g), active);
    RestrictElems(w.reg.order, Members(w, tenant, g) * active);
    RestrictNoDup(w.reg.order, Members(w, tenant, g) * active);
    assert forall q :: q in ActiveByType(w, r, kind) <==> q in Elems(ActiveByType(w, r, kind));
  }

  /**
   * `getActiveScoketsByType`: exactly the registered sessions of that type and of the sender's
   * tenant whose socket is open, each once.
   */
  lemma ActiveByTypeIsTenant(w: World, r: SessionRef, kind: Kind, b: SessionRef)
    requires Reachable(w) && r in w.objects && kind != Self
    ensures NoDup(ActiveByType(w, r, kind))
    ensures b in ActiveByType(w, r, kind) <==> ReceiverOf(w, r, kind, b)
  {
    hide Inv, ActiveByType, ReceiverOf;
    ReachableInv(w);
    ActiveMembers(w, r, kind, b);
  }

  // ---------- presence ----------

  /** The messages about one device. */
  function About(sent: seq<Message>, id: UserId): seq<Message> {
    if sent == [] then []
    else
      var n := |sent| - 1;
      About(sent[..n], id) + if sent[n].id == id then [sent[n]] else []
  }

  predicate Follows(a: Label, b: Label) {
    match a
    case Connected => b == Reconnect || b == Suspended
    case Reconnect => b == Reconnect || b == Suspended
    case Suspended => b == Reconnect || b == Disconnected
    case Disconnected => b == Connected
  }

  function Carries(what: Label): Phase {
    match what
    case Connected => ONLINE
    case Reconnect => ONLINE
    case Suspended => SUSPEND
    case Disconnected => OFFLINE
  }

  /** A prefix of (connected (reconnect | suspend reconnect)* suspend disconnected)*. */
  ghost predicate Legal(ms: seq<Message>) {
    && (ms != [] ==> ms[0].what == Connected)
    && (forall i, j :: 0 <= i < |ms| && j == i + 1 && j < |ms| ==> Follows(ms[i].what, ms[j].what))
    && (forall i :: 0 <= i < |ms| ==> ms[i].phase == Carries(ms[i].what))
  }

  function AfterLast(ms: seq<Message>): Presence {
    if ms == [] then Absent
    else
      match ms[|ms| - 1].what
      case Connected => Present
      case Reconnect => Present
      case Suspended => Away
      case Disconnected => Absent
  }

  lemma ToldFollows(ms: seq<Message>, m: Message)
    ensures Told(AfterLast(ms), m) ==
      if m.phase == Carries(m.what) && (if ms == [] then m.what == Connected else Follows(ms[|ms| - 1].what, m.what))
      then Some(AfterLast(ms + [m])) else None
  {
  }

  lemma LegalSnoc(ms: seq<Message>, m: Message)
    ensures Legal(ms + [m]) <==>
      && Legal(ms) && m.phase == Carries(m.what)
      && if ms == [] then m.what == Connected else Follows(ms[|ms| - 1].what, m.what)
  {
    var l := ms + [m];
    if Legal(l) {
      assert forall i :: 0 <= i < |ms| ==> l[i] == ms[i];
      assert l[|ms|] == m;
    }
  }

  lemma LegalNone()
    ensures Legal([]) && AfterLast([]) == Absent
  {
  }

  /** The automaton accepts exactly the legal orders. */
  lemma {:induction false} TrackIsLegal(sent: seq<Message>, id: UserId)
    ensures Track(sent, id).Some? <==> Legal(About(sent, id))
    ensures Track(sent, id).Some? ==> Track(sent, id).value == AfterLast(About(sent, id))
  {
    hide Legal, Told, AfterLast, Follows;
    LegalNone();
    if sent != [] {
      var n := |sent| - 1;
      TrackIsLegal(sent[..n], id);
      if sent[n].id == id {
        ToldFollows(About(sent[..n], id), sent[n]);
        LegalSnoc(About(sent[..n], id), sent[n]);
      } else {
        assert About(sent, id) == About(sent[..n], id);
      }
    }
  }

  /**
   * Presence: the messages about a device come in a legal order, each with the state the session
   * then has, the last one says what the registry says, and only the device's tenant hears them.
   */
  lemma PresenceTrace(w: World, id: UserId)
    requires Reachable(w)
    ensures Legal(About(w.sent, id))
    ensures AfterLast(About(w.sent, id)) == PresenceOf(w, id)
    ensures forall m, b :: m in w.sent && b in m.to ==>
      b in w.objects && InGroup(w.objects[b].who.kind, Browsers) && w.objects[b].who.tenant == m.tenant
  {
    hide Machine, Tables, PresenceOf;
    ReachableInv(w);
    TrackIsLegal(w.sent, id);
    assert forall m :: m in w.sent ==> WithinTenant(w, m);
  }
}
