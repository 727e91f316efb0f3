// Which step says what about a device, exactly who hears it, and which sockets are open.
module SessionMessages {
  import opened Wrappers
  import opened Ordered
  import opened Sessions
  import opened SessionRuns
  import opened SessionFates

  // ---------- who hears ----------

  /** A browser or desktop of the device's tenant, connected, that asks for no product or for this one. */
  ghost predicate Listens(w: World, r: SessionRef, b: SessionRef)
    requires r in w.objects
  {
    && Registered(w, b) && (w.objects[b].who.kind == Browser || w.objects[b].who.kind == Desktop)
    && w.objects[b].who.tenant == w.objects[r].who.tenant
    && w.objects[b].socket.Some? && w.objects[b].socket.value in w.clients && w.clients[w.objects[b].socket.value].open
    && (w.objects[b].who.product == None || w.objects[b].who.product == w.objects[r].who.deviceProduct)
  }

  /** A message about device `r` as it now stands, to everybody who listens and to nobody else. */
  ghost predicate Says(w: World, r: SessionRef, m: Message, what: Label)
    requires r in w.objects
  {
    var s := w.objects[r];
    && m.what == what && m.id == s.who.id && m.tenant == s.who.tenant && m.phase == s.phase
    && NoDup(m.to) && forall b :: b in m.to <==> Listens(w, r, b)
  }

  lemma AudienceListens(w: World, r: SessionRef, b: SessionRef)
    requires Tables(w) && r in w.objects
    ensures NoDup(Audience(w, r)) && (b in Audience(w, r) <==> Listens(w, r, b))
  {
    hide Restrict;
    var tenant := w.objects[r].who.tenant;
    var keep := set q | q in w.objects && Interested(w, r, q);
    var all := Members(w, tenant, Browsers);
    assert Lookup(w.reg.browsers, tenant) == Restrict(w.reg.order, all);
    RestrictTwice(w.reg.order, all, keep);
    RestrictElems(w.reg.order, all * keep);
    RestrictNoDup(w.reg.order, all * keep);
    assert b in Audience(w, r) <==> b in Elems(Audience(w, r));
  }

  /** What one announcement adds to the messages. */
  ghost predicate Adds(v: World, w: World, r: SessionRef, what: Label)
    requires r in w.objects
  {
    if w.objects[r].who.kind != Device then w.sent == v.sent
    else |w.sent| == |v.sent| + 1 && w.sent[..|v.sent|] == v.sent && Says(w, r, w.sent[|v.sent|], what)
  }

  lemma AnnounceAdds(v: World, r: SessionRef, what: Label)
    requires Tables(v) && r in v.objects
    ensures Adds(v, Announce(v, r, what), r, what)
  {
    hide Audience, Tables;
    var w := Announce(v, r, what);
    forall b ensures b in Audience(v, r) <==> Listens(w, r, b) {
      AudienceListens(v, r, b);
      assert Listens(v, r, b) <==> Listens(w, r, b);
    }
    AudienceListens(v, r, r);
  }

  /**
   * A connect announces its session: reconnected if the id was registered, else connected; to every
   * listening browser, and if it is a device.
   */
  lemma ConnectSays(w: World, c: SocketId, open: bool, f: SessionRef, who: Ident)
    requires Inv(w) && Enabled(w, NewConnection(c, open, f, who))
    ensures var v := Next(w, NewConnection(c, open, f, who));
      var r := if who.id in w.reg.sessions then w.reg.sessions[who.id] else f;
      r in v.objects && Adds(w, v, r, if who.id in w.reg.sessions then Reconnect else Connected)
  {
    hide Machine, Tables, Trace, Announce, Rebound, Arrived, Connect, Adds;
    MachineParts(w);
    if who.id in w.reg.sessions {
      var r := w.reg.sessions[who.id];
      ConnectRegistered(w, c, open, f, who);
      ReboundIs(w, r, c, open);
      SameTables(w, Rebound(w, r, c, open));
      AnnounceIs(Rebound(w, r, c, open), r, Reconnect);
      AnnounceAdds(Rebound(w, r, c, open), r, Reconnect);
      AddsFrom(w, Rebound(w, r, c, open), Announce(Rebound(w, r, c, open), r, Reconnect), r, Reconnect);
    } else {
      ConnectNew(w, c, open, f, who);
      ArrivedKeeps(w, f, who, c, open);
      ArrivedIs(w, f, who, c, open);
      AnnounceIs(Arrived(w, f, who, c, open), f, Connected);
      AnnounceAdds(Arrived(w, f, who, c, open), f, Connected);
      AddsFrom(w, Arrived(w, f, who, c, open), Announce(Arrived(w, f, who, c, open), f, Connected), f, Connected);
    }
  }

  lemma MachineParts(w: World)
    requires Machine(w)
    ensures Closed(w) && forall id :: id in w.reg.sessions ==> w.reg.sessions[id] in w.objects && Registered(w, w.reg.sessions[id])
  {
  }

  lemma ReboundIs(w: World, r: SessionRef, c: SocketId, open: bool)
    requires r in w.objects
    ensures var v := Rebound(w, r, c, open);
      && v.sent == w.sent && v.reg == w.reg && v.objects.Keys == w.objects.Keys
      && forall q :: q in w.objects ==> v.objects[q].who == w.objects[q].who
  {
  }

  lemma ArrivedIs(w: World, f: SessionRef, who: Ident, c: SocketId, open: bool)
    ensures Arrived(w, f, who, c, open).sent == w.sent && f in Arrived(w, f, who, c, open).objects
  {
  }

  /** The close of a session's own socket announces that it is suspended; any other close says nothing. */
  lemma CloseSays(w: World, c: SocketId, t: TimerId)
    requires Inv(w) && Enabled(w, CloseEvent(c, t))
    ensures var v := Next(w, CloseEvent(c, t));
      && (Detached(w, c) ==> v.sent == w.sent)
      && forall r :: r in w.objects && w.objects[r].socket == Some(c) ==> r in v.objects && Adds(w, v, r, Suspended)
  {
    hide Tables, Trace, Announce, Close, SessionOk, TimerOk, Adds, Paused;
    if Detached(w, c) {
      CloseDetached(w, c, t);
    }
    forall r | r in w.objects && w.objects[r].socket == Some(c) ensures r in Next(w, CloseEvent(c, t)).objects && Adds(w, Next(w, CloseEvent(c, t)), r, Suspended) {
      if Managed(w.objects[r].who.kind) {
        CloseAttached(w, c, t, r);
        PausedIs(w, r, c, t);
        SameTables(w, Paused(w, r, c, t));
        AnnounceAdds(Paused(w, r, c, t), r, Suspended);
        AnnounceIs(Paused(w, r, c, t), r, Suspended);
        AddsFrom(w, Paused(w, r, c, t), Announce(Paused(w, r, c, t), r, Suspended), r, Suspended);
      } else {
        CloseUnmanaged(w, c, t, r);
        SilentAdds(w, Shut(w, Some(c)), r, Suspended);
      }
    }
  }

  lemma PausedIs(w: World, r: SessionRef, c: SocketId, t: TimerId)
    requires r in w.objects
    ensures var v := Paused(w, r, c, t);
      && v.sent == w.sent && v.reg == w.reg && v.objects.Keys == w.objects.Keys
      && forall q :: q in w.objects ==> v.objects[q].who == w.objects[q].who
  {
  }

  lemma AnnounceIs(w: World, r: SessionRef, what: Label)
    requires r in w.objects
    ensures Announce(w, r, what).objects == w.objects
  {
  }

  lemma AddsFrom(w: World, v: World, z: World, r: SessionRef, what: Label)
    requires w.sent == v.sent && r in z.objects && Adds(v, z, r, what)
    ensures Adds(w, z, r, what)
  {
  }

  lemma SilentAdds(w: World, v: World, r: SessionRef, what: Label)
    requires v.sent == w.sent && r in v.objects && v.objects[r].who.kind != Device
    ensures Adds(w, v, r, what)
  {
  }

  /** A suspend timer that fires announces that its session is gone. */
  lemma TimerSays(w: World, t: TimerId)
    requires Inv(w) && Enabled(w, SuspendTimer(t))
    ensures var v := Next(w, SuspendTimer(t)); w.timers[t].session in v.objects && Adds(w, v, w.timers[t].session, Disconnected)
  {
    hide Tables, Trace, Announce, TimerFires, SessionOk, TimerOk, Adds, Retired, Machine;
    var r := w.timers[t].session;
    TimerRetires(w, t);
    RetiredKeeps(w, r, t);
    RetiredIs(w, r, t);
    AnnounceAdds(Retired(w, r, t), r, Disconnected);
    AnnounceIs(Retired(w, r, t), r, Disconnected);
    AddsFrom(w, Retired(w, r, t), Announce(Retired(w, r, t), r, Disconnected), r, Disconnected);
  }

  lemma RetiredIs(w: World, r: SessionRef, t: TimerId)
    requires r in w.objects
    ensures Retired(w, r, t).sent == w.sent && r in Retired(w, r, t).objects
  {
  }

  /** Time and a socket that leaves the open state say nothing. */
  lemma OthersSayNothing(w: World, e: Step)
    requires Enabled(w, e) && (e.Elapse? || e.Drop?)
    ensures Next(w, e).sent == w.sent
  {
  }

  // ---------- open sockets ----------

  /** An open socket that knows a session is the one the session has: no session has two open sockets. */
  ghost predicate OneOpen(w: World) {
    forall c :: c in w.clients && w.clients[c].open && w.clients[c].session.Some? ==>
      w.clients[c].session.value in w.objects && w.objects[w.clients[c].session.value].socket == Some(c)
  }

  lemma ShutKeepsOpen(w: World, socket: Option<SocketId>)
    requires OneOpen(w)
    ensures OneOpen(Shut(w, socket))
  {
  }

  /** After shutting the socket of `r`, no open socket knows `r`. */
  lemma ShutLeavesNone(w: World, r: SessionRef)
    requires OneOpen(w) && r in w.objects
    ensures forall c :: c in w.clients && Shut(w, w.objects[r].socket).clients[c].open ==> w.clients[c].session != Some(r)
    ensures var v := Shut(w, w.objects[r].socket);
      && v.clients.Keys == w.clients.Keys
      && (forall c :: c in w.clients ==> v.clients[c].session == w.clients[c].session)
      && (forall c :: c in w.clients && v.clients[c].open ==> w.clients[c].open)
  {
  }

  lemma ReboundKeepsOpen(w: World, r: SessionRef, c: SocketId, open: bool)
    requires OneOpen(w) && r in w.objects && c !in w.clients
    ensures OneOpen(Rebound(w, r, c, open))
  {
    hide Shut;
    ShutLeavesNone(w, r);
  }

  lemma PausedKeepsOpen(w: World, r: SessionRef, c: SocketId, t: TimerId)
    requires OneOpen(w) && r in w.objects && w.objects[r].socket == Some(c)
    ensures OneOpen(Paused(w, r, c, t))
  {
    hide Shut;
    ShutLeavesNone(w, r);
  }

  lemma RetiredKeepsOpen(w: World, r: SessionRef, t: TimerId)
    requires OneOpen(w) && r in w.objects
    ensures OneOpen(Retired(w, r, t))
  {
  }

  lemma NextKeepsOpen(w: World, e: Step)
    requires Inv(w) && OneOpen(w) && Enabled(w, e)
    ensures OneOpen(Next(w, e))
  {
    hide Connect, Close, TimerFires, Tables, Trace, TimerOk, SessionOk, Audience, Rebound, Paused, Retired, Shut, Register;
    match e {
      case Elapse(_) =>
      case NewConnection(d, open, f, who) =>
        if who.id in w.reg.sessions {
          ConnectRegistered(w, d, open, f, who);
          ReboundKeepsOpen(w, w.reg.sessions[who.id], d, open);
        } else {
          ConnectNew(w, d, open, f, who);
        }
      case Drop(d) => ShutKeepsOpen(w, Some(d));
      case CloseEvent(d, t) =>
        ShutKeepsOpen(w, Some(d));
        var r := CloseCases(w, d, t);
        if Close(w, d, t) != Shut(w, Some(d)) {
          PausedKeepsOpen(w, r, d, t);
        }
      case SuspendTimer(t) =>
        TimerRetires(w, t);
        RetiredKeepsOpen(w, w.timers[t].session, t);
    }
  }

  lemma {:induction false} RunKeepsOpen(w: World, run: seq<Step>)
    requires Inv(w) && OneOpen(w) && IsRun(w, run)
    ensures OneOpen(Exec(w, run))
    decreases |run|
  {
    hide Inv, Next, OneOpen;
    if run != [] {
      var n := |run| - 1;
      RunKeepsOpen(w, run[..n]);
      RunKeepsInv(w, run[..n]);
      NextKeepsOpen(Exec(w, run[..n]), run[n]);
    }
  }

  /** In every reachable state, of all sockets a session ever had at most its own is open. */
  lemma OneOpenSocket(w: World, c: SocketId, d: SocketId)
    requires Reachable(w) && c in w.clients && d in w.clients
    requires w.clients[c].open && w.clients[d].open && w.clients[c].session.Some? && w.clients[c].session == w.clients[d].session
    ensures c == d && w.clients[c].session.value in w.objects && w.objects[w.clients[c].session.value].socket == Some(c)
  {
    hide Inv;
    var timeout: nat, now: int, run: seq<Step> :| IsRun(Init(timeout, now), run) && w == Exec(Init(timeout, now), run);
    InitInv(timeout, now);
    RunKeepsOpen(Init(timeout, now), run);
  }
}
