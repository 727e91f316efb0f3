// The first send of an event: who is written to, who is stored, and what becomes of both when a
// receiver loses its socket while the target ids are looked up.
module FirstSend {
  import opened Ordered
  import opened EventModel
  import opened EventInvariants
  import opened EventRuns
  import opened EventLeaving

  /**
   * A receiver's connection when its turn comes. A session that closed keeps its socket until the
   * close event (Closing: `send` does nothing); after it there is none, and `send` throws.
   */
  datatype Link = Open | Closing | NoSocket

  datatype Receiver = Receiver(id: UserId, link: Link)

  /** The ids of the receivers, in order. */
  function Ids(receivers: seq<Receiver>): (ids: seq<UserId>)
    ensures |ids| == |receivers| && forall i :: 0 <= i < |receivers| ==> ids[i] == receivers[i].id
  {
    seq(|receivers|, i requires 0 <= i < |receivers| => receivers[i].id)
  }

  function OnlineIds(receivers: seq<Receiver>): seq<UserId> {
    if receivers == [] then [] else
    var last := receivers[|receivers| - 1];
    OnlineIds(receivers[..|receivers| - 1]) + (if last.link == Open then [last.id] else [])
  }

  function OfflineIds(targets: seq<UserId>, online: seq<UserId>): seq<UserId> {
    Restrict(targets, Elems(targets) - Elems(online))
  }

  /** How many receivers the send loop reaches: it throws at the first without a socket. */
  function Reached(receivers: seq<Receiver>): (n: nat)
    ensures n <= |receivers|
    ensures forall i :: 0 <= i < n ==> receivers[i].link != NoSocket
    ensures n < |receivers| ==> receivers[n].link == NoSocket
  {
    if receivers == [] || receivers[0].link == NoSocket then 0
    else
      var rest := receivers[1..];
      assert forall i :: 0 < i < |receivers| ==> receivers[i] == rest[i - 1];
      Reached(rest) + 1
  }

  predicate Breaks(receivers: seq<Receiver>) {
    Reached(receivers) < |receivers|
  }

  function Written(receivers: seq<Receiver>): seq<UserId> {
    Ids(receivers[..Reached(receivers)])
  }

  /** Whom a QoS 1 send leaves in the store: nobody if the loop throws before `create`. */
  function StoredFor(receivers: seq<Receiver>, targets: seq<UserId>): seq<UserId> {
    if Breaks(receivers) then [] else OfflineIds(targets, OnlineIds(receivers))
  }

  ghost predicate Unique(receivers: seq<Receiver>) {
    forall i, j :: 0 <= i < j < |receivers| ==> receivers[i].id != receivers[j].id
  }

  ghost predicate LinkedAs(receivers: seq<Receiver>, u: UserId, link: Link) {
    exists i :: 0 <= i < |receivers| && receivers[i] == Receiver(u, link)
  }

  /** Either written to or stored, and not both. */
  ghost predicate ServedOnce(receivers: seq<Receiver>, targets: seq<UserId>, u: UserId) {
    u in Written(receivers) <==> u !in StoredFor(receivers, targets)
  }

  lemma BreaksAtNoSocket(receivers: seq<Receiver>)
    ensures Breaks(receivers) <==> exists i :: 0 <= i < |receivers| && receivers[i].link == NoSocket
  {
  }

  lemma {:induction false} OnlineAreOpen(receivers: seq<Receiver>, u: UserId)
    ensures u in OnlineIds(receivers) <==> LinkedAs(receivers, u, Open)
  {
    if receivers != [] {
      var n := |receivers| - 1;
      OnlineAreOpen(receivers[..n], u);
      if LinkedAs(receivers, u, Open) {
        var i :| 0 <= i < |receivers| && receivers[i] == Receiver(u, Open);
        assert i < n ==> receivers[..n][i] == Receiver(u, Open);
      }
      if LinkedAs(receivers[..n], u, Open) {
        var i :| 0 <= i < n && receivers[..n][i] == Receiver(u, Open);
        assert receivers[i] == Receiver(u, Open);
      }
    }
  }

  lemma OfflineAreNotOpen(receivers: seq<Receiver>, targets: seq<UserId>, u: UserId)
    ensures u in OfflineIds(targets, OnlineIds(receivers)) <==> u in targets && !LinkedAs(receivers, u, Open)
  {
    OnlineAreOpen(receivers, u);
    RestrictElems(targets, Elems(targets) - Elems(OnlineIds(receivers)));
    assert u in OfflineIds(targets, OnlineIds(receivers)) <==> u in Elems(OfflineIds(targets, OnlineIds(receivers)));
  }

  /**
   * The QoS 1 split, for all inputs: every target and every receiver is either written to or
   * stored, and not both, if and only if no receiver has lost its socket and no target is a
   * receiver whose socket is closing.
   */
  lemma LiveOrStored(receivers: seq<Receiver>, targets: seq<UserId>)
    requires Unique(receivers)
    ensures (forall u :: u in targets || u in Ids(receivers) ==> ServedOnce(receivers, targets, u)) <==>
      !Breaks(receivers) && forall u :: u in targets ==> !LinkedAs(receivers, u, Closing)
  {
    if Breaks(receivers) {
      var n := Reached(receivers);
      var u := receivers[n].id;
      assert u == Ids(receivers)[n];
      assert !ServedOnce(receivers, targets, u);
    } else {
      forall u | u in targets || u in Ids(receivers)
        ensures ServedOnce(receivers, targets, u) <==> !(u in targets && LinkedAs(receivers, u, Closing))
      {
        WholeLoop(receivers, targets, u);
      }
    }
  }

  /** When nobody has lost the socket, only a closing target is written to and stored. */
  lemma WholeLoop(receivers: seq<Receiver>, targets: seq<UserId>, u: UserId)
    requires Unique(receivers) && !Breaks(receivers) && (u in targets || u in Ids(receivers))
    ensures ServedOnce(receivers, targets, u) <==> !(u in targets && LinkedAs(receivers, u, Closing))
  {
    OfflineAreNotOpen(receivers, targets, u);
    assert receivers[..|receivers|] == receivers;
    assert Written(receivers) == Ids(receivers);
    if u in Ids(receivers) {
      var i :| 0 <= i < |receivers| && receivers[i].id == u;
      assert receivers[i].link != NoSocket;
      assert receivers[i] == Receiver(u, receivers[i].link);
      assert forall l :: LinkedAs(receivers, u, l) ==> l == receivers[i].link;
    } else {
      assert forall i :: 0 <= i < |receivers| ==> receivers[i].id == Ids(receivers)[i];
    }
  }

  /**
   * For the targets alone: they are all served once if and only if the loop completes and none
   * of them is closing, or it throws after each of them has been written to.
   */
  lemma TargetsServed(receivers: seq<Receiver>, targets: seq<UserId>)
    requires Unique(receivers)
    ensures (forall u :: u in targets ==> ServedOnce(receivers, targets, u)) <==>
      if Breaks(receivers) then forall u :: u in targets ==> exists i :: 0 <= i < Reached(receivers) && receivers[i].id == u
      else forall u :: u in targets ==> !LinkedAs(receivers, u, Closing)
  {
    if Breaks(receivers) {
      var w := Written(receivers);
      forall u ensures u in w <==> exists i :: 0 <= i < Reached(receivers) && receivers[i].id == u {
        if u in w {
          var i :| 0 <= i < |w| && w[i] == u;
          assert receivers[i].id == u;
        }
        if i :| 0 <= i < Reached(receivers) && receivers[i].id == u {
          assert w[i] == u;
        }
      }
    } else {
      forall u | u in targets ensures ServedOnce(receivers, targets, u) <==> !LinkedAs(receivers, u, Closing) {
        WholeLoop(receivers, targets, u);
      }
    }
  }

  /** A receiver that has lost its socket: it and the offline target get nothing, ever. */
  lemma BreakLosesTargets()
    ensures
      var receivers, targets := [Receiver(1, Open), Receiver(2, NoSocket)], [1, 2, 3];
      && Written(receivers) == [1] && StoredFor(receivers, targets) == []
      && !ServedOnce(receivers, targets, 2) && !ServedOnce(receivers, targets, 3)
  {
    var receivers := [Receiver(1, Open), Receiver(2, NoSocket)];
    assert Reached(receivers) == 1;
  }

  /** The same receivers in the other order: the open one gets nothing either. */
  lemma BreakBeforeAnyone()
    ensures
      var receivers, targets := [Receiver(2, NoSocket), Receiver(1, Open)], [1, 2, 3];
      && Written(receivers) == [] && StoredFor(receivers, targets) == []
      && !ServedOnce(receivers, targets, 1)
  {
  }

  /** A break after the only target: the target is served all the same. */
  lemma BreakAfterTargets()
    ensures
      var receivers, targets := [Receiver(1, Open), Receiver(2, NoSocket)], [1];
      Breaks(receivers) && forall u :: u in targets ==> ServedOnce(receivers, targets, u)
  {
    var receivers := [Receiver(1, Open), Receiver(2, NoSocket)];
    assert Reached(receivers) == 1;
    assert Written(receivers)[0] == 1;
  }

  /** A receiver whose socket is closing is written to in vain, and stored. */
  lemma ClosingIsBoth()
    ensures
      var receivers, targets := [Receiver(1, Closing)], [1];
      Written(receivers) == [1] && StoredFor(receivers, targets) == [1]
  {
    var receivers := [Receiver(1, Closing)];
    assert Reached(receivers) == 1;
    assert receivers[..1] == receivers && receivers[..0] == [];
    RestrictAll([1], Elems([1]) - Elems(OnlineIds(receivers)));
  }

  // ---------- in the store ----------

  /** How many of the open receivers come before the break. */
  function OpenReached(receivers: seq<Receiver>): nat {
    |OnlineIds(receivers[..Reached(receivers)])|
  }

  lemma {:induction false} OnlinePrefix(receivers: seq<Receiver>, n: nat)
    requires n <= |receivers|
    ensures OnlineIds(receivers[..n]) <= OnlineIds(receivers)
    decreases |receivers|
  {
    if n < |receivers| {
      var m := |receivers| - 1;
      OnlinePrefix(receivers[..m], n);
      assert receivers[..m][..n] == receivers[..n];
    } else {
      assert receivers[..n] == receivers;
    }
  }

  /** The step of the store that a first send is; none when nobody is stored. */
  ghost function FirstSteps(receivers: seq<Receiver>, targets: seq<UserId>, qos: Qos, ttl: int, senderId: UserId,
      notifySender: bool, id: EventId): seq<Step>
  {
    var online := OnlineIds(receivers);
    var offline := OfflineIds(targets, online);
    if qos == 1 && StoredFor(receivers, targets) != [] then [Publish(id, offline, Options(1, ttl, 0, false))]
    else if qos == 2 && online + offline != [] then
      var opts := Options(2, ttl, senderId, notifySender);
      if Breaks(receivers) then [BrokenDispatch(id, online, offline, OpenReached(receivers), opts)]
      else [Dispatch(id, online, offline, opts)]
    else []
  }

  /** What a first send leaves in the store. */
  ghost function AfterFirstSend(c: Config, s: State, receivers: seq<Receiver>, targets: seq<UserId>, qos: Qos, ttl: int,
      senderId: UserId, notifySender: bool, id: EventId): State
  {
    var steps := FirstSteps(receivers, targets, qos, ttl, senderId, notifySender, id);
    if steps == [] then s else Next(c, s, steps[0])
  }

  lemma {:induction false} OnlineUnique(receivers: seq<Receiver>)
    requires Unique(receivers)
    ensures NoDup(OnlineIds(receivers))
  {
    if receivers != [] {
      var n := |receivers| - 1;
      OnlineUnique(receivers[..n]);
      OnlineAreOpen(receivers[..n], receivers[n].id);
    }
  }

  /** A first send is a run of at most one step. */
  lemma FirstSendIsRun(c: Config, s: State, receivers: seq<Receiver>, targets: seq<UserId>, qos: Qos, ttl: int,
      senderId: UserId, notifySender: bool, id: EventId)
    requires Unique(receivers) && id !in s.births
    ensures var steps := FirstSteps(receivers, targets, qos, ttl, senderId, notifySender, id);
      && IsRun(c, s, steps)
      && Exec(c, s, steps) == AfterFirstSend(c, s, receivers, targets, qos, ttl, senderId, notifySender, id)
  {
    hide Next;
    var steps := FirstSteps(receivers, targets, qos, ttl, senderId, notifySender, id);
    OnlineUnique(receivers);
    OnlinePrefix(receivers, Reached(receivers));
    var none: seq<Step> := [];
    assert IsRun(c, s, none) && Exec(c, s, none) == s;
    if steps != [] {
      assert steps[..0] == none;
      assert Enabled(c, s, steps[0]);
    }
  }

  /**
   * QoS 2 loses nobody: whether or not the loop throws, every target and every open receiver is in
   * the record; it is DELIVERED there if the loop completed and the receiver was open, and STORED
   * otherwise.
   */
  lemma QosTwoKeepsAll(c: Config, s: State, receivers: seq<Receiver>, targets: seq<UserId>, ttl: int,
      senderId: UserId, notifySender: bool, id: EventId, u: UserId)
    requires c.Sane() && Inv(c, s) && id !in s.births
    requires u in targets || LinkedAs(receivers, u, Open)
    ensures var t := AfterFirstSend(c, s, receivers, targets, 2, ttl, senderId, notifySender, id);
      && id in t.events && u in t.events[id].status
      && t.events[id].opts == Options(2, ttl, senderId, notifySender) && t.events[id].createdAt == s.now
      && t.events[id].status[u] == if !Breaks(receivers) && LinkedAs(receivers, u, Open) then DELIVERED else STORED
  {
    hide Inv, Create, LogAll, LiveAll, OnlineIds, OfflineIds, Reached, LinkedAs, AfterFirstSend, Breaks, Fresh, Trims, Newest;
    var online := OnlineIds(receivers);
    var offline := OfflineIds(targets, online);
    OnlineAreOpen(receivers, u);
    OfflineAreNotOpen(receivers, targets, u);
    assert u in online + offline;
    QosTwoSend(c, s, receivers, targets, ttl, senderId, notifySender, id);
    var opts := Options(2, ttl, senderId, notifySender);
    CreateKeeps(c, s, id, online + offline, opts);
    var m := Create(c, s, id, online + offline, opts);
    FreshStatus(s, online + offline, opts);
    if Breaks(receivers) {
      LogsOnly(m, id, online[..OpenReached(receivers)], Cut);
    } else {
      LiveMarks(m, id, online, u);
    }
  }

  lemma QosTwoSend(c: Config, s: State, receivers: seq<Receiver>, targets: seq<UserId>, ttl: int,
      senderId: UserId, notifySender: bool, id: EventId)
    ensures OpenReached(receivers) <= |OnlineIds(receivers)|
    ensures
      var online := OnlineIds(receivers);
      var offline := OfflineIds(targets, online);
      var opts := Options(2, ttl, senderId, notifySender);
      AfterFirstSend(c, s, receivers, targets, 2, ttl, senderId, notifySender, id) ==
        if online + offline == [] then s
        else if Breaks(receivers) then CutDispatch(c, s, id, online, offline, OpenReached(receivers), opts)
        else Dispatch2(c, s, id, online, offline, opts)
  {
    hide OnlineIds, OfflineIds, Reached, CutDispatch, Dispatch2;
    OnlinePrefix(receivers, Reached(receivers));
  }

  /** QoS 1: the record, if there is one, is attached to exactly those it is stored for. */
  lemma QosOneStores(c: Config, s: State, receivers: seq<Receiver>, targets: seq<UserId>, ttl: int,
      senderId: UserId, notifySender: bool, id: EventId)
    requires c.Sane() && Inv(c, s) && id !in s.births
    ensures var t := AfterFirstSend(c, s, receivers, targets, 1, ttl, senderId, notifySender, id);
      && (StoredFor(receivers, targets) == [] ==> t == s)
      && (StoredFor(receivers, targets) != [] ==>
           && id in t.events && t.births.Keys == s.births.Keys + {id}
           && t.events[id] == Rec(Options(1, ttl, 0, false), s.now, map u | u in StoredFor(receivers, targets) :: STORED, map[], map[]))
  {
    hide Inv, Create, OnlineIds, OfflineIds, Reached, Trimmed;
    PublishEffect(c, s, id, StoredFor(receivers, targets), Options(1, ttl, 0, false));
  }

  lemma FirstSendKeeps(c: Config, s: State, receivers: seq<Receiver>, targets: seq<UserId>, qos: Qos, ttl: int,
      senderId: UserId, notifySender: bool, id: EventId)
    requires c.Sane() && Inv(c, s) && id !in s.births && Unique(receivers)
    ensures Inv(c, AfterFirstSend(c, s, receivers, targets, qos, ttl, senderId, notifySender, id))
  {
    hide Inv, Next, Enabled, FirstSteps;
    var steps := FirstSteps(receivers, targets, qos, ttl, senderId, notifySender, id);
    FirstSendIsRun(c, s, receivers, targets, qos, ttl, senderId, notifySender, id);
    if steps != [] {
      FirstStepsOne(receivers, targets, qos, ttl, senderId, notifySender, id);
      var none: seq<Step> := [];
      assert steps[..0] == none;
      assert Exec(c, s, none) == s;
      NextKeepsInv(c, s, steps[0]);
    }
  }

  lemma FirstStepsOne(receivers: seq<Receiver>, targets: seq<UserId>, qos: Qos, ttl: int, senderId: UserId,
      notifySender: bool, id: EventId)
    ensures |FirstSteps(receivers, targets, qos, ttl, senderId, notifySender, id)| <= 1
  {
  }

  /** Sending to all and then marking all is sending and marking one by one. */
  lemma {:induction false} LiveAllSplit(s: State, id: EventId, us: seq<UserId>)
    ensures LiveAll(s, id, us) == MarkAll(LogAll(s, id, us, Live), id, us)
  {
    if us != [] {
      var n := |us| - 1;
      LiveAllSplit(s, id, us[..n]);
      LogBeforeMarks(LogAll(s, id, us[..n], Live), id, us[..n], Sent(id, us[n], Live));
    }
  }

  lemma {:induction false} LogBeforeMarks(s: State, id: EventId, us: seq<UserId>, e: Entry)
    ensures Log(MarkAll(s, id, us), e) == MarkAll(Log(s, e), id, us)
  {
    if us != [] {
      LogBeforeMarks(s, id, us[..|us| - 1], e);
    }
  }

  lemma {:induction false} MarkAllKeeps(c: Config, s: State, id: EventId, us: seq<UserId>)
    requires Inv(c, s) && id in s.events && forall u :: u in us ==> u in s.events[id].status
    ensures var t := MarkAll(s, id, us);
      Inv(c, t) && id in t.events && t.events[id].status.Keys == s.events[id].status.Keys
  {
    hide Inv;
    if us != [] {
      MarkAllKeeps(c, s, id, us[..|us| - 1]);
      DeliveredKeeps(c, MarkAll(s, id, us[..|us| - 1]), us[|us| - 1], id);
    }
  }

  lemma FreshStatus(s: State, targets: seq<UserId>, opts: Options)
    ensures forall u :: u in targets ==> u in Fresh(s, targets, opts).status && Fresh(s, targets, opts).status[u] == STORED
    ensures forall u :: Fresh(s, targets, opts).StatusOf(u) == STORED
    ensures Fresh(s, targets, opts).opts == opts && Fresh(s, targets, opts).createdAt == s.now
  {
  }

  lemma {:induction false} LiveMarks(s: State, id: EventId, online: seq<UserId>, u: UserId)
    requires id in s.events && u in s.events[id].status && s.events[id].status[u] == STORED
    requires forall v :: v in online ==> s.events[id].StatusOf(v) == STORED
    ensures var t := LiveAll(s, id, online);
      && id in t.events && u in t.events[id].status
      && t.events[id].status[u] == (if u in online then DELIVERED else STORED)
      && t.events[id].opts == s.events[id].opts && t.events[id].createdAt == s.events[id].createdAt
  {
    if online != [] {
      LiveMarks(s, id, online[..|online| - 1], u);
      assert u in online <==> u in online[..|online| - 1] || u == online[|online| - 1];
    }
  }
}
