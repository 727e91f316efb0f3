// Runs on which the event store does not do what one would expect of it.
module EventExamples {
  import opened Ordered
  import opened EventModel
  import opened EventLedger
  import opened EventRuns
  import opened EventFates
  import opened EventSends

  const PLAIN: Options := Options(2, 0, 0, false)

  function Limits(maxPerUser: int): Config {
    Config(maxPerUser, 100, 30000, 3600000, 5, 1000)
  }

  /** Without anybody over the limit, `create` only inserts. */
  lemma {:induction false} NobodyOver(c: Config, s: State, us: seq<UserId>)
    requires forall u :: u in us ==> u in s.index && |s.index[u]| <= c.maxPerUser
    ensures EnforceAll(c, s, us) == s
  {
    if us != [] {
      NobodyOver(c, s, us[..|us| - 1]);
    }
  }

  lemma OneMore(c: Config, s: State, run: seq<Step>, e: Step, t: State)
    requires IsRun(c, Init(1), run) && Exec(c, Init(1), run) == s && Enabled(c, s, e) && Next(c, s, e) == t
    ensures IsRun(c, Init(1), run + [e]) && Exec(c, Init(1), run + [e]) == t
  {
    assert (run + [e])[..|run + [e]| - 1] == run;
  }

  function Waits(us: set<UserId>): Rec {
    Rec(PLAIN, 1, AllStored(us), map[], map[])
  }

  function FirstShared(): State {
    State(1, map[0 := Waits({1, 2})], [0], map[1 := {0}, 2 := {0}], map[0 := Birth({1, 2}, PLAIN, 1)], [])
  }

  lemma FirstSharedIs(max: int)
    requires max >= 1
    ensures Create(Limits(max), Init(1), 0, [1, 2], PLAIN) == FirstShared()
  {
    assert Elems([1, 2]) == {1, 2};
    var t := Insert(Init(1), 0, [1, 2], PLAIN);
    assert t.index.Keys == {1, 2} && t.index[1] == {0} && t.index[2] == {0};
    assert t.index == FirstShared().index;
    assert t == FirstShared();
    NobodyOver(Limits(max), t, [1, 2]);
  }

  // ---------- an evicted pair that comes back ----------

  function Crowded(): State {
    FirstShared().(
      events := map[0 := Waits({1, 2}), 1 := Waits({1})], order := [0, 1],
      index := map[1 := {0, 1}, 2 := {0}],
      births := map[0 := Birth({1, 2}, PLAIN, 1), 1 := Birth({1}, PLAIN, 1)])
  }

  function Thinned(): State {
    Crowded().(
      events := map[0 := Waits({2}), 1 := Waits({1})],
      index := map[1 := {1}, 2 := {0}],
      trace := [Evicted(0, 1)])
  }

  lemma CrowdedIs()
    ensures Insert(FirstShared(), 1, [1], PLAIN) == Crowded()
  {
    assert Elems([1]) == {1};
    var t := Insert(FirstShared(), 1, [1], PLAIN);
    assert t.index.Keys == {1, 2} && t.index[1] == {0, 1} && t.index[2] == {0};
    assert t.index == Crowded().index;
    assert t.order == [0, 1];
  }

  lemma ThinnedIs()
    ensures Create(Limits(1), FirstShared(), 1, [1], PLAIN) == Thinned()
  {
    hide Insert, EnforceAll, EvictAll, Evict, Victims;
    var s := Crowded();
    CrowdedIs();
    CrowdedVictims();
    EvictedIs();
    EvictOnly(s, 1, 0);
    EnforceOnly(Limits(1), s, 1);
  }

  lemma CrowdedVictims()
    ensures Victims(Limits(1), Crowded(), 1) == [0]
  {
    hide Restrict;
    var s := Crowded();
    assert Pending(s, 1) == {0, 1};
    RestrictAll(s.order, Pending(s, 1));
    assert |s.index[1]| == 2;
  }

  lemma EvictedIs()
    ensures Evict(Crowded(), 1, 0) == Thinned()
  {
    var t := Detach(Crowded(), 1, 0);
    assert t.events[0].status == AllStored({2});
    assert 2 in t.events[0].status;
    assert t.events == Thinned().events;
    assert t.index[1] == {1};
    assert t.index == Thinned().index;
    assert t.trace == [Evicted(0, 1)];
  }

  lemma EvictOnly(s: State, u: UserId, id: EventId)
    ensures EvictAll(s, u, [id]) == Evict(s, u, id)
  {
    var none: seq<EventId> := [];
    assert [id][..0] == none && EvictAll(s, u, none) == s;
  }

  lemma EnforceOnly(c: Config, s: State, u: UserId)
    ensures EnforceAll(c, s, [u]) == Enforce(c, s, u)
  {
    var none: seq<UserId> := [];
    assert [u][..0] == none && EnforceAll(c, s, none) == s;
  }

  /**
   * Two events for user 1, who may keep one; the first is shared with user 2. The second evicts
   * the pair (0, 1), and the acknowledgement that user 1 then sends attaches the user again.
   */
  lemma LateAckReattaches()
    ensures
      var run := [Publish(0, [1, 2], PLAIN), Publish(1, [1], PLAIN), Acknowledge(1, 0)];
      IsRun(Limits(1), Init(1), run) && Reheld(Exec(Limits(1), Init(1), run), 0, 1)
  {
    hide Create, MarkApplied, Reheld;
    var c := Limits(1);
    var none: seq<Step> := [];
    FirstSharedIs(1);
    ThinnedIs();
    assert IsRun(c, Init(1), none) && Exec(c, Init(1), none) == Init(1);
    var a, b, d := Publish(0, [1, 2], PLAIN), Publish(1, [1], PLAIN), Acknowledge(1, 0);
    OneMore(c, Init(1), none, a, FirstShared());
    OneMore(c, FirstShared(), none + [a], b, Thinned());
    OneMore(c, Thinned(), none + [a] + [b], d, MarkApplied(Thinned(), 1, 0));
    assert none + [a] + [b] + [d] == [a, b, d];
    BackAgain();
  }

  lemma BackAgain()
    ensures Reheld(MarkApplied(Thinned(), 1, 0), 0, 1)
  {
    var t := Touch(Thinned(), 0, Waits({2}).WithStatus(1, APPLIED));
    assert 2 in t.events[0].status && t.events[0].status[2] == STORED;
    assert MarkApplied(Thinned(), 1, 0) == t;
    var e: seq<Entry> := [];
    assert t.trace == e + [Evicted(0, 1)];
    LogCounts(e, Evicted(0, 1));
    assert Count(EvictionsOf(0, 1), e) == 0;
  }

  // ---------- an eviction without need ----------

  const SHORT: Options := Options(2, 1, 0, false)

  function New(opts: Options, at: int): Rec {
    Rec(opts, at, AllStored({1}), map[], map[])
  }

  function Born(opts: Options, at: int): Birth {
    Birth({1}, opts, at)
  }

  /** User 1 after `n` events: two short-lived ones at time 1, and two lasting ones at time 3. */
  function Filled(n: nat): State
    requires 1 <= n <= 4
  {
    var old_ := map[0 := New(SHORT, 1)];
    var births := map[0 := Born(SHORT, 1)];
    if n == 1 then State(1, old_, [0], map[1 := {0}], births, [])
    else
      var both, bs := old_[1 := New(SHORT, 1)], births[1 := Born(SHORT, 1)];
      if n == 2 then State(1, both, [0, 1], map[1 := {0, 1}], bs, [])
      else
        var three, cs := both[2 := New(PLAIN, 3)], bs[2 := Born(PLAIN, 3)];
        if n == 3 then State(3, three, [0, 1, 2], map[1 := {0, 1, 2}], cs, [])
        else State(3, three[3 := New(PLAIN, 3)], [0, 1, 2, 3], map[1 := {0, 1, 2, 3}], cs[3 := Born(PLAIN, 3)], [])
  }

  lemma FilledIs(n: nat, opts: Options, at: int)
    requires 0 <= n < 4 && opts == (if n < 2 then SHORT else PLAIN) && at == (if n < 2 then 1 else 3)
    ensures Insert(if n == 0 then Init(1) else Filled(n).(now := at), n, [1], opts) == Filled(n + 1)
  {
    assert Elems([1]) == {1};
    var s := if n == 0 then Init(1) else Filled(n).(now := at);
    var t := Insert(s, n, [1], opts);
    assert t.index.Keys == {1};
    assert t.index[1] == Filled(n + 1).index[1];
    assert t.index == Filled(n + 1).index;
    assert t.order == Filled(n + 1).order;
    assert t.events == Filled(n + 1).events;
    assert t.births == Filled(n + 1).births;
  }

  lemma FilledByCreate(n: nat, opts: Options, at: int)
    requires 0 <= n < 3 && opts == (if n < 2 then SHORT else PLAIN) && at == (if n < 2 then 1 else 3)
    ensures Create(Limits(3), if n == 0 then Init(1) else Filled(n).(now := at), n, [1], opts) == Filled(n + 1)
  {
    hide Insert, EnforceAll;
    FilledIs(n, opts, at);
    var s := Filled(n + 1);
    assert |s.index[1]| == n + 1;
    NobodyOver(Limits(3), s, [1]);
  }

  lemma {:induction false} NothingKept(xs: seq<EventId>, keep: set<EventId>)
    requires forall x :: x in xs ==> x !in keep
    ensures Restrict(xs, keep) == []
  {
    if xs != [] {
      NothingKept(xs[..|xs| - 1], keep);
    }
  }

  lemma FilledVictims()
    ensures Victims(Limits(3), Filled(4), 1) == [2]
  {
    hide Restrict;
    var s := Filled(4);
    assert 1 in s.events[2].status && 1 in s.events[3].status;
    assert Pending(s, 1) == {2, 3};
    assert s.order == [0, 1] + [2, 3];
    RestrictAppend([0, 1], [2, 3], Pending(s, 1));
    RestrictAll([2, 3], Pending(s, 1));
    NothingKept([0, 1], Pending(s, 1));
    assert PendingIds(s, 1) == [2, 3];
    assert |s.index[1]| == 4;
  }

  lemma FilledEvicts()
    ensures !IsPending(Create(Limits(3), Filled(3), 3, [1], PLAIN), 1, 2)
  {
    hide Insert, EnforceAll, EvictAll, Victims;
    var s := Filled(4);
    FilledIs(3, PLAIN, 3);
    FilledVictims();
    EvictOnly(s, 1, 2);
    EnforceOnly(Limits(3), s, 1);
  }

  /**
   * User 1 may keep three and has two expired events that the cleanup has not reached, and one
   * pending. The next event makes two pending, yet the pending one is dropped.
   */
  lemma DroppedBelowLimit()
    ensures
      var run := [Publish(0, [1], SHORT), Publish(1, [1], SHORT), Elapse(2), Publish(2, [1], PLAIN)];
      var s := Exec(Limits(3), Init(1), run);
      && IsRun(Limits(3), Init(1), run) && Enabled(Limits(3), s, Publish(3, [1], PLAIN))
      && PendingIds(s, 1) == [2]
      && !IsPending(Next(Limits(3), s, Publish(3, [1], PLAIN)), 1, 2)
  {
    hide Create, Victims, PendingIds;
    var c := Limits(3);
    var none: seq<Step> := [];
    assert IsRun(c, Init(1), none) && Exec(c, Init(1), none) == Init(1);
    var a, b, d, e := Publish(0, [1], SHORT), Publish(1, [1], SHORT), Elapse(2), Publish(2, [1], PLAIN);
    FilledByCreate(0, SHORT, 1);
    OneMore(c, Init(1), none, a, Filled(1));
    FilledByCreate(1, SHORT, 1);
    OneMore(c, Filled(1), none + [a], b, Filled(2));
    OneMore(c, Filled(2), none + [a] + [b], d, Filled(2).(now := 3));
    FilledByCreate(2, PLAIN, 3);
    OneMore(c, Filled(2).(now := 3), none + [a] + [b] + [d], e, Filled(3));
    assert none + [a] + [b] + [d] + [e] == [a, b, d, e];
    OnlyTwo();
    FilledEvicts();
  }

  lemma OnlyTwo()
    ensures PendingIds(Filled(3), 1) == [2]
  {
    var s := Filled(3);
    assert 1 in s.events[2].status;
    assert Pending(s, 1) == {2};
    assert s.order == [0, 1] + [2];
    RestrictAppend([0, 1], [2], {2});
    RestrictAll([2], {2});
    NothingKept([0, 1], {2});
  }

  // ---------- a first send that breaks off ----------

  const HALF_MINUTE: Options := Options(2, 30000, 0, false)

  function Stored1(): State {
    State(1, map[0 := New(HALF_MINUTE, 1)], [0], map[1 := {0}], map[0 := Born(HALF_MINUTE, 1)], [])
  }

  lemma Stored1Is()
    ensures Create(Limits(1), Init(1), 0, [1] + [], HALF_MINUTE) == Stored1()
  {
    assert [1] + [] == [1] && Elems([1]) == {1};
    var t := Insert(Init(1), 0, [1], HALF_MINUTE);
    assert t.index.Keys == {1} && t.index[1] == {0};
    assert t.index == Stored1().index;
    assert t.order == Stored1().order;
    NobodyOver(Limits(1), t, [1]);
  }

  /**
   * A first send writes to user 1 and then throws at another receiver, so nobody is marked. The
   * retry tick sends the event again, within the delivery timeout: two sends where the bound
   * without the break is one.
   */
  lemma BrokenSendRepeats()
    ensures
      var run := [BrokenDispatch(0, [1], [], 1, HALF_MINUTE), RetryOne(1, 0, 1.0)];
      var s := Exec(Limits(1), Init(1), run);
      && IsRun(Limits(1), Init(1), run) && Driven(run)
      && Count(SendsOf(0, 1), s.trace) == 2
      && 1 + Count(ReplaysOf(0, 1), s.trace) + HALF_MINUTE.ttl / (Limits(1).deliveredTimeout + 1) == 1
  {
    hide Create, SendStored, Count, CutDispatch;
    var c := Limits(1);
    var none: seq<Step> := [];
    assert IsRun(c, Init(1), none) && Exec(c, Init(1), none) == Init(1);
    var a, b := BrokenDispatch(0, [1], [], 1, HALF_MINUTE), RetryOne(1, 0, 1.0);
    var cut := Log(Stored1(), Sent(0, 1, Cut));
    CutOnce();
    OneMore(c, Init(1), none, a, cut);
    assert 1 in cut.events[0].status && cut.events[0].status[1] == STORED;
    OneMore(c, cut, none + [a], b, SendStored(cut, 1, 0, Retry));
    assert none + [a] + [b] == [a, b];
    SentTwice();
  }

  lemma CutOnce()
    ensures CutDispatch(Limits(1), Init(1), 0, [1], [], 1, HALF_MINUTE) == Log(Stored1(), Sent(0, 1, Cut))
  {
    Stored1Is();
    var none: seq<UserId> := [];
    assert [1][..1] == [1] && [1][..0] == none;
    assert LogAll(Stored1(), 0, none, Cut) == Stored1();
  }

  /** A QoS 2 message leaves one entry in the history. */
  lemma SendIsLogged(s: State, u: UserId, id: EventId, via: Via)
    requires id in s.events && s.events[id].opts.qos == 2
    ensures SendStored(s, u, id, via).trace == s.trace + [Sent(id, u, via)]
  {
  }

  lemma SentTwice()
    ensures var t := SendStored(Log(Stored1(), Sent(0, 1, Cut)), 1, 0, Retry).trace;
      Count(SendsOf(0, 1), t) == 2 && Count(ReplaysOf(0, 1), t) == 0
  {
    hide SendStored, Count;
    var none: seq<Entry> := [];
    SendIsLogged(Log(Stored1(), Sent(0, 1, Cut)), 1, 0, Retry);
    CountNothing(SendsOf(0, 1));
    CountNothing(ReplaysOf(0, 1));
    LogCounts(none, Sent(0, 1, Cut));
    LogCounts(none + [Sent(0, 1, Cut)], Sent(0, 1, Retry));
  }

  lemma CountNothing(q: Query)
    ensures Count(q, []) == 0
  {
  }
}
