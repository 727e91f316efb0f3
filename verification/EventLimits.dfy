// Runs that reach the bounds of the event store: neither bound can be improved.
module EventLimits {
  import opened Ordered
  import opened EventModel
  import opened EventLedger
  import opened EventRuns
  import opened EventFates
  import opened EventSends
  import opened EventExamples

  // ---------- the global bound ----------

  /** One event for each of `n` users. */
  function Fillings(n: nat): seq<Step> {
    if n == 0 then [] else Fillings(n - 1) + [Publish(n - 1, [n - 1], PLAIN)]
  }

  ghost predicate FilledTo(s: State, n: nat) {
    |s.events| == n && Below(s, n)
  }

  ghost predicate Below(s: State, n: nat) {
    && (forall id :: id in s.events.Keys ==> id < n)
    && (forall id :: id in s.births.Keys ==> id < n)
    && (forall u :: u in s.index.Keys ==> u < n)
  }

  /** At the limit exactly, forced cleanup removes nothing. */
  lemma NothingToForce(c: Config, s: State)
    requires c.Sane() && Inv(c, s) && |s.events| <= c.maxTotal
    ensures MakeRoom(c, s) == s
  {
    if |s.events| >= c.maxTotal {
      ForceVictimsFacts(c, s);
      assert ForceVictims(c, s) == [];
    }
  }

  lemma ElemsOne(u: UserId)
    ensures Elems([u]) == {u}
  {
  }

  lemma InsertIndex(s: State, id: EventId, u: UserId)
    requires u !in s.index
    ensures var t := Insert(s, id, [u], PLAIN); t.index.Keys == s.index.Keys + {u} && t.index[u] == {id}
  {
    hide Fresh, Elems;
    ElemsOne(u);
    var t := Insert(s, id, [u], PLAIN);
    assert u in t.index;
  }

  lemma InsertNames(s: State, id: EventId, targets: seq<UserId>, opts: Options)
    ensures var t := Insert(s, id, targets, opts); t.births.Keys == s.births.Keys + {id} && t.events.Keys == s.events.Keys + {id}
  {
    hide Fresh, Elems;
  }

  lemma InsertBelow(s: State, n: nat)
    requires Below(s, n)
    ensures Below(Insert(s, n, [n], PLAIN), n + 1)
    ensures var t := Insert(s, n, [n], PLAIN); n in t.index && t.index[n] == {n}
  {
    hide Insert;
    assert n !in s.index.Keys;
    InsertIndex(s, n, n);
    InsertNames(s, n, [n], PLAIN);
  }

  lemma InsertFills(s: State, n: nat)
    requires FilledTo(s, n)
    ensures var t := Insert(s, n, [n], PLAIN); FilledTo(t, n + 1) && n in t.index && t.index[n] == {n}
  {
    hide Insert;
    InsertBelow(s, n);
    assert n !in s.events.Keys;
    InsertCard(s, n, [n], PLAIN);
  }

  lemma InsertCard(s: State, id: EventId, targets: seq<UserId>, opts: Options)
    requires id !in s.events
    ensures |Insert(s, id, targets, opts).events| == |s.events| + 1
  {
    hide Fresh, Elems;
    assert Insert(s, id, targets, opts).events.Keys == s.events.Keys + {id};
  }

  lemma FillOne(c: Config, s: State, n: nat)
    requires c.Sane() && Inv(c, s) && FilledTo(s, n) && n <= c.maxTotal
    ensures FilledTo(Create(c, s, n, [n], PLAIN), n + 1)
  {
    hide EnforceAll, Insert, Inv, ForceCleanup, Below;
    NothingToForce(c, s);
    InsertFills(s, n);
    NobodyOver(c, Insert(s, n, [n], PLAIN), [n]);
  }

  lemma {:induction false} FillingsFill(c: Config, n: nat)
    requires c.Sane() && n <= c.maxTotal + 1
    ensures IsRun(c, Init(1), Fillings(n)) && FilledTo(Exec(c, Init(1), Fillings(n)), n)
  {
    hide Create, Inv, IsRun, Exec, FilledTo, Enabled, Next;
    if n == 0 {
      NothingFilled(c);
    } else {
      FillingsFill(c, n - 1);
      FillStep(c, n - 1);
    }
  }

  lemma NothingFilled(c: Config)
    ensures IsRun(c, Init(1), []) && FilledTo(Exec(c, Init(1), []), 0)
  {
  }

  lemma FillStep(c: Config, n: nat)
    requires c.Sane() && n <= c.maxTotal && IsRun(c, Init(1), Fillings(n)) && FilledTo(Exec(c, Init(1), Fillings(n)), n)
    ensures IsRun(c, Init(1), Fillings(n + 1)) && FilledTo(Exec(c, Init(1), Fillings(n + 1)), n + 1)
  {
    hide Create, Inv, IsRun, Exec;
    var e := Publish(n, [n], PLAIN);
    RunKeepsInv(c, 1, Fillings(n));
    FillOne(c, Exec(c, Init(1), Fillings(n)), n);
    AddStep(c, Init(1), Fillings(n), e);
  }

  lemma AddStep(c: Config, s: State, run: seq<Step>, e: Step)
    requires IsRun(c, s, run) && Enabled(c, Exec(c, s, run), e)
    ensures IsRun(c, s, run + [e]) && Exec(c, s, run + [e]) == Next(c, Exec(c, s, run), e)
  {
    assert (run + [e])[..|run + [e]| - 1] == run;
  }

  /** For every configuration some run holds one event more than the global limit. */
  lemma GlobalBoundIsReached(c: Config) returns (run: seq<Step>)
    requires c.Sane()
    ensures IsRun(c, Init(1), run) && |Exec(c, Init(1), run).events| == c.maxTotal + 1
  {
    run := Fillings(c.maxTotal + 1);
    FillingsFill(c, c.maxTotal + 1);
  }

  // ---------- the send bound ----------

  /** Event 0 has been sent to user 1 `sends` times, `replays` of them replays, just now the last. */
  ghost predicate SentSoFar(s: State, ttl: int, at: int, sends: nat, replays: nat) {
    && 0 in s.events && s.events[0].opts == Message(ttl) && s.events[0].createdAt == 1
    && 1 in s.events[0].status && s.events[0].status[1] == DELIVERED && s.events[0].Last(1) == s.now == at
    && Count(SendsOf(0, 1), s.trace) == sends && Count(ReplaysOf(0, 1), s.trace) == replays
    && 0 in s.births && s.births[0].opts == Message(ttl)
  }

  lemma SendOnce(s: State, ttl: int, sends: nat, replays: nat, via: Via)
    requires via != Live && via != Cut
    requires 0 in s.events && s.events[0].opts == Message(ttl) && s.events[0].createdAt == 1
    requires s.events[0].Waiting(1) && Count(SendsOf(0, 1), s.trace) == sends && Count(ReplaysOf(0, 1), s.trace) == replays
    requires 0 in s.births && s.births[0].opts == Message(ttl)
    ensures SentSoFar(SendStored(s, 1, 0, via), ttl, s.now, sends + 1, replays + if via == Replay then 1 else 0)
  {
    hide Count;
    LogCounts(s.trace, Sent(0, 1, via));
  }

  function Message(ttl: int): Options {
    Options(2, ttl, 0, false)
  }

  /** How the first send went: broken off and retried at once, or complete. */
  function Opening(ttl: int, cut: bool): seq<Step> {
    if cut then [BrokenDispatch(0, [1], [], 1, Message(ttl)), RetryOne(1, 0, 1.0)]
    else [Dispatch(0, [1], [], Message(ttl))]
  }

  /** Then a retry after every full delivery timeout. */
  function Retries(c: Config, ttl: int, cut: bool, k: nat): seq<Step>
    requires c.deliveredTimeout >= 0
  {
    if k == 0 then Opening(ttl, cut) else Retries(c, ttl, cut, k - 1) + [Elapse(c.deliveredTimeout + 1), RetryOne(1, 0, 1.0)]
  }

  /** And any number of reconnects at the end. */
  function Reconnects(c: Config, ttl: int, cut: bool, k: nat, replays: nat): seq<Step>
    requires c.deliveredTimeout >= 0
  {
    if replays == 0 then Retries(c, ttl, cut, k) else Reconnects(c, ttl, cut, k, replays - 1) + [ReplayOne(1, 0)]
  }

  lemma FirstStored(c: Config, ttl: int)
    requires c.Sane()
    ensures var t := Create(c, Init(1), 0, [1] + [], Message(ttl));
      && t == Insert(Init(1), 0, [1], Message(ttl))
  {
    assert [1] + [] == [1] && Elems([1]) == {1};
    var t := Insert(Init(1), 0, [1], Message(ttl));
    assert t.index[1] == {0};
    RunKeepsInv(c, 1, []);
    assert MakeRoom(c, Init(1)) == Init(1) by {
      NothingToForce(c, Init(1));
    }
    NobodyOver(c, t, [1]);
  }

  /** What the bound counts, and where the run is in time. */
  ghost predicate Stands(c: Config, run: seq<Step>, ttl: int, at: int, sends: nat, replays: nat) {
    IsRun(c, Init(1), run) && Driven(run) && SentSoFar(Exec(c, Init(1), run), ttl, at, sends, replays)
  }

  lemma DrivenMore(run: seq<Step>, e: Step)
    requires Driven(run) && !e.LateMark?
    ensures Driven(run + [e])
  {
  }

  lemma LiveSent(s: State, ttl: int)
    requires s == Insert(Init(1), 0, [1], Message(ttl))
    ensures SentSoFar(LiveAll(s, 0, [1]), ttl, 1, 1, 0)
  {
    hide Count;
    var none: seq<UserId> := [];
    assert [1][..0] == none && LiveAll(s, 0, none) == s;
    NoneSent(s);
    LogCounts(s.trace, Sent(0, 1, Live));
  }

  lemma NoneSent(s: State)
    requires s.trace == []
    ensures Count(SendsOf(0, 1), s.trace) == 0 && Count(ReplaysOf(0, 1), s.trace) == 0
  {
  }

  lemma CutSent(s: State, ttl: int)
    requires s == Insert(Init(1), 0, [1], Message(ttl)) && ttl > 0
    ensures var t := LogAll(s, 0, [1], Cut);
      && IsPending(t, 1, 0) && 0 in t.events && 1 in t.events[0].status && t.events[0].status[1] == STORED && SentSoFar(SendStored(t, 1, 0, Retry), ttl, 1, 2, 0)
  {
    hide Count;
    var none: seq<UserId> := [];
    assert [1][..0] == none && LogAll(s, 0, none, Cut) == s;
    NoneSent(s);
    LogCounts(s.trace, Sent(0, 1, Cut));
    SendOnce(LogAll(s, 0, [1], Cut), ttl, 1, 0, Retry);
  }

  lemma OpeningSends(c: Config, ttl: int, cut: bool)
    requires c.Sane() && ttl > 0
    ensures Stands(c, Opening(ttl, cut), ttl, 1, if cut then 2 else 1, 0)
    ensures CutIn(Opening(ttl, cut), 0, 1) <==> cut
  {
    hide Stands, CutIn;
    if cut {
      BrokenOpening(c, ttl);
    } else {
      LiveOpening(c, ttl);
    }
  }

  lemma NothingRun(c: Config)
    ensures IsRun(c, Init(1), []) && Exec(c, Init(1), []) == Init(1)
  {
  }

  lemma LiveOpening(c: Config, ttl: int)
    requires c.Sane()
    ensures Stands(c, Opening(ttl, false), ttl, 1, 1, 0) && !CutIn(Opening(ttl, false), 0, 1)
  {
    hide Create, LiveAll, SentSoFar, Insert, IsRun, Exec;
    var a := Dispatch(0, [1], [], Message(ttl));
    FirstStored(c, ttl);
    LiveSent(Insert(Init(1), 0, [1], Message(ttl)), ttl);
    NothingRun(c);
    AddStep(c, Init(1), [], a);
    assert [] + [a] == Opening(ttl, false);
  }

  lemma BrokenOpening(c: Config, ttl: int)
    requires c.Sane() && ttl > 0
    ensures Stands(c, Opening(ttl, true), ttl, 1, 2, 0) && CutIn(Opening(ttl, true), 0, 1)
  {
    hide Create, LogAll, SendStored, SentSoFar, Insert, IsRun, Exec, IsPending;
    var a, b := BrokenDispatch(0, [1], [], 1, Message(ttl)), RetryOne(1, 0, 1.0);
    FirstStored(c, ttl);
    CutSent(Insert(Init(1), 0, [1], Message(ttl)), ttl);
    assert [1][..1] == [1];
    NothingRun(c);
    AddStep(c, Init(1), [], a);
    assert [] + [a] == [a] && [a] + [b] == Opening(ttl, true);
    StoredRetries(c, Exec(c, Init(1), [a]));
    AddStep(c, Init(1), [a], b);
    assert WrittenThenCut(Opening(ttl, true)[0], 0, 1);
  }

  lemma StoredRetries(c: Config, s: State)
    requires IsPending(s, 1, 0) && s.events[0].status[1] == STORED
    ensures Enabled(c, s, RetryOne(1, 0, 1.0))
  {
  }

  /** One full timeout passes, and the message is sent again. */
  lemma RetryAgain(c: Config, run: seq<Step>, ttl: int, at: int, sends: nat, replays: nat)
    requires c.deliveredTimeout >= 0 && 0 < at && at + c.deliveredTimeout + 1 <= 1 + ttl && Stands(c, run, ttl, at, sends, replays)
    ensures Stands(c, run + [Elapse(c.deliveredTimeout + 1), RetryOne(1, 0, 1.0)], ttl, at + c.deliveredTimeout + 1, sends + 1, replays)
  {
    hide IsRun, Exec, SendStored, Count, Driven;
    var e, r := Elapse(c.deliveredTimeout + 1), RetryOne(1, 0, 1.0);
    var s := Exec(c, Init(1), run);
    AddStep(c, Init(1), run, e);
    var t := s.(now := s.now + c.deliveredTimeout + 1);
    assert IsPending(t, 1, 0) && ShouldRetry(c, t.events[0], 1, t.now, 1.0);
    AddStep(c, Init(1), run + [e], r);
    SendOnce(t, ttl, sends, replays, Retry);
    DrivenMore(run, e);
    DrivenMore(run + [e], r);
    assert run + [e] + [r] == run + [e, r];
  }

  lemma ReplayAgain(c: Config, run: seq<Step>, ttl: int, at: int, sends: nat, replays: nat)
    requires at <= 1 + ttl && Stands(c, run, ttl, at, sends, replays)
    ensures Stands(c, run + [ReplayOne(1, 0)], ttl, at, sends + 1, replays + 1)
  {
    hide IsRun, Exec, SendStored, Count, Driven;
    AddStep(c, Init(1), run, ReplayOne(1, 0));
    SendOnce(Exec(c, Init(1), run), ttl, sends, replays, Replay);
    DrivenMore(run, ReplayOne(1, 0));
  }

  lemma CutMore(run: seq<Step>, more: seq<Step>)
    requires forall i :: 0 <= i < |more| ==> !more[i].BrokenDispatch?
    ensures CutIn(run + more, 0, 1) <==> CutIn(run, 0, 1)
  {
    if i :| 0 <= i < |run| && WrittenThenCut(run[i], 0, 1) {
      assert WrittenThenCut((run + more)[i], 0, 1);
    }
  }

  lemma {:induction false} RetriesSend(c: Config, ttl: int, cut: bool, k: nat)
    requires c.Sane() && c.deliveredTimeout >= 0 && ttl > 0 && k * (c.deliveredTimeout + 1) <= ttl
    ensures Stands(c, Retries(c, ttl, cut, k), ttl, 1 + k * (c.deliveredTimeout + 1), k + if cut then 2 else 1, 0)
    ensures CutIn(Retries(c, ttl, cut, k), 0, 1) <==> cut
  {
    hide Stands, CutIn, Opening;
    if k == 0 {
      OpeningSends(c, ttl, cut);
    } else {
      assert k * (c.deliveredTimeout + 1) == (k - 1) * (c.deliveredTimeout + 1) + c.deliveredTimeout + 1;
      RetriesSend(c, ttl, cut, k - 1);
      RetryAgain(c, Retries(c, ttl, cut, k - 1), ttl, 1 + (k - 1) * (c.deliveredTimeout + 1), k - 1 + if cut then 2 else 1, 0);
      CutMore(Retries(c, ttl, cut, k - 1), [Elapse(c.deliveredTimeout + 1), RetryOne(1, 0, 1.0)]);
    }
  }

  lemma {:induction false} ReconnectsSend(c: Config, ttl: int, cut: bool, k: nat, replays: nat)
    requires c.Sane() && c.deliveredTimeout >= 0 && ttl > 0 && k * (c.deliveredTimeout + 1) <= ttl
    ensures Stands(c, Reconnects(c, ttl, cut, k, replays), ttl, 1 + k * (c.deliveredTimeout + 1),
      k + replays + if cut then 2 else 1, replays)
    ensures CutIn(Reconnects(c, ttl, cut, k, replays), 0, 1) <==> cut
  {
    hide Stands, CutIn, Retries;
    if replays == 0 {
      RetriesSend(c, ttl, cut, k);
    } else {
      var front := Reconnects(c, ttl, cut, k, replays - 1);
      ReconnectsSend(c, ttl, cut, k, replays - 1);
      ReplayAgain(c, front, ttl, 1 + k * (c.deliveredTimeout + 1), k + replays - 1 + if cut then 2 else 1, replays - 1);
      CutMore(front, [ReplayOne(1, 0)]);
    }
  }

  lemma QuotientFits(x: int, d: int)
    requires x >= 0 && d > 0
    ensures 0 <= x / d && (x / d) * d <= x
  {
  }

  /**
   * For every configuration and time to live, any number of replays, and a first send that broke
   * off or not, some driven run sends a message exactly as often as the send bound allows.
   */
  lemma SendBoundIsReached(c: Config, ttl: int, cut: bool, replays: nat) returns (run: seq<Step>)
    requires c.Sane() && c.deliveredTimeout >= 0 && ttl > 0
    ensures IsRun(c, Init(1), run) && Driven(run) && (CutIn(run, 0, 1) <==> cut)
    ensures var s := Exec(c, Init(1), run);
      && 0 in s.births && s.births[0].opts == Message(ttl)
      && Count(ReplaysOf(0, 1), s.trace) == replays
      && Count(SendsOf(0, 1), s.trace) == 1 + replays + ttl / (c.deliveredTimeout + 1) + if cut then 1 else 0
  {
    hide IsRun, Exec, Count, CutIn, Driven, Reconnects;
    QuotientFits(ttl, c.deliveredTimeout + 1);
    var k := ttl / (c.deliveredTimeout + 1);
    run := Reconnects(c, ttl, cut, k, replays);
    ReconnectsSend(c, ttl, cut, k, replays);
  }
}
