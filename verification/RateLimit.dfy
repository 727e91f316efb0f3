// The in-memory rate limiter: a counter per key, a window and a block, and what they promise over
// any sequence of attempts.
module RateLimit {
  import opened Wrappers

  /** `RateLimitInfo`; a `blockedUntil` of 0 is falsy in the source: not blocked. */
  datatype Info = Info(count: int, firstAttempt: int, blockedUntil: int)

  datatype Verdict = Verdict(info: Info, blocked: bool)

  /** One attempt on one key, at time `now`. */
  function Attempt(prior: Option<Info>, now: int, windowMs: int, maxAttempts: int): Verdict {
    match prior
    case None => Verdict(Info(1, now, 0), false)
    case Some(info) =>
      if info.blockedUntil != 0 && info.blockedUntil > now then Verdict(info, true)
      else if info.blockedUntil != 0 then Verdict(Info(1, now, 0), false)
      else if now - info.firstAttempt <= windowMs then
        if info.count + 1 >= maxAttempts then Verdict(Info(info.count + 1, info.firstAttempt, now + windowMs), true)
        else Verdict(Info(info.count + 1, info.firstAttempt, 0), false)
      else Verdict(Info(1, now, 0), false)
  }

  // ---------- the storage and the service ----------

  datatype Counted = Counted(currentCount: int, blocked: bool, blockedUntil: int)

  class InMemoryProvider {
    var store: map<string, Info>

    constructor ()
      ensures store == map[]
    {
      store := map[];
    }

    function Get(key: string): Option<Info>
      reads this
    {
      if key in store then Some(store[key]) else None
    }

    method Set(key: string, info: Info)
      modifies this
      ensures store == old(store)[key := info]
    {
      store := store[key := info];
    }

    method Delete(key: string)
      modifies this
      ensures store == old(store) - {key}
    {
      store := store - {key};
    }

    /** `increment`: the key's record follows `Attempt`, and no other key is touched. */
    method Increment(key: string, windowMs: int, maxAttempts: int, now: int) returns (r: Counted)
      modifies this
      ensures var v := Attempt(old(Get(key)), now, windowMs, maxAttempts);
        && store == old(store)[key := v.info]
        && r.blocked == v.blocked && r.currentCount == v.info.count
        && r.blockedUntil == (if v.blocked then v.info.blockedUntil else 0)
    {
      if key !in store {
        store := store[key := Info(1, now, 0)];
        return Counted(1, false, 0);
      }
      var info := store[key];
      if info.blockedUntil != 0 && info.blockedUntil > now {
        assert store[key := info] == store;
        return Counted(info.count, true, info.blockedUntil);
      } else if info.blockedUntil != 0 && info.blockedUntil <= now {
        store := store[key := Info(1, now, 0)];
        return Counted(1, false, 0);
      }
      if now - info.firstAttempt <= windowMs {
        info := info.(count := info.count + 1);
        if info.count >= maxAttempts {
          info := info.(blockedUntil := now + windowMs);
          store := store[key := info];
          return Counted(info.count, true, info.blockedUntil);
        }
        store := store[key := info];
        return Counted(info.count, false, 0);
      } else {
        store := store[key := Info(1, now, 0)];
        return Counted(1, false, 0);
      }
    }
  }

  /** A rule of the configuration: REST rules count in seconds, websocket rules in milliseconds. */
  datatype Rule = Ws(windowMs: int, maxAttempts: int) | Rest(ttl: int, limit: int)

  function WindowOf(rule: Rule): int {
    match rule case Ws(w, _) => w case Rest(ttl, _) => ttl * 1000
  }

  function LimitOf(rule: Rule): int {
    match rule case Ws(_, m) => m case Rest(_, limit) => limit
  }

  function Remaining(info: Option<Info>, now: int): Option<int> {
    if info.None? || info.value.blockedUntil == 0 then None
    else
      var remaining := info.value.blockedUntil - now;
      if remaining > 0 then Some(remaining) else None
  }

  class RateLimitService {
    const storage: InMemoryProvider

    constructor (storage: InMemoryProvider)
      ensures this.storage == storage
    {
      this.storage := storage;
    }

    method Allow(key: string, rule: Rule, now: int) returns (allowed: bool)
      modifies storage
      ensures var v := Attempt(old(storage.Get(key)), now, WindowOf(rule), LimitOf(rule));
        storage.store == old(storage.store)[key := v.info] && allowed == !v.blocked
    {
      var result := storage.Increment(key, WindowOf(rule), LimitOf(rule), now);
      allowed := !result.blocked;
    }

    /**
     * Some r exactly when the key has a deadline ahead, which is then r away: the least wait after
     * which an attempt is allowed, under any rule.
     */
    method GetBlockRemaining(key: string, now: int) returns (remaining: Option<int>)
      ensures remaining.Some? <==>
        key in storage.store && storage.store[key].blockedUntil != 0 && storage.store[key].blockedUntil > now
      ensures remaining.Some? ==> remaining.value > 0 && storage.store[key].blockedUntil == now + remaining.value
      ensures forall t, w, m :: remaining.Some? && now <= t <= now + remaining.value ==>
        (Attempt(storage.Get(key), t, w, m).blocked <==> t < now + remaining.value)
      ensures remaining == Remaining(storage.Get(key), now)
    {
      var info := storage.Get(key);
      if info.None? || info.value.blockedUntil == 0 {
        return None;
      }
      var left := info.value.blockedUntil - now;
      remaining := if left > 0 then Some(left) else None;
    }

    method Reset(key: string)
      modifies storage
      ensures storage.store == old(storage.store) - {key} && storage.Get(key) == None
    {
      storage.Delete(key);
    }
  }

  // ---------- runs of attempts on one key ----------

  ghost predicate Ascending(times: seq<int>) {
    forall i, j :: 0 <= i < j < |times| ==> times[i] <= times[j]
  }

  /** The key's record after the attempts at `times`. */
  function After(times: seq<int>, w: int, m: int): Option<Info> {
    if times == [] then None
    else Some(Attempt(After(times[..|times| - 1], w, m), times[|times| - 1], w, m).info)
  }

  /** Whether the last of the attempts at `times` was allowed. */
  predicate LastAllowed(times: seq<int>, w: int, m: int) {
    times != [] && !Attempt(After(times[..|times| - 1], w, m), times[|times| - 1], w, m).blocked
  }

  /** How many of the attempts at `times` were allowed at a time in [from, to). */
  function AllowedIn(times: seq<int>, w: int, m: int, from: int, to: int): nat {
    if times == [] then 0
    else
      AllowedIn(times[..|times| - 1], w, m, from, to) +
      (if LastAllowed(times, w, m) && from <= times[|times| - 1] < to then 1 else 0)
  }

  /** The attempts one counting epoch allows. */
  function PerEpoch(m: int): int {
    if m - 1 > 1 then m - 1 else 1
  }

  /** The attempts the current epoch has allowed so far. */
  function InEpoch(info: Info): int {
    if info.blockedUntil != 0 && info.count > 1 then info.count - 1 else info.count
  }

  /**
   * What an epoch that began at `f` and allowed `k` attempts bounds: after `f` at most k - 1;
   * over any span that begins within one window before `f`, the epoch's own k and all but the
   * first attempt of the epoch before; in any window, never two whole epochs.
   */
  ghost predicate Bounded(times: seq<int>, w: int, m: int, f: int, k: int) {
    && (forall from, to :: from > f ==> AllowedIn(times, w, m, from, to) <= k - 1)
    && (forall from, to :: f - w < from ==> AllowedIn(times, w, m, from, to) <= PerEpoch(m) - 1 + k)
    && (forall from, to :: to == from + w ==> AllowedIn(times, w, m, from, to) <= 2 * PerEpoch(m) - 1)
  }

  ghost predicate Consistent(info: Info, w: int, m: int, last: int) {
    var k := InEpoch(info);
    && 1 <= k <= PerEpoch(m) && info.firstAttempt <= last
    && (info.blockedUntil != 0 ==> info.count == k + 1 && info.firstAttempt + w <= info.blockedUntil)
  }

  /** No attempt so far is later than the last one. */
  lemma {:induction false} NoneAfter(times: seq<int>, w: int, m: int, from: int, to: int)
    requires Ascending(times) && (times == [] || times[|times| - 1] < from)
    ensures AllowedIn(times, w, m, from, to) == 0
  {
    if times != [] {
      NoneAfter(times[..|times| - 1], w, m, from, to);
    }
  }

  /** One more attempt changes a count by itself. */
  lemma OneMore(times: seq<int>, w: int, m: int)
    requires times != []
    ensures var past, now := times[..|times| - 1], times[|times| - 1];
      forall from, to :: AllowedIn(times, w, m, from, to) ==
        AllowedIn(past, w, m, from, to) + if LastAllowed(times, w, m) && from <= now < to then 1 else 0
  {
  }

  lemma DeniedKeeps(times: seq<int>, w: int, m: int, f: int, k: int)
    requires times != [] && !LastAllowed(times, w, m) && Bounded(times[..|times| - 1], w, m, f, k)
    ensures Bounded(times, w, m, f, k)
  {
    OneMore(times, w, m);
  }

  lemma GrowthKeeps(times: seq<int>, w: int, m: int, f: int, k: int)
    requires times != [] && LastAllowed(times, w, m) && Bounded(times[..|times| - 1], w, m, f, k)
    requires 1 <= k && k + 1 <= PerEpoch(m) && f <= times[|times| - 1] && 0 < w
    ensures Bounded(times, w, m, f, k + 1)
  {
    OneMore(times, w, m);
  }

  /** A new epoch begins at least one window after the old one did. */
  lemma RestartKeeps(times: seq<int>, w: int, m: int, f: int, k: int)
    requires times != [] && Ascending(times) && LastAllowed(times, w, m) && 0 < w
    requires var past := times[..|times| - 1]; past != [] ==> Bounded(past, w, m, f, k) && f + w <= times[|times| - 1]
    requires 1 <= k <= PerEpoch(m)
    ensures Bounded(times, w, m, times[|times| - 1], 1)
  {
    var past, now := times[..|times| - 1], times[|times| - 1];
    OneMore(times, w, m);
    forall from, to | now < from ensures AllowedIn(times, w, m, from, to) == 0 {
      NoneAfter(times, w, m, from, to);
    }
    if past == [] {
      assert forall from, to :: AllowedIn(past, w, m, from, to) == 0;
    }
  }

  lemma {:induction false} EpochsHold(times: seq<int>, w: int, m: int)
    requires times != [] && Ascending(times) && 0 < times[0] && 0 < w
    ensures var info := After(times, w, m).value;
      Consistent(info, w, m, times[|times| - 1]) && Bounded(times, w, m, info.firstAttempt, InEpoch(info))
  {
    hide Bounded, AllowedIn;
    var n := |times| - 1;
    var now := times[n];
    if n == 0 {
      RestartKeeps(times, w, m, 0, 1);
    } else {
      EpochsHold(times[..n], w, m);
      assert times[n - 1] <= now && 0 < now;
      var info := After(times[..n], w, m).value;
      var f, k := info.firstAttempt, InEpoch(info);
      if !LastAllowed(times, w, m) {
        DeniedKeeps(times, w, m, f, k);
      } else if After(times, w, m).value.count == 1 {
        RestartKeeps(times, w, m, f, k);
      } else {
        GrowthKeeps(times, w, m, f, k);
      }
    }
  }

  lemma {:induction false} NothingBetween(times: seq<int>, w: int, m: int, from: int, to: int)
    requires to <= from
    ensures AllowedIn(times, w, m, from, to) == 0
  {
    if times != [] {
      NothingBetween(times[..|times| - 1], w, m, from, to);
    }
  }

  /**
   * Sliding-window bound: whatever the attempts, any half-open interval of one window holds at
   * most 2 * max(1, maxAttempts - 1) - 1 allowed ones.
   */
  lemma SlidingWindowBound(times: seq<int>, w: int, m: int, from: int)
    requires Ascending(times) && (times != [] ==> 0 < times[0])
    ensures AllowedIn(times, w, m, from, from + w) <= 2 * PerEpoch(m) - 1
  {
    if w <= 0 {
      NothingBetween(times, w, m, from, from + w);
    } else if times != [] {
      EpochsHold(times, w, m);
      assert Bounded(times, w, m, After(times, w, m).value.firstAttempt, InEpoch(After(times, w, m).value));
    }
  }

  // ---------- the bound is reached ----------

  /** An epoch begun at 1, with `a` more attempts at its last moment, then `b` just after. */
  function Burst(w: int, a: nat, b: nat): seq<int> {
    if b > 0 then Burst(w, a, b - 1) + [w + 2]
    else if a > 0 then Burst(w, a - 1, 0) + [w + 1]
    else [1]
  }

  lemma Extend(past: seq<int>, t: int, w: int, m: int, from: int, to: int)
    requires Ascending(past) && (past != [] ==> past[|past| - 1] <= t)
    ensures Ascending(past + [t])
    ensures var v := Attempt(After(past, w, m), t, w, m);
      && After(past + [t], w, m) == Some(v.info)
      && AllowedIn(past + [t], w, m, from, to) == AllowedIn(past, w, m, from, to) + if !v.blocked && from <= t < to then 1 else 0
  {
    var times := past + [t];
    assert times[..|times| - 1] == past;
    assert Ascending(times);
  }

  lemma {:induction false} BurstFacts(w: int, m: int, a: nat, b: nat)
    requires 2 <= w && 2 <= m && a <= m - 2 && b <= m - 1
    ensures var times := Burst(w, a, b);
      && times != [] && times[0] == 1 && Ascending(times)
      && times[|times| - 1] == (if b > 0 then w + 2 else if a > 0 then w + 1 else 1)
      && After(times, w, m) == Some(if b > 0 then Info(b, w + 2, 0) else Info(a + 1, 1, 0))
      && AllowedIn(times, w, m, w + 1, w + 1 + w) == a + b
  {
    hide After, AllowedIn, Ascending;
    if b > 0 {
      BurstFacts(w, m, a, b - 1);
      Extend(Burst(w, a, b - 1), w + 2, w, m, w + 1, w + 1 + w);
    } else if a > 0 {
      BurstFacts(w, m, a - 1, 0);
      Extend(Burst(w, a - 1, 0), w + 1, w, m, w + 1, w + 1 + w);
    } else {
      NoAttempts(w, m, w + 1, w + 1 + w);
      Extend([], 1, w, m, w + 1, w + 1 + w);
      assert [] + [1] == [1];
    }
  }

  lemma NoAttempts(w: int, m: int, from: int, to: int)
    ensures Ascending([]) && After([], w, m) == None && AllowedIn([], w, m, from, to) == 0
  {
  }

  /**
   * The sliding-window bound cannot be improved: for every limit, and a window of at least two
   * milliseconds, some attempts reach it. Where the bound is one, one millisecond will do.
   */
  lemma BoundIsReached(w: int, m: int) returns (times: seq<int>, from: int)
    requires 2 <= w || (w == 1 && m <= 2)
    ensures Ascending(times) && times != [] && 0 < times[0]
    ensures AllowedIn(times, w, m, from, from + w) == 2 * PerEpoch(m) - 1
  {
    if m <= 2 {
      times, from := [1], 1;
      NoAttempts(w, m, 1, 1 + w);
      Extend([], 1, w, m, 1, 1 + w);
      assert [] + [1] == [1];
    } else {
      times, from := Burst(w, m - 2, m - 1), w + 1;
      BurstFacts(w, m, m - 2, m - 1);
    }
  }

  // ---------- blocks ----------

  /**
   * The remaining time of a key with a deadline is exactly the wait after which an attempt is
   * allowed: r is it if and only if every attempt less than r away is denied and one r away is not.
   */
  lemma RemainingIsWait(info: Info, now: int, r: int, w: int, m: int)
    requires info.blockedUntil != 0
    ensures Remaining(Some(info), now) == Some(r) <==>
      && r > 0
      && (forall t :: now <= t < now + r ==> Attempt(Some(info), t, w, m).blocked)
      && !Attempt(Some(info), now + r, w, m).blocked
  {
    if r > 0 && forall t :: now <= t < now + r ==> Attempt(Some(info), t, w, m).blocked {
      assert Attempt(Some(info), now + r - 1, w, m).blocked;
    }
  }

  /** The record after further attempts, from any earlier record. */
  function AfterFrom(info: Info, times: seq<int>, w: int, m: int): Info {
    if times == [] then info
    else Attempt(Some(AfterFrom(info, times[..|times| - 1], w, m)), times[|times| - 1], w, m).info
  }

  /**
   * Block duration: when the last attempt is denied, the remaining time r is positive and at
   * most one window; any attempts before r has passed are denied and leave the deadline where it
   * is; and an attempt exactly r later is allowed.
   */
  lemma {:induction false} BlockDuration(times: seq<int>, w: int, m: int, later: seq<int>)
    requires times != [] && Ascending(times) && 0 < times[0] && 0 < w && !LastAllowed(times, w, m)
    requires forall i :: 0 <= i < |later| ==> later[i] < After(times, w, m).value.blockedUntil
    ensures var info, now := After(times, w, m).value, times[|times| - 1];
      var r := info.blockedUntil - now;
      && Remaining(Some(info), now) == Some(r) && 0 < r <= w
      && AfterFrom(info, later, w, m) == info
      && (forall t :: t < now + r ==> Attempt(Some(info), t, w, m).blocked)
      && !Attempt(Some(AfterFrom(info, later, w, m)), now + r, w, m).blocked
  {
    hide After, LastAllowed, AfterFrom;
    DenialFacts(times, w, m);
    DeadlineNear(times, w, m);
    DeniedAll(After(times, w, m).value, later, w, m);
  }

  lemma DenialFacts(times: seq<int>, w: int, m: int)
    requires times != [] && Ascending(times) && 0 < times[0] && 0 < w && !LastAllowed(times, w, m)
    ensures var r := After(times, w, m); r.Some? && 0 < times[|times| - 1] < r.value.blockedUntil
  {
    assert times[0] <= times[|times| - 1];
  }

  lemma {:induction false} DeniedAll(info: Info, later: seq<int>, w: int, m: int)
    requires info.blockedUntil != 0 && forall i :: 0 <= i < |later| ==> later[i] < info.blockedUntil
    ensures AfterFrom(info, later, w, m) == info
  {
    if later != [] {
      DeniedAll(info, later[..|later| - 1], w, m);
    }
  }

  /** The deadline of a key charged under one rule never lies more than a window ahead. */
  lemma {:induction false} DeadlineNear(times: seq<int>, w: int, m: int)
    requires times != [] && Ascending(times) && 0 < w
    ensures After(times, w, m).value.blockedUntil <= times[|times| - 1] + w || After(times, w, m).value.blockedUntil == 0
  {
    var n := |times| - 1;
    if n > 0 {
      DeadlineNear(times[..n], w, m);
      assert times[n - 1] <= times[n];
    }
  }

  // ---------- where a deadline comes from ----------

  lemma AfterSnoc(times: seq<int>, w: int, m: int)
    requires times != []
    ensures var n := |times| - 1;
      var v := Attempt(After(times[..n], w, m), times[n], w, m);
      After(times, w, m) == Some(v.info) && (LastAllowed(times, w, m) <==> !v.blocked)
  {
  }

  /** A denial that meets no deadline ahead starts a block of exactly one window. */
  lemma BlockIsOneWindow(times: seq<int>, w: int, m: int)
    requires times != [] && 0 < w && 0 < times[|times| - 1] && !LastAllowed(times, w, m)
    requires var prior := After(times[..|times| - 1], w, m); prior.Some? ==> prior.value.blockedUntil <= times[|times| - 1]
    ensures var now := times[|times| - 1];
      After(times, w, m).value.blockedUntil == now + w && Remaining(After(times, w, m), now) == Some(w)
  {
    AfterSnoc(times, w, m);
  }

  /**
   * Over every sequence of attempts: the deadline that a denial meets is one window after the first
   * denial since an attempt was last allowed, and everything in between was denied.
   */
  lemma {:induction false} DeadlineIsFirstDenial(times: seq<int>, w: int, m: int) returns (k: nat)
    requires times != [] && Ascending(times) && 0 < times[0] && 0 < w && !LastAllowed(times, w, m)
    ensures 0 < k < |times| && LastAllowed(times[..k], w, m)
    ensures forall i :: k < i <= |times| ==> !LastAllowed(times[..i], w, m)
    ensures After(times, w, m).value.blockedUntil == times[k] + w
  {
    hide After, LastAllowed;
    var n := |times| - 1;
    AfterSnoc(times, w, m);
    assert times[..|times|] == times;
    if n == 0 {
      FirstIsAllowed(times, w, m);
    } else if LastAllowed(times[..n], w, m) {
      AllowedHasNoDeadline(times[..n], w, m);
      k := n;
    } else {
      assert times[..n][0] == times[0];
      DenialFacts(times[..n], w, m);
      k := DeadlineIsFirstDenial(times[..n], w, m);
      assert forall i :: 0 <= i <= n ==> times[..n][..i] == times[..i];
      assert times[n - 1] <= times[n];
      DeniedAgain(times, w, m);
    }
  }

  lemma FirstIsAllowed(times: seq<int>, w: int, m: int)
    requires |times| == 1
    ensures LastAllowed(times, w, m)
  {
    assert times[..0] == [];
  }

  lemma AllowedHasNoDeadline(times: seq<int>, w: int, m: int)
    requires LastAllowed(times, w, m)
    ensures After(times, w, m).Some? && After(times, w, m).value.blockedUntil == 0
  {
  }

  /** Two denials in a row have the same deadline. */
  lemma DeniedAgain(times: seq<int>, w: int, m: int)
    requires |times| > 1 && !LastAllowed(times, w, m) && !LastAllowed(times[..|times| - 1], w, m)
    requires After(times[..|times| - 1], w, m).Some? && After(times[..|times| - 1], w, m).value.blockedUntil > 0
    ensures After(times, w, m) == After(times[..|times| - 1], w, m)
  {
  }

  // ---------- how many attempts a fresh key has ----------

  /** The first attempt that is denied, counting from one. */
  function FirstDenied(m: int): int {
    if m > 2 then m else 2
  }

  /**
   * A key that was never charged: of the attempts within one window of the first, the first is
   * allowed and every further one is allowed if and only if fewer than the limit have been made,
   * itself included.
   */
  lemma {:induction false} FreshKey(times: seq<int>, w: int, m: int)
    requires times != [] && Ascending(times) && 0 < times[0] && times[|times| - 1] - times[0] < w
    ensures LastAllowed(times, w, m) <==> |times| == 1 || |times| < m
    ensures After(times, w, m) == Some(
      if |times| < FirstDenied(m) then Info(|times|, times[0], 0)
      else Info(FirstDenied(m), times[0], times[FirstDenied(m) - 1] + w))
  {
    hide After, LastAllowed;
    var n := |times| - 1;
    AfterSnoc(times, w, m);
    if n == 0 {
      FirstIsAllowed(times, w, m);
      FirstRecord(times, w, m);
    } else {
      assert times[n - 1] <= times[n] && times[..n][0] == times[0];
      FreshKey(times[..n], w, m);
      if n >= FirstDenied(m) {
        assert times[0] <= times[FirstDenied(m) - 1];
      }
    }
  }

  lemma FirstRecord(times: seq<int>, w: int, m: int)
    requires |times| == 1
    ensures After(times, w, m) == Some(Info(1, times[0], 0))
  {
    assert times[..0] == [];
  }

  // ---------- rules ----------

  /** A REST rule's window is given in seconds: its attempts are bounded over ttl seconds. */
  lemma RestRule(times: seq<int>, ttl: int, limit: int, from: int)
    requires Ascending(times) && (times != [] ==> 0 < times[0])
    ensures var w, m := WindowOf(Rest(ttl, limit)), LimitOf(Rest(ttl, limit));
      && AllowedIn(times, w, m, from, from + 1000 * ttl) <= 2 * PerEpoch(limit) - 1
      && (times != [] && 0 < ttl && !LastAllowed(times, w, m)
          && (forall i :: 0 <= i < |times| ==> times[i] - times[0] < 1000 * ttl) ==>
            |times| >= FirstDenied(limit) && After(times, w, m).value.blockedUntil == times[FirstDenied(limit) - 1] + 1000 * ttl)
  {
    hide After, LastAllowed, AllowedIn;
    SlidingWindowBound(times, 1000 * ttl, limit, from);
    if times != [] && 0 < ttl && forall i :: 0 <= i < |times| ==> times[i] - times[0] < 1000 * ttl {
      FreshKey(times, 1000 * ttl, limit);
    }
  }

  /** A websocket rule's window is given in milliseconds. */
  lemma WsRule(times: seq<int>, windowMs: int, limit: int, from: int)
    requires Ascending(times) && (times != [] ==> 0 < times[0])
    ensures var w, m := WindowOf(Ws(windowMs, limit)), LimitOf(Ws(windowMs, limit));
      && AllowedIn(times, w, m, from, from + windowMs) <= 2 * PerEpoch(limit) - 1
      && (times != [] && !LastAllowed(times, w, m)
          && (forall i :: 0 <= i < |times| ==> times[i] - times[0] < windowMs) ==>
            |times| >= FirstDenied(limit) && After(times, w, m).value.blockedUntil == times[FirstDenied(limit) - 1] + windowMs)
  {
    hide After, LastAllowed, AllowedIn;
    SlidingWindowBound(times, windowMs, limit, from);
    if times != [] && forall i :: 0 <= i < |times| ==> times[i] - times[0] < windowMs {
      FreshKey(times, windowMs, limit);
    }
  }
}
