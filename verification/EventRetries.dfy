// Which messages a retry tick lists for a user, and in which order.
module EventRetries {
  import opened Ordered
  import opened EventModel
  import opened EventInvariants
  import opened EventRuns
  import opened EventBatches
  import opened EventEffects

  /** Of two listed records, which goes first: by status, then by age. */
  ghost predicate GoesFirst(a: Rec, b: Rec, u: UserId)
    requires u in a.status && u in b.status
  {
    || (a.status[u] == STORED && b.status[u] != STORED)
    || (a.status[u] == DELIVERED && b.status[u] == FAILED)
    || (a.status[u] == b.status[u] && a.createdAt <= b.createdAt)
  }

  /** The list: STORED before DELIVERED before FAILED, and the older first among equals. */
  lemma RetryOrder(c: Config, s: State, u: UserId, jitter: map<EventId, real>, i: nat, j: nat)
    requires Shape(s) && i < j < |RetryIds(c, s, u, jitter)|
    ensures var ids := RetryIds(c, s, u, jitter);
      && ids[i] in s.events && ids[j] in s.events && u in s.events[ids[i]].status && u in s.events[ids[j]].status
      && GoesFirst(s.events[ids[i]], s.events[ids[j]], u)
  {
    hide StableSort, Restrict, NoDup, OldestFirst, ShouldRetry;
    var ids := RetryIds(c, s, u, jitter);
    var due := Restrict(s.order, Due(c, s, u, jitter));
    RetryListed(c, s, u, jitter);
    assert ids[i] in ids && ids[j] in ids;
    assert IsDue(c, s, u, jitter, ids[i]) && IsDue(c, s, u, jitter, ids[j]);
    StableSortSorts(due, RetryRanks(s, u, due));
    SortMembers(due, RetryRanks(s, u, due));
    assert AtMost(RetryRanks(s, u, due)[ids[i]], RetryRanks(s, u, due)[ids[j]]);
  }

  /**
   * The list holds exactly the unexpired records of the user that were never sent, those delivered
   * longer ago than the timeout, and those FAILED with attempts left and the backoff over.
   */
  lemma RetryMembers(c: Config, s: State, u: UserId, jitter: map<EventId, real>, id: EventId)
    requires Shape(s)
    ensures id in RetryIds(c, s, u, jitter) <==>
      id in s.events && u in s.events[id].status && !Over(s.events[id], s.now) &&
      var r := s.events[id];
      var tried := u in r.last && r.last[u] != 0;
      match r.status[u]
      case STORED => true
      case APPLIED => false
      case DELIVERED => tried ==> s.now - r.last[u] > c.deliveredTimeout
      case FAILED =>
        r.Attempts(u) < c.maxAttempts &&
        (tried ==> (s.now - r.last[u]) as real > (c.backoffBase * Pow2(r.Attempts(u))) as real * Draw(jitter, id))
  {
    hide RetryIds, Shape, Pow2, Over;
    WfRetryListed(c, s, u, jitter);
    if id in s.events {
      OverIsExpired(s.events[id], s.now);
    }
  }

  lemma WfRetryListed(c: Config, s: State, u: UserId, jitter: map<EventId, real>)
    requires Shape(s)
    ensures forall id :: id in RetryIds(c, s, u, jitter) <==> IsDue(c, s, u, jitter, id)
  {
    RetryListed(c, s, u, jitter);
  }

  /** The backoff starts at the base and doubles with each attempt. */
  lemma BackoffDoubles(n: nat)
    ensures Pow2(0) == 1 && Pow2(n + 1) == Pow2(n) + Pow2(n)
  {
  }

  /**
   * Whatever the random factor: a FAILED message is listed only with attempts left and after more
   * than half the backoff, and it is listed with attempts left once one and a half are over.
   */
  lemma FailedBackoff(c: Config, s: State, u: UserId, jitter: map<EventId, real>, id: EventId)
    requires Shape(s) && JitterRange(jitter) && c.backoffBase > 0
    requires id in s.events && u in s.events[id].status && s.events[id].status[u] == FAILED && !Over(s.events[id], s.now)
    requires u in s.events[id].last && s.events[id].last[u] != 0
    ensures var r, wait := s.events[id], c.backoffBase * Pow2(s.events[id].Attempts(u));
      && (id in RetryIds(c, s, u, jitter) ==> r.Attempts(u) < c.maxAttempts && 2 * (s.now - r.last[u]) > wait)
      && (r.Attempts(u) < c.maxAttempts && 2 * (s.now - r.last[u]) >= 3 * wait ==> id in RetryIds(c, s, u, jitter))
  {
    hide RetryIds, Pow2, Over, Stretched, Draw;
    var r := s.events[id];
    FailedListed(c, s, u, jitter, id);
    PowPositive(r.Attempts(u));
    Positive(c.backoffBase, Pow2(r.Attempts(u)));
    DrawRange(jitter, id);
    Scaled(c.backoffBase * Pow2(r.Attempts(u)), Draw(jitter, id), s.now - r.last[u]);
  }

  lemma FailedListed(c: Config, s: State, u: UserId, jitter: map<EventId, real>, id: EventId)
    requires Shape(s) && id in s.events && u in s.events[id].status && s.events[id].status[u] == FAILED && !Over(s.events[id], s.now)
    requires u in s.events[id].last && s.events[id].last[u] != 0
    ensures var r := s.events[id];
      id in RetryIds(c, s, u, jitter) <==>
        && r.Attempts(u) < c.maxAttempts
        && (s.now - r.last[u]) as real > Stretched(c.backoffBase * Pow2(r.Attempts(u)), Draw(jitter, id))
  {
    hide RetryIds, Pow2, Over, Shape;
    RetryMembers(c, s, u, jitter, id);
  }

  lemma DrawRange(jitter: map<EventId, real>, id: EventId)
    requires JitterRange(jitter)
    ensures 0.5 <= Draw(jitter, id) < 1.5
  {
  }

  lemma {:induction false} PowPositive(n: nat)
    ensures Pow2(n) > 0
  {
    if n > 0 {
      PowPositive(n - 1);
    }
  }

  lemma Product(x: real, y: real)
    requires x > 0.0
    ensures y >= 0.0 ==> x * y >= 0.0
    ensures y > 0.0 ==> x * y > 0.0
  {
  }

  function Stretched(w: int, j: real): real {
    w as real * j
  }

  lemma StretchedBetween(w: int, j: real)
    requires w > 0 && 0.5 <= j < 1.5
    ensures 0.5 * (w as real) <= Stretched(w, j) < 1.5 * (w as real)
  {
    var v := w as real;
    Product(v, j - 0.5);
    Product(v, 1.5 - j);
    assert v * (j - 0.5) == v * j - 0.5 * v && v * (1.5 - j) == 1.5 * v - v * j;
  }

  lemma Compared(gap: int, w: int, x: real)
    requires 0.5 * (w as real) <= x < 1.5 * (w as real)
    ensures gap as real > x ==> 2 * gap > w
    ensures 2 * gap >= 3 * w ==> gap as real > x
  {
    assert (2 * gap) as real == 2.0 * (gap as real) && (3 * w) as real == 3.0 * (w as real);
  }

  lemma Scaled(w: int, j: real, gap: int)
    requires w > 0 && 0.5 <= j < 1.5
    ensures gap as real > Stretched(w, j) ==> 2 * gap > w
    ensures 2 * gap >= 3 * w ==> gap as real > Stretched(w, j)
  {
    hide Stretched;
    StretchedBetween(w, j);
    Compared(gap, w, Stretched(w, j));
  }

  lemma Positive(b: int, p: int)
    requires b > 0 && p > 0
    ensures b * p > 0
  {
  }
}
