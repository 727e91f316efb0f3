// Ordered collections as JavaScript has them: a Map or a Set iterates in insertion order, and
// Array.prototype.sort is stable. A sequence without repetitions stands for the iteration order.
module Ordered {

  function Elems<T>(xs: seq<T>): set<T> {
    set x | x in xs
  }

  /** The next element of a loop over a set. */
  method PickAny<T(==)>(s: set<T>) returns (x: T)
    requires s != {}
    ensures x in s
  {
    x :| x in s;
  }

  ghost predicate NoDup<T(!new)>(xs: seq<T>) {
    forall i, j :: 0 <= i < j < |xs| ==> xs[i] != xs[j]
  }

  /** The elements of `xs` that are in `keep`, in the order of `xs` (Array.prototype.filter). */
  function Restrict<T(==)>(xs: seq<T>, keep: set<T>): seq<T> {
    if xs == [] then []
    else
      var front := Restrict(xs[..|xs| - 1], keep);
      if xs[|xs| - 1] in keep then front + [xs[|xs| - 1]] else front
  }

  /** Deletion from an insertion-ordered collection. */
  function Without<T(==)>(xs: seq<T>, x: T): seq<T> {
    Restrict(xs, Elems(xs) - {x})
  }

  lemma ElemsSnoc<T>(xs: seq<T>, x: T)
    ensures Elems(xs + [x]) == Elems(xs) + {x}
  {
    assert forall y :: y in xs + [x] <==> y in xs || y == x;
  }

  lemma {:induction false} RestrictElems<T>(xs: seq<T>, keep: set<T>)
    ensures Elems(Restrict(xs, keep)) == Elems(xs) * keep
    ensures |Restrict(xs, keep)| <= |xs|
  {
    if xs != [] {
      var n := |xs| - 1;
      RestrictElems(xs[..n], keep);
      ElemsSnoc(xs[..n], xs[n]);
      ElemsSnoc(Restrict(xs[..n], keep), xs[n]);
      assert xs == xs[..n] + [xs[n]];
    }
  }

  lemma {:induction false} RestrictAppend<T>(xs: seq<T>, ys: seq<T>, keep: set<T>)
    ensures Restrict(xs + ys, keep) == Restrict(xs, keep) + Restrict(ys, keep)
  {
    if ys == [] {
      assert xs + ys == xs;
    } else {
      var n := |ys| - 1;
      RestrictAppend(xs, ys[..n], keep);
      assert (xs + ys)[..|xs + ys| - 1] == xs + ys[..n];
    }
  }

  /** Only the membership of the elements of `xs` matters. */
  lemma {:induction false} RestrictCong<T>(xs: seq<T>, a: set<T>, b: set<T>)
    requires forall x :: x in xs ==> (x in a <==> x in b)
    ensures Restrict(xs, a) == Restrict(xs, b)
  {
    if xs != [] {
      RestrictCong(xs[..|xs| - 1], a, b);
    }
  }

  lemma {:induction false} RestrictAll<T>(xs: seq<T>, keep: set<T>)
    requires forall x :: x in xs ==> x in keep
    ensures Restrict(xs, keep) == xs
  {
    if xs != [] {
      RestrictAll(xs[..|xs| - 1], keep);
      assert xs == xs[..|xs| - 1] + [xs[|xs| - 1]];
    }
  }

  lemma {:induction false} RestrictTwice<T>(xs: seq<T>, a: set<T>, b: set<T>)
    ensures Restrict(Restrict(xs, a), b) == Restrict(xs, a * b)
  {
    if xs != [] {
      var n := |xs| - 1;
      RestrictTwice(xs[..n], a, b);
      if xs[n] in a {
        RestrictAppend(Restrict(xs[..n], a), [xs[n]], b);
        assert Restrict([xs[n]], b) == if xs[n] in b then [xs[n]] else [];
      }
    }
  }

  lemma {:induction false} RestrictNoDup<T(!new)>(xs: seq<T>, keep: set<T>)
    requires NoDup(xs)
    ensures NoDup(Restrict(xs, keep))
  {
    if xs != [] {
      var n := |xs| - 1;
      RestrictNoDup(xs[..n], keep);
      RestrictElems(xs[..n], keep);
      assert xs[n] !in Elems(xs[..n]);
      assert xs[n] !in Elems(Restrict(xs[..n], keep));
      forall i | 0 <= i < |Restrict(xs[..n], keep)| ensures Restrict(xs[..n], keep)[i] != xs[n] {
        assert Restrict(xs[..n], keep)[i] in Elems(Restrict(xs[..n], keep));
      }
    }
  }

  /** A restriction keeps the relative order of what it keeps. */
  lemma {:induction false} RestrictOrder<T>(xs: seq<T>, keep: set<T>, i: nat, j: nat) returns (p: nat, q: nat)
    requires i < j < |Restrict(xs, keep)|
    ensures p < q < |xs| && xs[p] == Restrict(xs, keep)[i] && xs[q] == Restrict(xs, keep)[j]
  {
    var n := |xs| - 1;
    var front := Restrict(xs[..n], keep);
    if j < |front| {
      p, q := RestrictOrder(xs[..n], keep, i, j);
    } else {
      RestrictElems(xs[..n], keep);
      assert front[i] in Elems(front);
      p :| 0 <= p < n && xs[p] == front[i];
      q := n;
    }
  }

  lemma {:induction false} RestrictCard<T(!new)>(xs: seq<T>, keep: set<T>)
    requires NoDup(xs) && keep <= Elems(xs)
    ensures NoDup(Restrict(xs, keep)) && |Restrict(xs, keep)| == |keep| && Elems(Restrict(xs, keep)) == keep
  {
    RestrictNoDup(xs, keep);
    RestrictElems(xs, keep);
    assert Elems(xs) * keep == keep;
    CardElems(Restrict(xs, keep));
  }

  lemma WithoutElems<T>(xs: seq<T>, x: T)
    ensures Elems(Without(xs, x)) == Elems(xs) - {x}
  {
    RestrictElems(xs, Elems(xs) - {x});
  }

  /** Deleting `x` from a restriction is restricting to one element less. */
  lemma WithoutRestrict<T>(xs: seq<T>, keep: set<T>, x: T)
    ensures Without(Restrict(xs, keep), x) == Restrict(xs, keep - {x})
    ensures Without(Restrict(xs, keep), x) == Restrict(Without(xs, x), keep)
  {
    RestrictElems(xs, keep);
    RestrictTwice(xs, keep, Elems(xs) * keep - {x});
    RestrictCong(xs, keep * (Elems(xs) * keep - {x}), keep - {x});
    RestrictTwice(xs, Elems(xs) - {x}, keep);
    RestrictCong(xs, (Elems(xs) - {x}) * keep, keep - {x});
  }

  lemma {:induction false} CardSubset<T>(a: set<T>, b: set<T>)
    requires a <= b
    ensures |a| <= |b|
  {
    assert b == a + (b - a);
  }

  lemma {:induction false} CardElems<T(!new)>(xs: seq<T>)
    requires NoDup(xs)
    ensures |Elems(xs)| == |xs|
  {
    if xs != [] {
      var n := |xs| - 1;
      CardElems(xs[..n]);
      assert xs[n] !in Elems(xs[..n]);
      assert Elems(xs) == Elems(xs[..n]) + {xs[n]};
    }
  }

  /** What a comparator of the source looks at: a first key, then a second one. */
  datatype Rank = Rank(major: int, minor: int)

  predicate AtMost(a: Rank, b: Rank) {
    a.major < b.major || (a.major == b.major && a.minor <= b.minor)
  }

  ghost predicate SortedBy<T>(xs: seq<T>, rank: map<T, Rank>)
    requires forall x :: x in xs ==> x in rank
  {
    forall i, j :: 0 <= i < j < |xs| ==> AtMost(rank[xs[i]], rank[xs[j]])
  }

  /** Inserts `x` into a sorted sequence, after everything that ranks no higher than it. */
  function Place<T(==)>(x: T, xs: seq<T>, rank: map<T, Rank>): (r: seq<T>)
    requires x in rank && forall y :: y in xs ==> y in rank
    ensures multiset(r) == multiset(xs) + multiset{x}
    ensures forall y :: y in r ==> y in rank
  {
    if xs == [] || AtMost(rank[xs[|xs| - 1]], rank[x]) then xs + [x]
    else
      assert xs == xs[..|xs| - 1] + [xs[|xs| - 1]];
      Place(x, xs[..|xs| - 1], rank) + [xs[|xs| - 1]]
  }

  /** Array.prototype.sort with a comparator given by ranks: a stable sort. */
  function StableSort<T(==)>(xs: seq<T>, rank: map<T, Rank>): (r: seq<T>)
    requires forall x :: x in xs ==> x in rank
    ensures multiset(r) == multiset(xs)
    ensures forall x :: x in r ==> x in rank
  {
    if xs == [] then []
    else
      assert xs == xs[..|xs| - 1] + [xs[|xs| - 1]];
      Place(xs[|xs| - 1], StableSort(xs[..|xs| - 1], rank), rank)
  }

  lemma PlaceLast<T>(x: T, xs: seq<T>, rank: map<T, Rank>)
    requires x in rank && forall y :: y in xs ==> y in rank
    requires xs == [] || AtMost(rank[xs[|xs| - 1]], rank[x])
    ensures Place(x, xs, rank) == xs + [x]
  {
  }

  lemma PlaceBefore<T>(x: T, front: seq<T>, last: T, rank: map<T, Rank>)
    requires x in rank && last in rank && forall y :: y in front ==> y in rank
    requires !AtMost(rank[last], rank[x])
    ensures Place(x, front + [last], rank) == Place(x, front, rank) + [last]
  {
    assert (front + [last])[..|front|] == front;
  }

  lemma SortSnoc<T>(front: seq<T>, last: T, rank: map<T, Rank>)
    requires last in rank && forall y :: y in front ==> y in rank
    ensures StableSort(front + [last], rank) == Place(last, StableSort(front, rank), rank)
  {
    hide Place;
    assert (front + [last])[..|front|] == front;
  }

  /** Sorted up to the last element, and the last one highest. */
  lemma SortedSnoc<T>(front: seq<T>, last: T, rank: map<T, Rank>)
    requires last in rank && forall y :: y in front ==> y in rank
    ensures SortedBy(front + [last], rank) <==> SortedBy(front, rank) && forall y :: y in front ==> AtMost(rank[y], rank[last])
  {
    hide AtMost;
    var xs := front + [last];
    if SortedBy(xs, rank) {
      assert forall i :: 0 <= i < |front| ==> xs[i] == front[i];
      assert xs[|front|] == last;
      forall y | y in front ensures AtMost(rank[y], rank[last]) {
        var i :| 0 <= i < |front| && front[i] == y;
        assert AtMost(rank[xs[i]], rank[xs[|front|]]);
      }
    }
  }

  lemma PlaceMembers<T>(x: T, xs: seq<T>, rank: map<T, Rank>)
    requires x in rank && forall y :: y in xs ==> y in rank
    ensures forall y :: y in Place(x, xs, rank) <==> y == x || y in xs
  {
    hide Place;
    var p := Place(x, xs, rank);
    assert forall y :: y in p <==> y in multiset(p);
  }

  lemma {:induction false} PlaceSorted<T>(x: T, xs: seq<T>, rank: map<T, Rank>)
    requires x in rank && forall y :: y in xs ==> y in rank
    requires SortedBy(xs, rank)
    ensures SortedBy(Place(x, xs, rank), rank)
  {
    hide Place, SortedBy;
    if xs == [] {
      PlaceLast(x, xs, rank);
      SortedSnoc(xs, x, rank);
    } else {
      var front, last := xs[..|xs| - 1], xs[|xs| - 1];
      assert xs == front + [last];
      SortedSnoc(front, last, rank);
      if AtMost(rank[last], rank[x]) {
        PlaceLast(x, xs, rank);
        SortedSnoc(xs, x, rank);
      } else {
        PlaceSorted(x, front, rank);
        PlaceBefore(x, front, last, rank);
        PlaceMembers(x, front, rank);
        SortedSnoc(Place(x, front, rank), last, rank);
      }
    }
  }

  lemma {:induction false} StableSortSorts<T>(xs: seq<T>, rank: map<T, Rank>)
    requires forall x :: x in xs ==> x in rank
    ensures SortedBy(StableSort(xs, rank), rank)
  {
    hide Place;
    if xs != [] {
      StableSortSorts(xs[..|xs| - 1], rank);
      PlaceSorted(xs[|xs| - 1], StableSort(xs[..|xs| - 1], rank), rank);
    }
  }

  lemma SortMembers<T>(xs: seq<T>, rank: map<T, Rank>)
    requires forall x :: x in xs ==> x in rank
    ensures forall y :: y in StableSort(xs, rank) <==> y in xs
  {
    hide StableSort;
    var r := StableSort(xs, rank);
    assert forall y :: y in r <==> y in multiset(r);
  }

  /** Elements of equal rank keep their relative order. */
  lemma {:induction false} StableSortIsStable<T(!new)>(xs: seq<T>, rank: map<T, Rank>, k: Rank)
    requires forall x :: x in xs ==> x in rank
    ensures var same := set x | x in xs && rank[x] == k;
            Restrict(StableSort(xs, rank), same) == Restrict(xs, same)
  {
    KeepsOrder(xs, rank, k, set x | x in xs && rank[x] == k);
  }

  lemma {:induction false} KeepsOrder<T(!new)>(xs: seq<T>, rank: map<T, Rank>, k: Rank, same: set<T>)
    requires forall x :: x in xs ==> x in rank && (x in same <==> rank[x] == k)
    ensures Restrict(StableSort(xs, rank), same) == Restrict(xs, same)
  {
    hide StableSort, Place, SortedBy, Restrict;
    if xs == [] {
      SortNothing(xs, rank);
    } else {
      var front, last := xs[..|xs| - 1], xs[|xs| - 1];
      assert xs == front + [last];
      KeepsOrder(front, rank, k, same);
      SortSnoc(front, last, rank);
      SortMembers(front, rank);
      StableSortSorts(front, rank);
      PlaceKeeps(last, StableSort(front, rank), rank, k, same);
      RestrictAppend(front, [last], same);
      RestrictAppend(StableSort(front, rank), [last], same);
    }
  }

  lemma SortNothing<T>(xs: seq<T>, rank: map<T, Rank>)
    requires xs == []
    ensures StableSort(xs, rank) == xs
  {
  }

  lemma {:induction false} PlaceKeeps<T(!new)>(x: T, xs: seq<T>, rank: map<T, Rank>, k: Rank, same: set<T>)
    requires x in rank && forall y :: y in xs ==> y in rank
    requires forall y :: y in xs || y == x ==> (y in same <==> rank[y] == k)
    ensures Restrict(Place(x, xs, rank), same) == Restrict(xs + [x], same)
  {
    hide Place, SortedBy, Restrict;
    if xs == [] || AtMost(rank[xs[|xs| - 1]], rank[x]) {
      PlaceLast(x, xs, rank);
    } else {
      var front, last := xs[..|xs| - 1], xs[|xs| - 1];
      assert xs == front + [last];
      PlaceKeeps(x, front, rank, k, same);
      PlaceBefore(x, front, last, rank);
      RestrictAppend(front, [last], same);
      RestrictAppend(front, [x], same);
      RestrictAppend(xs, [x], same);
      RestrictAppend(Place(x, front, rank), [last], same);
      NotBoth(x, last, same, rank, k);
      var f, a, b := Restrict(front, same), Restrict([x], same), Restrict([last], same);
      assert (f + a) + b == f + (a + b) && (f + b) + a == f + (b + a);
    }
  }

  /** Elements of different rank are not both kept. */
  lemma NotBoth<T>(x: T, last: T, same: set<T>, rank: map<T, Rank>, k: Rank)
    requires x in rank && last in rank && !AtMost(rank[last], rank[x])
    requires (x in same <==> rank[x] == k) && (last in same <==> rank[last] == k)
    ensures Restrict([x], same) + Restrict([last], same) == Restrict([last], same) + Restrict([x], same)
  {
    var none: seq<T> := [];
    assert [x][..0] == none && [last][..0] == none && Restrict(none, same) == none;
    assert Restrict([x], same) == none || Restrict([last], same) == none;
  }

  /** A sorted sequence is left alone. */
  lemma {:induction false} SortSorted<T>(xs: seq<T>, rank: map<T, Rank>)
    requires forall x :: x in xs ==> x in rank
    requires SortedBy(xs, rank)
    ensures StableSort(xs, rank) == xs
  {
    hide StableSort, Place, SortedBy, AtMost;
    if xs == [] {
      SortNothing(xs, rank);
    } else {
      var front, last := xs[..|xs| - 1], xs[|xs| - 1];
      assert xs == front + [last];
      SortedSnoc(front, last, rank);
      SortSorted(front, rank);
      SortSnoc(front, last, rank);
      PlaceLast(last, front, rank);
    }
  }

  lemma {:induction false} SortNoDup<T(!new)>(xs: seq<T>, rank: map<T, Rank>)
    requires NoDup(xs) && forall x :: x in xs ==> x in rank
    ensures NoDup(StableSort(xs, rank))
    ensures Elems(StableSort(xs, rank)) == Elems(xs)
    ensures |StableSort(xs, rank)| == |xs|
  {
    var r := StableSort(xs, rank);
    forall x ensures x in r <==> x in xs {
      assert x in multiset(r) <==> x in multiset(xs);
    }
    assert Elems(r) == Elems(xs);
    CardElems(xs);
    assert |multiset(r)| == |multiset(xs)|;
    CardNoDup(r);
  }

  lemma {:induction false} CardNoDup<T(!new)>(xs: seq<T>)
    ensures |Elems(xs)| <= |xs|
    ensures |Elems(xs)| == |xs| ==> NoDup(xs)
  {
    if xs != [] {
      var n := |xs| - 1;
      CardNoDup(xs[..n]);
      assert Elems(xs) == Elems(xs[..n]) + {xs[n]};
    }
  }
}
