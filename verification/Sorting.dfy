/** Sorting by an order that is given, as `sort` of JavaScript arrays does. */
module Sorting {
  import opened Basics

  /** `upTo(a, b)`: the comparison puts `a` no later than `b`. Any two can be compared, and comparisons chain. */
  ghost predicate Orders<T(!new)>(upTo: (T, T) -> bool) {
    && (forall a, b :: upTo(a, b) || upTo(b, a))
    && (forall a, b, c :: upTo(a, b) && upTo(b, c) ==> upTo(a, c))
  }

  function Inserted<T>(upTo: (T, T) -> bool, x: T, sorted: seq<T>): seq<T> {
    if sorted == [] || !upTo(sorted[0], x) then [x] + sorted else [sorted[0]] + Inserted(upTo, x, sorted[1..])
  }

  function Sorted<T>(upTo: (T, T) -> bool, s: seq<T>): seq<T> {
    if s == [] then [] else Inserted(upTo, s[|s| - 1], Sorted(upTo, s[..|s| - 1]))
  }

  ghost predicate Rises<T(!new)>(upTo: (T, T) -> bool, s: seq<T>) {
    forall i, j :: 0 <= i < j < |s| ==> upTo(s[i], s[j])
  }

  lemma {:induction false} InsertedIs<T(!new)>(upTo: (T, T) -> bool, x: T, sorted: seq<T>)
    ensures multiset(Inserted(upTo, x, sorted)) == multiset(sorted) + multiset{x}
    ensures Orders(upTo) && Rises(upTo, sorted) ==> Rises(upTo, Inserted(upTo, x, sorted))
  {
    hide Orders, Rises;
    if sorted == [] {
      OneRises(upTo, x);
    } else if upTo(sorted[0], x) {
      InsertedIs(upTo, x, sorted[1..]);
      assert sorted == [sorted[0]] + sorted[1..];
      if Orders(upTo) && Rises(upTo, sorted) {
        TailRises(upTo, sorted);
        StillRises(upTo, x, sorted, Inserted(upTo, x, sorted[1..]));
      }
    } else if Orders(upTo) && Rises(upTo, sorted) {
      HeadRises(upTo, x, sorted);
    }
  }

  lemma OneRises<T(!new)>(upTo: (T, T) -> bool, x: T)
    ensures Rises(upTo, [x] + [])
  {}

  lemma TailRises<T(!new)>(upTo: (T, T) -> bool, sorted: seq<T>)
    requires sorted != [] && Rises(upTo, sorted)
    ensures Rises(upTo, sorted[1..])
  {}

  lemma StillRises<T(!new)>(upTo: (T, T) -> bool, x: T, sorted: seq<T>, rest: seq<T>)
    requires sorted != [] && Rises(upTo, sorted) && upTo(sorted[0], x)
    requires Rises(upTo, rest) && multiset(rest) == multiset(sorted[1..]) + multiset{x}
    ensures Rises(upTo, [sorted[0]] + rest)
  {
    forall y | y in rest ensures upTo(sorted[0], y) {
      assert y in multiset(rest);
      assert y == x || y in sorted[1..];
    }
  }

  lemma HeadRises<T(!new)>(upTo: (T, T) -> bool, x: T, sorted: seq<T>)
    requires Orders(upTo) && Rises(upTo, sorted) && sorted != [] && !upTo(sorted[0], x)
    ensures Rises(upTo, [x] + sorted)
  {
    assert upTo(x, sorted[0]);
    forall j | 0 <= j < |sorted| ensures upTo(x, sorted[j]) {
      if j > 0 { assert upTo(sorted[0], sorted[j]); }
    }
  }

  lemma {:induction false} SortedIs<T(!new)>(upTo: (T, T) -> bool, s: seq<T>)
    ensures multiset(Sorted(upTo, s)) == multiset(s) && |Sorted(upTo, s)| == |s|
    ensures Orders(upTo) ==> Rises(upTo, Sorted(upTo, s))
  {
    hide Orders, Rises, Inserted;
    if s == [] {
      NothingRises(upTo);
    } else {
      var front, last := s[..|s| - 1], s[|s| - 1];
      SortedIs(upTo, front);
      InsertedIs(upTo, last, Sorted(upTo, front));
      assert s == front + [last];
      assert |multiset(Sorted(upTo, s))| == |multiset(s)|;
    }
  }

  lemma NothingRises<T(!new)>(upTo: (T, T) -> bool)
    ensures Rises(upTo, [])
  {}

  /** The elements of a set, in order. */
  method SortSet<T(!new, ==)>(upTo: (T, T) -> bool, s: set<T>) returns (r: seq<T>)
    ensures |r| == |s| && (forall x :: x in r <==> x in s) && NoRepeats(r)
    ensures Orders(upTo) ==> Rises(upTo, r)
  {
    hide Orders, Rises, Inserted;
    r := [];
    var rest := s;
    NothingRises(upTo);
    while rest != {}
      invariant rest <= s && multiset(r) == multiset(s - rest)
      invariant Orders(upTo) ==> Rises(upTo, r)
      decreases |rest|
    {
      var x :| x in rest;
      InsertedIs(upTo, x, r);
      r := Inserted(upTo, x, r);
      assert s - (rest - {x}) == (s - rest) + {x};
      rest := rest - {x};
    }
    assert s - rest == s;
    OnceEach(r, s);
  }

  lemma OnceEach<T(!new)>(r: seq<T>, s: set<T>)
    requires multiset(r) == multiset(s)
    ensures |r| == |s| && (forall x :: x in r <==> x in s) && NoRepeats(r)
  {
    assert |multiset(r)| == |multiset(s)|;
    forall x ensures x in r <==> x in s {
      assert x in multiset(r) <==> x in multiset(s);
    }
    forall i, j | 0 <= i < j < |r| ensures r[i] != r[j] {
      assert r == r[..j] + [r[j]] + r[j + 1..];
      assert multiset(r)[r[j]] <= 1;
      assert r[i] in r[..j];
    }
  }
}
