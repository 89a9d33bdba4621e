/** Sorting by a key, and the fact every use of Python's `sorted` here relies on: the sorted
    listing of a finite set of rows does not depend on the order they were read in, as long as
    no two of the rows have the same key. */
module Ordering {

  /** `leq` compares keys: any two are comparable and the comparison is transitive. */
  ghost predicate KeyOrder<T(!new)>(leq: (T, T) -> bool) {
    && (forall x, y :: leq(x, y) || leq(y, x))
    && (forall x, y, z :: leq(x, y) && leq(y, z) ==> leq(x, z))
  }

  /** No two elements of `s` have the same key. */
  ghost predicate Distinguishes<T(!new)>(leq: (T, T) -> bool, s: set<T>) {
    forall x, y :: x in s && y in s && leq(x, y) && leq(y, x) ==> x == y
  }

  ghost predicate Sorted<T>(s: seq<T>, leq: (T, T) -> bool) {
    forall i, j :: 0 <= i < j < |s| ==> leq(s[i], s[j])
  }

  function Insert<T>(x: T, s: seq<T>, leq: (T, T) -> bool): seq<T> {
    if s == [] || leq(x, s[0]) then [x] + s else [s[0]] + Insert(x, s[1..], leq)
  }

  function SortBy<T>(s: seq<T>, leq: (T, T) -> bool): seq<T> {
    if s == [] then [] else Insert(s[0], SortBy(s[1..], leq), leq)
  }

  lemma {:induction false} InsertKeeps<T(!new)>(x: T, s: seq<T>, leq: (T, T) -> bool)
    requires KeyOrder(leq) && Sorted(s, leq)
    ensures Sorted(Insert(x, s, leq), leq)
    ensures multiset(Insert(x, s, leq)) == multiset{x} + multiset(s)
  {
    if s != [] && !leq(x, s[0]) {
      InsertKeeps(x, s[1..], leq);
      var rest := Insert(x, s[1..], leq);
      assert s == [s[0]] + s[1..];
      forall k | 0 <= k < |rest| ensures leq(s[0], rest[k]) {
        assert rest[k] in multiset(rest);
        assert rest[k] == x || rest[k] in s[1..];
      }
    }
  }

  lemma {:induction false} SortByKeeps<T(!new)>(s: seq<T>, leq: (T, T) -> bool)
    requires KeyOrder(leq)
    ensures Sorted(SortBy(s, leq), leq)
    ensures multiset(SortBy(s, leq)) == multiset(s)
    ensures |SortBy(s, leq)| == |s|
  {
    if s != [] {
      SortByKeeps(s[1..], leq);
      InsertKeeps(s[0], SortBy(s[1..], leq), leq);
      assert s == [s[0]] + s[1..];
    }
    assert |multiset(SortBy(s, leq))| == |multiset(s)|;
  }

  /** Two sorted sequences of the same distinguishable elements are the same sequence. */
  lemma {:induction false} SortedUnique<T(!new)>(a: seq<T>, b: seq<T>, leq: (T, T) -> bool, among: set<T>)
    requires KeyOrder(leq) && Sorted(a, leq) && Sorted(b, leq)
    requires multiset(a) == multiset(b)
    requires Distinguishes(leq, among) && forall x :: x in a ==> x in among
    ensures a == b
  {
    assert |a| == |multiset(a)| == |multiset(b)| == |b|;
    if a != [] {
      assert a[0] in multiset(b) && b[0] in multiset(a);
      assert leq(a[0], b[0]) && leq(b[0], a[0]);
      assert a == [a[0]] + a[1..] && b == [b[0]] + b[1..];
      assert multiset(a[1..]) == multiset(a) - multiset{a[0]};
      SortedUnique(a[1..], b[1..], leq, among);
    }
  }

  /** Some reading order of a finite set: the database returns rows in an order it chooses. */
  ghost function Listing<T(!new)>(s: set<T>): (r: seq<T>)
    ensures |r| == |s|
    ensures forall x :: x in r <==> x in s
    ensures multiset(r) == multiset(s)
  {
    if s == {} then [] else
      var x :| x in s;
      var rest := Listing(s - {x});
      assert s == {x} + (s - {x});
      [x] + rest
  }

  /** The sorted listing of a set, whatever order its rows were read in. */
  ghost function SortedSet<T(!new)>(s: set<T>, leq: (T, T) -> bool): seq<T> {
    SortBy(Listing(s), leq)
  }

  lemma SortedSetElements<T(!new)>(s: set<T>, leq: (T, T) -> bool)
    requires KeyOrder(leq)
    ensures Sorted(SortedSet(s, leq), leq)
    ensures multiset(SortedSet(s, leq)) == multiset(s)
    ensures |SortedSet(s, leq)| == |s|
    ensures forall x :: x in SortedSet(s, leq) <==> x in s
  {
    SortByKeeps(Listing(s), leq);
    forall x ensures x in SortedSet(s, leq) <==> x in s {
      assert x in SortedSet(s, leq) <==> x in multiset(SortedSet(s, leq));
    }
  }

  /** Sorting any reading of the rows of `s` gives the one sorted listing of `s`. */
  lemma AnyReadingSortsAlike<T(!new)>(s: set<T>, reading: seq<T>, leq: (T, T) -> bool)
    requires KeyOrder(leq) && Distinguishes(leq, s)
    requires multiset(reading) == multiset(s)
    ensures SortBy(reading, leq) == SortedSet(s, leq)
  {
    SortByKeeps(reading, leq);
    SortedSetElements(s, leq);
    forall x | x in SortBy(reading, leq) ensures x in s {
      assert x in multiset(SortBy(reading, leq));
    }
    SortedUnique(SortBy(reading, leq), SortedSet(s, leq), leq, s);
  }

  lemma MultisetWithout<T>(x: T, s: set<T>)
    requires x in s
    ensures multiset(s) == multiset{x} + multiset(s - {x})
  {
  }

  lemma MultisetTail<T>(s: seq<T>, cs: set<T>)
    requires s != [] && multiset(s) == multiset(cs)
    ensures s[0] in cs && multiset(s[1..]) == multiset(cs - {s[0]})
  {
    assert s == [s[0]] + s[1..];
    assert s[0] in multiset(s);
    MultisetWithout(s[0], cs);
    assert multiset(s[1..]) == multiset(s) - multiset{s[0]};
  }
}
