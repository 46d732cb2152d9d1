/** A stable sort by an order on keys, and when its result does not depend on the input's order. */
module Sorting {

  ghost predicate Connected<T(!new)>(le: (T, T) -> bool) {
    forall x, y :: le(x, y) || le(y, x)
  }

  ghost predicate Transitive<T(!new)>(le: (T, T) -> bool) {
    forall x, y, z :: le(x, y) && le(y, z) ==> le(x, z)
  }

  ghost predicate SortedBy<T>(le: (T, T) -> bool, s: seq<T>) {
    forall i, j | 0 <= i < j < |s| :: le(s[i], s[j])
  }

  /** Elements that tie are equal. */
  ghost predicate TiesAreEqual<T>(le: (T, T) -> bool, s: seq<T>) {
    forall x, y | x in s && y in s && le(x, y) && le(y, x) :: x == y
  }

  function Insert<T>(le: (T, T) -> bool, x: T, s: seq<T>): seq<T> {
    if s == [] || le(x, s[0]) then [x] + s else [s[0]] + Insert(le, x, s[1..])
  }

  /** Stable: of two elements that tie, the earlier one stays first. */
  function Sort<T>(le: (T, T) -> bool, s: seq<T>): seq<T> {
    if s == [] then [] else Insert(le, s[0], Sort(le, s[1..]))
  }

  lemma {:induction false} InsertPermutes<T>(le: (T, T) -> bool, x: T, s: seq<T>)
    ensures multiset(Insert(le, x, s)) == multiset(s) + multiset{x}
  {
    if s != [] && !le(x, s[0]) {
      InsertPermutes(le, x, s[1..]);
      assert s == [s[0]] + s[1..];
    }
  }

  lemma {:induction false} InsertSorts<T(!new)>(le: (T, T) -> bool, x: T, s: seq<T>)
    requires Connected(le) && Transitive(le) && SortedBy(le, s)
    ensures SortedBy(le, Insert(le, x, s))
    ensures forall y | y in Insert(le, x, s) :: y == x || y in s
  {
    if s != [] && !le(x, s[0]) {
      InsertSorts(le, x, s[1..]);
      var rest := Insert(le, x, s[1..]);
      forall j | 0 <= j < |rest| ensures le(s[0], rest[j]) {
        assert rest[j] in rest;
        if rest[j] == x { assert le(s[0], x); }
      }
    }
  }

  lemma {:induction false} SortCorrect<T(!new)>(le: (T, T) -> bool, s: seq<T>)
    requires Connected(le) && Transitive(le)
    ensures SortedBy(le, Sort(le, s))
    ensures multiset(Sort(le, s)) == multiset(s)
  {
    if s != [] {
      SortCorrect(le, s[1..]);
      InsertPermutes(le, s[0], Sort(le, s[1..]));
      InsertSorts(le, s[0], Sort(le, s[1..]));
      assert s == [s[0]] + s[1..];
    }
  }

  lemma LeastComesFirst<T(!new)>(le: (T, T) -> bool, a: seq<T>, x: T)
    requires Connected(le) && SortedBy(le, a) && a != [] && x in multiset(a)
    ensures le(a[0], x)
  {
    var i :| 0 <= i < |a| && a[i] == x;
    assert le(x, x);
  }

  lemma TailElements<T>(a: seq<T>)
    requires a != []
    ensures multiset(a[1..]) == multiset(a) - multiset{a[0]}
  {
    assert a == [a[0]] + a[1..];
  }

  /** Two sorted arrangements of the same elements are the same sequence. */
  lemma {:induction false} SortedIsUnique<T(!new)>(le: (T, T) -> bool, a: seq<T>, b: seq<T>)
    requires Connected(le) && SortedBy(le, a) && SortedBy(le, b)
    requires multiset(a) == multiset(b) && TiesAreEqual(le, a)
    ensures a == b
  {
    assert |a| == |multiset(a)| == |multiset(b)| == |b|;
    if a != [] {
      assert a[0] in multiset(a) && b[0] in multiset(b);
      LeastComesFirst(le, a, b[0]);
      LeastComesFirst(le, b, a[0]);
      assert b[0] in a;
      TailElements(a);
      TailElements(b);
      SortedIsUnique(le, a[1..], b[1..]);
      assert a == [a[0]] + a[1..] && b == [b[0]] + b[1..];
    }
  }

  /** A sequence already in order stays as it is, ties included. */
  lemma {:induction false} SortKeepsSorted<T(!new)>(le: (T, T) -> bool, s: seq<T>)
    requires SortedBy(le, s)
    ensures Sort(le, s) == s
  {
    if s != [] {
      SortKeepsSorted(le, s[1..]);
      assert s == [s[0]] + s[1..];
    }
  }

  /** Without ties, sorting forgets the order its input came in. */
  lemma SortForgetsOrder<T(!new)>(le: (T, T) -> bool, a: seq<T>, b: seq<T>)
    requires Connected(le) && Transitive(le) && multiset(a) == multiset(b) && TiesAreEqual(le, a)
    ensures Sort(le, a) == Sort(le, b)
  {
    SortCorrect(le, a);
    SortCorrect(le, b);
    forall x | x in Sort(le, a) ensures x in a { assert x in multiset(Sort(le, a)); }
    SortedIsUnique(le, Sort(le, a), Sort(le, b));
  }
}
