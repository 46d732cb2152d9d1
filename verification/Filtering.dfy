/** Keeping some elements of a sequence, in order. */
module Filtering {
  import opened Wrappers

  /** What f keeps of a sequence. */
  function Kept<T, U>(f: T -> Option<U>, s: seq<T>): seq<U> {
    if s == [] then []
    else
      var n := |s| - 1;
      Kept(f, s[..n]) + match f(s[n]) case None => [] case Some(kept) => [kept]
  }

  function Mapped<T, U>(g: T -> U, s: seq<T>): seq<U> {
    if s == [] then [] else Mapped(g, s[..|s| - 1]) + [g(s[|s| - 1])]
  }

  /** The elements satisfying a condition. */
  function Where<T>(p: T -> bool, s: seq<T>): seq<T> {
    if s == [] then []
    else
      var n := |s| - 1;
      if p(s[n]) then Where(p, s[..n]) + [s[n]] else Where(p, s[..n])
  }

  lemma KeptAppend<T, U>(f: T -> Option<U>, s: seq<T>, x: T)
    ensures Kept(f, s + [x]) == if f(x).Some? then Kept(f, s) + [f(x).value] else Kept(f, s)
  {
    assert (s + [x])[..|s|] == s;
  }

  lemma {:induction false} KeptConcat<T, U>(f: T -> Option<U>, a: seq<T>, b: seq<T>)
    ensures Kept(f, a + b) == Kept(f, a) + Kept(f, b)
  {
    if b == [] {
      assert a + b == a;
    } else {
      var n := |b| - 1;
      KeptConcat(f, a, b[..n]);
      assert (a + b)[..|a + b| - 1] == a + b[..n];
    }
  }

  lemma KeptHead<T, U>(f: T -> Option<U>, s: seq<T>)
    requires s != []
    ensures Kept(f, s) == (if f(s[0]).Some? then [f(s[0]).value] else []) + Kept(f, s[1..])
  {
    assert s == [s[0]] + s[1..];
    KeptConcat(f, [s[0]], s[1..]);
    assert [s[0]][..0] == [];
  }

  lemma {:induction false} KeptFinds<T, U>(f: T -> Option<U>, s: seq<T>, x: T)
    requires x in s && f(x).Some?
    ensures f(x).value in Kept(f, s)
  {
    if x != s[|s| - 1] { KeptFinds(f, s[..|s| - 1], x); }
  }

  lemma MappedAppend<T, U>(g: T -> U, s: seq<T>, x: T)
    ensures Mapped(g, s + [x]) == Mapped(g, s) + [g(x)]
  {
    assert (s + [x])[..|s|] == s;
  }

  /** Keeping by an inverse of the map gives everything back; keeping by one that rejects, nothing. */
  lemma {:induction false} KeptMapped<T, U>(f: U -> Option<T>, g: T -> U, s: seq<T>, keep: bool)
    requires forall x | x in s :: f(g(x)) == if keep then Some(x) else None
    ensures Kept(f, Mapped(g, s)) == if keep then s else []
  {
    if s != [] {
      var n := |s| - 1;
      KeptMapped(f, g, s[..n], keep);
      KeptAppend(f, Mapped(g, s[..n]), g(s[n]));
      assert s == s[..n] + [s[n]];
    }
  }

  lemma {:induction false} WhereAgrees<T>(p: T -> bool, q: T -> bool, s: seq<T>)
    requires forall x | x in s :: p(x) == q(x)
    ensures Where(p, s) == Where(q, s)
  {
    if s != [] { WhereAgrees(p, q, s[..|s| - 1]); }
  }

  lemma {:induction false} WhereKeeps<T>(p: T -> bool, s: seq<T>)
    ensures forall x | x in Where(p, s) :: p(x) && x in s
    ensures |Where(p, s)| <= |s|
  {
    if s != [] { WhereKeeps(p, s[..|s| - 1]); }
  }

  lemma {:induction false} WhereFinds<T>(p: T -> bool, s: seq<T>, x: T)
    requires x in s && p(x)
    ensures x in Where(p, s)
  {
    if x != s[|s| - 1] { WhereFinds(p, s[..|s| - 1], x); }
  }

  lemma WhereAppend<T>(p: T -> bool, s: seq<T>, x: T)
    ensures Where(p, s + [x]) == if p(x) then Where(p, s) + [x] else Where(p, s)
  {
    assert (s + [x])[..|s|] == s;
  }

  /** Filtering twice is filtering once by both conditions. */
  lemma {:induction false} WhereWhere<T>(p: T -> bool, q: T -> bool, both: T -> bool, s: seq<T>)
    requires forall x | x in s :: both(x) == (p(x) && q(x))
    ensures Where(p, Where(q, s)) == Where(both, s)
  {
    if s != [] {
      var n := |s| - 1;
      WhereWhere(p, q, both, s[..n]);
      if q(s[n]) { WhereAppend(p, Where(q, s[..n]), s[n]); }
    }
  }

  lemma {:induction false} WhereGrows<T>(p: T -> bool, q: T -> bool, s: seq<T>)
    requires forall x | x in s && p(x) :: q(x)
    ensures |Where(p, s)| <= |Where(q, s)|
  {
    if s != [] { WhereGrows(p, q, s[..|s| - 1]); }
  }

  lemma {:induction false} WhereGrowsStrictly<T>(p: T -> bool, q: T -> bool, s: seq<T>, x: T)
    requires forall y | y in s && p(y) :: q(y)
    requires x in s && q(x) && !p(x)
    ensures |Where(p, s)| < |Where(q, s)|
  {
    var n := |s| - 1;
    if x in s[..n] { WhereGrowsStrictly(p, q, s[..n], x); } else { WhereGrows(p, q, s[..n]); }
  }

  /** Dropping one occurrence from what is kept drops the count by one. */
  lemma {:induction false} WhereDropsOne<T>(p: T -> bool, q: T -> bool, s: seq<T>, k: nat)
    requires k < |s| && q(s[k]) && !p(s[k])
    requires forall i | 0 <= i < |s| && i != k :: p(s[i]) == q(s[i])
    ensures |Where(p, s)| == |Where(q, s)| - 1
  {
    var n := |s| - 1;
    if k < n {
      WhereDropsOne(p, q, s[..n], k);
    } else {
      forall x | x in s[..n] ensures p(x) == q(x) {
        var i :| 0 <= i < n && s[i] == x;
      }
      WhereAgrees(p, q, s[..n]);
    }
  }

  /** Filtering keeps every occurrence of what satisfies the condition, and nothing else. */
  lemma {:induction false} WhereCounts<T>(p: T -> bool, s: seq<T>, x: T)
    ensures multiset(Where(p, s))[x] == if p(x) then multiset(s)[x] else 0
  {
    if s != [] {
      var n := |s| - 1;
      WhereCounts(p, s[..n], x);
      assert s == s[..n] + [s[n]];
      assert multiset(s) == multiset(s[..n]) + multiset{s[n]};
    }
  }

  /** Where the elements satisfying the condition stand. */
  function Places<T>(p: T -> bool, s: seq<T>): set<int> {
    set i | 0 <= i < |s| && p(s[i])
  }

  lemma {:induction false} WhereCountsPlaces<T>(p: T -> bool, s: seq<T>)
    ensures |Where(p, s)| == |Places(p, s)|
  {
    if s != [] {
      var n := |s| - 1;
      WhereCountsPlaces(p, s[..n]);
      assert Places(p, s) == Places(p, s[..n]) + if p(s[n]) then {n} else {};
    }
  }

  /** Where an element stands. */
  function PlacesOf<T(==)>(s: seq<T>, x: T): set<int> {
    set i | 0 <= i < |s| && s[i] == x
  }

  /** An element occurs as often as there are places that hold it. */
  lemma {:induction false} OccurrencesCounted<T>(s: seq<T>, x: T)
    ensures multiset(s)[x] == |PlacesOf(s, x)|
  {
    if s != [] {
      var n := |s| - 1;
      OccurrencesCounted(s[..n], x);
      assert s == s[..n] + [s[n]];
      assert multiset(s) == multiset(s[..n]) + multiset{s[n]};
      assert PlacesOf(s, x) == PlacesOf(s[..n], x) + if s[n] == x then {n} else {};
    }
  }
}
