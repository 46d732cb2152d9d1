/** Total orders on strings and on composite sort keys. */
module Ordering {
  import Sorting

  /** Lexicographic order by code point. */
  predicate StringLe(a: string, b: string) {
    if a == "" then true
    else if b == "" then false
    else if a[0] != b[0] then a[0] < b[0]
    else StringLe(a[1..], b[1..])
  }

  lemma {:induction false} StringTotal(a: string, b: string)
    ensures StringLe(a, b) || StringLe(b, a)
  {
    if a != "" && b != "" && a[0] == b[0] { StringTotal(a[1..], b[1..]); }
  }

  lemma {:induction false} StringTransitive(a: string, b: string, c: string)
    requires StringLe(a, b) && StringLe(b, c)
    ensures StringLe(a, c)
  {
    if a != "" && b != "" && c != "" && a[0] == b[0] == c[0] { StringTransitive(a[1..], b[1..], c[1..]); }
  }

  lemma {:induction false} StringAntisymmetric(a: string, b: string)
    requires StringLe(a, b) && StringLe(b, a)
    ensures a == b
  {
    if a != "" {
      StringAntisymmetric(a[1..], b[1..]);
      assert a == [a[0]] + a[1..] && b == [b[0]] + b[1..];
    }
  }

  /** A sort key: a number, two strings, and a serialisation that settles every tie. */
  datatype Key = Key(number: int, first: string, second: string, serialised: string)

  predicate KeyLe(a: Key, b: Key) {
    if a.number != b.number then a.number < b.number
    else if a.first != b.first then StringLe(a.first, b.first)
    else if a.second != b.second then StringLe(a.second, b.second)
    else StringLe(a.serialised, b.serialised)
  }

  lemma KeyTotal(a: Key, b: Key)
    ensures KeyLe(a, b) || KeyLe(b, a)
  {
    StringTotal(a.first, b.first);
    StringTotal(a.second, b.second);
    StringTotal(a.serialised, b.serialised);
  }

  lemma KeyAntisymmetric(a: Key, b: Key)
    requires KeyLe(a, b) && KeyLe(b, a)
    ensures a == b
  {
    if a.first != b.first { StringAntisymmetric(a.first, b.first); }
    if a.second != b.second { StringAntisymmetric(a.second, b.second); }
    StringAntisymmetric(a.serialised, b.serialised);
  }

  lemma KeyTransitive(a: Key, b: Key, c: Key)
    requires KeyLe(a, b) && KeyLe(b, c)
    ensures KeyLe(a, c)
  {
    if a.number == b.number == c.number {
      if a.first != b.first && b.first != c.first {
        StringTransitive(a.first, b.first, c.first);
        if a.first == c.first { StringAntisymmetric(a.first, b.first); }
      } else if a.first == b.first == c.first {
        if a.second != b.second && b.second != c.second {
          StringTransitive(a.second, b.second, c.second);
          if a.second == c.second { StringAntisymmetric(a.second, b.second); }
        } else if a.second == b.second == c.second {
          StringTransitive(a.serialised, b.serialised, c.serialised);
        }
      }
    }
  }

  /** Comparing items by a key. */
  function ByKey<T>(key: T -> Key): (T, T) -> bool {
    (x: T, y: T) => KeyLe(key(x), key(y))
  }

  lemma ByKeyIsAnOrder<T(!new)>(key: T -> Key)
    ensures Sorting.Connected(ByKey(key)) && Sorting.Transitive(ByKey(key))
  {
    forall x, y ensures ByKey(key)(x, y) || ByKey(key)(y, x) { KeyTotal(key(x), key(y)); }
    forall x, y, z | ByKey(key)(x, y) && ByKey(key)(y, z) ensures ByKey(key)(x, z) {
      KeyTransitive(key(x), key(y), key(z));
    }
  }

  ghost predicate Injective<T(!new)>(serialise: T -> string) {
    forall x, y :: serialise(x) == serialise(y) ==> x == y
  }

  /** A list sorted by keys that end in an injective serialisation forgets the order it was loaded in. */
  lemma KeyedSortForgetsOrder<T(!new)>(key: T -> Key, serialise: T -> string, a: seq<T>, b: seq<T>)
    requires Injective(serialise) && forall x :: key(x).serialised == serialise(x)
    requires multiset(a) == multiset(b)
    ensures Sorting.Sort(ByKey(key), a) == Sorting.Sort(ByKey(key), b)
  {
    ByKeyIsAnOrder(key);
    forall x, y | x in a && y in a && ByKey(key)(x, y) && ByKey(key)(y, x) ensures x == y {
      KeyAntisymmetric(key(x), key(y));
    }
    Sorting.SortForgetsOrder(ByKey(key), a, b);
  }

  lemma StringsSortForgetsOrder(a: seq<string>, b: seq<string>)
    requires multiset(a) == multiset(b)
    ensures Sorting.Sort(StringLe, a) == Sorting.Sort(StringLe, b)
    ensures multiset(Sorting.Sort(StringLe, a)) == multiset(a)
  {
    forall x, y ensures StringLe(x, y) || StringLe(y, x) { StringTotal(x, y); }
    forall x, y, z | StringLe(x, y) && StringLe(y, z) ensures StringLe(x, z) { StringTransitive(x, y, z); }
    forall x, y | x in a && y in a && StringLe(x, y) && StringLe(y, x) ensures x == y { StringAntisymmetric(x, y); }
    Sorting.SortForgetsOrder(StringLe, a, b);
    Sorting.SortCorrect(StringLe, a);
  }
}
