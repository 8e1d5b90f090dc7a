/** Strict orders, the stable sort and the removal of adjacent duplicates that the configuration store relies on. */
module Ordering {

  // ----- strings in code-point order -----

  predicate StringLess(a: string, b: string) {
    b != [] && (a == [] || a[0] < b[0] || (a[0] == b[0] && StringLess(a[1..], b[1..])))
  }

  lemma {:induction false} StringTrans(a: string, b: string, c: string)
    requires StringLess(a, b) && StringLess(b, c)
    ensures StringLess(a, c)
  {
    if a == [] || a[0] != b[0] || b[0] != c[0] {
    } else {
      StringTrans(a[1..], b[1..], c[1..]);
    }
  }

  lemma {:induction false} StringIrreflexive(a: string)
    ensures !StringLess(a, a)
  {
    if a == [] {
    } else {
      StringIrreflexive(a[1..]);
    }
  }

  lemma {:induction false} StringTotal(a: string, b: string)
    ensures a == b || StringLess(a, b) || StringLess(b, a)
  {
    if a == [] || b == [] || a[0] != b[0] {
    } else {
      StringTotal(a[1..], b[1..]);
      if a[1..] == b[1..] {
        assert a == [a[0]] + a[1..] == b;
      }
    }
  }

  /** Strings are strictly and totally ordered. */
  lemma StringOrder(a: string, b: string, c: string)
    ensures !StringLess(a, a)
    ensures StringLess(a, b) && StringLess(b, c) ==> StringLess(a, c)
    ensures StringLess(a, c) ==> StringLess(a, b) || StringLess(b, c)
  {
    hide StringLess;
    StringIrreflexive(a);
    if StringLess(a, b) && StringLess(b, c) {
      StringTrans(a, b, c);
    }
    StringTotal(a, b);
    if StringLess(a, c) && StringLess(b, a) {
      StringTrans(b, a, c);
    }
  }

  lemma StringsOrdered()
    ensures StrictOrder(StringLess)
  {
    hide StringLess;
    forall x: string, y: string, z: string
      ensures !StringLess(x, x)
      ensures StringLess(x, y) && StringLess(y, z) ==> StringLess(x, z)
      ensures StringLess(x, z) ==> StringLess(x, y) || StringLess(y, z)
    {
      StringOrder(x, y, z);
    }
  }

  // ----- strict weak orders -----

  ghost predicate Irreflexive<T(!new)>(less: (T, T) -> bool) {
    forall x :: !less(x, x)
  }

  ghost predicate Transitive<T(!new)>(less: (T, T) -> bool) {
    forall x, y, z :: less(x, y) && less(y, z) ==> less(x, z)
  }

  /** Incomparable elements are interchangeable. */
  ghost predicate Weak<T(!new)>(less: (T, T) -> bool) {
    forall x, y, z :: less(x, z) ==> less(x, y) || less(y, z)
  }

  ghost predicate Total<T(!new)>(less: (T, T) -> bool) {
    forall x, y :: x == y || less(x, y) || less(y, x)
  }

  ghost predicate StrictOrder<T(!new)>(less: (T, T) -> bool) {
    Irreflexive(less) && Transitive(less) && Weak(less)
  }

  predicate Increasing<T>(less: (T, T) -> bool, s: seq<T>) {
    forall i, j :: 0 <= i < j < |s| ==> less(s[i], s[j])
  }

  predicate Ordered<T>(less: (T, T) -> bool, s: seq<T>) {
    forall i, j :: 0 <= i < j < |s| ==> !less(s[j], s[i])
  }

  ghost predicate SameElements<T>(a: seq<T>, b: seq<T>) {
    (forall x :: x in a ==> x in b) && (forall x :: x in b ==> x in a)
  }

  /** There is only one strictly increasing arrangement of given elements. */
  lemma {:induction false} IncreasingIsUnique<T(!new)>(less: (T, T) -> bool, a: seq<T>, b: seq<T>)
    requires StrictOrder(less) && Increasing(less, a) && Increasing(less, b) && SameElements(a, b)
    ensures a == b
  {
    if a == [] {
      assert forall i :: 0 <= i < |b| ==> b[i] in b;
    } else {
      assert a[0] in b && b[0] in a;
      assert a[0] == b[0];
      TailElements(less, a, b);
      IncreasingIsUnique(less, a[1..], b[1..]);
      assert a == [a[0]] + a[1..] && b == [b[0]] + b[1..];
    }
  }

  lemma TailElements<T(!new)>(less: (T, T) -> bool, a: seq<T>, b: seq<T>)
    requires StrictOrder(less) && Increasing(less, a) && Increasing(less, b) && SameElements(a, b)
    requires a != [] && b != [] && a[0] == b[0]
    ensures SameElements(a[1..], b[1..])
  {
    assert forall x :: x in a[1..] <==> x in a && x != a[0];
    assert forall x :: x in b[1..] <==> x in b && x != b[0];
  }

  lemma FirstsEqual(a: seq<string>, b: seq<string>)
    requires Ordered(StringLess, a) && Ordered(StringLess, b) && SameElements(a, b) && a != [] && b != []
    ensures a[0] == b[0]
  {
    hide StringLess;
    assert a[0] in b && b[0] in a;
    StringTotal(a[0], b[0]);
  }

  lemma TailMultiset<T>(s: seq<T>)
    requires s != []
    ensures multiset(s[1..]) == multiset(s) - multiset{s[0]} && s == [s[0]] + s[1..]
  {
    assert s == [s[0]] + s[1..];
  }

  /** There is only one ordered arrangement of given strings, repetitions included. */
  lemma {:induction false} OrderedStringsUnique(a: seq<string>, b: seq<string>)
    requires Ordered(StringLess, a) && Ordered(StringLess, b) && multiset(a) == multiset(b)
    ensures a == b
  {
    hide StringLess;
    MultisetElements(a, b);
    if a == [] {
    } else {
      FirstsEqual(a, b);
      TailMultiset(a);
      TailMultiset(b);
      OrderedStringsUnique(a[1..], b[1..]);
    }
  }

  // ----- the stable sort -----

  /** Insert before the first element that is not smaller. */
  function InsertBy<T>(less: (T, T) -> bool, x: T, s: seq<T>): seq<T> {
    if s == [] || !less(s[0], x) then [x] + s else [s[0]] + InsertBy(less, x, s[1..])
  }

  function SortBy<T>(less: (T, T) -> bool, s: seq<T>): seq<T> {
    if s == [] then [] else InsertBy(less, s[0], SortBy(less, s[1..]))
  }

  lemma {:induction false} InsertPermutes<T>(less: (T, T) -> bool, x: T, s: seq<T>)
    ensures multiset(InsertBy(less, x, s)) == multiset(s) + multiset{x}
  {
    if s == [] {
    } else {
      assert s == [s[0]] + s[1..];
      InsertPermutes(less, x, s[1..]);
    }
  }

  lemma {:induction false} SortPermutes<T>(less: (T, T) -> bool, s: seq<T>)
    ensures multiset(SortBy(less, s)) == multiset(s)
  {
    if s == [] {
    } else {
      assert s == [s[0]] + s[1..];
      SortPermutes(less, s[1..]);
      InsertPermutes(less, s[0], SortBy(less, s[1..]));
    }
  }

  lemma MultisetElements<T>(a: seq<T>, b: seq<T>)
    requires multiset(a) == multiset(b)
    ensures SameElements(a, b) && |a| == |b|
  {
    forall x ensures x in a <==> x in b {
      assert x in a <==> x in multiset(a);
      assert x in b <==> x in multiset(b);
    }
    assert |multiset(a)| == |a| && |multiset(b)| == |b|;
  }

  lemma SortElements<T>(less: (T, T) -> bool, s: seq<T>)
    ensures SameElements(SortBy(less, s), s) && |SortBy(less, s)| == |s|
  {
    SortPermutes(less, s);
    MultisetElements(SortBy(less, s), s);
  }

  lemma {:induction false} InsertOrders<T(!new)>(less: (T, T) -> bool, x: T, s: seq<T>)
    requires StrictOrder(less) && Ordered(less, s)
    ensures Ordered(less, InsertBy(less, x, s))
  {
    var r := InsertBy(less, x, s);
    if s == [] {
    } else if !less(s[0], x) {
      forall j | 0 < j < |r| ensures !less(r[j], x) {
        assert j == 1 || !less(s[j - 1], s[0]);
      }
    } else {
      InsertOrders(less, x, s[1..]);
      InsertPermutes(less, x, s[1..]);
      MultisetElements(InsertBy(less, x, s[1..]), s[1..] + [x]);
      forall j | 0 < j < |r| ensures !less(r[j], s[0]) {
        assert r[j] in s[1..] + [x];
      }
    }
  }

  lemma {:induction false} SortOrders<T(!new)>(less: (T, T) -> bool, s: seq<T>)
    requires StrictOrder(less)
    ensures Ordered(less, SortBy(less, s))
  {
    if s == [] {
    } else {
      SortOrders(less, s[1..]);
      InsertOrders(less, s[0], SortBy(less, s[1..]));
    }
  }

  // ----- adjacent duplicates -----

  function Dedup<T(==)>(s: seq<T>): seq<T> {
    if |s| < 2 then s else if s[0] == s[1] then Dedup(s[1..]) else [s[0]] + Dedup(s[1..])
  }

  lemma {:induction false} DedupElements<T>(s: seq<T>)
    ensures SameElements(Dedup(s), s)
    ensures s != [] ==> Dedup(s) != [] && Dedup(s)[0] == s[0]
  {
    if |s| < 2 {
    } else {
      DedupElements(s[1..]);
      assert s == [s[0]] + s[1..];
    }
  }

  /** On a sorted sequence, adjacent duplicates are all the duplicates. */
  lemma {:induction false} DedupIncreases<T(!new)>(less: (T, T) -> bool, s: seq<T>)
    requires StrictOrder(less) && Total(less) && Ordered(less, s)
    ensures Increasing(less, Dedup(s))
  {
    if |s| < 2 {
    } else {
      DedupIncreases(less, s[1..]);
      DedupElements(s[1..]);
      if s[0] != s[1] {
        var rest := Dedup(s[1..]);
        forall k | 0 <= k < |rest| ensures less(s[0], rest[k]) {
          assert rest[k] in s[1..];
          AfterFirst(less, s, rest[k]);
        }
      }
    }
  }

  lemma AfterFirst<T(!new)>(less: (T, T) -> bool, s: seq<T>, x: T)
    requires StrictOrder(less) && Total(less) && Ordered(less, s) && |s| >= 2 && s[0] != s[1] && x in s[1..]
    ensures less(s[0], x)
  {
    var j :| 1 <= j < |s| && s[j] == x;
    assert less(s[0], s[1]);
    assert j == 1 || !less(s[j], s[1]);
  }

  /** Sorting then removing duplicates depends on the elements alone. */
  lemma SortDedup<T(!new)>(less: (T, T) -> bool, s: seq<T>)
    requires StrictOrder(less) && Total(less)
    ensures Increasing(less, Dedup(SortBy(less, s))) && SameElements(Dedup(SortBy(less, s)), s)
  {
    SortOrders(less, s);
    SortElements(less, s);
    DedupIncreases(less, SortBy(less, s));
    DedupElements(SortBy(less, s));
  }
}
