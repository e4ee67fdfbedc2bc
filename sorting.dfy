/**
 * LINQ's `OrderBy(key)`: a stable sort on a real-valued key. Both the re-ordering of the
 * embedding provider's response by `Index` and the ranking of chunks by distance use it.
 */
module Sorting {
  import opened Sequences

  ghost predicate SortedBy<T>(s: seq<T>, key: T -> real)
  {
    forall i, j :: 0 <= i < j < |s| ==> key(s[i]) <= key(s[j])
  }

  /** Elements of `m` that share a key are the same element. */
  ghost predicate KeyInjective<T>(m: multiset<T>, key: T -> real)
  {
    forall u, v :: u in m && v in m && key(u) == key(v) ==> u == v
  }

  /** A sorted list stays sorted when an element no greater than all of it goes in front. */
  lemma ConsSorted<T>(h: T, t: seq<T>, key: T -> real)
    requires SortedBy(t, key)
    requires forall y :: y in t ==> key(h) <= key(y)
    ensures SortedBy([h] + t, key)
  {
    var r := [h] + t;
    forall i, j | 0 <= i < j < |r|
      ensures key(r[i]) <= key(r[j])
    {
      assert r[j] == t[j - 1];
      if i > 0 {
        assert r[i] == t[i - 1];
      } else {
        assert t[j - 1] in t;
      }
    }
  }

  /** Inserts `x` after every element whose key is not greater than its own (this keeps the sort stable). */
  function Insert<T(==)>(x: T, s: seq<T>, key: T -> real): (r: seq<T>)
    requires SortedBy(s, key)
    ensures |r| == |s| + 1
    ensures forall y :: y in r ==> y == x || y in s
    ensures SortedBy(r, key)
    ensures multiset(r) == multiset(s) + multiset{x}
  {
    if s == [] then [x]
    else if key(x) < key(s[0]) then
      ConsSorted(x, s, key);
      [x] + s
    else
      var tail := Insert(x, s[1..], key);
      assert s == [s[0]] + s[1..];
      assert forall y :: y in s[1..] ==> key(s[0]) <= key(y);
      ConsSorted(s[0], tail, key);
      [s[0]] + tail
  }

  function SortBy<T(==)>(s: seq<T>, key: T -> real): (r: seq<T>)
    ensures SortedBy(r, key)
    ensures multiset(r) == multiset(s) && |r| == |s|
  {
    if s == [] then []
    else
      var init, last := s[..|s| - 1], s[|s| - 1];
      assert s == init + [last];
      Insert(last, SortBy(init, key), key)
  }

  /** The elements of `s` whose key is `v`, in their order in `s`. */
  function EqualKeys<T>(s: seq<T>, key: T -> real, v: real): seq<T>
  {
    if s == [] then [] else (if key(s[0]) == v then [s[0]] else []) + EqualKeys(s[1..], key, v)
  }

  lemma {:induction false} EqualKeysSnoc<T>(s: seq<T>, x: T, key: T -> real, v: real)
    ensures EqualKeys(s + [x], key, v) == EqualKeys(s, key, v) + (if key(x) == v then [x] else [])
  {
    var tag := if key(x) == v then [x] else [];
    if s == [] {
      assert [x][1..] == [];
      assert s + [x] == [x];
    } else {
      var head := if key(s[0]) == v then [s[0]] else [];
      assert (s + [x])[0] == s[0];
      assert (s + [x])[1..] == s[1..] + [x];
      EqualKeysSnoc(s[1..], x, key, v);
      AppendAssoc(head, EqualKeys(s[1..], key, v), tag);
    }
  }

  /** A sorted list whose first key is above `v` has no element with key `v`. */
  lemma {:induction false} EqualKeysAbove<T>(s: seq<T>, key: T -> real, v: real)
    requires SortedBy(s, key) && s != [] && v < key(s[0])
    ensures EqualKeys(s, key, v) == []
  {
    if |s| > 1 {
      assert key(s[0]) <= key(s[1]);
      SortedTail(s, key);
      EqualKeysAbove(s[1..], key, v);
    }
  }

  /** `Insert` puts `x` after every element with the same key. */
  lemma {:induction false} InsertStable<T>(x: T, s: seq<T>, key: T -> real, v: real)
    requires SortedBy(s, key)
    ensures EqualKeys(Insert(x, s, key), key, v) == EqualKeys(s, key, v) + (if key(x) == v then [x] else [])
  {
    if s == [] {
      assert [x][1..] == [];
    } else if key(x) < key(s[0]) {
      assert ([x] + s)[1..] == s;
      if key(x) == v {
        EqualKeysAbove(s, key, v);
      }
    } else {
      SortedTail(s, key);
      InsertStable(x, s[1..], key, v);
      assert ([s[0]] + Insert(x, s[1..], key))[1..] == Insert(x, s[1..], key);
    }
  }

  /** `OrderBy` is stable: elements with equal keys keep their input order. */
  lemma {:induction false} SortByStable<T>(s: seq<T>, key: T -> real, v: real)
    ensures EqualKeys(SortBy(s, key), key, v) == EqualKeys(s, key, v)
    decreases |s|
  {
    if s != [] {
      var init, last := s[..|s| - 1], s[|s| - 1];
      var sorted := SortBy(init, key);
      assert SortBy(s, key) == Insert(last, sorted, key);
      SortByStable(init, key, v);
      InsertStable(last, sorted, key, v);
      SnocSplit(s);
      EqualKeysSnoc(init, last, key, v);
    }
  }

  lemma SortedHeadIsLeast<T>(a: seq<T>, key: T -> real, x: T)
    requires SortedBy(a, key) && x in a
    ensures key(a[0]) <= key(x)
  {
    var i :| 0 <= i < |a| && a[i] == x;
    if i > 0 {
      assert key(a[0]) <= key(a[i]);
    }
  }

  lemma SortedTail<T>(a: seq<T>, key: T -> real)
    requires SortedBy(a, key) && a != []
    ensures SortedBy(a[1..], key)
  {
  }

  lemma TailsAgree<T>(a: seq<T>, b: seq<T>, key: T -> real)
    requires a != [] && b != [] && a[0] == b[0]
    requires multiset(a) == multiset(b) && KeyInjective(multiset(a), key)
    ensures multiset(a[1..]) == multiset(b[1..]) && KeyInjective(multiset(a[1..]), key)
  {
    assert a == [a[0]] + a[1..];
    assert b == [b[0]] + b[1..];
    assert multiset(a[1..]) <= multiset(a);
  }

  /** Two sorted arrangements of the same elements start alike when no two different elements share a key. */
  lemma HeadsAgree<T>(a: seq<T>, b: seq<T>, key: T -> real)
    requires a != [] && b != [] && SortedBy(a, key) && SortedBy(b, key)
    requires multiset(a) == multiset(b) && KeyInjective(multiset(a), key)
    ensures a[0] == b[0]
  {
    assert a[0] in multiset(a) && b[0] in multiset(b);
    SortedHeadIsLeast(a, key, b[0]);
    SortedHeadIsLeast(b, key, a[0]);
  }

  /** Two sorted arrangements of the same elements agree when no two different elements share a key. */
  lemma {:induction false} SortedArrangementUnique<T>(a: seq<T>, b: seq<T>, key: T -> real)
    requires SortedBy(a, key) && SortedBy(b, key)
    requires multiset(a) == multiset(b) && KeyInjective(multiset(a), key)
    ensures a == b
    decreases |a|
  {
    assert |a| == |multiset(a)| == |multiset(b)| == |b|;
    if a != [] {
      HeadsAgree(a, b, key);
      TailsAgree(a, b, key);
      SortedTail(a, key);
      SortedTail(b, key);
      SortedArrangementUnique(a[1..], b[1..], key);
      SameHeadSameTail(a, b);
    }
  }

  lemma SameHeadSameTail<T>(a: seq<T>, b: seq<T>)
    requires a != [] && b != [] && a[0] == b[0] && a[1..] == b[1..]
    ensures a == b
  {
    assert a == [a[0]] + a[1..];
    assert b == [b[0]] + b[1..];
  }

  /** The result of `SortBy` does not depend on the order of its input when keys identify elements. */
  lemma SortByIgnoresInputOrder<T>(x: seq<T>, y: seq<T>, key: T -> real)
    requires multiset(x) == multiset(y) && KeyInjective(multiset(x), key)
    ensures SortBy(x, key) == SortBy(y, key)
  {
    SortedArrangementUnique(SortBy(x, key), SortBy(y, key), key);
  }
}
