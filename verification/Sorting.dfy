/** Python's `sorted` under a strict order: an ascending permutation, and the only one. */
module Sorting {
  ghost predicate StrictOrder<T(!new)>(less: (T, T) -> bool) {
    && (forall x :: !less(x, x))
    && (forall x, y, z :: less(x, y) && less(y, z) ==> less(x, z))
  }

  predicate Ascending<T>(less: (T, T) -> bool, s: seq<T>) {
    forall i, j :: 0 <= i < j < |s| ==> less(s[i], s[j])
  }

  /** Any two elements at different places are ordered one way or the other. */
  predicate Comparable<T>(less: (T, T) -> bool, s: seq<T>) {
    forall i, j :: 0 <= i < j < |s| ==> less(s[i], s[j]) || less(s[j], s[i])
  }

  function Insert<T>(less: (T, T) -> bool, s: seq<T>, x: T): (r: seq<T>)
    ensures multiset(r) == multiset(s) + multiset{x}
    ensures |r| == |s| + 1
  {
    if s == [] || less(x, s[0]) then
      [x] + s
    else
      assert s == [s[0]] + s[1..];
      [s[0]] + Insert(less, s[1..], x)
  }

  function Sort<T>(less: (T, T) -> bool, s: seq<T>): (r: seq<T>)
    ensures multiset(r) == multiset(s)
    ensures |r| == |s|
  {
    if s == [] then []
    else
      assert s == s[..|s| - 1] + [s[|s| - 1]];
      Insert(less, Sort(less, s[..|s| - 1]), s[|s| - 1])
  }

  lemma {:induction false} SameMembers<T>(a: seq<T>, b: seq<T>)
    requires multiset(a) == multiset(b)
    ensures forall x :: x in a <==> x in b
  {
    assert forall x :: x in a <==> x in multiset(a);
    assert forall x :: x in b <==> x in multiset(b);
  }

  lemma {:induction false} InsertAscending<T(!new)>(less: (T, T) -> bool, s: seq<T>, x: T)
    requires StrictOrder(less) && Ascending(less, s) && forall k :: 0 <= k < |s| ==> less(x, s[k]) || less(s[k], x)
    ensures Ascending(less, Insert(less, s, x))
  {
    if s != [] && !less(x, s[0]) {
      InsertAscending(less, s[1..], x);
      var rest := Insert(less, s[1..], x);
      forall k | 0 <= k < |rest| ensures less(s[0], rest[k]) {
        assert rest[k] in multiset(rest);
        assert rest[k] == x || rest[k] in s[1..];
      }
    }
  }

  lemma {:induction false} SortAscending<T(!new)>(less: (T, T) -> bool, s: seq<T>)
    requires StrictOrder(less) && Comparable(less, s)
    ensures Ascending(less, Sort(less, s))
  {
    if s != [] {
      var n := |s| - 1;
      SortAscending(less, s[..n]);
      var rest := Sort(less, s[..n]);
      SameMembers(rest, s[..n]);
      forall k | 0 <= k < |rest| ensures less(s[n], rest[k]) || less(rest[k], s[n]) {
        assert rest[k] in s[..n];
      }
      InsertAscending(less, rest, s[n]);
    }
  }

  lemma {:induction false} AscendingTail<T(!new)>(less: (T, T) -> bool, a: seq<T>)
    requires StrictOrder(less) && Ascending(less, a) && a != []
    ensures forall x :: x in a[1..] <==> x in a && x != a[0]
    ensures forall x :: x in a ==> x == a[0] || less(a[0], x)
  {
    assert a == [a[0]] + a[1..];
  }

  /** Two ascending sequences with the same members are equal. */
  lemma {:induction false} AscendingUnique<T(!new)>(less: (T, T) -> bool, a: seq<T>, b: seq<T>)
    requires StrictOrder(less) && Ascending(less, a) && Ascending(less, b) && forall x :: x in a <==> x in b
    ensures a == b
  {
    assert a == [] || a[0] in b;
    assert b == [] || b[0] in a;
    if a != [] {
      AscendingTail(less, a);
      AscendingTail(less, b);
      AscendingUnique(less, a[1..], b[1..]);
      assert a == [a[0]] + a[1..] && b == [b[0]] + b[1..];
    }
  }

  /** The result does not depend on the order of the input. */
  lemma {:induction false} SortIsCanonical<T(!new)>(less: (T, T) -> bool, a: seq<T>, b: seq<T>)
    requires StrictOrder(less) && Comparable(less, a) && Comparable(less, b) && multiset(a) == multiset(b)
    ensures Sort(less, a) == Sort(less, b)
  {
    SortAscending(less, a);
    SortAscending(less, b);
    SameMembers(Sort(less, a), Sort(less, b));
    AscendingUnique(less, Sort(less, a), Sort(less, b));
  }
}
