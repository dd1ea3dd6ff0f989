/** Stable sorting by a key order (`sort_by`, `sort`), and what a sorted list is determined by. */
module Sorting {

  /** A total preorder: any two elements compare, and comparing is transitive. */
  ghost predicate Ordering<T(!new)>(le: (T, T) -> bool)
  {
    && (forall a, b :: le(a, b) || le(b, a))
    && (forall a, b, c :: le(a, b) && le(b, c) ==> le(a, c))
  }

  ghost predicate Ordered<T>(s: seq<T>, le: (T, T) -> bool)
  {
    forall i, j :: 0 <= i < j < |s| ==> le(s[i], s[j])
  }

  /** After every element that is not greater, so equal elements keep their order. */
  function Insert<T>(x: T, s: seq<T>, le: (T, T) -> bool): seq<T>
  {
    if s == [] then [x] else if le(s[|s| - 1], x) then s + [x] else Insert(x, s[..|s| - 1], le) + [s[|s| - 1]]
  }

  function Sorted<T>(s: seq<T>, le: (T, T) -> bool): seq<T>
  {
    if s == [] then [] else Insert(s[|s| - 1], Sorted(s[..|s| - 1], le), le)
  }

  lemma {:induction false} InsertPermutes<T>(x: T, s: seq<T>, le: (T, T) -> bool)
    ensures multiset(Insert(x, s, le)) == multiset(s) + multiset{x}
  {
    if s != [] {
      var n := |s| - 1;
      assert s == s[..n] + [s[n]];
      if !le(s[n], x) { InsertPermutes(x, s[..n], le); }
    }
  }

  lemma {:induction false} InsertOrdered<T(!new)>(x: T, s: seq<T>, le: (T, T) -> bool)
    requires Ordering(le) && Ordered(s, le)
    ensures Ordered(Insert(x, s, le), le)
  {
    if s != [] {
      var n := |s| - 1;
      if le(s[n], x) {
        assert forall i :: 0 <= i < n ==> le(s[i], s[n]);
      } else {
        InsertOrdered(x, s[..n], le);
        InsertPermutes(x, s[..n], le);
        var t := Insert(x, s[..n], le);
        forall i | 0 <= i < |t| ensures le(t[i], s[n]) {
          assert t[i] in multiset(t);
          assert t[i] in s[..n] || t[i] == x;
        }
      }
    }
  }

  lemma {:induction false} SortedPermutes<T>(s: seq<T>, le: (T, T) -> bool)
    ensures multiset(Sorted(s, le)) == multiset(s)
  {
    if s != [] {
      var n := |s| - 1;
      assert s == s[..n] + [s[n]];
      SortedPermutes(s[..n], le);
      InsertPermutes(s[n], Sorted(s[..n], le), le);
    }
  }

  lemma {:induction false} SortedOrdered<T(!new)>(s: seq<T>, le: (T, T) -> bool)
    requires Ordering(le)
    ensures Ordered(Sorted(s, le), le)
  {
    if s != [] {
      var n := |s| - 1;
      SortedOrdered(s[..n], le);
      InsertOrdered(s[n], Sorted(s[..n], le), le);
    }
  }

  lemma SameMembers<T>(s: seq<T>, t: seq<T>)
    requires multiset(s) == multiset(t)
    ensures |s| == |t| && forall x :: x in s <==> x in t
  {
    assert |s| == |multiset(s)| && |t| == |multiset(t)|;
    forall x ensures x in s <==> x in t { assert x in s <==> x in multiset(s); assert x in t <==> x in multiset(t); }
  }

  /** No two different elements compare equal both ways. */
  ghost predicate Strict<T>(s: seq<T>, le: (T, T) -> bool)
  {
    forall x, y :: x in s && y in s && le(x, y) && le(y, x) ==> x == y
  }

  lemma LastIsMost<T(!new)>(s: seq<T>, le: (T, T) -> bool, x: T)
    requires Ordering(le) && Ordered(s, le) && x in s
    ensures le(x, s[|s| - 1])
  {
    var i :| 0 <= i < |s| && s[i] == x;
    assert le(x, x);
  }

  lemma DropLast<T>(s: seq<T>)
    requires s != []
    ensures s == s[..|s| - 1] + [s[|s| - 1]]
    ensures multiset(s[..|s| - 1]) == multiset(s) - multiset{s[|s| - 1]}
  {
    var n := |s| - 1;
    assert s == s[..n] + [s[n]];
    assert multiset(s) == multiset(s[..n]) + multiset{s[n]};
  }

  /** An ordered arrangement of given elements is unique, so sorting forgets the original order. */
  lemma {:induction false} OrderedUnique<T(!new)>(s: seq<T>, t: seq<T>, le: (T, T) -> bool)
    requires Ordering(le) && Ordered(s, le) && Ordered(t, le) && multiset(s) == multiset(t) && Strict(s, le)
    ensures s == t
    decreases |s|
  {
    hide Ordering;
    SameMembers(s, t);
    if s != [] {
      var n := |s| - 1;
      LastIsMost(t, le, s[n]);
      LastIsMost(s, le, t[n]);
      assert s[n] == t[n];
      DropLast(s);
      DropLast(t);
      assert Strict(s[..n], le);
      OrderedUnique(s[..n], t[..n], le);
    }
  }
}
