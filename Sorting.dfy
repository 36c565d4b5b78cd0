/**
  Python's `list.sort` and numpy's `ndarray.sort`, as used by Aegean, are
  library calls.  They are modelled by one verified insertion sort; the
  lemma `SortedUnique` shows that, for an order that is total and
  antisymmetric on the elements, any sorted permutation is this one, so the
  model does not depend on which algorithm the library uses.
 */
module Sorting {

  ghost predicate TotalOn<T>(le: (T, T) -> bool, s: seq<T>)
  {
    forall a, b :: a in s && b in s ==> le(a, b) || le(b, a)
  }

  ghost predicate TransitiveOn<T>(le: (T, T) -> bool, s: seq<T>)
  {
    forall a, b, c :: a in s && b in s && c in s && le(a, b) && le(b, c) ==> le(a, c)
  }

  ghost predicate AntisymmetricOn<T>(le: (T, T) -> bool, s: seq<T>)
  {
    forall a, b :: a in s && b in s && le(a, b) && le(b, a) ==> a == b
  }

  predicate SortedBy<T>(le: (T, T) -> bool, s: seq<T>)
  {
    forall i, j :: 0 <= i < j < |s| ==> le(s[i], s[j])
  }

  /** Inserts `x` into the sorted sequence `s` in front of the first element it precedes. */
  function Insert<T>(le: (T, T) -> bool, x: T, s: seq<T>): (r: seq<T>)
    requires SortedBy(le, s)
    requires TotalOn(le, [x] + s) && TransitiveOn(le, [x] + s)
    ensures multiset(r) == multiset(s) + multiset{x}
    ensures SortedBy(le, r)
  {
    if s == [] then [x]
    else if le(x, s[0]) then
      InsertFront(le, x, s);
      [x] + s
    else
      OrderOnPart(le, [x] + s[1..], [x] + s);
      var tail := Insert(le, x, s[1..]);
      InsertBehind(le, x, s, tail);
      [s[0]] + tail
  }

  /** An order on a sequence is an order on every sequence drawn from it. */
  lemma OrderOnPart<T>(le: (T, T) -> bool, part: seq<T>, s: seq<T>)
    requires forall e :: e in part ==> e in s
    requires TotalOn(le, s) && TransitiveOn(le, s)
    ensures TotalOn(le, part) && TransitiveOn(le, part)
  {
  }

  lemma InsertFront<T>(le: (T, T) -> bool, x: T, s: seq<T>)
    requires s != [] && SortedBy(le, s) && le(x, s[0]) && TransitiveOn(le, [x] + s)
    ensures SortedBy(le, [x] + s)
  {
    forall j | 0 <= j < |s| ensures le(x, s[j]) {
      if j > 0 { assert s[0] in [x] + s && s[j] in [x] + s; }
    }
  }

  lemma InsertBehind<T>(le: (T, T) -> bool, x: T, s: seq<T>, tail: seq<T>)
    requires s != [] && SortedBy(le, s) && !le(x, s[0]) && TotalOn(le, [x] + s)
    requires multiset(tail) == multiset(s[1..]) + multiset{x} && SortedBy(le, tail)
    ensures multiset([s[0]] + tail) == multiset(s) + multiset{x}
    ensures SortedBy(le, [s[0]] + tail)
  {
    assert s == [s[0]] + s[1..];
    assert le(s[0], x) by { assert s[0] in [x] + s; }
    var r := [s[0]] + tail;
    forall j | 0 < j < |r| ensures le(s[0], r[j]) {
      assert r[j] in multiset(tail);
      assert r[j] == x || r[j] in s[1..];
      if r[j] != x {
        var k :| 0 <= k < |s[1..]| && s[1..][k] == r[j];
        assert s[k + 1] == r[j];
      }
    }
  }

  /** Sorts `s` so that `le` holds between every earlier and every later element. */
  function Sort<T>(le: (T, T) -> bool, s: seq<T>): (r: seq<T>)
    requires TotalOn(le, s) && TransitiveOn(le, s)
    ensures multiset(r) == multiset(s)
    ensures SortedBy(le, r)
  {
    if s == [] then []
    else
      assert s == [s[0]] + s[1..];
      var rest := Sort(le, s[1..]);
      assert forall e :: e in [s[0]] + rest ==> e in s by {
        forall e | e in [s[0]] + rest ensures e in s {
          if e != s[0] { assert e in multiset(rest); }
        }
      }
      Insert(le, s[0], rest)
  }

  /** Two sorted sequences with the same elements are equal, for an order
      that is antisymmetric on those elements. */
  lemma {:induction false} SortedUnique<T>(le: (T, T) -> bool, a: seq<T>, b: seq<T>)
    requires multiset(a) == multiset(b)
    requires SortedBy(le, a) && SortedBy(le, b)
    requires AntisymmetricOn(le, a)
    ensures a == b
  {
    if a != [] {
      assert b != [] by {
        assert |a| == |multiset(a)| == |multiset(b)| == |b|;
      }
      HeadsEqual(le, a, b);
      assert a[1..] == b[1..] by {
        DropHead(le, a);
        DropHead(le, b);
        SortedUnique(le, a[1..], b[1..]);
      }
      assert a == [a[0]] + a[1..] && b == [b[0]] + b[1..];
    }
  }

  /** What dropping the head of a non-empty sequence keeps. */
  lemma DropHead<T>(le: (T, T) -> bool, a: seq<T>)
    requires a != []
    ensures multiset(a[1..]) == multiset(a) - multiset{a[0]}
    ensures SortedBy(le, a) ==> SortedBy(le, a[1..])
    ensures AntisymmetricOn(le, a) ==> AntisymmetricOn(le, a[1..])
  {
    assert a == [a[0]] + a[1..];
    forall e | e in a[1..] ensures e in a { }
  }

  lemma HeadsEqual<T>(le: (T, T) -> bool, a: seq<T>, b: seq<T>)
    requires a != [] && b != [] && multiset(a) == multiset(b)
    requires SortedBy(le, a) && SortedBy(le, b)
    requires AntisymmetricOn(le, a)
    ensures a[0] == b[0]
  {
    assert a[0] in multiset(b) && b[0] in multiset(a);
    var i :| 0 <= i < |b| && b[i] == a[0];
    var j :| 0 <= j < |a| && a[j] == b[0];
    if i > 0 && j > 0 {
      assert le(b[0], b[i]);
      assert le(a[0], a[j]);
      assert a[0] in a && b[0] in a;
    }
  }
}
