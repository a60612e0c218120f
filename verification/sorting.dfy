/**
 * The stable sort both tables rely on (`Array.prototype.sort` is stable):
 * a specification function SortBy, its properties (permutation, order,
 * stability, the two directions being mirror images), and the in-place
 * array sort proved to compute it.
 */
module Sorting {
  import opened Records

  /**
   * Inserts `x` into the sorted `t` after every element that may stand
   * before it, so that `x` lands behind the elements whose key equals its own.
   */
  function InsertLast(col: Column, dir: Direction, t: seq<Record>, x: Record): (r: seq<Record>)
    ensures |r| == |t| + 1
    decreases |t|
  {
    if |t| == 0 || InOrder(col, dir, t[|t| - 1], x) then t + [x]
    else InsertLast(col, dir, t[..|t| - 1], x) + [t[|t| - 1]]
  }

  /** The table's stable sort by `col` in direction `dir`, as insertion sort from left to right. */
  function SortBy(col: Column, dir: Direction, s: seq<Record>): (r: seq<Record>)
    ensures |r| == |s|
    decreases |s|
  {
    if |s| == 0 then []
    else InsertLast(col, dir, SortBy(col, dir, s[..|s| - 1]), s[|s| - 1])
  }

  lemma {:induction false} InsertLastPermutes(col: Column, dir: Direction, t: seq<Record>, x: Record)
    ensures multiset(InsertLast(col, dir, t, x)) == multiset(t) + multiset{x}
    decreases |t|
  {
    if |t| > 0 && !InOrder(col, dir, t[|t| - 1], x) {
      InsertLastPermutes(col, dir, t[..|t| - 1], x);
      assert t == t[..|t| - 1] + [t[|t| - 1]];
    }
  }

  /** The sorted table holds exactly the rows it was given, each as often as before. */
  lemma {:induction false} SortByPermutes(col: Column, dir: Direction, s: seq<Record>)
    ensures multiset(SortBy(col, dir, s)) == multiset(s)
    decreases |s|
  {
    if |s| > 0 {
      SortByPermutes(col, dir, s[..|s| - 1]);
      InsertLastPermutes(col, dir, SortBy(col, dir, s[..|s| - 1]), s[|s| - 1]);
      assert s == s[..|s| - 1] + [s[|s| - 1]];
    }
  }

  /** Every adjacent pair is in order. */
  ghost predicate Ordered(col: Column, dir: Direction, s: seq<Record>)
  {
    forall i :: 0 <= i < |s| - 1 ==> InOrder(col, dir, s[i], s[i + 1])
  }

  /** The elements of `s` whose column value is `k`, in the order `s` has them. */
  function KeyClass(col: Column, s: seq<Record>, k: Key): (r: seq<Record>)
    ensures forall i :: 0 <= i < |r| ==> KeyOf(col, r[i]) == k
    decreases |s|
  {
    if |s| == 0 then []
    else KeyClass(col, s[..|s| - 1], k) + (if KeyOf(col, s[|s| - 1]) == k then [s[|s| - 1]] else [])
  }

  /** The class of `k` keeps every record with value `k`, as often as `s` has it, and no other record. */
  lemma {:induction false} KeyClassCount(col: Column, s: seq<Record>, k: Key, x: Record)
    ensures multiset(KeyClass(col, s, k))[x] == if KeyOf(col, x) == k then multiset(s)[x] else 0
    decreases |s|
  {
    if |s| > 0 {
      var front, last := s[..|s| - 1], s[|s| - 1];
      KeyClassCount(col, front, k, x);
      assert s == front + [last];
      assert multiset(s) == multiset(front) + multiset{last};
      var tail := if KeyOf(col, last) == k then [last] else [];
      assert KeyClass(col, s, k) == KeyClass(col, front, k) + tail;
      assert multiset(KeyClass(col, s, k)) == multiset(KeyClass(col, front, k)) + multiset(tail);
    }
  }

  lemma InsertLastLast(col: Column, dir: Direction, t: seq<Record>, x: Record)
    ensures var r := InsertLast(col, dir, t, x);
      r[|r| - 1] == x || (|t| > 0 && r[|r| - 1] == t[|t| - 1] && !InOrder(col, dir, t[|t| - 1], x))
  {
  }

  lemma {:induction false} InsertLastOrdered(col: Column, dir: Direction, t: seq<Record>, x: Record)
    requires Ordered(col, dir, t)
    ensures Ordered(col, dir, InsertLast(col, dir, t, x))
    decreases |t|
  {
    if |t| == 0 || InOrder(col, dir, t[|t| - 1], x) {
    } else {
      var t', last := t[..|t| - 1], t[|t| - 1];
      InsertLastOrdered(col, dir, t', x);
      var u := InsertLast(col, dir, t', x);
      InsertLastLast(col, dir, t', x);
      CompareAntisymmetric(col, dir, last, x);
      assert InOrder(col, dir, u[|u| - 1], last);
    }
  }

  /** The sort puts every adjacent pair in order. */
  lemma {:induction false} SortByOrdered(col: Column, dir: Direction, s: seq<Record>)
    ensures Ordered(col, dir, SortBy(col, dir, s))
    decreases |s|
  {
    if |s| > 0 {
      SortByOrdered(col, dir, s[..|s| - 1]);
      InsertLastOrdered(col, dir, SortBy(col, dir, s[..|s| - 1]), s[|s| - 1]);
    }
  }

  lemma KeyClassSnoc(col: Column, s: seq<Record>, y: Record, k: Key)
    ensures KeyClass(col, s + [y], k) == KeyClass(col, s, k) + (if KeyOf(col, y) == k then [y] else [])
  {
    assert (s + [y])[..|s|] == s;
  }

  lemma {:induction false} InsertLastStable(col: Column, dir: Direction, t: seq<Record>, x: Record, k: Key)
    ensures KeyClass(col, InsertLast(col, dir, t, x), k) == KeyClass(col, t, k) + (if KeyOf(col, x) == k then [x] else [])
    decreases |t|
  {
    if |t| == 0 || InOrder(col, dir, t[|t| - 1], x) {
      KeyClassSnoc(col, t, x, k);
    } else {
      var t', last := t[..|t| - 1], t[|t| - 1];
      var u := InsertLast(col, dir, t', x);
      var xs := if KeyOf(col, x) == k then [x] else [];
      var ls := if KeyOf(col, last) == k then [last] else [];
      calc {
        KeyClass(col, InsertLast(col, dir, t, x), k);
        KeyClass(col, u + [last], k);
        { KeyClassSnoc(col, u, last, k); }
        KeyClass(col, u, k) + ls;
        { InsertLastStable(col, dir, t', x, k); }
        KeyClass(col, t', k) + xs + ls;
        { CompareZeroIffSameKey(col, dir, last, x);
          assert xs == [] || ls == []; }
        KeyClass(col, t', k) + ls + xs;
        { assert t == t' + [last];
          KeyClassSnoc(col, t', last, k); }
        KeyClass(col, t, k) + xs;
      }
    }
  }

  /**
   * Stability: for every column value `k`, the records carrying `k` appear in
   * the sorted table in the order they had before sorting.
   */
  lemma {:induction false} SortByStable(col: Column, dir: Direction, s: seq<Record>, k: Key)
    ensures KeyClass(col, SortBy(col, dir, s), k) == KeyClass(col, s, k)
    decreases |s|
  {
    if |s| > 0 {
      SortByStable(col, dir, s[..|s| - 1], k);
      InsertLastStable(col, dir, SortBy(col, dir, s[..|s| - 1]), s[|s| - 1], k);
    }
  }

  /** Ordered adjacent pairs give an ordered table: every earlier row may stand before every later one. */
  lemma {:induction false} OrderedPairwise(col: Column, dir: Direction, s: seq<Record>)
    requires Ordered(col, dir, s)
    ensures forall i, j :: 0 <= i < j < |s| ==> InOrder(col, dir, s[i], s[j])
    decreases |s|
  {
    if |s| > 1 {
      var s' := s[..|s| - 1];
      assert Ordered(col, dir, s');
      OrderedPairwise(col, dir, s');
      forall i | 0 <= i < |s| - 1 ensures InOrder(col, dir, s[i], s[|s| - 1]) {
        if i < |s| - 2 {
          assert InOrder(col, dir, s'[i], s'[|s| - 2]);
          InOrderTransitive(col, dir, s[i], s[|s| - 2], s[|s| - 1]);
        }
      }
    }
  }

  /** No two different elements of `s` share a value in column `col`. */
  ghost predicate KeysDistinct(col: Column, s: seq<Record>)
  {
    forall a, b :: a in s && b in s && KeyOf(col, a) == KeyOf(col, b) ==> a == b
  }

  /** Two ordered arrangements of one multiset with distinct keys start with the same element. */
  lemma HeadsAgree(col: Column, dir: Direction, p: seq<Record>, q: seq<Record>)
    requires |p| > 0 && |q| > 0
    requires Ordered(col, dir, p) && Ordered(col, dir, q)
    requires multiset(p) == multiset(q)
    requires KeysDistinct(col, p)
    ensures p[0] == q[0]
  {
    assert p[0] in multiset(q) && q[0] in multiset(p);
    var i :| 0 <= i < |p| && p[i] == q[0];
    var j :| 0 <= j < |q| && q[j] == p[0];
    assert InOrder(col, dir, p[0], q[0]) by {
      if i > 0 {
        OrderedPairwise(col, dir, p);
      } else {
        CompareZeroIffSameKey(col, dir, p[0], p[0]);
      }
    }
    assert InOrder(col, dir, q[0], p[0]) by {
      if j > 0 {
        OrderedPairwise(col, dir, q);
      } else {
        CompareZeroIffSameKey(col, dir, q[0], q[0]);
      }
    }
    CompareAntisymmetric(col, dir, p[0], q[0]);
    CompareZeroIffSameKey(col, dir, p[0], q[0]);
  }

  lemma MultisetTails(p: seq<Record>, q: seq<Record>)
    requires |p| > 0 && |q| > 0 && p[0] == q[0]
    requires multiset(p) == multiset(q)
    ensures multiset(p[1..]) == multiset(q[1..])
  {
    assert p == [p[0]] + p[1..] && q == [q[0]] + q[1..];
    assert multiset(p) == multiset{p[0]} + multiset(p[1..]);
    assert multiset(q) == multiset{p[0]} + multiset(q[1..]);
    assert multiset(p[1..]) == multiset(p) - multiset{p[0]};
    assert multiset(q[1..]) == multiset(q) - multiset{p[0]};
  }

  /** With distinct keys, an ordering and a multiset determine the sequence. */
  lemma {:induction false} OrderedUnique(col: Column, dir: Direction, p: seq<Record>, q: seq<Record>)
    requires Ordered(col, dir, p) && Ordered(col, dir, q)
    requires multiset(p) == multiset(q)
    requires KeysDistinct(col, p)
    ensures p == q
    decreases |p|
  {
    assert |q| == |multiset(q)| == |p|;
    if |p| > 0 {
      HeadsAgree(col, dir, p, q);
      MultisetTails(p, q);
      assert Ordered(col, dir, p[1..]) && Ordered(col, dir, q[1..]);
      assert KeysDistinct(col, p[1..]) by {
        forall a | a in p[1..] ensures a in p { }
      }
      OrderedUnique(col, dir, p[1..], q[1..]);
      assert p == [p[0]] + p[1..] && q == [q[0]] + q[1..];
    }
  }

  function Reverse(s: seq<Record>): (r: seq<Record>)
    ensures |r| == |s|
    ensures forall i :: 0 <= i < |s| ==> r[i] == s[|s| - 1 - i]
    ensures multiset(r) == multiset(s)
    decreases |s|
  {
    if |s| == 0 then []
    else
      assert s == [s[0]] + s[1..];
      Reverse(s[1..]) + [s[0]]
  }

  /**
   * For a column whose values are all different, the ascending table is the
   * descending table read backwards.
   */
  lemma AscIsReversedDesc(col: Column, s: seq<Record>)
    requires KeysDistinct(col, s)
    ensures SortBy(col, Asc, s) == Reverse(SortBy(col, Desc, s))
  {
    var up, down := SortBy(col, Asc, s), SortBy(col, Desc, s);
    SortByPermutes(col, Asc, s);
    SortByPermutes(col, Desc, s);
    SortByOrdered(col, Asc, s);
    SortByOrdered(col, Desc, s);
    var rev := Reverse(down);
    forall i | 0 <= i < |rev| - 1 ensures InOrder(col, Asc, rev[i], rev[i + 1]) {
      CompareFlipDirection(col, rev[i], rev[i + 1]);
    }
    forall a, b | a in up && b in up ensures a in s && b in s {
      assert a in multiset(up) && b in multiset(up);
    }
    OrderedUnique(col, Asc, up, rev);
  }

  /**
   * One step of the insertion sort: `a[..i]` is sorted, and `a[i]` is moved
   * left past the elements that must follow it.
   */
  method InsertAt(a: array<Record>, i: int, col: Column, dir: Direction)
    requires 0 <= i < a.Length
    modifies a
    ensures a[..i + 1] == InsertLast(col, dir, old(a[..i]), old(a[i]))
    ensures a[i + 1..] == old(a[i + 1..])
  {
    var x := a[i];
    ghost var t := a[..i];
    var j := i;
    while j > 0 && !InOrder(col, dir, a[j - 1], x)
      invariant 0 <= j <= i
      invariant forall k :: 0 <= k < j ==> a[k] == t[k]
      invariant forall k :: j < k <= i ==> a[k] == t[k - 1]
      invariant forall k :: i < k < a.Length ==> a[k] == old(a[k])
      invariant forall k :: j <= k < i ==> !InOrder(col, dir, t[k], x)
    {
      a[j] := a[j - 1];
      j := j - 1;
    }
    a[j] := x;
    PlacedAt(a[..], t, x, j);
    InsertLastAt(col, dir, t, x, j);
    assert a[i + 1..] == old(a[i + 1..]);
  }

  /** The array after the shifting loop: `t` with `x` placed at position `j`. */
  lemma PlacedAt(s: seq<Record>, t: seq<Record>, x: Record, j: int)
    requires 0 <= j <= |t| < |s|
    requires forall k :: 0 <= k < j ==> s[k] == t[k]
    requires s[j] == x
    requires forall k :: j < k <= |t| ==> s[k] == t[k - 1]
    ensures s[..|t| + 1] == t[..j] + [x] + t[j..]
  {
    var r := t[..j] + [x] + t[j..];
    forall k | 0 <= k <= |t| ensures s[k] == r[k] {
      if k < j {
        assert r[k] == t[k];
      } else if j < k {
        assert r[k] == t[k - 1];
      }
    }
  }

  /**
   * Where InsertLast puts `x`: right behind the last element that may stand
   * before it, when every later element must follow it.
   */
  lemma {:induction false} InsertLastAt(col: Column, dir: Direction, t: seq<Record>, x: Record, j: int)
    requires 0 <= j <= |t|
    requires j == 0 || InOrder(col, dir, t[j - 1], x)
    requires forall k :: j <= k < |t| ==> !InOrder(col, dir, t[k], x)
    ensures InsertLast(col, dir, t, x) == t[..j] + [x] + t[j..]
    decreases |t|
  {
    if j < |t| {
      var t', last := t[..|t| - 1], t[|t| - 1];
      calc {
        InsertLast(col, dir, t, x);
        { assert !InOrder(col, dir, last, x); }
        InsertLast(col, dir, t', x) + [last];
        { InsertLastAt(col, dir, t', x, j); }
        t'[..j] + [x] + t'[j..] + [last];
        { assert t'[..j] == t[..j];
          assert t'[j..] + [last] == t[j..]; }
        t[..j] + [x] + t[j..];
      }
    } else {
      assert t[..j] == t;
    }
  }

  /** Sorting one more element of the input inserts it into the sorted prefix. */
  lemma SortByPrefix(col: Column, dir: Direction, s: seq<Record>, i: int)
    requires 0 <= i < |s|
    ensures SortBy(col, dir, s[..i + 1]) == InsertLast(col, dir, SortBy(col, dir, s[..i]), s[i])
  {
    assert s[..i + 1][..i] == s[..i];
  }

  /** Sorts `a` in place by insertion, as `Array.prototype.sort` does with the table's comparator. */
  method SortInPlace(a: array<Record>, col: Column, dir: Direction)
    modifies a
    ensures a[..] == SortBy(col, dir, old(a[..]))
  {
    ghost var input := a[..];
    var i := 0;
    while i < a.Length
      invariant 0 <= i <= a.Length
      invariant a[..i] == SortBy(col, dir, input[..i])
      invariant a[i..] == input[i..]
    {
      SortByPrefix(col, dir, input, i);
      assert a[i + 1..] == a[i..][1..] == input[i + 1..];
      InsertAt(a, i, col, dir);
      i := i + 1;
    }
    assert input[..a.Length] == input;
  }
}
