/** Sorted lists of distinct elements under any total order, and the lexicographic order of sequences. */
module Sorting {

  ghost predicate TotalOrder<T(!new)>(less: (T, T) -> bool) {
    && (forall a :: !less(a, a))
    && (forall a, b :: a == b || less(a, b) || less(b, a))
    && (forall a, b, c :: less(a, b) && less(b, c) ==> less(a, c))
  }

  predicate Ascending<T>(s: seq<T>, less: (T, T) -> bool) { forall i, j :: 0 <= i < j < |s| ==> less(s[i], s[j]) }

  predicate Distinct<T(==)>(s: seq<T>) { forall i, j :: 0 <= i < j < |s| ==> s[i] != s[j] }

  function Elements<T(==)>(s: seq<T>): set<T> { set x | x in s }

  lemma ElementsSplit<T>(s: seq<T>)
    requires s != []
    ensures Elements(s) == {s[0]} + Elements(s[1..])
  {
    assert s == [s[0]] + s[1..];
  }

  lemma ElementsPrepend<T>(x: T, s: seq<T>)
    ensures Elements([x] + s) == {x} + Elements(s)
  {
  }

  lemma PrependAscends<T>(x: T, s: seq<T>, less: (T, T) -> bool)
    requires Ascending(s, less) && forall y :: y in Elements(s) ==> less(x, y)
    ensures Ascending([x] + s, less)
  {
    assert forall k :: 0 <= k < |s| ==> s[k] in Elements(s);
  }

  lemma HeadIsLeast<T>(s: seq<T>, less: (T, T) -> bool)
    requires s != [] && Ascending(s, less)
    ensures Ascending(s[1..], less) && forall y :: y in Elements(s[1..]) ==> less(s[0], y)
  {
  }

  function Insert<T(==,!new)>(s: seq<T>, x: T, less: (T, T) -> bool): (r: seq<T>)
    requires TotalOrder(less) && Ascending(s, less) && x !in s
    ensures Ascending(r, less) && Elements(r) == Elements(s) + {x}
  {
    if s == [] then [x]
    else
      HeadIsLeast(s, less);
      ElementsSplit(s);
      if less(x, s[0]) then
        PrependAscends(x, s, less);
        ElementsPrepend(x, s);
        [x] + s
      else
        var rest := Insert(s[1..], x, less);
        PrependAscends(s[0], rest, less);
        ElementsPrepend(s[0], rest);
        [s[0]] + rest
  }

  /** The elements in ascending order. */
  function Sorted<T(==,!new)>(s: seq<T>, less: (T, T) -> bool): (r: seq<T>)
    requires TotalOrder(less) && Distinct(s)
    ensures Ascending(r, less) && Elements(r) == Elements(s)
  {
    if s == [] then []
    else
      var rest := Sorted(s[1..], less);
      ElementsSplit(s);
      assert s[0] !in s[1..];
      assert s[0] !in Elements(rest);
      Insert(rest, s[0], less)
  }

  /** A set in ascending order. */
  ghost function Ordered<T(!new)>(s: set<T>, less: (T, T) -> bool): (r: seq<T>)
    requires TotalOrder(less)
    ensures Ascending(r, less) && Elements(r) == s
    decreases |s|
  {
    if s == {} then []
    else
      var x :| x in s;
      var rest := Ordered(s - {x}, less);
      assert x !in Elements(rest);
      Insert(rest, x, less)
  }

  /** An ascending list is determined by its elements. */
  lemma {:induction false} AscendingUnique<T(!new)>(s: seq<T>, r: seq<T>, less: (T, T) -> bool)
    requires TotalOrder(less) && Ascending(s, less) && Ascending(r, less) && Elements(s) == Elements(r)
    ensures s == r
    decreases |s|
  {
    assert r != [] ==> r[0] in Elements(r);
    if s == [] {
      assert Elements(s) == {};
    } else {
      assert s[0] in Elements(r);
      ElementsSplit(s);
      ElementsSplit(r);
      HeadIsLeast(s, less);
      HeadIsLeast(r, less);
      assert s[0] == r[0];
      assert Elements(s[1..]) == Elements(s) - {s[0]} && Elements(r[1..]) == Elements(r) - {r[0]};
      AscendingUnique(s[1..], r[1..], less);
      assert s == [s[0]] + s[1..] && r == [r[0]] + r[1..];
    }
  }

  lemma SortedIsOrdered<T(!new)>(s: seq<T>, less: (T, T) -> bool)
    requires TotalOrder(less) && Distinct(s)
    ensures Sorted(s, less) == Ordered(Elements(s), less)
  {
    AscendingUnique(Sorted(s, less), Ordered(Elements(s), less), less);
  }

  /** List a set in ascending order. */
  method List<T(==,!new)>(elements: set<T>, less: (T, T) -> bool) returns (r: seq<T>)
    requires TotalOrder(less)
    ensures r == Ordered(elements, less)
  {
    r := [];
    var rest := elements;
    while rest != {}
      invariant rest <= elements && Ascending(r, less) && Elements(r) == elements - rest
      decreases |rest|
    {
      var x :| x in rest;
      assert x !in Elements(r);
      r := Insert(r, x, less);
      rest := rest - {x};
    }
    AscendingUnique(r, Ordered(elements, less), less);
  }

  // --- Lexicographic order ---

  predicate LexLess<T(==)>(a: seq<T>, b: seq<T>, less: (T, T) -> bool)
    decreases |a|
  {
    b != [] && (a == [] || less(a[0], b[0]) || (a[0] == b[0] && LexLess(a[1..], b[1..], less)))
  }

  lemma {:induction false} LexIrreflexive<T(!new)>(a: seq<T>, less: (T, T) -> bool)
    requires TotalOrder(less)
    ensures !LexLess(a, a, less)
    decreases |a|
  {
    if a != [] { LexIrreflexive(a[1..], less); }
  }

  lemma {:induction false} LexTotal<T(!new)>(a: seq<T>, b: seq<T>, less: (T, T) -> bool)
    requires TotalOrder(less)
    ensures a == b || LexLess(a, b, less) || LexLess(b, a, less)
    decreases |a|
  {
    if a != [] && b != [] && a[0] == b[0] {
      LexTotal(a[1..], b[1..], less);
      assert a == [a[0]] + a[1..] && b == [b[0]] + b[1..];
    }
  }

  lemma {:induction false} LexTransitive<T(!new)>(a: seq<T>, b: seq<T>, c: seq<T>, less: (T, T) -> bool)
    requires TotalOrder(less) && LexLess(a, b, less) && LexLess(b, c, less)
    ensures LexLess(a, c, less)
    decreases |a|
  {
    if a != [] && a[0] == b[0] && b[0] == c[0] {
      assert LexLess(a[1..], b[1..], less) && LexLess(b[1..], c[1..], less);
      LexTransitive(a[1..], b[1..], c[1..], less);
    }
  }
}
