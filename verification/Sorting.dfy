/** Sorting by a comparison function, as the library sorts of the repository do it.
    Every list the repository sorts holds distinct elements under a comparison that is
    total on them, so the sorted list is unique and no map iteration order can show. */
module Sorting {

  ghost predicate Distinct<T>(s: seq<T>) {
    forall i, j | 0 <= i < j < |s| :: s[i] != s[j]
  }

  function Elements<T>(s: seq<T>): set<T> {
    set x | x in s
  }

  /** `less` is a strict total order on the elements of `s`. */
  ghost predicate TotalOn<T(!new)>(less: (T, T) -> bool, s: set<T>) {
    && (forall a | a in s :: !less(a, a))
    && (forall a, b | a in s && b in s && a != b :: less(a, b) || less(b, a))
    && (forall a, b, c | a in s && b in s && c in s && less(a, b) && less(b, c) :: less(a, c))
  }

  /** Strictly ascending. */
  ghost predicate Ascending<T>(less: (T, T) -> bool, s: seq<T>) {
    forall i, j | 0 <= i < j < |s| :: less(s[i], s[j])
  }

  function Insert<T>(less: (T, T) -> bool, x: T, s: seq<T>): (r: seq<T>)
    ensures |r| == |s| + 1
    ensures multiset(r) == multiset(s) + multiset{x}
  {
    if s == [] then
      [x]
    else if less(x, s[0]) then
      [x] + s
    else
      assert s == [s[0]] + s[1..];
      [s[0]] + Insert(less, x, s[1..])
  }

  function Sort<T>(less: (T, T) -> bool, s: seq<T>): (r: seq<T>)
    ensures |r| == |s|
    ensures multiset(r) == multiset(s)
  {
    if s == [] then
      []
    else
      assert s == s[..|s| - 1] + [s[|s| - 1]];
      Insert(less, s[|s| - 1], Sort(less, s[..|s| - 1]))
  }

  lemma SortKeepsElements<T>(less: (T, T) -> bool, s: seq<T>)
    ensures Elements(Sort(less, s)) == Elements(s)
  {
    var r := Sort(less, s);
    assert forall x :: x in r <==> x in multiset(r);
    assert forall x :: x in s <==> x in multiset(s);
  }

  lemma PrependAscending<T>(less: (T, T) -> bool, x: T, s: seq<T>)
    requires Ascending(less, s) && forall y | y in s :: less(x, y)
    ensures Ascending(less, [x] + s)
  {
    var r := [x] + s;
    forall i, j | 0 <= i < j < |r| ensures less(r[i], r[j]) {
      assert r[j] == s[j - 1] && s[j - 1] in s;
    }
  }

  lemma {:induction false} InsertAscending<T(!new)>(less: (T, T) -> bool, x: T, s: seq<T>, all: set<T>)
    requires TotalOn(less, all) && x in all && (forall y | y in s :: y in all && y != x)
    requires Ascending(less, s)
    ensures Ascending(less, Insert(less, x, s))
    ensures forall y :: y in Insert(less, x, s) ==> y in s || y == x
  {
    if s != [] {
      assert s[0] in s;
      if less(x, s[0]) {
        forall y | y in s ensures less(x, y) {
          var k :| 0 <= k < |s| && s[k] == y;
          assert k == 0 || less(s[0], y);
        }
        PrependAscending(less, x, s);
      } else {
        InsertAscending(less, x, s[1..], all);
        forall y | y in Insert(less, x, s[1..]) ensures less(s[0], y) {
          assert y == x || y in s[1..];
        }
        PrependAscending(less, s[0], Insert(less, x, s[1..]));
      }
    }
  }

  lemma {:induction false} SortAscending<T(!new)>(less: (T, T) -> bool, s: seq<T>)
    requires TotalOn(less, Elements(s)) && Distinct(s)
    ensures Ascending(less, Sort(less, s))
  {
    if s != [] {
      var init, last := s[..|s| - 1], s[|s| - 1];
      assert Elements(init) <= Elements(s);
      SortAscending(less, init);
      SortKeepsElements(less, init);
      forall y | y in Sort(less, init) ensures y in Elements(s) && y != last {
        assert y in Elements(Sort(less, init));
        var i :| 0 <= i < |init| && init[i] == y;
        assert s[i] != s[|s| - 1];
      }
      InsertAscending(less, last, Sort(less, init), Elements(s));
    }
  }

  /** A set has at most one ascending listing. */
  lemma {:induction false} AscendingUnique<T(!new)>(less: (T, T) -> bool, a: seq<T>, b: seq<T>)
    requires Elements(a) == Elements(b)
    requires TotalOn(less, Elements(a))
    requires Ascending(less, a) && Ascending(less, b)
    ensures a == b
  {
    assert a != [] ==> a[0] in Elements(b);
    assert b != [] ==> b[0] in Elements(a);
    if a != [] {
      var i :| 0 <= i < |b| && b[i] == a[0];
      var j :| 0 <= j < |a| && a[j] == b[0];
      if a[0] != b[0] {
        assert false;
      }
      TailElements(less, a);
      TailElements(less, b);
      AscendingUnique(less, a[1..], b[1..]);
      assert a == [a[0]] + a[1..] && b == [b[0]] + b[1..];
    }
  }

  lemma TailElements<T(!new)>(less: (T, T) -> bool, a: seq<T>)
    requires a != [] && TotalOn(less, Elements(a)) && Ascending(less, a)
    ensures Elements(a[1..]) == Elements(a) - {a[0]}
  {
    assert a[0] in Elements(a);
    forall y | y in a[1..] ensures y != a[0] {
      assert less(a[0], y);
    }
  }

  lemma AscendingDistinct<T(!new)>(less: (T, T) -> bool, a: seq<T>)
    requires TotalOn(less, Elements(a)) && Ascending(less, a)
    ensures Distinct(a)
  {
    forall i, j | 0 <= i < j < |a| ensures a[i] != a[j] {
      assert a[i] in Elements(a);
      assert less(a[i], a[j]);
    }
  }

  /** Sorting forgets the order the elements arrived in. */
  lemma SortOrderFree<T(!new)>(less: (T, T) -> bool, s: seq<T>, t: seq<T>)
    requires Distinct(s) && Distinct(t) && Elements(s) == Elements(t)
    requires TotalOn(less, Elements(s))
    ensures Sort(less, s) == Sort(less, t)
  {
    SortAscending(less, s);
    SortAscending(less, t);
    SortKeepsElements(less, s);
    SortKeepsElements(less, t);
    AscendingUnique(less, Sort(less, s), Sort(less, t));
  }

  /** `less` never puts `b` before `a`, and "not after" is transitive: enough for a sort with ties. */
  ghost predicate WeakOrder<T(!new)>(less: (T, T) -> bool) {
    && (forall a, b :: !(less(a, b) && less(b, a)))
    && (forall a, b, c :: !less(b, a) && !less(c, b) ==> !less(c, a))
  }

  ghost predicate Ordered<T>(less: (T, T) -> bool, s: seq<T>) {
    forall i, j | 0 <= i < j < |s| :: !less(s[j], s[i])
  }

  lemma {:induction false} InsertOrdered<T(!new)>(less: (T, T) -> bool, x: T, s: seq<T>)
    requires WeakOrder(less) && Ordered(less, s)
    ensures Ordered(less, Insert(less, x, s))
  {
    if s != [] && !less(x, s[0]) {
      InsertOrdered(less, x, s[1..]);
      var r := Insert(less, x, s[1..]);
      forall y | y in r ensures !less(y, s[0]) {
        assert y in multiset(r);
        assert y in multiset(s[1..]) + multiset{x};
      }
    }
  }

  lemma {:induction false} SortOrdered<T(!new)>(less: (T, T) -> bool, s: seq<T>)
    requires WeakOrder(less)
    ensures Ordered(less, Sort(less, s))
  {
    if s != [] {
      SortOrdered(less, s[..|s| - 1]);
      InsertOrdered(less, s[|s| - 1], Sort(less, s[..|s| - 1]));
    }
  }

  /** A set visited in an order the language leaves open, as a map iteration visits its keys. */
  method InSomeOrder(all: set<string>) returns (order: seq<string>)
    ensures Distinct(order) && Elements(order) == all && |order| == |all|
  {
    order := [];
    var left := all;
    while left != {}
      invariant Distinct(order) && |order| + |left| == |all|
      invariant Elements(order) !! left && Elements(order) + left == all
      decreases |left|
    {
      var x :| x in left;
      assert x !in Elements(order);
      order := order + [x];
      left := left - {x};
    }
  }
}
