/** Sorting finite sets by a strict total order, and the contract of the library's priority
    queue: it holds its elements in no visible order and Pop hands out a least one. */
module Sorting {

  ghost predicate OrderedAt<T(!new)>(less: (T, T) -> bool, s: set<T>, a: T, b: T, c: T) {
    a in s && b in s && c in s ==>
      && !less(a, a)
      && (less(a, b) && less(b, c) ==> less(a, c))
      && (a == b || less(a, b) || less(b, a))
  }

  ghost predicate StrictTotalOn<T(!new)>(less: (T, T) -> bool, s: set<T>) {
    forall a, b, c :: OrderedAt(less, s, a, b, c)
  }

  lemma SubsetTotal<T(!new)>(less: (T, T) -> bool, s: set<T>, t: set<T>)
    requires StrictTotalOn(less, s) && t <= s
    ensures StrictTotalOn(less, t)
  {
    forall a, b, c ensures OrderedAt(less, t, a, b, c) {
      assert OrderedAt(less, s, a, b, c);
    }
  }

  predicate IsLeast<T(==, !new)>(less: (T, T) -> bool, s: set<T>, x: T) {
    x in s && forall y | y in s && y != x :: less(x, y)
  }

  lemma {:induction false} LeastExists<T(!new)>(less: (T, T) -> bool, s: set<T>)
    requires StrictTotalOn(less, s) && s != {}
    ensures exists x :: IsLeast(less, s, x)
    decreases |s|
  {
    var x :| x in s;
    if s == {x} {
      assert IsLeast(less, s, x);
    } else {
      SubsetTotal(less, s, s - {x});
      LeastExists(less, s - {x});
      var y :| IsLeast(less, s - {x}, y);
      assert OrderedAt(less, s, x, y, x);
      forall z | z in s && z != x && z != y ensures less(x, y) ==> less(x, z) {
        assert OrderedAt(less, s, x, y, z);
      }
      assert IsLeast(less, s, if less(x, y) then x else y);
    }
  }

  lemma LeastUnique<T(!new)>(less: (T, T) -> bool, s: set<T>, x: T, y: T)
    requires StrictTotalOn(less, s) && IsLeast(less, s, x) && IsLeast(less, s, y)
    ensures x == y
  {
    assert OrderedAt(less, s, x, y, x);
  }

  ghost function Least<T(!new)>(less: (T, T) -> bool, s: set<T>): (x: T)
    requires StrictTotalOn(less, s) && s != {}
    ensures IsLeast(less, s, x)
  {
    LeastExists(less, s);
    var x :| IsLeast(less, s, x);
    x
  }

  /** The elements of s in ascending order. */
  ghost function Sort<T(!new)>(less: (T, T) -> bool, s: set<T>): (r: seq<T>)
    requires StrictTotalOn(less, s)
    ensures |r| == |s|
    decreases |s|
  {
    if s == {} then []
    else
      var x := Least(less, s);
      SubsetTotal(less, s, s - {x});
      [x] + Sort(less, s - {x})
  }

  lemma {:induction false} SortMembers<T(!new)>(less: (T, T) -> bool, s: set<T>)
    requires StrictTotalOn(less, s)
    ensures forall x :: x in Sort(less, s) <==> x in s
    decreases |s|
  {
    if s != {} {
      var x := Least(less, s);
      SubsetTotal(less, s, s - {x});
      SortMembers(less, s - {x});
    }
  }

  ghost predicate InOrder<T(!new)>(less: (T, T) -> bool, xs: seq<T>, i: nat, j: nat) {
    i < j < |xs| ==> less(xs[i], xs[j])
  }

  ghost predicate Ascending<T(!new)>(less: (T, T) -> bool, xs: seq<T>) {
    forall i, j :: InOrder(less, xs, i, j)
  }

  ghost function Elements<T(!new)>(xs: seq<T>): set<T> {
    set x | x in xs
  }

  lemma AscendingCons<T(!new)>(less: (T, T) -> bool, x: T, xs: seq<T>)
    requires Ascending(less, xs)
    requires forall y | y in xs :: less(x, y)
    ensures Ascending(less, [x] + xs)
  {
    var r := [x] + xs;
    forall i: nat, j: nat ensures InOrder(less, r, i, j) {
      if i < j < |r| {
        assert r[j] == xs[j - 1] && xs[j - 1] in xs;
        if i > 0 {
          assert r[i] == xs[i - 1] && InOrder(less, xs, i - 1, j - 1);
        }
      }
    }
  }

  lemma {:induction false} SortAscends<T(!new)>(less: (T, T) -> bool, s: set<T>)
    requires StrictTotalOn(less, s)
    ensures Ascending(less, Sort(less, s))
    decreases |s|
  {
    if s != {} {
      var x := Least(less, s);
      SubsetTotal(less, s, s - {x});
      SortAscends(less, s - {x});
      SortMembers(less, s - {x});
      AscendingCons(less, x, Sort(less, s - {x}));
    }
  }

  lemma HeadBefore<T(!new)>(less: (T, T) -> bool, xs: seq<T>, y: T)
    requires Ascending(less, xs) && y in xs && y != xs[0]
    ensures less(xs[0], y)
  {
    var j :| 0 < j < |xs| && xs[j] == y;
    assert InOrder(less, xs, 0, j);
  }

  /** The least element of an ascending list's contents is its head; the tail holds the others. */
  lemma AscendingHead<T(!new)>(less: (T, T) -> bool, xs: seq<T>, x: T)
    requires xs != [] && StrictTotalOn(less, Elements(xs)) && Ascending(less, xs)
    requires IsLeast(less, Elements(xs), x)
    ensures xs[0] == x && Elements(xs[1..]) == Elements(xs) - {x} && Ascending(less, xs[1..])
  {
    var head := xs[0];
    assert head in Elements(xs);
    assert OrderedAt(less, Elements(xs), x, head, x);
    if head != x {
      HeadBefore(less, xs, x);
    }
    forall y | y in xs[1..] ensures y in Elements(xs) - {x} {
      var j :| 0 <= j < |xs| - 1 && xs[1..][j] == y;
      assert xs[j + 1] == y && y in Elements(xs);
      assert InOrder(less, xs, 0, j + 1) && OrderedAt(less, Elements(xs), y, y, y);
    }
    forall y | y in Elements(xs) - {x} ensures y in xs[1..] {
      var j :| 0 <= j < |xs| && xs[j] == y;
      assert xs[1..][j - 1] == y;
    }
    forall i: nat, j: nat ensures InOrder(less, xs[1..], i, j) {
      assert InOrder(less, xs, i + 1, j + 1);
    }
  }

  /** An ascending list of exactly these elements is the only one: sorting has one answer. */
  lemma {:induction false} SortUnique<T(!new)>(less: (T, T) -> bool, s: set<T>, xs: seq<T>)
    requires StrictTotalOn(less, s)
    requires Ascending(less, xs) && Elements(xs) == s
    ensures xs == Sort(less, s)
    decreases |s|
  {
    assert xs != [] ==> xs[0] in Elements(xs);
    if s != {} {
      var x := Least(less, s);
      AscendingHead(less, xs, x);
      SubsetTotal(less, s, s - {x});
      SortUnique(less, s - {x}, xs[1..]);
      assert xs == [x] + xs[1..];
    }
  }

  /** Push. The set view is sound only when nothing is pushed twice, so that is demanded. */
  function Push<T>(items: set<T>, x: T): set<T>
    requires x !in items
  {
    items + {x}
  }

  /** Pop takes out the least element: the head of the sorted contents. */
  function Pop<T(==, !new)>(less: (T, T) -> bool, items: set<T>): (r: (T, set<T>))
    requires StrictTotalOn(less, items) && items != {}
    ensures IsLeast(less, items, r.0) && r.1 == items - {r.0}
    ensures StrictTotalOn(less, r.1)
    ensures r.0 == Sort(less, items)[0] && Sort(less, r.1) == Sort(less, items)[1..]
  {
    LeastExists(less, items);
    assert forall x, y | IsLeast(less, items, x) && IsLeast(less, items, y) :: x == y by {
      forall x, y | IsLeast(less, items, x) && IsLeast(less, items, y) ensures x == y {
        LeastUnique(less, items, x, y);
      }
    }
    var x :| x in items && IsLeast(less, items, x);
    SubsetTotal(less, items, items - {x});
    (x, items - {x})
  }
}
