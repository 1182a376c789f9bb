/** Python's `sorted`, which is stable, as an insertion sort with the three facts that pin it down. */
module Sorting {
  import opened Lists

  ghost predicate TotalPreorder<T(!new)>(le: (T, T) -> bool) {
    && (forall x, y :: le(x, y) || le(y, x))
    && (forall x, y, z :: le(x, y) && le(y, z) ==> le(x, z))
  }

  ghost predicate Sorted<T>(le: (T, T) -> bool, xs: seq<T>) {
    forall i, j :: 0 <= i < j < |xs| ==> le(xs[i], xs[j])
  }

  function Insert<T>(le: (T, T) -> bool, x: T, ys: seq<T>): seq<T> {
    if ys == [] then [x]
    else if le(x, ys[0]) then [x] + ys
    else [ys[0]] + Insert(le, x, ys[1..])
  }

  function Sort<T>(le: (T, T) -> bool, xs: seq<T>): seq<T> {
    if xs == [] then [] else Insert(le, xs[0], Sort(le, xs[1..]))
  }

  lemma {:induction false} InsertPermutes<T(!new)>(le: (T, T) -> bool, x: T, ys: seq<T>)
    ensures multiset(Insert(le, x, ys)) == multiset{x} + multiset(ys)
  {
    if ys != [] {
      assert ys == [ys[0]] + ys[1..];
      InsertPermutes(le, x, ys[1..]);
    }
  }

  lemma {:induction false} SortPermutes<T(!new)>(le: (T, T) -> bool, xs: seq<T>)
    ensures multiset(Sort(le, xs)) == multiset(xs)
    ensures |Sort(le, xs)| == |xs|
    ensures forall x :: x in Sort(le, xs) <==> x in xs
  {
    if xs != [] {
      assert xs == [xs[0]] + xs[1..];
      SortPermutes(le, xs[1..]);
      InsertPermutes(le, xs[0], Sort(le, xs[1..]));
    }
    assert |multiset(Sort(le, xs))| == |multiset(xs)|;
    assert forall x :: x in Sort(le, xs) <==> x in multiset(Sort(le, xs));
  }

  lemma {:induction false} InsertSorted<T(!new)>(le: (T, T) -> bool, x: T, ys: seq<T>)
    requires TotalPreorder(le) && Sorted(le, ys)
    ensures Sorted(le, Insert(le, x, ys))
  {
    if ys != [] && !le(x, ys[0]) {
      InsertSorted(le, x, ys[1..]);
      InsertPermutes(le, x, ys[1..]);
      var rest := Insert(le, x, ys[1..]);
      forall z | z in rest
        ensures le(ys[0], z)
      {
        assert z in multiset(rest);
        assert z == x || z in ys[1..];
      }
    }
  }

  lemma {:induction false} SortSorted<T(!new)>(le: (T, T) -> bool, xs: seq<T>)
    requires TotalPreorder(le)
    ensures Sorted(le, Sort(le, xs))
  {
    if xs != [] {
      SortSorted(le, xs[1..]);
      InsertSorted(le, xs[0], Sort(le, xs[1..]));
    }
  }

  /** Stability: elements that are equal in the order keep their relative order. */
  lemma {:induction false} SortStable<T(!new)>(le: (T, T) -> bool, xs: seq<T>, p: T -> bool)
    requires forall x, y :: x in xs && y in xs && p(x) && p(y) ==> le(x, y)
    ensures Filter(p, Sort(le, xs)) == Filter(p, xs)
  {
    if xs != [] {
      var rest := Sort(le, xs[1..]);
      SortStable(le, xs[1..], p);
      SortPermutes(le, xs[1..]);
      InsertStable(le, xs[0], rest, p);
      assert xs == [xs[0]] + xs[1..];
      FilterAppend(p, [xs[0]], xs[1..]);
    }
  }

  lemma {:induction false} InsertStable<T(!new)>(le: (T, T) -> bool, x: T, ys: seq<T>, p: T -> bool)
    requires forall y :: y in ys && p(x) && p(y) ==> le(x, y)
    ensures Filter(p, Insert(le, x, ys)) == Filter(p, [x]) + Filter(p, ys)
  {
    if ys == [] {
      assert Filter(p, ys) == [];
    } else if le(x, ys[0]) {
      FilterAppend(p, [x], ys);
    } else {
      InsertStable(le, x, ys[1..], p);
      FilterAppend(p, [ys[0]], Insert(le, x, ys[1..]));
      assert ys == [ys[0]] + ys[1..];
      FilterAppend(p, [ys[0]], ys[1..]);
      assert Filter(p, [x]) == [] || Filter(p, [ys[0]]) == [] by {
        assert Init([x]) == [] && Init([ys[0]]) == [];
      }
    }
  }

  lemma {:induction false} FilterKeepsOrder<T(!new)>(p: T -> bool, xs: seq<T>, i: nat, j: nat) returns (a: nat, b: nat)
    requires i < j < |xs| && p(xs[i]) && p(xs[j])
    ensures a < b < |Filter(p, xs)| && Filter(p, xs)[a] == xs[i] && Filter(p, xs)[b] == xs[j]
  {
    var rest := Filter(p, Init(xs));
    if j < |xs| - 1 {
      a, b := FilterKeepsOrder(p, Init(xs), i, j);
    } else {
      assert Init(xs)[i] == xs[i] && xs[i] in Init(xs);
      a :| 0 <= a < |rest| && rest[a] == xs[i];
      b := |rest|;
    }
  }

  /** Two different elements that tie are sorted as they stood. */
  lemma TiesKeepPlaces<T(!new)>(le: (T, T) -> bool, xs: seq<T>, tied: T -> bool, p: nat, q: nat, i: nat, j: nat)
    requires Distinct(xs) && forall x, y :: x in xs && y in xs && tied(x) && tied(y) ==> le(x, y)
    requires p < q < |xs| && tied(xs[p]) && tied(xs[q])
    requires i < |Sort(le, xs)| && j < |Sort(le, xs)| && Sort(le, xs)[i] == xs[p] && Sort(le, xs)[j] == xs[q]
    ensures i < j
  {
    var ys := Sort(le, xs);
    SortStable(le, xs, tied);
    FilterDistinct(tied, xs);
    var a, b := FilterKeepsOrder(tied, xs, p, q);
    if j < i {
      var c, d := FilterKeepsOrder(tied, ys, j, i);
    }
  }

  lemma SortOne<T>(le: (T, T) -> bool, x: T)
    ensures Sort(le, [x]) == [x]
  {
    assert [x][1..] == [] && Insert(le, x, []) == [x];
  }

  lemma SortPair<T>(le: (T, T) -> bool, x: T, y: T)
    ensures Sort(le, [x, y]) == if le(x, y) then [x, y] else [y, x]
  {
    assert [x, y][1..] == [y] && [y][1..] == [];
    assert Insert(le, y, []) == [y] && Sort(le, [y]) == [y];
    assert [y][1..] == [] && Insert(le, x, []) == [x];
  }

  /** Sorting leaves an already sorted sequence alone. */
  lemma {:induction false} SortOfSorted<T(!new)>(le: (T, T) -> bool, xs: seq<T>)
    requires Sorted(le, xs)
    ensures Sort(le, xs) == xs
  {
    if xs != [] {
      SortOfSorted(le, xs[1..]);
    }
  }

  lemma SortDistinct<T(!new)>(le: (T, T) -> bool, xs: seq<T>)
    requires Distinct(xs)
    ensures Distinct(Sort(le, xs))
  {
    var ys := Sort(le, xs);
    SortPermutes(le, xs);
    forall i, j | 0 <= i < j < |ys|
      ensures ys[i] != ys[j]
    {
      if ys[i] == ys[j] {
        assert ys == ys[..i] + [ys[i]] + ys[i + 1..j] + [ys[j]] + ys[j + 1..];
        assert multiset(ys)[ys[i]] >= 2;
        DistinctCount(xs, ys[i]);
      }
    }
  }

  lemma {:induction false} DistinctCount<T(!new)>(xs: seq<T>, x: T)
    requires Distinct(xs)
    ensures multiset(xs)[x] <= 1
  {
    if xs != [] {
      DistinctCount(xs[1..], x);
      assert xs == [xs[0]] + xs[1..];
      assert xs[0] == x ==> x !in xs[1..];
    }
  }

  /** A sort key that a mapping leaves alone sorts the image as it sorts the elements. */
  lemma {:induction false} SortOfMap<A(!new), B(!new)>(le: (A, A) -> bool, le': (B, B) -> bool, f: A -> B, xs: seq<A>)
    requires forall x, y :: le'(f(x), f(y)) == le(x, y)
    ensures Sort(le', Map(f, xs)) == Map(f, Sort(le, xs))
  {
    if xs != [] {
      SortOfMap(le, le', f, xs[1..]);
      assert Map(f, xs)[1..] == Map(f, xs[1..]);
      InsertOfMap(le, le', f, xs[0], Sort(le, xs[1..]));
    }
  }

  lemma {:induction false} InsertOfMap<A(!new), B(!new)>(le: (A, A) -> bool, le': (B, B) -> bool, f: A -> B, x: A, ys: seq<A>)
    requires forall x, y :: le'(f(x), f(y)) == le(x, y)
    ensures Insert(le', f(x), Map(f, ys)) == Map(f, Insert(le, x, ys))
  {
    if ys != [] {
      assert Map(f, ys)[1..] == Map(f, ys[1..]);
      InsertOfMap(le, le', f, x, ys[1..]);
    }
  }
}
