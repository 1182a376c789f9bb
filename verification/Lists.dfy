/** Sequence operations shared by the models: mapping, filtering, flattening and
    order-preserving removal of repeats (what a Python `seen` set or a dict's key order gives). */
module Lists {

  datatype Option<+T> = None | Some(value: T)

  datatype Result<+T, +E> = Ok(value: T) | Err(error: E)

  function Last<T>(xs: seq<T>): T
    requires xs != []
  {
    xs[|xs| - 1]
  }

  function Init<T>(xs: seq<T>): seq<T>
    requires xs != []
  {
    xs[..|xs| - 1]
  }

  ghost predicate Distinct<T(!new)>(xs: seq<T>) {
    forall i, j :: 0 <= i < j < |xs| ==> xs[i] != xs[j]
  }

  lemma DistinctSnoc<T(!new)>(xs: seq<T>, x: T)
    ensures Distinct(xs + [x]) <==> Distinct(xs) && x !in xs
  {
    var ys := xs + [x];
    assert forall i :: 0 <= i < |xs| ==> ys[i] == xs[i];
    assert ys[|xs|] == x;
    if Distinct(ys) {
      forall i, j | 0 <= i < j < |xs|
        ensures xs[i] != xs[j]
      {
        assert ys[i] != ys[j];
      }
    }
  }

  lemma DistinctAppend<T(!new)>(xs: seq<T>, ys: seq<T>)
    requires Distinct(xs) && Distinct(ys) && forall x :: x in xs ==> x !in ys
    ensures Distinct(xs + ys)
  {
    var zs := xs + ys;
    forall i, j | 0 <= i < j < |zs|
      ensures zs[i] != zs[j]
    {
      if j < |xs| {
        assert zs[i] == xs[i] && zs[j] == xs[j];
      } else if i < |xs| {
        assert xs[i] in xs && ys[j - |xs|] in ys;
      }
    }
  }

  /** The step a loop takes over a sequence: one more element of the prefix. */
  lemma PrefixStep<T>(xs: seq<T>, i: nat)
    requires i < |xs|
    ensures xs[..i + 1] == xs[..i] + [xs[i]]
    ensures Init(xs[..i + 1]) == xs[..i] && Last(xs[..i + 1]) == xs[i]
  {
  }

  function Map<A, B>(f: A -> B, xs: seq<A>): (r: seq<B>)
    ensures |r| == |xs|
    ensures forall i {:trigger r[i]} :: 0 <= i < |xs| ==> r[i] == f(xs[i])
  {
    seq(|xs|, i requires 0 <= i < |xs| => f(xs[i]))
  }

  lemma MapHolds<A, B>(f: A -> B, xs: seq<A>, y: B)
    ensures y in Map(f, xs) <==> exists i :: 0 <= i < |xs| && f(xs[i]) == y
  {
    forall i | 0 <= i < |xs|
      ensures f(xs[i]) in Map(f, xs)
    {
      assert Map(f, xs)[i] == f(xs[i]);
    }
    if i :| 0 <= i < |Map(f, xs)| && Map(f, xs)[i] == y {
      assert f(xs[i]) == y;
    }
  }

  lemma MapAppend<A, B>(f: A -> B, xs: seq<A>, ys: seq<A>)
    ensures Map(f, xs + ys) == Map(f, xs) + Map(f, ys)
  {
  }

  function Filter<T(!new)>(p: T -> bool, xs: seq<T>): (r: seq<T>)
    ensures |r| <= |xs|
    ensures forall x :: x in r <==> x in xs && p(x)
  {
    if xs == [] then []
    else if p(Last(xs)) then Filter(p, Init(xs)) + [Last(xs)]
    else Filter(p, Init(xs))
  }

  lemma FilterSnoc<T(!new)>(p: T -> bool, xs: seq<T>, x: T)
    ensures Filter(p, xs + [x]) == if p(x) then Filter(p, xs) + [x] else Filter(p, xs)
  {
    assert Init(xs + [x]) == xs && Last(xs + [x]) == x;
  }

  lemma FilterOne<T(!new)>(p: T -> bool, x: T)
    ensures Filter(p, [x]) == if p(x) then [x] else []
  {
    assert Init([x]) == [];
  }

  lemma {:induction false} FilterAppend<T(!new)>(p: T -> bool, xs: seq<T>, ys: seq<T>)
    ensures Filter(p, xs + ys) == Filter(p, xs) + Filter(p, ys)
    decreases |ys|
  {
    if ys == [] {
      assert xs + ys == xs;
    } else {
      var all, last := xs + ys, Last(ys);
      assert all != [] && Init(all) == xs + Init(ys) && Last(all) == last;
      FilterAppend(p, xs, Init(ys));
      var left, right := Filter(p, xs), Filter(p, Init(ys));
      assert left + (right + [last]) == (left + right) + [last];
    }
  }

  /** Two predicates that agree on the elements select the same subsequence. */
  lemma {:induction false} FilterCongruent<T(!new)>(p: T -> bool, q: T -> bool, xs: seq<T>)
    requires forall x :: x in xs ==> p(x) == q(x)
    ensures Filter(p, xs) == Filter(q, xs)
  {
    if xs != [] {
      assert xs == Init(xs) + [Last(xs)];
      FilterCongruent(p, q, Init(xs));
    }
  }

  lemma {:induction false} FilterAll<T(!new)>(p: T -> bool, xs: seq<T>)
    requires forall x :: x in xs ==> p(x)
    ensures Filter(p, xs) == xs
  {
    if xs != [] {
      assert xs == Init(xs) + [Last(xs)];
      FilterAll(p, Init(xs));
    }
  }

  lemma {:induction false} FilterNone<T(!new)>(p: T -> bool, xs: seq<T>)
    requires forall x :: x in xs ==> !p(x)
    ensures Filter(p, xs) == []
  {
    if xs != [] {
      assert xs == Init(xs) + [Last(xs)];
      FilterNone(p, Init(xs));
    }
  }

  lemma {:induction false} FilterDistinct<T(!new)>(p: T -> bool, xs: seq<T>)
    requires Distinct(xs)
    ensures Distinct(Filter(p, xs))
  {
    if xs != [] {
      FilterDistinct(p, Init(xs));
    }
  }

  lemma {:induction false} FilterSplit<T(!new)>(p: T -> bool, q: T -> bool, xs: seq<T>)
    requires forall x :: x in xs ==> p(x) != q(x)
    ensures |Filter(p, xs)| + |Filter(q, xs)| == |xs|
  {
    if xs != [] {
      assert xs == Init(xs) + [Last(xs)];
      FilterSplit(p, q, Init(xs));
    }
  }

  function Elements<T(==,!new)>(xs: seq<T>): set<T> {
    set x | x in xs
  }

  lemma {:induction false} DistinctSize<T(!new)>(xs: seq<T>)
    requires Distinct(xs)
    ensures |Elements(xs)| == |xs|
  {
    if xs != [] {
      DistinctSize(Init(xs));
      assert Elements(xs) == Elements(Init(xs)) + {Last(xs)};
    }
  }

  function Flatten<T>(xss: seq<seq<T>>): seq<T> {
    if xss == [] then [] else Flatten(Init(xss)) + Last(xss)
  }

  lemma FlattenOne<T>(xs: seq<T>)
    ensures Flatten([xs]) == xs
  {
    assert Init([xs]) == [] && Flatten([xs]) == [] + xs;
  }

  lemma FlattenTwo<T>(xs: seq<T>, ys: seq<T>)
    ensures Flatten([xs, ys]) == xs + ys
  {
    FlattenOne(xs);
    assert Init([xs, ys]) == [xs];
  }

  /** The elements of `xs` in order of first appearance, each once. */
  function FirstSeen<T(==,!new)>(xs: seq<T>): (r: seq<T>)
    ensures forall x :: x in r <==> x in xs
    ensures |r| <= |xs|
  {
    if xs == [] then []
    else if Last(xs) in Init(xs) then FirstSeen(Init(xs))
    else FirstSeen(Init(xs)) + [Last(xs)]
  }

  lemma {:induction false} FirstSeenDistinct<T(!new)>(xs: seq<T>)
    ensures Distinct(FirstSeen(xs))
  {
    if xs != [] {
      FirstSeenDistinct(Init(xs));
    }
  }

  lemma FirstSeenSnoc<T(!new)>(xs: seq<T>, x: T)
    ensures FirstSeen(xs + [x]) == if x in xs then FirstSeen(xs) else FirstSeen(xs) + [x]
  {
    assert Init(xs + [x]) == xs && Last(xs + [x]) == x;
  }

  lemma {:induction false} FirstSeenAppend<T(!new)>(xs: seq<T>, ys: seq<T>)
    ensures FirstSeen(xs + ys) == FirstSeen(xs) + Filter(y => y !in xs, FirstSeen(ys))
    decreases |ys|
  {
    if ys == [] {
      assert xs + ys == xs;
    } else {
      assert Init(xs + ys) == xs + Init(ys);
      var all, last, seen := xs + ys, Last(ys), FirstSeen(Init(ys));
      assert all != [] && Init(all) == xs + Init(ys) && Last(all) == last;
      var p := y => y !in xs;
      FirstSeenAppend(xs, Init(ys));
      FilterSnoc(p, seen, last);
      assert FirstSeen(xs) + (Filter(p, seen) + [last]) == (FirstSeen(xs) + Filter(p, seen)) + [last];
    }
  }

  lemma {:induction false} FirstSeenOfDistinct<T(!new)>(xs: seq<T>)
    requires Distinct(xs)
    ensures FirstSeen(xs) == xs
  {
    if xs != [] {
      FirstSeenOfDistinct(Init(xs));
    }
  }

  lemma FirstSeenTwice<T(!new)>(xs: seq<T>)
    requires Distinct(xs)
    ensures FirstSeen(xs + xs) == xs
  {
    FirstSeenAppend(xs, xs);
    FirstSeenOfDistinct(xs);
    FilterNone(y => y !in xs, xs);
  }

  /** A result as long as its input dropped nothing. */
  lemma {:induction false} FirstSeenFullLength<T(!new)>(xs: seq<T>)
    requires |FirstSeen(xs)| == |xs|
    ensures FirstSeen(xs) == xs
  {
    if xs != [] {
      FirstSeenFullLength(Init(xs));
    }
  }

  lemma FirstSeenCongruent<T(!new)>(xs: seq<T>, xs': seq<T>, ys: seq<T>, ys': seq<T>)
    requires FirstSeen(xs) == FirstSeen(xs') && FirstSeen(ys) == FirstSeen(ys')
    ensures FirstSeen(xs + ys) == FirstSeen(xs' + ys')
  {
    FirstSeenAppend(xs, ys);
    FirstSeenAppend(xs', ys');
    assert forall x :: x in xs <==> x in FirstSeen(xs);
    FilterCongruent(y => y !in xs, y => y !in xs', FirstSeen(ys));
  }

  /** The first element carrying each key, in order of first appearance of the keys. */
  function FirstBy<T(!new), K(==,!new)>(key: T -> K, xs: seq<T>): (r: seq<T>)
    ensures forall x :: x in r ==> x in xs
  {
    if xs == [] then []
    else
      var rest := FirstBy(key, Init(xs));
      if key(Last(xs)) in Map(key, Init(xs)) then rest else rest + [Last(xs)]
  }

  /** What is kept is exactly each element that has no equal key before it, in order. */
  lemma {:induction false} FirstByIs<T(!new), K(!new)>(key: T -> K, xs: seq<T>, x: T)
    ensures x in FirstBy(key, xs) <==> exists i :: 0 <= i < |xs| && xs[i] == x && forall j :: 0 <= j < i ==> key(xs[j]) != key(x)
  {
    if xs != [] {
      var front, last := Init(xs), Last(xs);
      FirstByIs(key, front, x);
      MapHolds(key, front, key(last));
      if i :| 0 <= i < |front| && front[i] == x && forall j :: 0 <= j < i ==> key(front[j]) != key(x) {
        assert xs[i] == x && forall j :: 0 <= j < i ==> xs[j] == front[j];
      }
      if i :| 0 <= i < |xs| && xs[i] == x && forall j :: 0 <= j < i ==> key(xs[j]) != key(x) {
        assert forall j :: 0 <= j < i ==> xs[j] == front[j];
        assert i < |front| ==> front[i] == x;
      }
    }
  }

  lemma {:induction false} FirstByKeys<T(!new), K(!new)>(key: T -> K, xs: seq<T>)
    ensures Map(key, FirstBy(key, xs)) == FirstSeen(Map(key, xs))
  {
    if xs != [] {
      FirstByKeys(key, Init(xs));
      assert Init(Map(key, xs)) == Map(key, Init(xs));
      MapAppend(key, FirstBy(key, Init(xs)), [Last(xs)]);
    }
  }

  /** Python's `xs[:n]`, which counts a negative `n` from the end. */
  function SliceTo<T>(xs: seq<T>, n: int): (r: seq<T>)
    ensures r <= xs
    ensures |r| == if n >= 0 then (if n < |xs| then n else |xs|) else if -n < |xs| then |xs| - -n else 0
  {
    if n >= |xs| then xs
    else if n >= 0 then xs[..n]
    else if |xs| + n >= 0 then xs[..|xs| + n]
    else []
  }
}
