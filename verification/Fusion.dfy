/** Reciprocal-rank fusion of `app/graphrag/context_fusion.py`. Floats are reals. */
module Fusion {
  import opened Lists

  // ---------------------------------------------------------------- scores

  type RankedList = seq<(string, real)>

  function Ids(ranked: RankedList): (r: seq<string>)
    ensures |r| == |ranked|
  {
    seq(|ranked|, i requires 0 <= i < |ranked| => ranked[i].0)
  }

  /** What the 1-based rank adds to a score. The code divides by zero where the model has 0 (`Undefined`). */
  function Weight(k: int, rank: nat): (w: real)
    requires rank >= 1
    ensures k >= 0 ==> w > 0.0
  {
    if k + rank == 0 then 0.0 else 1.0 / (k + rank) as real
  }

  /** The weight is the reciprocal of k + rank. */
  lemma WeightIsReciprocal(k: int, rank: nat)
    requires rank >= 1 && k + rank != 0
    ensures Weight(k, rank) * (k + rank) as real == 1.0
  {
  }

  /** A negative `k` meets rank `-k` in a list that long. */
  predicate Undefined(k: int, lists: seq<seq<string>>) {
    k < 0 && exists i :: 0 <= i < |lists| && |lists[i]| >= -k
  }

  datatype FusionError = UnknownMethod(name: string) | DivisionByZero

  /** The sum of the weights of the positions at which `id` stands. */
  function Contribution(ids: seq<string>, id: string, k: int): real {
    if ids == [] then 0.0
    else Contribution(Init(ids), id, k) + if Last(ids) == id then Weight(k, |ids|) else 0.0
  }

  /** RRF(id): its contributions over all lists. */
  function Score(lists: seq<seq<string>>, id: string, k: int): real {
    if lists == [] then 0.0 else Score(Init(lists), id, k) + Contribution(Last(lists), id, k)
  }

  function IdLists(lists: seq<RankedList>): (r: seq<seq<string>>)
    ensures |r| == |lists|
  {
    seq(|lists|, i requires 0 <= i < |lists| => Ids(lists[i]))
  }

  /** One ranked list, added to the table; no table if a denominator vanishes. */
  method AddRanked(before: map<string, real>, ranked: RankedList, k: int) returns (scores: Option<map<string, real>>)
    ensures scores == None <==> k < 0 && |ranked| >= -k
    ensures scores.Some? ==> Adds(before, scores.value, Ids(ranked), k)
  {
    var table := before;
    ghost var ids := Ids(ranked);
    for j := 0 to |ranked|
      invariant k < 0 ==> j < -k
      invariant Adds(before, table, ids[..j], k)
    {
      if k + j + 1 == 0 {
        return None;
      }
      PrefixStep(ids, j);
      var id := ranked[j].0;
      AddsStep(before, table, ids[..j], id, ids[..j + 1], k);
      var score := if id in table then table[id] else 0.0;
      table := table[id := score + Weight(k, j + 1)];
    }
    assert ids[..|ranked|] == ids;
    return Some(table);
  }

  method ReciprocalRankFusion(rankedLists: seq<RankedList>, k: int) returns (r: Result<map<string, real>, FusionError>)
    ensures if Undefined(k, IdLists(rankedLists)) then r == Err(DivisionByZero) else r.Ok?
    ensures r.Ok? ==> forall id :: id in r.value <==> id in Flatten(IdLists(rankedLists))
    ensures r.Ok? ==> forall id :: id in r.value ==> r.value[id] == Score(IdLists(rankedLists), id, k)
  {
    var scores: map<string, real> := map[];
    ghost var lists := IdLists(rankedLists);
    for i := 0 to |rankedLists|
      invariant k < 0 ==> forall n :: 0 <= n < i ==> |lists[n]| < -k
      invariant Scores(scores, lists[..i], k)
    {
      var added := AddRanked(scores, rankedLists[i], k);
      if added == None {
        assert |lists[i]| >= -k;
        return Err(DivisionByZero);
      }
      PrefixStep(lists, i);
      ScoresStep(scores, added.value, lists[..i], Ids(rankedLists[i]), lists[..i + 1], k);
      scores := added.value;
    }
    assert lists[..|rankedLists|] == lists;
    return Ok(scores);
  }

  /** The table holds the scores of the ids of the lists. */
  ghost predicate Scores(scores: map<string, real>, lists: seq<seq<string>>, k: int) {
    && (forall id :: id in scores <==> id in Flatten(lists))
    && (forall id :: (if id in scores then scores[id] else 0.0) == Score(lists, id, k))
  }

  /** The table grew by the contributions of `ids`. */
  ghost predicate Adds(before: map<string, real>, scores: map<string, real>, ids: seq<string>, k: int) {
    && (forall id :: id in scores <==> id in before || id in ids)
    && (forall id :: (if id in scores then scores[id] else 0.0) == (if id in before then before[id] else 0.0) + Contribution(ids, id, k))
  }

  lemma AddsStep(before: map<string, real>, scores: map<string, real>, ids: seq<string>, id: string, ids': seq<string>, k: int)
    requires Adds(before, scores, ids, k) && ids' == ids + [id]
    ensures Adds(before, scores[id := (if id in scores then scores[id] else 0.0) + Weight(k, |ids'|)], ids', k)
  {
    assert Init(ids') == ids && Last(ids') == id;
  }

  lemma ScoresStep(before: map<string, real>, scores: map<string, real>, lists: seq<seq<string>>, ids: seq<string>, lists': seq<seq<string>>, k: int)
    requires Scores(before, lists, k) && Adds(before, scores, ids, k) && lists' == lists + [ids]
    ensures Scores(scores, lists', k)
  {
    assert Init(lists') == lists && Last(lists') == ids;
  }

  // ---------------------------------------------------------------- the order the scores induce

  lemma ReciprocalOrder(x: real, y: real)
    requires 0.0 < x < y
    ensures 1.0 / x > 1.0 / y
  {
    var m := x * y;
    assert (1.0 / x) * m == y && (1.0 / y) * m == x;
    ScaleOrder(1.0 / x, 1.0 / y, m);
  }

  lemma WeightOrder(k: nat, a: nat, b: nat)
    requires 1 <= a < b
    ensures Weight(k, a) > Weight(k, b)
  {
    ReciprocalOrder((k + a) as real, (k + b) as real);
  }

  lemma {:induction false} ContributionAbsent(ids: seq<string>, id: string, k: nat)
    requires id !in ids
    ensures Contribution(ids, id, k) == 0.0
  {
    if ids != [] {
      ContributionAbsent(Init(ids), id, k);
    }
  }

  /** In a list without repeats an id scores by its one rank. */
  lemma {:induction false} ContributionAt(ids: seq<string>, i: nat, k: nat)
    requires Distinct(ids) && i < |ids|
    ensures Contribution(ids, ids[i], k) == Weight(k, i + 1)
  {
    if i == |ids| - 1 {
      ContributionAbsent(Init(ids), ids[i], k);
    } else {
      ContributionAt(Init(ids), i, k);
    }
  }

  /** `a` stands before `b` in `ids`. */
  ghost predicate Before(ids: seq<string>, a: string, b: string) {
    exists i, j :: 0 <= i < j < |ids| && ids[i] == a && ids[j] == b
  }

  lemma {:induction false} PrecedingScoresNoLess(lists: seq<seq<string>>, a: string, b: string, k: nat)
    requires forall l :: l in lists ==> Distinct(l) && (b in l ==> Before(l, a, b))
    ensures Score(lists, a, k) >= Score(lists, b, k)
    ensures (exists l :: l in lists && b in l) ==> Score(lists, a, k) > Score(lists, b, k)
  {
    if lists != [] {
      var last := Last(lists);
      assert last in lists;
      PrecedingScoresNoLess(Init(lists), a, b, k);
      assert forall l :: l in lists ==> l in Init(lists) || l == last;
      ListPrefers(last, a, b, k);
    }
  }

  lemma ListPrefers(ids: seq<string>, a: string, b: string, k: nat)
    requires Distinct(ids) && (b in ids ==> Before(ids, a, b))
    ensures b in ids ==> Contribution(ids, a, k) > Contribution(ids, b, k)
    ensures b !in ids ==> Contribution(ids, a, k) >= Contribution(ids, b, k)
  {
    if b in ids {
      var i, j :| 0 <= i < j < |ids| && ids[i] == a && ids[j] == b;
      ContributionAt(ids, i, k);
      ContributionAt(ids, j, k);
      WeightOrder(k, i + 1, j + 1);
    } else {
      ContributionAbsent(ids, b, k);
      if i :| 0 <= i < |ids| && ids[i] == a {
        ContributionAt(ids, i, k);
      } else {
        ContributionAbsent(ids, a, k);
      }
    }
  }

  /** Two ranks together outweigh rank 1 alone exactly when (r1 - 1)(r2 - 1) < (k + 1)^2. */
  lemma TwoRanksAgainstFirst(k: nat, r1: nat, r2: nat)
    requires r1 >= 1 && r2 >= 1
    ensures Weight(k, r1) + Weight(k, r2) > Weight(k, 1) <==> (r1 - 1) * (r2 - 1) < (k + 1) * (k + 1)
    ensures Weight(k, r1) + Weight(k, r2) == Weight(k, 1) <==> (r1 - 1) * (r2 - 1) == (k + 1) * (k + 1)
  {
    var x, y, c := (k + r1) as real, (k + r2) as real, (k + 1) as real;
    SumOfReciprocals(x, y, c);
    var a, b, d := r1 - 1, r2 - 1, k + 1;
    assert k + r1 == a + d && k + r2 == b + d;
    assert x == (a + d) as real && y == (b + d) as real && c == d as real;
    assert c * (x + y) - x * y == (d * d - a * b) as real by {
      assert d * ((a + d) + (b + d)) - (a + d) * (b + d) == d * d - a * b;
      IntProducts(a, b, d);
    }
  }

  lemma IntProducts(a: int, b: int, d: int)
    ensures (d as real) * ((a + d) as real + (b + d) as real) - ((a + d) as real) * ((b + d) as real) == (d * d - a * b) as real
  {
    var p, q, r := a as real, b as real, d as real;
    assert (a + d) as real == p + r && (b + d) as real == q + r;
    assert (d * d) as real == r * r && (a * b) as real == p * q;
    assert r * ((p + r) + (q + r)) - (p + r) * (q + r) == r * r - p * q;
  }

  lemma SumOfReciprocals(x: real, y: real, c: real)
    requires x > 0.0 && y > 0.0 && c > 0.0
    ensures 1.0 / x + 1.0 / y > 1.0 / c <==> c * (x + y) > x * y
    ensures 1.0 / x + 1.0 / y == 1.0 / c <==> c * (x + y) == x * y
  {
    var s, t := 1.0 / x + 1.0 / y, 1.0 / c;
    var m := x * y * c;
    assert m > 0.0;
    assert s * m == c * (x + y) by {
      assert (1.0 / x) * x == 1.0 && (1.0 / y) * y == 1.0;
      assert (1.0 / x) * m == ((1.0 / x) * x) * (y * c);
      assert (1.0 / y) * m == ((1.0 / y) * y) * (x * c);
    }
    assert t * m == x * y by {
      assert t * m == (t * c) * (x * y);
      assert t * c == 1.0;
    }
    ScaleOrder(s, t, m);
  }

  lemma ScaleOrder(s: real, t: real, m: real)
    requires m > 0.0
    ensures s > t <==> s * m > t * m
    ensures s == t <==> s * m == t * m
  {
    assert (s - t) * m == s * m - t * m;
  }

  /** An id found by both channels, at positions `i` and `j`, against any id found by one channel only:
      it wins against all of them when its ranks satisfy the bound, and otherwise not against a rank-1 one. */
  lemma BothBeatsSingle(v: seq<string>, g: seq<string>, i: nat, j: nat, other: string, k: nat)
    requires Distinct(v) && Distinct(g) && i < |v| && j < |g| && v[i] == g[j]
    requires (other in v) != (other in g)
    ensures i * j < (k + 1) * (k + 1) ==> Score([v, g], v[i], k) > Score([v, g], other, k)
    ensures i * j >= (k + 1) * (k + 1) && (v[0] == other || g[0] == other) ==>
              Score([v, g], v[i], k) <= Score([v, g], other, k)
    ensures i * j == (k + 1) * (k + 1) && (v[0] == other || g[0] == other) ==>
              Score([v, g], v[i], k) == Score([v, g], other, k)
  {
    ScoreOfTwo(v, g, v[i], k);
    ScoreOfTwo(v, g, other, k);
    ContributionAt(v, i, k);
    ContributionAt(g, j, k);
    TwoRanksAgainstFirst(k, i + 1, j + 1);
    var list := if other in v then v else g;
    var p :| 0 <= p < |list| && list[p] == other;
    ContributionAt(list, p, k);
    ContributionAbsent(if other in v then g else v, other, k);
    if p > 0 {
      WeightOrder(k, 1, p + 1);
    }
  }

  lemma ScoreOfTwo(v: seq<string>, g: seq<string>, id: string, k: int)
    ensures Score([v, g], id, k) == Contribution(v, id, k) + Contribution(g, id, k)
  {
    assert Init([v, g]) == [v] && Init([v]) == [];
    assert Score([v], id, k) == Contribution(v, id, k);
  }

  /** Two ranks of at most k + 1 are always enough; k + 2 twice is the first tie with a lone rank 1. */
  lemma WithinKPlusOneWins(k: nat, r1: nat, r2: nat)
    requires r1 >= 1 && r2 >= 1
    ensures r1 <= k + 1 && r2 <= k + 1 ==> Weight(k, r1) + Weight(k, r2) > Weight(k, 1)
    ensures Weight(k, k + 2) + Weight(k, k + 2) == Weight(k, 1)
  {
    TwoRanksAgainstFirst(k, k + 2, k + 2);
    if r1 <= k + 1 && r2 <= k + 1 {
      SmallProduct(r1 - 1, r2 - 1, k);
      TwoRanksAgainstFirst(k, r1, r2);
    }
  }

  lemma SmallProduct(a: nat, b: nat, k: nat)
    requires a <= k && b <= k
    ensures a * b < (k + 1) * (k + 1)
  {
    assert a * b <= a * k <= k * k;
    assert (k + 1) * (k + 1) == k * k + 2 * k + 1;
  }

  // ---------------------------------------------------------------- conservation of score

  /** The weights of ranks 1 to `n`. */
  function Weights(k: int, n: nat): real {
    if n == 0 then 0.0 else Weights(k, n - 1) + Weight(k, n)
  }

  function TotalWeight(lists: seq<seq<string>>, k: int): real {
    if lists == [] then 0.0 else TotalWeight(Init(lists), k) + Weights(k, |Last(lists)|)
  }

  function SumOver(ids: seq<string>, f: string -> real): real {
    if ids == [] then 0.0 else SumOver(Init(ids), f) + f(Last(ids))
  }

  lemma {:induction false} SumOverAdds(ids: seq<string>, f: string -> real, g: string -> real, h: string -> real)
    requires forall id :: h(id) == f(id) + g(id)
    ensures SumOver(ids, h) == SumOver(ids, f) + SumOver(ids, g)
  {
    if ids != [] {
      SumOverAdds(Init(ids), f, g, h);
    }
  }

  /** A value given to one id and zero to the others sums to that value. */
  lemma {:induction false} SumOverPoint(ids: seq<string>, f: string -> real, x: string)
    requires Distinct(ids) && forall id :: id != x ==> f(id) == 0.0
    ensures SumOver(ids, f) == if x in ids then f(x) else 0.0
  {
    if ids != [] {
      SumOverPoint(Init(ids), f, x);
      assert ids == Init(ids) + [Last(ids)];
    }
  }

  lemma {:induction false} ListConserves(ids: seq<string>, list: seq<string>, k: int)
    requires Distinct(ids) && forall x :: x in list ==> x in ids
    ensures SumOver(ids, id => Contribution(list, id, k)) == Weights(k, |list|)
  {
    var f := (id: string) => Contribution(list, id, k);
    if list == [] {
      SumOverPoint(ids, f, "");
    } else {
      var rest := (id: string) => Contribution(Init(list), id, k);
      var point := (id: string) => if Last(list) == id then Weight(k, |list|) else 0.0;
      ListConserves(ids, Init(list), k);
      SumOverAdds(ids, rest, point, f);
      SumOverPoint(ids, point, Last(list));
      assert Last(list) in list;
    }
  }

  /** Over any enumeration of the ids, scores add up to the weights of all positions of all lists,
      however many repeats and overlaps the lists contain. */
  lemma {:induction false} ScoresConserve(ids: seq<string>, lists: seq<seq<string>>, k: int)
    requires Distinct(ids) && forall l, x :: l in lists && x in l ==> x in ids
    ensures SumOver(ids, id => Score(lists, id, k)) == TotalWeight(lists, k)
  {
    var f := (id: string) => Score(lists, id, k);
    if lists == [] {
      SumOverPoint(ids, f, "");
    } else {
      var rest := (id: string) => Score(Init(lists), id, k);
      var last := (id: string) => Contribution(Last(lists), id, k);
      assert Last(lists) in lists;
      ScoresConserve(ids, Init(lists), k);
      ListConserves(ids, Last(lists), k);
      SumOverAdds(ids, rest, last, f);
    }
  }
}
