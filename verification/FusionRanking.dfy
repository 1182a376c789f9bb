/** What the fused ranking keeps, the order of the reciprocal-rank scores, and what it does not: the order of the
    weighted scores, and the marks of repeated nodes. */
module FusionRanking {
  import opened Lists
  import opened Sorting
  import opened Fusion
  import opened FusionEngine

  /** A candidate carries its fused score. */
  lemma {:induction false} CandidateScore(m: FusionMethod, k: int, v: RankedList, g: RankedList, c: Candidate)
    requires c in Candidates(m, k, v, g)
    ensures c.rrfScore == FusedScore(m, k, v, g, c) && c.id in FusedIds(v, g) && c.source == SourceOf(v, g, c.id)
  {
    var i :| 0 <= i < |Candidates(m, k, v, g)| && Candidates(m, k, v, g)[i] == c;
    assert FusedIds(v, g)[i] in FusedIds(v, g);
  }

  lemma {:induction false} RankingDescends(m: FusionMethod, k: int, vectorHits: seq<VectorHit>, graphHits: seq<GraphHit>, n: int)
    ensures var r := Ranking(m, k, vectorHits, graphHits, n);
            && (forall c :: c in r ==> c in Candidates(m, k, VectorRanked(vectorHits), GraphRanked(graphHits)))
            && (forall i, j :: 0 <= i < j < |r| ==> SortKey(m, r[i]) >= SortKey(m, r[j]))
  {
    var cs := Candidates(m, k, VectorRanked(vectorHits), GraphRanked(graphHits));
    var ranked, r := Sort(RankedBefore(m), cs), Ranking(m, k, vectorHits, graphHits, n);
    SortPermutes(RankedBefore(m), cs);
    SortSorted(RankedBefore(m), cs);
    KeptFirst(m, ranked, r);
    assert forall c :: c in r ==> c in ranked;
  }

  /** The order the weights are documented to give. */
  ghost predicate DescendsByScore(cs: seq<Candidate>) {
    forall i, j :: 0 <= i < j < |cs| ==> cs[i].rrfScore >= cs[j].rrfScore
  }

  /** The rankings of the weighted method are in order of its weighted score exactly when both weights are the same. */
  lemma {:induction false} RankedByWeightedScoreIff(k: int, vw: real, gw: real)
    ensures (forall vectorHits, graphHits, n :: DescendsByScore(Ranking(Weighted(vw, gw), k, vectorHits, graphHits, n))) <==> vw == gw
  {
    var m := Weighted(vw, gw);
    if vw == gw {
      forall vectorHits, graphHits, n
        ensures DescendsByScore(Ranking(m, k, vectorHits, graphHits, n))
      {
        EqualWeightsDescend(k, vw, vectorHits, graphHits, n);
      }
    } else {
      var x := if vw / Total(vw, gw) < gw / Total(vw, gw) then 1.0 else 0.0;
      var vectorHits, graphHits := [VectorHit("c", x), VectorHit("d", 1.0 - x)], [GraphHit("c", 1.0 - x), GraphHit("d", x)];
      MirroredPair(k, vw, gw, x, vectorHits, graphHits);
      DifferentShares(vw, gw);
      assert !DescendsByScore(Ranking(m, k, vectorHits, graphHits, 2));
    }
  }

  /** The weighted method ranks by the plain sum of the two scores: its weights change no position,
      although they are documented as the relative weights of the channels. */
  lemma {:induction false} WeightsDoNotRank(k: int, v: RankedList, g: RankedList, a: FusionMethod, b: FusionMethod)
    requires a.Weighted? && b.Weighted?
    ensures var f := (c: Candidate) => c.(rrfScore := FusedScore(b, k, v, g, c));
            Sort(RankedBefore(b), Candidates(b, k, v, g)) == Map(f, Sort(RankedBefore(a), Candidates(a, k, v, g)))
  {
    var f := (c: Candidate) => c.(rrfScore := FusedScore(b, k, v, g, c));
    var before, after := Candidates(a, k, v, g), Candidates(b, k, v, g);
    assert forall i :: 0 <= i < |before| ==> f(before[i]) == after[i];
    assert after == Map(f, before);
    SortOfMap(RankedBefore(a), RankedBefore(b), f, Candidates(a, k, v, g));
  }

  function Total(vw: real, gw: real): (total: real)
    ensures total != 0.0
  {
    if vw + gw != 0.0 then vw + gw else 1.0
  }

  lemma {:induction false} DifferentShares(vw: real, gw: real)
    requires vw != gw
    ensures vw / Total(vw, gw) != gw / Total(vw, gw)
  {
    var total := Total(vw, gw);
    assert (vw / total) * total == vw && (gw / total) * total == gw;
  }

  lemma {:induction false} EqualWeightsDescend(k: int, w: real, vectorHits: seq<VectorHit>, graphHits: seq<GraphHit>, n: int)
    ensures DescendsByScore(Ranking(Weighted(w, w), k, vectorHits, graphHits, n))
  {
    var r := Ranking(Weighted(w, w), k, vectorHits, graphHits, n);
    RankingDescends(Weighted(w, w), k, vectorHits, graphHits, n);
    forall i, j | 0 <= i < j < |r|
      ensures r[i].rrfScore >= r[j].rrfScore
    {
      assert r[i] in r && r[j] in r;
      ScoreFollowsKey(k, w, VectorRanked(vectorHits), GraphRanked(graphHits), r[i], r[j]);
    }
  }

  lemma {:induction false} ScoreFollowsKey(k: int, w: real, v: RankedList, g: RankedList, c: Candidate, d: Candidate)
    requires c in Candidates(Weighted(w, w), k, v, g) && d in Candidates(Weighted(w, w), k, v, g)
    requires c.scoreVector + c.scoreGraph >= d.scoreVector + d.scoreGraph
    ensures c.rrfScore >= d.rrfScore
  {
    CandidateScore(Weighted(w, w), k, v, g, c);
    CandidateScore(Weighted(w, w), k, v, g, d);
    EqualShare(w, c.scoreVector, c.scoreGraph);
    EqualShare(w, d.scoreVector, d.scoreGraph);
  }

  lemma {:induction false} EqualShare(w: real, x: real, y: real)
    ensures (w / Total(w, w)) * x + (w / Total(w, w)) * y == if w == 0.0 then 0.0 else (x + y) / 2.0
  {
    if w != 0.0 {
      assert w / (w + w) == 0.5;
    }
  }

  lemma {:induction false} VectorSnoc(hits: seq<VectorHit>, h: VectorHit)
    requires h.chunkId != ""
    ensures VectorRanked(hits + [h]) == VectorRanked(hits) + [(h.chunkId, h.score)]
  {
    assert Init(hits + [h]) == hits && Last(hits + [h]) == h;
  }

  lemma {:induction false} GraphSnoc(hits: seq<GraphHit>, h: GraphHit)
    requires h.nodeId != ""
    ensures GraphRanked(hits + [h]) == GraphRanked(hits) + [(h.nodeId, h.relevance)]
  {
    assert Init(hits + [h]) == hits && Last(hits + [h]) == h;
  }

  lemma {:induction false} TwoVectorHits(a: VectorHit, b: VectorHit)
    requires a.chunkId != "" && b.chunkId != ""
    ensures VectorRanked([a, b]) == [(a.chunkId, a.score), (b.chunkId, b.score)]
  {
    VectorSnoc([], a);
    VectorSnoc([a], b);
    assert [] + [a] == [a] && [a] + [b] == [a, b];
  }

  lemma {:induction false} TwoGraphHits(a: GraphHit, b: GraphHit)
    requires a.nodeId != "" && b.nodeId != ""
    ensures GraphRanked([a, b]) == [(a.nodeId, a.relevance), (b.nodeId, b.relevance)]
  {
    GraphSnoc([], a);
    GraphSnoc([a], b);
    assert [] + [a] == [a] && [a] + [b] == [a, b];
  }

  lemma {:induction false} LastOfTwo(ranked: RankedList, c: string, x: real, d: string, y: real)
    requires ranked == [(c, x), (d, y)] && c != d
    ensures LastScore(ranked, c) == x && LastScore(ranked, d) == y
  {
    assert Init(ranked) == [(c, x)];
  }

  lemma {:induction false} LastOfOne(ranked: RankedList, c: string, x: real)
    requires ranked == [(c, x)]
    ensures forall id :: LastScore(ranked, id) == if id == c then x else 0.0
  {
    assert Init(ranked) == [];
  }

  /** Two candidates are ranked by their keys, the earlier one first if they tie. */
  lemma {:induction false} RankingOfTwo(m: FusionMethod, k: int, vectorHits: seq<VectorHit>, graphHits: seq<GraphHit>, n: int,
                                        v: RankedList, g: RankedList, c: Candidate, d: Candidate)
    requires v == VectorRanked(vectorHits) && g == GraphRanked(graphHits) && FusedIds(v, g) == [c.id, d.id] && n >= 2
    requires c == Scored(m, k, v, g, c.id) && d == Scored(m, k, v, g, d.id)
    ensures Ranking(m, k, vectorHits, graphHits, n) == if SortKey(m, c) >= SortKey(m, d) then [c, d] else [d, c]
  {
    assert Candidates(m, k, v, g) == [c, d];
    SortPair(RankedBefore(m), c, d);
  }

  /** Two candidates of equal sums, whose scores are exchanged between the channels. */
  lemma {:induction false} MirroredPair(k: int, vw: real, gw: real, x: real, vectorHits: seq<VectorHit>, graphHits: seq<GraphHit>)
    requires vectorHits == [VectorHit("c", x), VectorHit("d", 1.0 - x)]
    requires graphHits == [GraphHit("c", 1.0 - x), GraphHit("d", x)]
    ensures var r := Ranking(Weighted(vw, gw), k, vectorHits, graphHits, 2);
            && |r| == 2
            && r[0].rrfScore == (vw / Total(vw, gw)) * x + (gw / Total(vw, gw)) * (1.0 - x)
            && r[1].rrfScore == (vw / Total(vw, gw)) * (1.0 - x) + (gw / Total(vw, gw)) * x
  {
    var m, v, g := Weighted(vw, gw), VectorRanked(vectorHits), GraphRanked(graphHits);
    TwoVectorHits(vectorHits[0], vectorHits[1]);
    TwoGraphHits(graphHits[0], graphHits[1]);
    assert Ids(v) == ["c", "d"] && Ids(g) == ["c", "d"];
    SameIds(v, g, "c", "d");
    LastOfTwo(v, "c", x, "d", 1.0 - x);
    LastOfTwo(g, "c", 1.0 - x, "d", x);
    RankingOfTwo(m, k, vectorHits, graphHits, 2, v, g, Scored(m, k, v, g, "c"), Scored(m, k, v, g, "d"));
  }

  lemma {:induction false} SameIds(v: RankedList, g: RankedList, c: string, d: string)
    requires Ids(v) == Ids(g) == [c, d] && c != d
    ensures FusedIds(v, g) == [c, d]
  {
    FirstSeenTwice([c, d]);
  }

  lemma {:induction false} OneIdEach(v: RankedList, g: RankedList, p: string, x: real, q: string, y: real)
    requires v == [(p, x)] && g == [(q, y)] && p != q
    ensures FusedIds(v, g) == [p, q]
  {
    assert Ids(v) + Ids(g) == [p] + [q];
    FirstSeenOfDistinct([p] + [q]);
  }

  /** With the default weights 0.6 and 0.4 a graph node of relevance 0.95 is ranked above a chunk of score 0.9,
      although its weighted score is lower. */
  lemma {:induction false} DefaultWeightsMisrank(k: int, vectorHits: seq<VectorHit>, graphHits: seq<GraphHit>)
    requires vectorHits == [VectorHit("p", 0.9)] && graphHits == [GraphHit("q", 0.95)]
    ensures var r := Ranking(Weighted(0.6, 0.4), k, vectorHits, graphHits, 20);
            |r| == 2 && r[0].id == "q" && r[1].id == "p" && r[0].rrfScore == 0.38 && r[1].rrfScore == 0.54
  {
    var m, v, g := Weighted(0.6, 0.4), VectorRanked(vectorHits), GraphRanked(graphHits);
    VectorSnoc([], vectorHits[0]);
    GraphSnoc([], graphHits[0]);
    OneIdEach(v, g, "p", 0.9, "q", 0.95);
    LastOfOne(v, "p", 0.9);
    LastOfOne(g, "q", 0.95);
    RankingOfTwo(m, k, vectorHits, graphHits, 20, v, g, Scored(m, k, v, g, "p"), Scored(m, k, v, g, "q"));
  }

  // ---------------------------------------------------------------- the reciprocal-rank method

  /** The score of an id over the two channels, as the method is documented. */
  function RrfScore(k: int, v: RankedList, g: RankedList, id: string): real {
    Contribution(Ids(v), id, k) + Contribution(Ids(g), id, k)
  }

  /** The default method returns candidates by descending score, each the sum over both channels,
      and leaves out no id that scores higher than a returned one. */
  lemma {:induction false} RankedByRrf(k: int, vectorHits: seq<VectorHit>, graphHits: seq<GraphHit>, n: int)
    ensures var v, g, r := VectorRanked(vectorHits), GraphRanked(graphHits), Ranking(Rrf, k, vectorHits, graphHits, n);
            && DescendsByScore(r)
            && (forall c :: c in r ==> c.rrfScore == RrfScore(k, v, g, c.id))
            && (forall c, id :: c in r && (id in Ids(v) || id in Ids(g)) && (forall d :: d in r ==> d.id != id) ==>
                 RrfScore(k, v, g, id) <= c.rrfScore)
  {
    var v, g, r := VectorRanked(vectorHits), GraphRanked(graphHits), Ranking(Rrf, k, vectorHits, graphHits, n);
    RankingDescends(Rrf, k, vectorHits, graphHits, n);
    forall c | c in r
      ensures c.rrfScore == RrfScore(k, v, g, c.id)
    {
      CandidateScore(Rrf, k, v, g, c);
      ScoreOfTwo(Ids(v), Ids(g), c.id, k);
    }
    forall c, id | c in r && (id in Ids(v) || id in Ids(g)) && (forall d :: d in r ==> d.id != id)
      ensures RrfScore(k, v, g, id) <= c.rrfScore
    {
      OmittedScoresLess(k, vectorHits, graphHits, n, c, id);
    }
  }

  lemma {:induction false} OmittedScoresLess(k: int, vectorHits: seq<VectorHit>, graphHits: seq<GraphHit>, n: int, c: Candidate, id: string)
    requires c in Ranking(Rrf, k, vectorHits, graphHits, n)
    requires id in Ids(VectorRanked(vectorHits)) || id in Ids(GraphRanked(graphHits))
    requires forall d :: d in Ranking(Rrf, k, vectorHits, graphHits, n) ==> d.id != id
    ensures RrfScore(k, VectorRanked(vectorHits), GraphRanked(graphHits), id) <= c.rrfScore
  {
    var v, g := VectorRanked(vectorHits), GraphRanked(graphHits);
    var d := Scored(Rrf, k, v, g, id);
    RankedSomewhere(Rrf, k, vectorHits, graphHits, id);
    KeptScoresMore(k, vectorHits, graphHits, n, c, d);
    ScoreOfTwo(Ids(v), Ids(g), id, k);
  }

  lemma {:induction false} KeptScoresMore(k: int, vectorHits: seq<VectorHit>, graphHits: seq<GraphHit>, n: int, c: Candidate, d: Candidate)
    requires c in Ranking(Rrf, k, vectorHits, graphHits, n) && d !in Ranking(Rrf, k, vectorHits, graphHits, n)
    requires d in Ranking(Rrf, k, vectorHits, graphHits, |Candidates(Rrf, k, VectorRanked(vectorHits), GraphRanked(graphHits))|)
    ensures d.rrfScore <= c.rrfScore
  {
    var cs := Candidates(Rrf, k, VectorRanked(vectorHits), GraphRanked(graphHits));
    var ranked := Sort(RankedBefore(Rrf), cs);
    SortSorted(RankedBefore(Rrf), cs);
    KeptFirst(Rrf, ranked, Ranking(Rrf, k, vectorHits, graphHits, n));
    assert d in ranked;
  }

  /** An id that both channels list, at positions `i` and `j` of lists without repeats, comes before every id that only one
      of them lists, when i * j < (k + 1)^2; and it is returned whenever such an id is. */
  lemma {:induction false} BothRankedFirst(k: nat, vectorHits: seq<VectorHit>, graphHits: seq<GraphHit>, n: int, i: nat, j: nat, q: nat)
    requires var v, g, r := Ids(VectorRanked(vectorHits)), Ids(GraphRanked(graphHits)), Ranking(Rrf, k, vectorHits, graphHits, n);
             && Distinct(v) && Distinct(g) && i < |v| && j < |g| && v[i] == g[j] && i * j < (k + 1) * (k + 1)
             && q < |r| && (r[q].id in v) != (r[q].id in g)
    ensures exists p :: 0 <= p < q && Ranking(Rrf, k, vectorHits, graphHits, n)[p].id == Ids(VectorRanked(vectorHits))[i]
  {
    var v, g, r := VectorRanked(vectorHits), GraphRanked(graphHits), Ranking(Rrf, k, vectorHits, graphHits, n);
    var both, other := Ids(v)[i], r[q];
    RankedByRrf(k, vectorHits, graphHits, n);
    BothBeatsSingle(Ids(v), Ids(g), i, j, other.id, k);
    ScoreOfTwo(Ids(v), Ids(g), both, k);
    ScoreOfTwo(Ids(v), Ids(g), other.id, k);
    assert other in r && both in Ids(v);
    assert RrfScore(k, v, g, both) > other.rrfScore;
    var p :| 0 <= p < |r| && r[p].id == both;
    assert r[p] in r;
  }

  // ---------------------------------------------------------------- the source marks

  /** The channels that list an id. */
  function Channels(v: RankedList, g: RankedList, id: string): Source {
    if id in Ids(v) then if id in Ids(g) then FromBoth else FromVector else FromGraph
  }

  ghost predicate MarkedRight(v: RankedList, g: RankedList, cs: seq<Candidate>) {
    forall c :: c in cs ==> c.source == Channels(v, g, c.id)
  }

  /** Every returned candidate is marked with the channels that list it, at whatever length the ranking is cut,
      exactly when the graph channel repeats no id of its own. */
  lemma {:induction false} MarkedRightIff(m: FusionMethod, k: int, vectorHits: seq<VectorHit>, graphHits: seq<GraphHit>)
    ensures var v, g := VectorRanked(vectorHits), GraphRanked(graphHits);
            (forall n :: MarkedRight(v, g, Ranking(m, k, vectorHits, graphHits, n))) <==>
            (forall id :: id !in Ids(v) ==> multiset(Ids(g))[id] <= 1)
  {
    var v, g := VectorRanked(vectorHits), GraphRanked(graphHits);
    var cs := Candidates(m, k, v, g);
    if forall id :: id !in Ids(v) ==> multiset(Ids(g))[id] <= 1 {
      forall n, c | c in Ranking(m, k, vectorHits, graphHits, n)
        ensures c.source == Channels(v, g, c.id)
      {
        RankingDescends(m, k, vectorHits, graphHits, n);
        CandidateScore(m, k, v, g, c);
      }
    }
    if forall n :: MarkedRight(v, g, Ranking(m, k, vectorHits, graphHits, n)) {
      assert MarkedRight(v, g, Ranking(m, k, vectorHits, graphHits, |cs|));
      forall id | id !in Ids(v)
        ensures multiset(Ids(g))[id] <= 1
      {
        if id in Ids(g) {
          RankedSomewhere(m, k, vectorHits, graphHits, id);
        }
      }
    }
  }

  lemma {:induction false} RankedSomewhere(m: FusionMethod, k: int, vectorHits: seq<VectorHit>, graphHits: seq<GraphHit>, id: string)
    requires id in Ids(VectorRanked(vectorHits)) || id in Ids(GraphRanked(graphHits))
    ensures var v, g := VectorRanked(vectorHits), GraphRanked(graphHits);
            Scored(m, k, v, g, id) in Ranking(m, k, vectorHits, graphHits, |Candidates(m, k, v, g)|)
  {
    var v, g := VectorRanked(vectorHits), GraphRanked(graphHits);
    var cs, ids := Candidates(m, k, v, g), FusedIds(v, g);
    SortPermutes(RankedBefore(m), cs);
    assert id in Ids(v) + Ids(g);
    var i :| 0 <= i < |ids| && ids[i] == id;
    assert cs[i] in cs;
  }

  /** A node that only the graph channel lists, but twice, is marked as found by both. */
  lemma {:induction false} ListedTwiceMarkedBoth(m: FusionMethod, k: int, vectorHits: seq<VectorHit>, graphHits: seq<GraphHit>)
    requires vectorHits == [] && graphHits == [GraphHit("n", 0.9), GraphHit("n", 0.8)]
    ensures var r := Ranking(m, k, vectorHits, graphHits, 20);
            |r| == 1 && r[0].id == "n" && r[0].source == FromBoth
  {
    var v, g := VectorRanked(vectorHits), GraphRanked(graphHits);
    TwoGraphHits(graphHits[0], graphHits[1]);
    RepeatedId(v, g, "n");
    var c := Scored(m, k, v, g, "n");
    assert Candidates(m, k, v, g) == [c];
    SortOne(RankedBefore(m), c);
  }

  // ---------------------------------------------------------------- the marks in provenance

  /** What the vector channel lists has a positive score there, and one in the graph channel if that lists it too. */
  ghost predicate ScoresPositive(v: RankedList, g: RankedList) {
    forall id :: id in Ids(v) ==> LastScore(v, id) > 0.0 && (id in Ids(g) ==> LastScore(g, id) > 0.0)
  }

  ghost predicate CitedRight(v: RankedList, g: RankedList, cs: seq<Candidate>) {
    forall c :: c in cs ==> FusedSource(c) == Channels(v, g, c.id)
  }

  lemma {:induction false} CandidateScores(m: FusionMethod, k: int, v: RankedList, g: RankedList, c: Candidate)
    requires c in Candidates(m, k, v, g)
    ensures c.scoreVector == LastScore(v, c.id) && c.scoreGraph == LastScore(g, c.id)
    ensures c.id !in Ids(v) ==> c.scoreVector == 0.0
    ensures c.id !in Ids(g) ==> c.scoreGraph == 0.0
  {
    var i :| 0 <= i < |Candidates(m, k, v, g)| && Candidates(m, k, v, g)[i] == c;
    if c.id !in Ids(v) {
      AbsentScore(v, c.id);
    }
    if c.id !in Ids(g) {
      AbsentScore(g, c.id);
    }
  }

  /** The mark that provenance carries names the channels that list the candidate, at whatever length the ranking is cut,
      exactly when the scores of what the vector channel lists are positive. */
  lemma {:induction false} CitedRightIff(m: FusionMethod, k: int, vectorHits: seq<VectorHit>, graphHits: seq<GraphHit>)
    ensures var v, g := VectorRanked(vectorHits), GraphRanked(graphHits);
            (forall n :: CitedRight(v, g, Ranking(m, k, vectorHits, graphHits, n))) <==> ScoresPositive(v, g)
  {
    var v, g := VectorRanked(vectorHits), GraphRanked(graphHits);
    var cs := Candidates(m, k, v, g);
    if ScoresPositive(v, g) {
      forall n, c | c in Ranking(m, k, vectorHits, graphHits, n)
        ensures FusedSource(c) == Channels(v, g, c.id)
      {
        RankingDescends(m, k, vectorHits, graphHits, n);
        CandidateScores(m, k, v, g, c);
      }
    }
    if forall n :: CitedRight(v, g, Ranking(m, k, vectorHits, graphHits, n)) {
      var whole := Ranking(m, k, vectorHits, graphHits, |cs|);
      assert CitedRight(v, g, whole);
      forall id | id in Ids(v)
        ensures LastScore(v, id) > 0.0 && (id in Ids(g) ==> LastScore(g, id) > 0.0)
      {
        RankedSomewhere(m, k, vectorHits, graphHits, id);
        assert Scored(m, k, v, g, id) in whole;
      }
    }
  }

  /** A chunk of score 0 is cited as found in the graph. */
  lemma {:induction false} ZeroScoreCitedAsGraph(m: FusionMethod, k: int, vectorHits: seq<VectorHit>, graphHits: seq<GraphHit>)
    requires vectorHits == [VectorHit("p", 0.0)] && graphHits == []
    ensures var r := Ranking(m, k, vectorHits, graphHits, 20);
            |r| == 1 && r[0].id == "p" && FusedSource(r[0]) == FromGraph
  {
    var v, g := VectorRanked(vectorHits), GraphRanked(graphHits);
    VectorSnoc([], vectorHits[0]);
    OneId(v, g, "p", 0.0);
    LastOfOne(v, "p", 0.0);
    var c := Scored(m, k, v, g, "p");
    assert Candidates(m, k, v, g) == [c];
    SortOne(RankedBefore(m), c);
  }

  lemma {:induction false} OneId(v: RankedList, g: RankedList, p: string, x: real)
    requires v == [(p, x)] && g == []
    ensures FusedIds(v, g) == [p]
  {
    assert Ids(v) + Ids(g) == [p];
    FirstSeenOfDistinct([p]);
  }

  lemma {:induction false} RepeatedId(v: RankedList, g: RankedList, id: string)
    requires v == [] && |g| == 2 && g[0].0 == g[1].0 == id
    ensures FusedIds(v, g) == [id] && SourceOf(v, g, id) == FromBoth
  {
    assert Ids(g) == [id, id];
    assert Ids(v) + Ids(g) == [id] + [id];
    FirstSeenOfDistinct([id]);
    FirstSeenSnoc([id], id);
  }
}
