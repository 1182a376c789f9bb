/** `ContextFusionEngine.fuse`: one candidate per id, scored, ranked by a stable sort and cut to length. */
module FusionEngine {
  import opened Lists
  import opened Sorting
  import opened Fusion

  datatype VectorHit = VectorHit(chunkId: string, score: real)

  datatype GraphHit = GraphHit(nodeId: string, relevance: real)

  datatype Source = FromVector | FromGraph | FromBoth

  datatype Candidate = Candidate(id: string, source: Source, scoreVector: real, scoreGraph: real, rrfScore: real)

  /** The mark that provenance carries, read off the scores. */
  function FusedSource(c: Candidate): Source {
    if c.scoreVector > 0.0 && c.scoreGraph > 0.0 then FromBoth
    else if c.scoreVector > 0.0 then FromVector
    else FromGraph
  }

  datatype FusionMethod = Rrf | Weighted(vectorWeight: real, graphWeight: real) | Unknown(name: string)

  // ---------------------------------------------------------------- what fusing means

  /** The vector hits that carry an id, as a ranked list. */
  function VectorRanked(hits: seq<VectorHit>): RankedList {
    if hits == [] then []
    else VectorRanked(Init(hits)) + if Last(hits).chunkId != "" then [(Last(hits).chunkId, Last(hits).score)] else []
  }

  function GraphRanked(hits: seq<GraphHit>): RankedList {
    if hits == [] then []
    else GraphRanked(Init(hits)) + if Last(hits).nodeId != "" then [(Last(hits).nodeId, Last(hits).relevance)] else []
  }

  /** The score of the last entry for `id`, 0 when there is none. */
  function LastScore(ranked: RankedList, id: string): real {
    if ranked == [] then 0.0
    else if Last(ranked).0 == id then Last(ranked).1
    else LastScore(Init(ranked), id)
  }

  /** The channels recorded for `id`. A node that the graph channel lists twice is recorded as found by both. */
  function SourceOf(v: RankedList, g: RankedList, id: string): Source {
    if id in Ids(v) then if id in Ids(g) then FromBoth else FromVector
    else if multiset(Ids(g))[id] >= 2 then FromBoth
    else FromGraph
  }

  function Unscored(v: RankedList, g: RankedList, id: string): Candidate {
    Candidate(id, SourceOf(v, g, id), LastScore(v, id), LastScore(g, id), 0.0)
  }

  function FusedIds(v: RankedList, g: RankedList): seq<string> {
    FirstSeen(Ids(v) + Ids(g))
  }

  /** The score a method gives. Weights are normalised by their sum, or by 1 when the sum is 0. */
  function FusedScore(m: FusionMethod, k: int, v: RankedList, g: RankedList, c: Candidate): real {
    match m
    case Rrf => Score([Ids(v), Ids(g)], c.id, k)
    case Weighted(vw, gw) =>
      var total := if vw + gw != 0.0 then vw + gw else 1.0;
      (vw / total) * c.scoreVector + (gw / total) * c.scoreGraph
    case Unknown(_) => 0.0
  }

  function Scored(m: FusionMethod, k: int, v: RankedList, g: RankedList, id: string): Candidate {
    var c := Unscored(v, g, id);
    c.(rrfScore := FusedScore(m, k, v, g, c))
  }

  /** The candidates in the order in which their ids first appear, scored. */
  function Candidates(m: FusionMethod, k: int, v: RankedList, g: RankedList): (r: seq<Candidate>)
    ensures |r| == |FusedIds(v, g)|
  {
    var ids := FusedIds(v, g);
    seq(|ids|, i requires 0 <= i < |ids| => Scored(m, k, v, g, ids[i]))
  }

  /** The sort key: the fused score for RRF, but the plain sum of channel scores for the weighted method. */
  function SortKey(m: FusionMethod, c: Candidate): real {
    if m.Rrf? then c.rrfScore else c.scoreVector + c.scoreGraph
  }

  function RankedBefore(m: FusionMethod): (Candidate, Candidate) -> bool {
    (a, b) => SortKey(m, a) >= SortKey(m, b)
  }

  // ---------------------------------------------------------------- the loops

  lemma IdsSnoc(ranked: RankedList, id: string, score: real)
    ensures Ids(ranked + [(id, score)]) == Ids(ranked) + [id]
  {
  }

  lemma {:induction false} AbsentScore(ranked: RankedList, id: string)
    requires id !in Ids(ranked)
    ensures LastScore(ranked, id) == 0.0
  {
    if ranked != [] {
      assert ranked == Init(ranked) + [Last(ranked)];
      IdsSnoc(Init(ranked), Last(ranked).0, Last(ranked).1);
      AbsentScore(Init(ranked), id);
    }
  }

  /** The dictionary built so far: its key order and its records. */
  ghost predicate VectorTable(v: RankedList, order: seq<string>, table: map<string, Candidate>) {
    && order == FirstSeen(Ids(v))
    && (forall id :: id in table <==> id in order)
    && (forall id :: id in table ==> table[id] == Candidate(id, FromVector, LastScore(v, id), 0.0, 0.0))
  }

  ghost predicate FusedTable(v: RankedList, g: RankedList, order: seq<string>, table: map<string, Candidate>) {
    && order == FusedIds(v, g)
    && (forall id :: id in table <==> id in order)
    && (forall id :: id in table ==> table[id] == Unscored(v, g, id))
  }

  lemma VectorHitStep(v: RankedList, order: seq<string>, table: map<string, Candidate>, cid: string, score: real)
    requires VectorTable(v, order, table)
    ensures VectorTable(v + [(cid, score)], if cid in table then order else order + [cid],
                        table[cid := Candidate(cid, FromVector, score, 0.0, 0.0)])
  {
    var v' := v + [(cid, score)];
    IdsSnoc(v, cid, score);
    FirstSeenSnoc(Ids(v), cid);
    assert Init(v') == v && Last(v') == (cid, score);
  }

  /** The vector channel: a later hit replaces the record but keeps its place. */
  method AddVectorHits(hits: seq<VectorHit>) returns (order: seq<string>, table: map<string, Candidate>)
    ensures VectorTable(VectorRanked(hits), order, table)
  {
    order, table := [], map[];
    ghost var v: RankedList := [];
    for i := 0 to |hits|
      invariant v == VectorRanked(hits[..i]) && VectorTable(v, order, table)
    {
      PrefixStep(hits, i);
      var cid, score := hits[i].chunkId, hits[i].score;
      if cid != "" {
        VectorHitStep(v, order, table, cid, score);
        if cid !in table {
          order := order + [cid];
        }
        table := table[cid := Candidate(cid, FromVector, score, 0.0, 0.0)];
        v := v + [(cid, score)];
      }
    }
    assert hits[..|hits|] == hits;
  }

  /** The graph channel: an id already present only has its graph score and its source overwritten. */
  method AddGraphHits(ghost v: RankedList, hits: seq<GraphHit>, order0: seq<string>, table0: map<string, Candidate>)
    returns (order: seq<string>, table: map<string, Candidate>)
    requires VectorTable(v, order0, table0)
    ensures FusedTable(v, GraphRanked(hits), order, table)
  {
    order, table := order0, table0;
    ghost var g: RankedList := [];
    assert Ids(v) + Ids(g) == Ids(v);
    for j := 0 to |hits|
      invariant g == GraphRanked(hits[..j]) && FusedTable(v, g, order, table)
    {
      PrefixStep(hits, j);
      var key, score := hits[j].nodeId, hits[j].relevance;
      if key != "" {
        GraphHitStep(v, g, order, table, key, score);
        if key in table {
          table := table[key := table[key].(scoreGraph := score, source := FromBoth)];
        } else {
          order := order + [key];
          table := table[key := Candidate(key, FromGraph, 0.0, score, 0.0)];
        }
        g := g + [(key, score)];
      }
    }
    assert hits[..|hits|] == hits;
  }

  /** What one more graph entry changes. */
  lemma GraphHitStep(v: RankedList, g: RankedList, order: seq<string>, table: map<string, Candidate>, key: string, score: real)
    requires FusedTable(v, g, order, table)
    ensures FusedTable(v, g + [(key, score)], if key in table then order else order + [key],
                       table[key := if key in table then table[key].(scoreGraph := score, source := FromBoth)
                                    else Candidate(key, FromGraph, 0.0, score, 0.0)])
  {
    UnscoredStep(v, g, key, score);
  }

  lemma UnscoredStep(v: RankedList, g: RankedList, key: string, score: real)
    ensures var g' := g + [(key, score)];
            && FusedIds(v, g') == (if key in FusedIds(v, g) then FusedIds(v, g) else FusedIds(v, g) + [key])
            && (forall id :: id != key ==> Unscored(v, g', id) == Unscored(v, g, id))
            && Unscored(v, g', key) == (if key in FusedIds(v, g)
                                        then Unscored(v, g, key).(scoreGraph := score, source := FromBoth)
                                        else Candidate(key, FromGraph, 0.0, score, 0.0))
  {
    var g' := g + [(key, score)];
    IdsSnoc(g, key, score);
    FusedIdsStep(v, g, g', key);
    LastScoreStep(g, key, score);
    SourceStep(v, g, g', key);
    if key !in Ids(v) {
      AbsentScore(v, key);
    }
  }

  lemma {:induction false} FusedIdsStep(v: RankedList, g: RankedList, g': RankedList, key: string)
    requires Ids(g') == Ids(g) + [key]
    ensures FusedIds(v, g') == if key in FusedIds(v, g) then FusedIds(v, g) else FusedIds(v, g) + [key]
  {
    assert Ids(v) + Ids(g') == (Ids(v) + Ids(g)) + [key];
    FirstSeenSnoc(Ids(v) + Ids(g), key);
  }

  lemma {:induction false} LastScoreStep(g: RankedList, key: string, score: real)
    ensures forall id :: LastScore(g + [(key, score)], id) == if id == key then score else LastScore(g, id)
  {
    assert Init(g + [(key, score)]) == g && Last(g + [(key, score)]) == (key, score);
  }

  lemma {:induction false} SourceStep(v: RankedList, g: RankedList, g': RankedList, key: string)
    requires Ids(g') == Ids(g) + [key]
    ensures forall id :: id != key ==> SourceOf(v, g', id) == SourceOf(v, g, id)
    ensures SourceOf(v, g', key) == if key in Ids(v) || key in Ids(g) then FromBoth else FromGraph
  {
    assert multiset(Ids(g')) == multiset(Ids(g)) + multiset{key};
  }

  /** The score of one candidate under the chosen method. */
  method ScoreCandidate(k: int, m: FusionMethod, ghost v: RankedList, ghost g: RankedList, c: Candidate, scores: map<string, real>)
    returns (scored: Candidate)
    requires !m.Unknown? && c == Unscored(v, g, c.id)
    requires m.Rrf? ==> c.id in scores && scores[c.id] == Score([Ids(v), Ids(g)], c.id, k)
    ensures scored == Scored(m, k, v, g, c.id)
  {
    match m {
      case Rrf =>
        scored := c.(rrfScore := scores[c.id]);
      case Weighted(vw, gw) =>
        var total := if vw + gw != 0.0 then vw + gw else 1.0;
        scored := c.(rrfScore := (vw / total) * c.scoreVector + (gw / total) * c.scoreGraph);
    }
  }

  /** The fused scores for RRF; the weighted method needs none. */
  method RrfScores(k: int, m: FusionMethod, v: RankedList, g: RankedList) returns (r: Result<map<string, real>, FusionError>)
    ensures if m.Rrf? && Undefined(k, [Ids(v), Ids(g)]) then r == Err(DivisionByZero) else r.Ok?
    ensures m.Rrf? && r.Ok? ==>
              forall id :: id in FusedIds(v, g) ==> id in r.value && r.value[id] == Score([Ids(v), Ids(g)], id, k)
  {
    if m.Rrf? {
      TwoLists(v, g);
      r := ReciprocalRankFusion([v, g], k);
    } else {
      r := Ok(map[]);
    }
  }

  /** Every candidate scored, in dictionary order. */
  method ScoreAll(k: int, m: FusionMethod, ghost v: RankedList, ghost g: RankedList,
                  order: seq<string>, table: map<string, Candidate>, scores: map<string, real>)
    returns (candidates: seq<Candidate>)
    requires !m.Unknown? && FusedTable(v, g, order, table)
    requires m.Rrf? ==> forall id :: id in order ==> id in scores && scores[id] == Score([Ids(v), Ids(g)], id, k)
    ensures candidates == Candidates(m, k, v, g)
  {
    candidates := [];
    for i := 0 to |order|
      invariant |candidates| == i
      invariant forall j :: 0 <= j < i ==> candidates[j] == Scored(m, k, v, g, order[j])
    {
      var id := order[i];
      var c := ScoreCandidate(k, m, v, g, table[id], scores);
      candidates := candidates + [c];
    }
  }

  /** The candidates, best first, cut to length. */
  function Ranking(m: FusionMethod, k: int, vectorHits: seq<VectorHit>, graphHits: seq<GraphHit>, maxCandidates: int): seq<Candidate> {
    SliceTo(Sort(RankedBefore(m), Candidates(m, k, VectorRanked(vectorHits), GraphRanked(graphHits))), maxCandidates)
  }

  method Fuse(k: int, m: FusionMethod, vectorHits: seq<VectorHit>, graphHits: seq<GraphHit>, maxCandidates: int)
    returns (r: Result<seq<Candidate>, FusionError>)
    ensures m.Unknown? ==> r == Err(UnknownMethod(m.name))
    ensures !m.Unknown? ==>
              r == if m.Rrf? && Undefined(k, [Ids(VectorRanked(vectorHits)), Ids(GraphRanked(graphHits))]) then Err(DivisionByZero)
                   else Ok(Ranking(m, k, vectorHits, graphHits, maxCandidates))
  {
    var v, g := VectorRanked(vectorHits), GraphRanked(graphHits);
    var order, table := AddVectorHits(vectorHits);
    order, table := AddGraphHits(v, graphHits, order, table);
    if m.Unknown? {
      return Err(UnknownMethod(m.name));
    }
    var scores := RrfScores(k, m, v, g);
    if scores.Err? {
      return Err(DivisionByZero);
    }
    var candidates := ScoreAll(k, m, v, g, order, table, scores.value);
    return Ok(SliceTo(Sort(RankedBefore(m), candidates), maxCandidates));
  }

  lemma TwoLists(v: RankedList, g: RankedList)
    ensures IdLists([v, g]) == [Ids(v), Ids(g)]
    ensures forall id :: id in Flatten([Ids(v), Ids(g)]) <==> id in FusedIds(v, g)
  {
    var ls := [Ids(v), Ids(g)];
    assert Init(ls) == [Ids(v)] && Init([Ids(v)]) == [];
    assert Flatten([Ids(v)]) == [] + Ids(v);
    assert Flatten(ls) == Ids(v) + Ids(g);
  }

  // ---------------------------------------------------------------- the ranking

  lemma CandidateIdsDistinct(m: FusionMethod, k: int, v: RankedList, g: RankedList)
    ensures var cs := Candidates(m, k, v, g);
            && Distinct(cs)
            && forall i, j :: 0 <= i < j < |cs| ==> cs[i].id != cs[j].id
  {
    FirstSeenDistinct(Ids(v) + Ids(g));
  }

  /** The kept candidates are distinct and in descending order of key,
      and nothing left out has a higher key than anything kept. */
  lemma TopCandidates(m: FusionMethod, cs: seq<Candidate>, maxCandidates: int)
    requires Distinct(cs)
    ensures var kept := SliceTo(Sort(RankedBefore(m), cs), maxCandidates);
            && (maxCandidates >= 0 ==> |kept| == if maxCandidates < |cs| then maxCandidates else |cs|)
            && (forall i, j :: 0 <= i < j < |kept| ==> SortKey(m, kept[i]) >= SortKey(m, kept[j]) && kept[i] != kept[j])
            && (forall c, d :: c in kept && d in cs && d !in kept ==> SortKey(m, c) >= SortKey(m, d))
  {
    var le := RankedBefore(m);
    var ranked := Sort(le, cs);
    SortSorted(le, cs);
    SortPermutes(le, cs);
    SortDistinct(le, cs);
    KeptFirst(m, ranked, SliceTo(ranked, maxCandidates));
  }

  lemma KeptFirst(m: FusionMethod, ranked: seq<Candidate>, kept: seq<Candidate>)
    requires Sorted(RankedBefore(m), ranked) && kept <= ranked
    ensures forall c, d :: c in kept && d in ranked && d !in kept ==> SortKey(m, c) >= SortKey(m, d)
    ensures forall i, j :: 0 <= i < j < |kept| ==> SortKey(m, kept[i]) >= SortKey(m, kept[j])
  {
    forall c, d | c in kept && d in ranked && d !in kept
      ensures SortKey(m, c) >= SortKey(m, d)
    {
      var i :| 0 <= i < |kept| && kept[i] == c;
      var j :| 0 <= j < |ranked| && ranked[j] == d;
      assert RankedBefore(m)(ranked[i], ranked[j]);
    }
    forall i, j | 0 <= i < j < |kept|
      ensures SortKey(m, kept[i]) >= SortKey(m, kept[j])
    {
      assert RankedBefore(m)(ranked[i], ranked[j]);
    }
  }

  /** Candidates with equal keys stay in the order in which their ids first appeared. */
  lemma TiesKeepOrder(m: FusionMethod, cs: seq<Candidate>, key: real)
    ensures var tied := (c: Candidate) => SortKey(m, c) == key;
            Filter(tied, Sort(RankedBefore(m), cs)) == Filter(tied, cs)
  {
    SortStable(RankedBefore(m), cs, (c: Candidate) => SortKey(m, c) == key);
  }

  /** The RRF scores of the candidates add up to the weights of all ranked positions of both channels. */
  lemma FusedScoresConserve(k: int, v: RankedList, g: RankedList)
    ensures SumOver(FusedIds(v, g), id => Scored(Rrf, k, v, g, id).rrfScore) == Weights(k, |v|) + Weights(k, |g|)
  {
    var ids, lists := FusedIds(v, g), [Ids(v), Ids(g)];
    FirstSeenDistinct(Ids(v) + Ids(g));
    ScoresConserve(ids, lists, k);
    assert Init(lists) == [Ids(v)] && Init([Ids(v)]) == [];
    assert TotalWeight([Ids(v)], k) == Weights(k, |v|);
    SumOverSame(ids, id => Scored(Rrf, k, v, g, id).rrfScore, id => Score(lists, id, k));
  }

  lemma {:induction false} SumOverSame(ids: seq<string>, f: string -> real, h: string -> real)
    requires forall id :: f(id) == h(id)
    ensures SumOver(ids, f) == SumOver(ids, h)
  {
    if ids != [] {
      SumOverSame(Init(ids), f, h);
    }
  }
}
