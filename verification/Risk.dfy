/** Risk scoring of `app/decision/risk_scorer.py` and the recommendations of `app/decision/decision_service.py`.
    Floats are reals. */
module Risk {
  import opened Lists
  import opened Sorting
  import opened Sops
  import opened Rounding

  // ---------------------------------------------------------------- the three FMEA scales

  function Clamp(x: real, lo: real, hi: real): (r: real)
    requires lo <= hi
    ensures lo <= r <= hi
  {
    if x < lo then lo else if x > hi then hi else x
  }

  function ProbabilityToScale(p: real): real {
    Round4(1.0 + Clamp(p, 0.0, 1.0) * 9.0)
  }

  datatype SeverityTier = Critical | Degraded | Incipient | Unlisted

  function SeverityFromOntology(tier: Option<SeverityTier>, hint: Option<real>): real {
    if tier == Some(Critical) then 9.0
    else if tier == Some(Degraded) then 6.0
    else if tier == Some(Incipient) then 3.0
    else if hint.Some? && hint.value > 0.0 then Round4(Clamp(hint.value / 100.0, 1.0, 10.0))
    else 5.0
  }

  function DetectabilityFromConfidence(confidence: real): real {
    Round4(10.0 - Clamp(confidence, 0.0, 1.0) * 9.0)
  }

  /** Probability, severity and detectability on their scales. */
  datatype Factors = Factors(p: real, s: real, d: real)

  function FactorsOf(probability: real, tier: Option<SeverityTier>, hint: Option<real>, confidence: real): Factors {
    Factors(ProbabilityToScale(probability), SeverityFromOntology(tier, hint), DetectabilityFromConfidence(confidence))
  }

  predicate OnScale(f: Factors) {
    1.0 <= f.p <= 10.0 && 1.0 <= f.s <= 10.0 && 1.0 <= f.d <= 10.0
  }

  /** Whatever the inputs, every factor lies on the scale from 1 to 10. */
  lemma FactorsOnScale(p: real, tier: Option<SeverityTier>, hint: Option<real>, confidence: real)
    ensures OnScale(FactorsOf(p, tier, hint, confidence))
  {
    Round4Between(1.0 + Clamp(p, 0.0, 1.0) * 9.0, 1, 10);
    Round4Between(10.0 - Clamp(confidence, 0.0, 1.0) * 9.0, 1, 10);
    if hint.Some? {
      Round4Between(Clamp(hint.value / 100.0, 1.0, 10.0), 1, 10);
    }
  }

  /** A likelier failure scores no lower, a surer detection no higher. */
  lemma ScalesMonotone(a: real, b: real)
    requires a <= b
    ensures ProbabilityToScale(a) <= ProbabilityToScale(b)
    ensures DetectabilityFromConfidence(a) >= DetectabilityFromConfidence(b)
  {
    LikelierNoLower(a, b);
    SurerNoHigher(a, b);
  }

  lemma LikelierNoLower(a: real, b: real)
    requires a <= b
    ensures ProbabilityToScale(a) <= ProbabilityToScale(b)
  {
    Round4Monotone(1.0 + Clamp(a, 0.0, 1.0) * 9.0, 1.0 + Clamp(b, 0.0, 1.0) * 9.0);
  }

  lemma SurerNoHigher(a: real, b: real)
    requires a <= b
    ensures DetectabilityFromConfidence(a) >= DetectabilityFromConfidence(b)
  {
    Round4Monotone(10.0 - Clamp(b, 0.0, 1.0) * 9.0, 10.0 - Clamp(a, 0.0, 1.0) * 9.0);
  }

  /** Between 0 and 1 the scales are the lines from 1 to 10 and from 10 to 1, up to rounding, and the ends go on outside. */
  lemma ScalesAreLines(p: real)
    ensures 0.0 <= p <= 1.0 ==> 1.0 + 9.0 * p - 0.00005 <= ProbabilityToScale(p) <= 1.0 + 9.0 * p + 0.00005
    ensures 0.0 <= p <= 1.0 ==> 10.0 - 9.0 * p - 0.00005 <= DetectabilityFromConfidence(p) <= 10.0 - 9.0 * p + 0.00005
    ensures p <= 0.0 ==> ProbabilityToScale(p) == 1.0 && DetectabilityFromConfidence(p) == 10.0
    ensures p >= 1.0 ==> ProbabilityToScale(p) == 10.0 && DetectabilityFromConfidence(p) == 1.0
  {
    Round4Near(1.0 + Clamp(p, 0.0, 1.0) * 9.0);
    Round4Near(10.0 - Clamp(p, 0.0, 1.0) * 9.0);
    Round4Fixed(1.0, 10000);
    Round4Fixed(10.0, 100000);
  }

  /** The severity of the three tiers; without one a positive hint counts, a hundredth of it between 1 and 10
      up to rounding; without either the middle of the scale. */
  lemma SeverityIs(tier: Option<SeverityTier>, hint: Option<real>)
    ensures tier == Some(Critical) ==> SeverityFromOntology(tier, hint) == 9.0
    ensures tier == Some(Degraded) ==> SeverityFromOntology(tier, hint) == 6.0
    ensures tier == Some(Incipient) ==> SeverityFromOntology(tier, hint) == 3.0
    ensures tier in {None, Some(Unlisted)} ==>
              match hint
              case None => SeverityFromOntology(tier, hint) == 5.0
              case Some(h) =>
                var s := SeverityFromOntology(tier, hint);
                && (h <= 0.0 ==> s == 5.0)
                && (0.0 < h <= 100.0 ==> s == 1.0)
                && (100.0 <= h <= 1000.0 ==> h - 0.005 <= 100.0 * s <= h + 0.005)
                && (h >= 1000.0 ==> s == 10.0)
  {
    if hint.Some? {
      Round4Near(Clamp(hint.value / 100.0, 1.0, 10.0));
    }
    Round4Fixed(1.0, 10000);
    Round4Fixed(10.0, 100000);
  }

  // ---------------------------------------------------------------- the normalised score

  const RPN_CEILING := 1000.0

  /** The weighted risk priority number over the weighted ceiling, cut off at 1. */
  function Normalized(rpn: real, weight: real): real {
    var weighted := rpn * (if weight > 0.0 then weight else 0.0);
    var ceiling := RPN_CEILING * (if weight > 1.0 then weight else 1.0);
    if ceiling <= 0.0 then 0.0 else if weighted / ceiling < 1.0 then weighted / ceiling else 1.0
  }

  /** P x S x D. */
  function Rpn(f: Factors): real {
    f.p * f.s * f.d
  }

  function NormalizedRiskScore(f: Factors, weight: real): real {
    Round4(Normalized(Rpn(f), weight))
  }

  lemma Scale(a: real, b: real, c: real)
    requires a <= b && c >= 0.0
    ensures a * c <= b * c
    ensures a < b && c > 0.0 ==> a * c < b * c
  {
    ProductNonNegative(b - a, c);
    assert b * c - a * c == (b - a) * c;
  }

  lemma ProductNonNegative(a: real, b: real)
    requires a >= 0.0 && b >= 0.0
    ensures a * b >= 0.0
    ensures a > 0.0 && b > 0.0 ==> a * b > 0.0
  {
    if a == 0.0 {
      assert a * b == 0.0;
    } else if b == 0.0 {
      assert a * b == 0.0;
    }
  }

  /** Probability times severity times detectability, in whichever order. */
  lemma RpnOf(p: real, s: real, d: real)
    ensures Rpn(Factors(p, s, d)) == p * s * d == d * s * p
  {
  }

  lemma RpnBounds(f: Factors)
    requires OnScale(f)
    ensures 1.0 <= Rpn(f) <= RPN_CEILING
  {
    PairBounds(f.p, f.s, 10.0);
    PairBounds(f.p * f.s, f.d, 100.0);
  }

  lemma PairBounds(a: real, b: real, m: real)
    requires 1.0 <= a <= m && 1.0 <= b <= 10.0
    ensures 1.0 <= a * b <= 10.0 * m
  {
    Scale(a, m, b);
    assert a * b <= m * b;
    Scale(b, 10.0, m);
    assert b * m <= 10.0 * m;
    Scale(1.0, a, b);
    assert 1.0 * b <= a * b;
  }

  /** The normalised score is min(weight, 1) * P * S * D / 1000, a value in [0, 1]: the cut-off never bites. */
  lemma NormalizedIs(rpn: real, weight: real)
    requires 0.0 <= rpn <= RPN_CEILING
    ensures Normalized(rpn, weight) == Clamp(weight, 0.0, 1.0) * rpn / RPN_CEILING
    ensures 0.0 <= Normalized(rpn, weight) <= 1.0
  {
    if weight > 1.0 {
      NormalizedHeavy(rpn, weight);
    } else {
      NormalizedLight(rpn, weight);
    }
  }

  lemma NormalizedLight(rpn: real, weight: real)
    requires 0.0 <= rpn <= RPN_CEILING && weight <= 1.0
    ensures Normalized(rpn, weight) == Clamp(weight, 0.0, 1.0) * rpn / RPN_CEILING
    ensures 0.0 <= Normalized(rpn, weight) <= 1.0
  {
    var w := Clamp(weight, 0.0, 1.0);
    assert w == if weight > 0.0 then weight else 0.0;
    Within(w, rpn);
  }

  lemma Within(w: real, rpn: real)
    requires 0.0 <= w <= 1.0 && 0.0 <= rpn <= RPN_CEILING
    ensures 0.0 <= rpn * w == w * rpn <= RPN_CEILING
  {
    var rest := 1.0 - w;
    ProductNonNegative(w, rpn);
    ProductNonNegative(rest, rpn);
    assert (w + rest) * rpn == w * rpn + rest * rpn;
  }

  lemma NormalizedHeavy(rpn: real, weight: real)
    requires 0.0 <= rpn <= RPN_CEILING && weight > 1.0
    ensures Normalized(rpn, weight) == rpn / RPN_CEILING
  {
    var q, c := rpn / RPN_CEILING, RPN_CEILING * weight;
    Product(q, RPN_CEILING, weight);
    Cancel(q, c);
  }

  lemma Product(q: real, a: real, b: real)
    ensures q * (a * b) == (q * a) * b
  {
  }

  lemma Cancel(q: real, c: real)
    requires c != 0.0
    ensures (q * c) / c == q
  {
  }

  /** The score an assessment reports lies in [0, 1], within half a ten-thousandth of its closed form. */
  lemma ScoreInRange(f: Factors, weight: real)
    requires OnScale(f)
    ensures var exact := Clamp(weight, 0.0, 1.0) * Rpn(f) / 1000.0;
            0.0 <= NormalizedRiskScore(f, weight) <= 1.0 && exact - 0.00005 <= NormalizedRiskScore(f, weight) <= exact + 0.00005
  {
    RpnBounds(f);
    ReportedIs(Rpn(f), weight);
  }

  lemma ReportedIs(rpn: real, weight: real)
    requires 0.0 <= rpn <= RPN_CEILING
    ensures var exact, score := Clamp(weight, 0.0, 1.0) * rpn / RPN_CEILING, Round4(Normalized(rpn, weight));
            0.0 <= score <= 1.0 && exact - 0.00005 <= score <= exact + 0.00005
  {
    NormalizedIs(rpn, weight);
    RoundedScore(Normalized(rpn, weight));
  }

  lemma RoundedScore(x: real)
    requires 0.0 <= x <= 1.0
    ensures 0.0 <= Round4(x) <= 1.0 && x - 0.00005 <= Round4(x) <= x + 0.00005
  {
    Round4Between(x, 0, 1);
    Round4Near(x);
  }

  /** How the reported score follows the weight: never down; not at all between weights of 1 and more; and upwards
      when the closed forms differ by more than a ten-thousandth. */
  lemma WeightsOnScore(f: Factors, a: real, b: real)
    requires OnScale(f) && a <= b
    ensures NormalizedRiskScore(f, a) <= NormalizedRiskScore(f, b)
    ensures a >= 1.0 ==> NormalizedRiskScore(f, a) == NormalizedRiskScore(f, b)
    ensures (Clamp(b, 0.0, 1.0) - Clamp(a, 0.0, 1.0)) * Rpn(f) / RPN_CEILING > 0.0001 ==>
              NormalizedRiskScore(f, a) < NormalizedRiskScore(f, b)
  {
    RpnBounds(f);
    ReportedByWeight(Rpn(f), a, b);
  }

  lemma ReportedByWeight(rpn: real, a: real, b: real)
    requires 0.0 <= rpn <= RPN_CEILING && a <= b
    ensures Round4(Normalized(rpn, a)) <= Round4(Normalized(rpn, b))
    ensures a >= 1.0 ==> Round4(Normalized(rpn, a)) == Round4(Normalized(rpn, b))
    ensures (Clamp(b, 0.0, 1.0) - Clamp(a, 0.0, 1.0)) * rpn / RPN_CEILING > 0.0001 ==>
              Round4(Normalized(rpn, a)) < Round4(Normalized(rpn, b))
  {
    NormalizedByWeight(rpn, a, b);
    RoundedOrder(Normalized(rpn, a), Normalized(rpn, b));
  }

  lemma NormalizedByWeight(rpn: real, a: real, b: real)
    requires 0.0 <= rpn <= RPN_CEILING && a <= b
    ensures Normalized(rpn, a) <= Normalized(rpn, b)
    ensures a >= 1.0 ==> Normalized(rpn, a) == Normalized(rpn, b)
    ensures Normalized(rpn, b) - Normalized(rpn, a) == (Clamp(b, 0.0, 1.0) - Clamp(a, 0.0, 1.0)) * rpn / RPN_CEILING
  {
    NormalizedIs(rpn, a);
    NormalizedIs(rpn, b);
    Shares(Clamp(a, 0.0, 1.0), Clamp(b, 0.0, 1.0), rpn);
  }

  lemma Shares(u: real, v: real, rpn: real)
    requires u <= v && rpn >= 0.0
    ensures u * rpn / RPN_CEILING <= v * rpn / RPN_CEILING
    ensures v * rpn / RPN_CEILING - u * rpn / RPN_CEILING == (v - u) * rpn / RPN_CEILING
  {
    Scale(u, v, rpn);
    assert (v - u) * rpn == v * rpn - u * rpn;
  }

  lemma RoundedOrder(x: real, y: real)
    requires x <= y
    ensures Round4(x) <= Round4(y)
    ensures y - x > 0.0001 ==> Round4(x) < Round4(y)
  {
    Round4Monotone(x, y);
    Round4Near(x);
    Round4Near(y);
  }

  /** An asset of weight 1 or more outranks a backup (0.85) with the same failure profile. */
  lemma OutranksBackup(f: Factors, weight: real)
    requires OnScale(f) && weight >= 1.0
    ensures NormalizedRiskScore(f, 0.85) < NormalizedRiskScore(f, weight)
  {
    RpnBounds(f);
    WeightsOnScore(f, 0.85, weight);
  }

  /** A bottleneck (1.5) outranks a backup, as documented; a partly redundant asset (1.15) scores as the bottleneck does. */
  lemma TierOrder(f: Factors)
    requires OnScale(f)
    ensures NormalizedRiskScore(f, 0.85) < NormalizedRiskScore(f, 1.15) == NormalizedRiskScore(f, 1.5)
  {
    OutranksBackup(f, 1.15);
    WeightsOnScore(f, 1.15, 1.5);
  }

  /** Below 1 rounding can hide a difference of weights. */
  lemma SmallDifferenceHidden(f: Factors)
    requires f == Factors(1.0, 1.0, 1.0)
    ensures NormalizedRiskScore(f, 0.99999) == NormalizedRiskScore(f, 1.0) == 0.001
  {
    NormalizedIs(Rpn(f), 0.99999);
    NormalizedIs(Rpn(f), 1.0);
    RoundOfInt(10);
    assert Normalized(Rpn(f), 0.99999) * 10000.0 == 9.9999;
    assert RoundHalfEven(9.9999) == 10;
  }

  // ---------------------------------------------------------------- recommendations

  datatype Recommendation = Recommendation(rank: nat, sop: Option<Linkage>, riskIfIgnored: real, costAvoidance: real)

  function Decay(rank: nat): real {
    1.0 - 0.05 * (rank as real - 1.0)
  }

  function NonNegative(x: real): real {
    if x > 0.0 then x else 0.0
  }

  /** A score scaled down, never below zero, to four decimals; and an amount to two. */
  function Decayed(score: real, decay: real): real {
    Round4(NonNegative(score * decay))
  }

  function DecayedCost(amount: real, decay: real): real {
    Round2(NonNegative(amount * decay))
  }

  function RiskAtRank(score: real, rank: nat): real {
    Decayed(score, Decay(rank))
  }

  /** One SOP as a recommendation. */
  function AtRank(score: real, avoidance: real, sop: Linkage, rank: nat): Recommendation {
    Recommendation(rank, Some(sop), RiskAtRank(score, rank), DecayedCost(avoidance, Decay(rank)))
  }

  /** The SOPs recommended: the most effective ones, at most as many as requested. */
  function Recommended(linkages: seq<Linkage>, maxRecommendations: nat): seq<Linkage> {
    SliceTo(Sort(MoreEffective(), linkages), maxRecommendations)
  }

  /** The SOPs recommended come by descending effectiveness, equally effective ones as they were found,
      and none left out is more effective than one of them. */
  lemma RecommendedAreBest(linkages: seq<Linkage>, maxRecommendations: nat, e: real)
    ensures var r := Recommended(linkages, maxRecommendations);
            && |r| == (if maxRecommendations < |linkages| then maxRecommendations else |linkages|)
            && (forall i, j :: 0 <= i < j < |r| ==> r[i].effectiveness >= r[j].effectiveness)
            && (forall l, o :: l in r && o in linkages && o !in r ==> l.effectiveness >= o.effectiveness)
    ensures var all := Sort(MoreEffective(), linkages);
            && Recommended(linkages, maxRecommendations) <= all && multiset(all) == multiset(linkages)
            && var tied := (l: Linkage) => l.effectiveness == e; Filter(tied, all) == Filter(tied, linkages)
  {
    var le := MoreEffective();
    var all, r := Sort(le, linkages), Recommended(linkages, maxRecommendations);
    SortSorted(le, linkages);
    SortPermutes(le, linkages);
    assert forall i, j :: 0 <= i < j < |all| ==> le(all[i], all[j]);
    forall l, o | l in r && o in linkages && o !in r
      ensures l.effectiveness >= o.effectiveness
    {
      var i :| 0 <= i < |r| && r[i] == l;
      var j :| 0 <= j < |all| && all[j] == o;
      assert r[i] == all[i];
    }
    SortStable(le, linkages, (l: Linkage) => l.effectiveness == e);
  }

  /** Every rank loses a twentieth of risk and cost, up to rounding, until nothing is left at rank 21. */
  lemma LossByRank(score: real, avoidance: real, sop: Linkage, rank: nat)
    requires rank >= 1 && score >= 0.0 && avoidance >= 0.0
    ensures var r := AtRank(score, avoidance, sop, rank);
            var share := if rank <= 21 then 1.0 - (rank - 1) as real / 20.0 else 0.0;
            && score * share - 0.00005 <= r.riskIfIgnored <= score * share + 0.00005
            && avoidance * share - 0.005 <= r.costAvoidance <= avoidance * share + 0.005
            && r.rank == rank && r.sop == Some(sop)
  {
    var share := if rank <= 21 then 1.0 - (rank - 1) as real / 20.0 else 0.0;
    ShareOf(score, rank, share);
    ShareOf(avoidance, rank, share);
    Round4Near(NonNegative(score * Decay(rank)));
    Round2Near(NonNegative(avoidance * Decay(rank)));
  }

  lemma ShareOf(amount: real, rank: nat, share: real)
    requires rank >= 1 && amount >= 0.0 && share == if rank <= 21 then 1.0 - (rank - 1) as real / 20.0 else 0.0
    ensures NonNegative(amount * Decay(rank)) == amount * share
  {
    if rank <= 21 {
      assert Decay(rank) == share >= 0.0;
      ProductNonNegative(amount, share);
    } else {
      ProductNonNegative(amount, -Decay(rank));
      assert amount * Decay(rank) == -(amount * -Decay(rank));
    }
  }

  method Recommend(score: real, avoidance: real, sop: Linkage, rank: nat) returns (r: Recommendation)
    ensures r == AtRank(score, avoidance, sop, rank)
  {
    var decay := 1.0 - 0.05 * (rank as real - 1.0);
    assert decay == Decay(rank);
    var riskForRank := Decayed(score, decay);
    var costForRank := DecayedCost(avoidance, decay);
    r := Recommendation(rank, Some(sop), riskForRank, costForRank);
  }

  method BuildRecommendations(score: real, avoidance: real, linkages: seq<Linkage>, maxRecommendations: nat)
    returns (recommendations: seq<Recommendation>)
    requires maxRecommendations >= 1
    ensures linkages == [] ==> recommendations == [Recommendation(1, None, score, avoidance)]
    ensures linkages != [] ==>
              var sops := Recommended(linkages, maxRecommendations);
              && |recommendations| == |sops|
              && forall i :: 0 <= i < |sops| ==>
                   recommendations[i] == AtRank(score, avoidance, sops[i], i + 1)
  {
    if linkages == [] {
      return [Recommendation(1, None, score, avoidance)];
    }
    var cap := if maxRecommendations < |linkages| then maxRecommendations else |linkages|;
    var sops := SliceTo(Sort(MoreEffective(), linkages), cap);
    SortPermutes(MoreEffective(), linkages);
    assert sops == Recommended(linkages, maxRecommendations);
    recommendations := [];
    for i := 0 to |sops|
      invariant |recommendations| == i
      invariant forall j :: 0 <= j < i ==> recommendations[j] == AtRank(score, avoidance, sops[j], j + 1)
    {
      var r := Recommend(score, avoidance, sops[i], i + 1);
      recommendations := recommendations + [r];
    }
  }

  /** A non-negative number of at most four decimals, as every reported score is (`ScoreHasFourDecimals`). */
  predicate FourDecimals(x: real) {
    x >= 0.0 && Round4(x) == x
  }

  /** Risk never increases with rank, and stays within [0, score]. */
  lemma RiskFallsWithRank(score: real, a: nat, b: nat)
    requires 1 <= a <= b && FourDecimals(score)
    ensures 0.0 <= RiskAtRank(score, b) <= RiskAtRank(score, a) <= score
    ensures RiskAtRank(score, 1) == score
  {
    assert Decay(b) <= Decay(a) <= 1.0;
    var u, v, w := Decay(a), Decay(b), Decay(1);
    assert v <= u <= w == 1.0;
    DecayedRisk(score, u, v);
    DecayedRisk(score, w, u);
  }

  lemma DecayedRisk(score: real, u: real, v: real)
    requires v <= u <= 1.0 && FourDecimals(score)
    ensures 0.0 <= Decayed(score, v) <= Decayed(score, u) <= score
    ensures u == 1.0 ==> Decayed(score, u) == score
  {
    var x, y := score * u, score * v;
    ScaledDown(score, u, v, x, y);
    RoundedBetween(y, x, score);
    assert Decayed(score, v) == Round4(NonNegative(y)) && Decayed(score, u) == Round4(NonNegative(x));
  }

  lemma ScaledDown(score: real, u: real, v: real, x: real, y: real)
    requires v <= u <= 1.0 && score >= 0.0 && x == score * u && y == score * v
    ensures y <= x <= score
    ensures u == 1.0 ==> x == score
  {
    Difference(score, u, v, x, y);
    Difference(score, 1.0, u, score, x);
  }

  lemma Difference(c: real, a: real, b: real, x: real, y: real)
    requires c >= 0.0 && a >= b && x == c * a && y == c * b
    ensures x >= y
    ensures a == b ==> x == y
  {
    ProductNonNegative(c, a - b);
    assert c * (a - b) == x - y;
  }

  lemma RoundedBetween(y: real, x: real, score: real)
    requires y <= x <= score && FourDecimals(score)
    ensures 0.0 <= Round4(NonNegative(y)) <= Round4(NonNegative(x)) <= score
    ensures x == score ==> Round4(NonNegative(x)) == score
  {
    Round4Monotone(NonNegative(y), NonNegative(x));
    Round4Monotone(NonNegative(x), score);
    Round4Monotone(0.0, NonNegative(y));
    Round4Fixed(0.0, 0);
  }

  function HighestRisk(recommendations: seq<Recommendation>): real
    requires recommendations != []
  {
    if |recommendations| == 1 then recommendations[0].riskIfIgnored
    else
      var rest, last := HighestRisk(Init(recommendations)), Last(recommendations).riskIfIgnored;
      if last > rest then last else rest
  }

  /** The overall risk of a response: the highest among its recommendations, rounded. */
  function OverallRisk(recommendations: seq<Recommendation>): real
    requires recommendations != []
  {
    Round4(HighestRisk(recommendations))
  }

  lemma {:induction false} HighestIsFirst(recommendations: seq<Recommendation>)
    requires recommendations != []
    requires forall r :: r in recommendations ==> r.riskIfIgnored <= recommendations[0].riskIfIgnored
    ensures HighestRisk(recommendations) == recommendations[0].riskIfIgnored
  {
    if |recommendations| > 1 {
      assert Last(recommendations) in recommendations;
      HighestIsFirst(Init(recommendations));
    }
  }

  lemma ScoreHasFourDecimals(f: Factors, weight: real)
    requires OnScale(f)
    ensures FourDecimals(NormalizedRiskScore(f, weight))
  {
    ScoreInRange(f, weight);
    var x := Normalized(Rpn(f), weight);
    Round4Fixed(Round4(x), RoundHalfEven(x * 10000.0));
  }

  /** The overall risk of any response equals the normalised score behind it, whichever SOPs were found,
      and no recommendation outranks a riskier one. */
  method RecommendAndAssess(f: Factors, weight: real, avoidance: real, linkages: seq<Linkage>, maxRecommendations: nat)
    returns (recommendations: seq<Recommendation>, overall: real)
    requires OnScale(f) && maxRecommendations >= 1
    ensures recommendations != [] && |recommendations| <= maxRecommendations
    ensures overall == OverallRisk(recommendations) == NormalizedRiskScore(f, weight)
    ensures forall i, j :: 0 <= i < j < |recommendations| ==> recommendations[i].riskIfIgnored >= recommendations[j].riskIfIgnored
  {
    var score := NormalizedRiskScore(f, weight);
    ScoreHasFourDecimals(f, weight);
    recommendations := BuildRecommendations(score, avoidance, linkages, maxRecommendations);
    SortPermutes(MoreEffective(), linkages);
    RisksDescend(score, recommendations);
    HighestIsFirst(recommendations);
    overall := OverallRisk(recommendations);
  }

  lemma RisksDescend(score: real, rs: seq<Recommendation>)
    requires rs != [] && FourDecimals(score)
    requires forall i :: 0 <= i < |rs| ==> rs[i].riskIfIgnored == RiskAtRank(score, i + 1) || (i == 0 && rs[i].riskIfIgnored == score)
    ensures rs[0].riskIfIgnored == score
    ensures forall i, j :: 0 <= i < j < |rs| ==> rs[i].riskIfIgnored >= rs[j].riskIfIgnored
  {
    RiskFallsWithRank(score, 1, 1);
    forall i, j | 0 <= i < j < |rs|
      ensures rs[i].riskIfIgnored >= rs[j].riskIfIgnored
    {
      RiskFallsWithRank(score, i + 1, j + 1);
    }
  }
}
