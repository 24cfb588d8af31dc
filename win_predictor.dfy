/** The win-rate predictor (`WinRatePredictor`): five factors, each normalised
    to [0, 1] where the source clamps it, combined by a fixed weighted sum and
    mapped to a win rate clamped to [25, 85]. */
module WinPredictor {
  import opened Common
  import opened Dicts
  import PyRound

  /** The factor weights of `self.factors`; they add up to 1. */
  const AvgRatingWeight: real := 0.30
  const CurveQualityWeight: real := 0.25
  const SynergyWeight: real := 0.20
  const RoleCoverageWeight: real := 0.15
  const ConsistencyWeight: real := 0.10

  /** The parts of `deck_analysis` the predictor reads. A missing `curve` or
      `roles` entry is the empty table; a missing `avg_rating` or
      `synergy_analysis.synergy_score` is `None`. */
  datatype DeckSummary = DeckSummary(
    avgRating: Option<real>,
    curve: Dict<int, int>,
    synergyScore: Option<real>,
    roles: Dict<string, int>)

  /** `_normalize_rating`: (rating - 40) / 30 clamped to [0, 1]. */
  function NormalizeRating(rating: real): (r: real)
    ensures 0.0 <= r <= 1.0
    ensures rating <= 40.0 ==> r == 0.0
    ensures rating >= 70.0 ==> r == 1.0
    ensures 40.0 <= rating <= 70.0 ==> r == (rating - 40.0) / 30.0
  {
    MaxR(0.0, MinR(1.0, (rating - 40.0) / 30.0))
  }

  /** The ideal curve of `_evaluate_curve_quality`, in declaration order. */
  const IdealCurve: Dict<int, int> := [(1, 4), (2, 6), (3, 6), (4, 5), (5, 4), (6, 2)]

  /** The quality of one cost: 1 minus a third of the distance between the
      current count and the ideal count scaled to the deck's size, floored
      at 0. */
  function CostQuality(current: int, idealCount: int, total: int): (q: real)
    ensures 0.0 <= q <= 1.0
    ensures q == 1.0 <==> current as real == idealCount as real * (total as real / 30.0)
  {
    var expected := idealCount as real * (total as real / 30.0);
    MaxR(0.0, 1.0 - AbsR(current as real - expected) / 3.0)
  }

  /** The qualities of the costs of `ideal`, added up. */
  function QualitySum(curve: Dict<int, int>, ideal: Dict<int, int>, total: int): (q: real)
    ensures 0.0 <= q <= |ideal| as real
  {
    if ideal == [] then 0.0
    else
      var (cost, idealCount) := ideal[|ideal| - 1];
      QualitySum(curve, ideal[..|ideal| - 1], total) + CostQuality(Get(curve, cost, 0), idealCount, total)
  }

  /** `_evaluate_curve_quality`. */
  function CurveQualityOf(curve: Dict<int, int>): real {
    var total := SumValues(curve);
    if total == 0 then 0.5 else QualitySum(curve, IdealCurve, total) / |IdealCurve| as real
  }

  /** The curve quality is in [0, 1], and is 0.5 when the curve counts add
      up to 0 (in particular for an empty curve). */
  lemma CurveQualityBounds(curve: Dict<int, int>)
    ensures 0.0 <= CurveQualityOf(curve) <= 1.0
    ensures SumValues(curve) == 0 ==> CurveQualityOf(curve) == 0.5
  {
    var total := SumValues(curve);
    if total != 0 {
      var q := QualitySum(curve, IdealCurve, total);
      assert 0.0 <= q <= 6.0;
      assert 0.0 <= q / 6.0 <= 1.0;
    }
  }

  /** The targets of `_evaluate_role_coverage`, in declaration order. */
  const ImportantRoles: Dict<string, int> := [("removal", 3), ("draw", 2), ("finisher", 2), ("protection", 2)]

  /** `min(current / target, 1.0)`. */
  function RoleTerm(current: int, target: int): (t: real)
    requires target > 0
    ensures t <= 1.0
    ensures t == 1.0 <==> current >= target
    ensures current >= 0 ==> t >= 0.0
  {
    MinR(current as real / target as real, 1.0)
  }

  /** The coverage terms of the roles of `targets`, added up. */
  function CoverageSum(roles: Dict<string, int>, targets: Dict<string, int>): (c: real)
    requires forall j :: 0 <= j < |targets| ==> targets[j].1 > 0
    ensures c <= |targets| as real
    ensures (forall j :: 0 <= j < |roles| ==> roles[j].1 >= 0) ==> c >= 0.0
  {
    if targets == [] then 0.0
    else
      var (role, target) := targets[|targets| - 1];
      CoverageSum(roles, targets[..|targets| - 1]) + RoleTerm(Get(roles, role, 0), target)
  }

  /** `_evaluate_role_coverage`. */
  function RoleCoverageOf(roles: Dict<string, int>): real {
    CoverageSum(roles, ImportantRoles) / |ImportantRoles| as real
  }

  /** The role coverage is at most 1, and at least 0 when no role count is
      negative (as in every table `analyze_deck` builds). */
  lemma RoleCoverageBounds(roles: Dict<string, int>)
    ensures RoleCoverageOf(roles) <= 1.0
    ensures (forall j :: 0 <= j < |roles| ==> roles[j].1 >= 0) ==> RoleCoverageOf(roles) >= 0.0
  {
    var c := CoverageSum(roles, ImportantRoles);
    assert c <= 4.0;
  }

  /** `sum(1 for count in d.values() if count >= 2)`. */
  function DuplicateCount<K>(d: Dict<K, int>): nat {
    if d == [] then 0 else DuplicateCount(d[..|d| - 1]) + (if d[|d| - 1].1 >= 2 then 1 else 0)
  }

  /** The keys of `d` whose count is at least 2. */
  function Repeated<K>(d: Dict<K, int>): set<K> {
    set j | 0 <= j < |d| && d[j].1 >= 2 :: d[j].0
  }

  /** In a table with distinct keys, the count of entries >= 2 is the number
      of keys repeated. */
  lemma {:induction false} DuplicateCountRepeated<K>(d: Dict<K, int>)
    requires DistinctKeys(d)
    ensures DuplicateCount(d) == |Repeated(d)|
    decreases |d|
  {
    if d != [] {
      var n := |d| - 1;
      var p := d[..n];
      assert DistinctKeys(p);
      DuplicateCountRepeated(p);
      var e := d[n];
      assert d == p + [e];
      RepeatedSnoc(p, e);
      var r := Repeated(p);
      assert forall j :: 0 <= j < |p| ==> p[j].0 != e.0 by {
        forall j | 0 <= j < |p| ensures p[j].0 != e.0 {
          assert d[j] == p[j];
        }
      }
      assert e.0 !in r;
      assert DuplicateCount(d) == DuplicateCount(p) + (if e.1 >= 2 then 1 else 0);
      if e.1 >= 2 {
        assert |r + {e.0}| == |r| + 1;
      }
    }
  }

  lemma RepeatedSnoc<K>(p: Dict<K, int>, e: (K, int))
    ensures Repeated(p + [e]) == Repeated(p) + (if e.1 >= 2 then {e.0} else {})
  {
    var d := p + [e];
    forall x | x in Repeated(d)
      ensures x in Repeated(p) + (if e.1 >= 2 then {e.0} else {})
    {
      var j :| 0 <= j < |d| && d[j].1 >= 2 && d[j].0 == x;
      if j < |p| {
        assert p[j] == d[j];
      }
    }
    forall x | x in Repeated(p)
      ensures x in Repeated(d)
    {
      var j :| 0 <= j < |p| && p[j].1 >= 2 && p[j].0 == x;
      assert d[j] == p[j];
    }
    if e.1 >= 2 {
      assert d[|p|] == e;
    }
  }

  /** The ids of `ids` that occur at least twice. */
  function RepeatedIds(ids: seq<string>): set<string> {
    set x | x in ids && Occurrences(ids, x) >= 2
  }

  lemma RepeatedCounts(ids: seq<string>)
    ensures Repeated(CountsOf(ids)) == RepeatedIds(ids)
  {
    var d := CountsOf(ids);
    IncrementAllDistinct([], ids);
    forall x | x in RepeatedIds(ids)
      ensures x in Repeated(d)
    {
      GetCountsOf(ids, x);
      var j := Find(d, x);
      assert d[j].0 == x && d[j].1 >= 2;
    }
    forall x | x in Repeated(d)
      ensures x in RepeatedIds(ids)
    {
      var j :| 0 <= j < |d| && d[j].1 >= 2 && d[j].0 == x;
      GetCountsOf(ids, x);
      assert Find(d, x) == j;
    }
  }

  /** `_evaluate_consistency`. */
  function ConsistencyOf(ids: seq<string>): real {
    if ids == [] then 0.5 else MinR(DuplicateCount(CountsOf(ids)) as real / 4.0, 1.0)
  }

  /** The consistency of a non-empty deck is a quarter of the number of
      distinct ids that occur at least twice, capped at 1. */
  lemma ConsistencyCounts(ids: seq<string>)
    ensures ids != [] ==> ConsistencyOf(ids) == MinR(|RepeatedIds(ids)| as real / 4.0, 1.0)
    ensures 0.0 <= ConsistencyOf(ids) <= 1.0
  {
    IncrementAllDistinct([], ids);
    DuplicateCountRepeated(CountsOf(ids));
    RepeatedCounts(ids);
  }

  /** The factor values, in the order `predict_win_rate` inserts them. */
  datatype Factors = Factors(
    avgRating: real,
    curveQuality: real,
    synergyStrength: real,
    roleCoverage: real,
    consistency: real)

  /** `sum(factors[k] * self.factors[k] for k in factors.keys())`. */
  function WeightedScore(f: Factors): real {
    f.avgRating * AvgRatingWeight + f.curveQuality * CurveQualityWeight + f.synergyStrength * SynergyWeight
    + f.roleCoverage * RoleCoverageWeight + f.consistency * ConsistencyWeight
  }

  /** One improvement suggestion of `_generate_recommendations`. */
  datatype Tip = HigherRatedCards | ImproveCurve | MoreSynergy | BalanceRoles | WellBalanced

  /** `_generate_recommendations`. */
  function TipsOf(f: Factors): seq<Tip> {
    var tips := (if f.avgRating < 0.6 then [HigherRatedCards] else [])
                + (if f.curveQuality < 0.6 then [ImproveCurve] else [])
                + (if f.synergyStrength < 0.4 then [MoreSynergy] else [])
                + (if f.roleCoverage < 0.6 then [BalanceRoles] else []);
    if tips == [] then [WellBalanced] else tips
  }

  /** The suggestions are never empty; each of the four appears exactly when
      its factor is below its threshold, and the closing "well balanced" line
      appears only alone, exactly when none of them does. */
  lemma TipsProperties(f: Factors)
    ensures var t := TipsOf(f);
            t != [] && |t| <= 4
            && (HigherRatedCards in t <==> f.avgRating < 0.6)
            && (ImproveCurve in t <==> f.curveQuality < 0.6)
            && (MoreSynergy in t <==> f.synergyStrength < 0.4)
            && (BalanceRoles in t <==> f.roleCoverage < 0.6)
            && (WellBalanced in t <==> t == [WellBalanced])
            && (t == [WellBalanced] <==> f.avgRating >= 0.6 && f.curveQuality >= 0.6
                                         && f.synergyStrength >= 0.4 && f.roleCoverage >= 0.6)
  {
  }

  /** The result of `predict_win_rate`. An empty deck has no factors and no
      recommendations entry (`recommendations` is then []). */
  datatype Prediction = Prediction(winRate: real, confidence: int, factors: Option<Factors>, recommendations: seq<Tip>)

  function R2(f: Factors): Factors {
    Factors(PyRound.Round(f.avgRating, 2), PyRound.Round(f.curveQuality, 2), PyRound.Round(f.synergyStrength, 2),
            PyRound.Round(f.roleCoverage, 2), PyRound.Round(f.consistency, 2))
  }

  /** The factors of a non-empty deck, before display rounding. */
  function FactorsOf(ids: seq<string>, summary: DeckSummary): Factors {
    var rating := if summary.avgRating.Some? then summary.avgRating.value else 50.0;
    var synergy := if summary.synergyScore.Some? then summary.synergyScore.value else 0.0;
    Factors(NormalizeRating(rating), CurveQualityOf(summary.curve), MinR(synergy / 20.0, 1.0),
            RoleCoverageOf(summary.roles), ConsistencyOf(ids))
  }

  /** `35 + weighted_score * 40`, clamped to [25, 85]. */
  function ClampedRate(f: Factors): (w: real)
    ensures 25.0 <= w <= 85.0
  {
    MaxR(25.0, MinR(85.0, 35.0 + WeightedScore(f) * 40.0))
  }

  /** `predict_win_rate`. */
  function PredictionOf(ids: seq<string>, summary: DeckSummary): Prediction {
    if ids == [] then Prediction(50.0, 0, None, [])
    else
      var f := FactorsOf(ids, summary);
      Prediction(PyRound.Round(ClampedRate(f), 1), Min(100, |ids| * 4), Some(R2(f)), TipsOf(f))
  }

  /** Weights that add up to 1 over factors in [0, 1] keep the unclamped rate
      in [35, 75]. */
  lemma WeightedBand(f: Factors)
    requires 0.0 <= f.avgRating <= 1.0 && 0.0 <= f.curveQuality <= 1.0 && 0.0 <= f.synergyStrength <= 1.0
    requires 0.0 <= f.roleCoverage <= 1.0 && 0.0 <= f.consistency <= 1.0
    ensures 0.0 <= WeightedScore(f) <= 1.0
    ensures 35.0 <= ClampedRate(f) <= 75.0
  {
  }

  /** An empty deck predicts 50 with confidence 0. Otherwise the win rate is
      in [25, 85], the confidence is 4 per card up to 100, and there is at
      least one recommendation; and when the synergy score and the role
      counts are not negative every factor is in [0, 1] and the win rate is
      in [35, 75]. */
  lemma PredictionProperties(ids: seq<string>, summary: DeckSummary)
    ensures var p := PredictionOf(ids, summary);
            ids == [] ==> p.winRate == 50.0 && p.confidence == 0 && p.factors.None? && p.recommendations == []
    ensures var p := PredictionOf(ids, summary);
            ids != [] ==> 25.0 <= p.winRate <= 85.0 && p.confidence == Min(100, 4 * |ids|)
                          && p.recommendations != [] && p.factors.Some?
    ensures var p := PredictionOf(ids, summary);
            ids != [] && (summary.synergyScore.None? || summary.synergyScore.value >= 0.0)
            && (forall j :: 0 <= j < |summary.roles| ==> summary.roles[j].1 >= 0)
            ==> 35.0 <= p.winRate <= 75.0
  {
    if ids != [] {
      var f := FactorsOf(ids, summary);
      CurveQualityBounds(summary.curve);
      RoleCoverageBounds(summary.roles);
      ConsistencyCounts(ids);
      TipsProperties(f);
      PyRound.RoundBetween(ClampedRate(f), 25, 85, 1);
      if (summary.synergyScore.None? || summary.synergyScore.value >= 0.0)
         && (forall j :: 0 <= j < |summary.roles| ==> summary.roles[j].1 >= 0) {
        WeightedBand(f);
        PyRound.RoundBetween(ClampedRate(f), 35, 75, 1);
      }
    }
  }

  // ---------------------------------------------------------------------
  // The predictor's loops
  // ---------------------------------------------------------------------

  /** The loop of `_evaluate_curve_quality`. */
  method EvaluateCurveQuality(curve: Dict<int, int>) returns (quality: real)
    ensures quality == CurveQualityOf(curve)
  {
    var total := SumValues(curve);
    if total == 0 {
      return 0.5;
    }
    quality := 0.0;
    var i := 0;
    while i < |IdealCurve|
      invariant 0 <= i <= |IdealCurve|
      invariant quality == QualitySum(curve, IdealCurve[..i], total)
    {
      assert IdealCurve[..i + 1][..i] == IdealCurve[..i];
      var (cost, idealCount) := IdealCurve[i];
      quality := quality + CostQuality(Get(curve, cost, 0), idealCount, total);
      i := i + 1;
    }
    assert IdealCurve[..i] == IdealCurve;
    quality := quality / |IdealCurve| as real;
  }

  /** The loop of `_evaluate_role_coverage`. */
  method EvaluateRoleCoverage(roles: Dict<string, int>) returns (coverage: real)
    ensures coverage == RoleCoverageOf(roles)
  {
    coverage := 0.0;
    var i := 0;
    while i < |ImportantRoles|
      invariant 0 <= i <= |ImportantRoles|
      invariant coverage == CoverageSum(roles, ImportantRoles[..i])
    {
      assert ImportantRoles[..i + 1][..i] == ImportantRoles[..i];
      var (role, target) := ImportantRoles[i];
      coverage := coverage + RoleTerm(Get(roles, role, 0), target);
      i := i + 1;
    }
    assert ImportantRoles[..i] == ImportantRoles;
    coverage := coverage / |ImportantRoles| as real;
  }

  /** `_evaluate_consistency`: the count table loop, then the duplicate
      share. */
  method EvaluateConsistency(ids: seq<string>) returns (consistency: real)
    ensures consistency == ConsistencyOf(ids)
  {
    if ids == [] {
      return 0.5;
    }
    var counts: Dict<string, int> := [];
    var i := 0;
    while i < |ids|
      invariant 0 <= i <= |ids|
      invariant counts == IncrementAll([], ids[..i])
    {
      IncrementAllStep([], ids, i);
      counts := Increment(counts, ids[i]);
      i := i + 1;
    }
    assert ids[..i] == ids;
    consistency := MinR(DuplicateCount(counts) as real / 4.0, 1.0);
  }

  /** `_generate_recommendations`: one append per factor below its
      threshold, then the fallback. */
  method GenerateRecommendations(f: Factors) returns (tips: seq<Tip>)
    ensures tips == TipsOf(f)
  {
    tips := [];
    if f.avgRating < 0.6 {
      tips := tips + [HigherRatedCards];
    }
    if f.curveQuality < 0.6 {
      tips := tips + [ImproveCurve];
    }
    if f.synergyStrength < 0.4 {
      tips := tips + [MoreSynergy];
    }
    if f.roleCoverage < 0.6 {
      tips := tips + [BalanceRoles];
    }
    if tips == [] {
      tips := tips + [WellBalanced];
    }
  }

  /** `predict_win_rate`. */
  method PredictWinRate(ids: seq<string>, summary: DeckSummary) returns (p: Prediction)
    ensures p == PredictionOf(ids, summary)
  {
    if ids == [] {
      return Prediction(50.0, 0, None, []);
    }
    var rating := if summary.avgRating.Some? then summary.avgRating.value else 50.0;
    var avgRating := NormalizeRating(rating);
    var curveQuality := EvaluateCurveQuality(summary.curve);
    var synergyScore := if summary.synergyScore.Some? then summary.synergyScore.value else 0.0;
    var synergyStrength := MinR(synergyScore / 20.0, 1.0);
    var roleCoverage := EvaluateRoleCoverage(summary.roles);
    var consistency := EvaluateConsistency(ids);
    var factors := Factors(avgRating, curveQuality, synergyStrength, roleCoverage, consistency);
    assert factors == FactorsOf(ids, summary);
    var winRate := ClampedRate(factors);
    var confidence := Min(100, |ids| * 4);
    var tips := GenerateRecommendations(factors);
    p := Prediction(PyRound.Round(winRate, 1), confidence, Some(R2(factors)), tips);
  }
}
