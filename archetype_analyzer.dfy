/** The archetype engine (`ArchetypeAnalyzer`): detects which catalogued
    archetype of the deck's main class the deck follows, recommends the costs
    the deck lacks for that archetype's curve, and gives a candidate a bonus
    when its text carries one of the archetype's key patterns. */
module ArchetypeAnalyzer {
  import opened Common
  import opened Dicts
  import opened Decks
  import PyRound

  /** One catalogue entry (`Archetype`). The ideal curve keeps the order in
      which the catalogue lists its costs. */
  datatype Archetype = Archetype(
    name: string,
    classId: int,
    keyPatterns: seq<string>,
    idealCurve: Dict<int, int>,
    strategyDescription: string,
    minCardsThreshold: int)

  /** `_initialize_archetypes`, in catalogue order. */
  const Catalogue: seq<Archetype> := [
    Archetype("フェアリーテンポ", 1, ["フェアリー", "コンボ_[2-4]"],
              [(1, 4), (2, 6), (3, 5), (4, 4), (5, 3)], "フェアリーを活用した序中盤制圧", 4),
    Archetype("兵士展開", 2, ["兵士", "指揮官", "連携"],
              [(1, 3), (2, 7), (3, 6), (4, 4), (5, 3)], "兵士シナジーによる盤面制圧", 5),
    Archetype("スペルブースト", 3, ["スペルブースト", "スペル"],
              [(1, 3), (2, 4), (3, 5), (4, 6), (5, 5)], "スペルでブーストし大型展開", 6),
    Archetype("土の秘術", 3, ["土の印", "土の秘術"],
              [(1, 4), (2, 6), (3, 5), (4, 4), (5, 3)], "土の印を活用した除去制圧", 4),
    Archetype("ランプ", 4, ["PP.*増", "PP.*回復", "覚醒"],
              [(1, 2), (2, 4), (3, 3), (4, 4), (5, 5), (6, 4)], "PPブーストから大型展開", 3),
    Archetype("ネクロマンス", 5, ["ネクロマンス", "墓場"],
              [(1, 4), (2, 5), (3, 5), (4, 4), (5, 4)], "墓場活用による後半戦略", 4),
    Archetype("守護回復", 6, ["守護", "回復", "カウントダウン"],
              [(1, 3), (2, 5), (3, 4), (4, 5), (5, 4)], "守護と回復による長期戦略", 5),
    Archetype("アーティファクト", 7, ["アーティファクト", "融合"],
              [(1, 3), (2, 4), (3, 5), (4, 5), (5, 4)], "アーティファクト生成・活用", 4)
  ]

  /** Every catalogue entry asks for at least three key cards, and no two
      entries share a name. */
  lemma CatalogueShape()
    ensures forall i :: 0 <= i < |Catalogue| ==> Catalogue[i].minCardsThreshold >= 3 && Catalogue[i].name != ""
    ensures forall i, j :: 0 <= i < j < |Catalogue| ==> Catalogue[i].name != Catalogue[j].name
  {
  }

  // ---------------------------------------------------------------------
  // Detection
  // ---------------------------------------------------------------------

  /** The score of an archetype over the deck: 2 for every card whose text
      matches one of its key patterns (a card counts once). */
  function ArchetypeScore(m: Matcher, a: Archetype, cs: seq<Card>): int {
    2 * MatchCount(m, a.keyPatterns, cs)
  }

  /** An archetype that competes for the deck: it belongs to the main class and
      enough cards carry its key patterns. */
  predicate Eligible(m: Matcher, a: Archetype, main: int, cs: seq<Card>) {
    a.classId == main && MatchCount(m, a.keyPatterns, cs) >= a.minCardsThreshold
  }

  /** `best_archetype` (as a position in the list) and `best_score`. */
  datatype Selection = Selection(best: Option<nat>, bestScore: int)

  /** The selection loop's state after the archetypes `arcs`: an eligible
      archetype replaces the current best only on a strictly larger score. */
  function Select(m: Matcher, arcs: seq<Archetype>, main: int, cs: seq<Card>): (s: Selection)
    ensures s.best.Some? ==> s.best.value < |arcs|
  {
    if arcs == [] then Selection(None, 0)
    else
      var s := Select(m, arcs[..|arcs| - 1], main, cs);
      var a := arcs[|arcs| - 1];
      if Eligible(m, a, main, cs) && ArchetypeScore(m, a, cs) > s.bestScore
      then Selection(Some(|arcs| - 1), ArchetypeScore(m, a, cs))
      else s
  }

  /** The selected archetype is eligible and has the best score among the
      eligible ones, every eligible one before it scoring strictly less; no
      archetype is selected exactly when every eligible one scores 0. */
  lemma {:induction false} SelectProperties(m: Matcher, arcs: seq<Archetype>, main: int, cs: seq<Card>)
    ensures var s := Select(m, arcs, main, cs);
            (s.best.None? ==> s.bestScore == 0)
            && (s.best.Some? ==> Eligible(m, arcs[s.best.value], main, cs)
                                 && s.bestScore == ArchetypeScore(m, arcs[s.best.value], cs) > 0)
    ensures var s := Select(m, arcs, main, cs);
            forall j :: 0 <= j < |arcs| && Eligible(m, arcs[j], main, cs) ==> ArchetypeScore(m, arcs[j], cs) <= s.bestScore
    ensures var s := Select(m, arcs, main, cs);
            s.best.Some? ==> forall j :: 0 <= j < s.best.value && Eligible(m, arcs[j], main, cs) ==>
                                         ArchetypeScore(m, arcs[j], cs) < s.bestScore
    ensures Select(m, arcs, main, cs).best.None?
            <==> forall j :: 0 <= j < |arcs| && Eligible(m, arcs[j], main, cs) ==> ArchetypeScore(m, arcs[j], cs) == 0
    decreases |arcs|
  {
    if arcs != [] {
      var k := |arcs| - 1;
      var pre := arcs[..k];
      SelectProperties(m, pre, main, cs);
      assert forall j :: 0 <= j < k ==> pre[j] == arcs[j];
    }
  }

  // ---------------------------------------------------------------------
  // Recommendations
  // ---------------------------------------------------------------------

  /** One recommendation line. */
  datatype Recommendation =
    | Balanced                                      // no archetype detected
    | Strategy(description: string)                 // the archetype's strategy
    | IncreaseCost(cost: int, current: int, ideal: int)

  /** The curve bucket of each card: its cost, costs above 6 counted as 6. */
  function Buckets(cs: seq<Card>): (r: seq<int>)
    ensures |r| == |cs|
    ensures forall i :: 0 <= i < |cs| ==> r[i] == Min(cs[i].cost, 6)
  {
    seq(|cs|, i requires 0 <= i < |cs| => Min(cs[i].cost, 6))
  }

  /** The number of cards of cost 6 or more. */
  function HighCostCount(cs: seq<Card>): nat {
    if cs == [] then 0 else HighCostCount(cs[..|cs| - 1]) + (if cs[|cs| - 1].cost >= 6 then 1 else 0)
  }

  /** `current_count < ideal_count * 0.7`. */
  predicate Short(current: int, ideal: int) {
    (current as real) < (ideal as real) * 0.7
  }

  /** One `IncreaseCost` line per ideal-curve entry the current curve falls
      short of, in the ideal curve's order. */
  function CurveGaps(ideal: Dict<int, int>, current: Dict<int, int>): seq<Recommendation> {
    if ideal == [] then []
    else
      var e := ideal[|ideal| - 1];
      var count := Get(current, e.0, 0);
      CurveGaps(ideal[..|ideal| - 1], current) + (if Short(count, e.1) then [IncreaseCost(e.0, count, e.1)] else [])
  }

  /** `_generate_recommendations`. */
  function RecommendationsOf(cs: seq<Card>, arch: Option<Archetype>): seq<Recommendation> {
    if arch.None? then [Balanced]
    else [Strategy(arch.value.strategyDescription)] + CurveGaps(arch.value.idealCurve, CountsOf(Buckets(cs)))
  }

  /** Bucket 6 holds every card of cost 6 or more, a lower bucket the cards of
      exactly that cost, and there is no bucket above 6. */
  lemma {:induction false} BucketOccurrences(cs: seq<Card>, k: int)
    ensures Occurrences(Buckets(cs), k) == if k < 6 then Occurrences(Costs(cs), k) else if k == 6 then HighCostCount(cs) else 0
    decreases |cs|
  {
    if cs != [] {
      var n := |cs| - 1;
      BucketOccurrences(cs[..n], k);
      assert Buckets(cs)[..n] == Buckets(cs[..n]);
      assert Costs(cs)[..n] == Costs(cs[..n]);
    }
  }

  lemma CurrentCurve(cs: seq<Card>, k: int)
    ensures Get(CountsOf(Buckets(cs)), k, 0) == if k < 6 then Occurrences(Costs(cs), k) else if k == 6 then HighCostCount(cs) else 0
    ensures HasKey(CountsOf(Buckets(cs)), k) ==> k <= 6
  {
    GetCountsOf(Buckets(cs), k);
    BucketOccurrences(cs, k);
  }

  /** The gap lines are exactly the ideal-curve entries the current curve
      falls short of, each reporting the current count. */
  lemma {:induction false} CurveGapsLines(ideal: Dict<int, int>, current: Dict<int, int>)
    ensures |CurveGaps(ideal, current)| <= |ideal|
    ensures forall r :: r in CurveGaps(ideal, current) ==>
              r.IncreaseCost? && (r.cost, r.ideal) in ideal && r.current == Get(current, r.cost, 0) && Short(r.current, r.ideal)
    ensures forall j :: 0 <= j < |ideal| && Short(Get(current, ideal[j].0, 0), ideal[j].1) ==>
              IncreaseCost(ideal[j].0, Get(current, ideal[j].0, 0), ideal[j].1) in CurveGaps(ideal, current)
    decreases |ideal|
  {
    if ideal != [] {
      var n := |ideal| - 1;
      CurveGapsLines(ideal[..n], current);
      assert forall j :: 0 <= j < n ==> ideal[..n][j] == ideal[j];
      assert forall e :: e in ideal[..n] ==> e in ideal;
    }
  }

  // ---------------------------------------------------------------------
  // Analysis
  // ---------------------------------------------------------------------

  /** `analyze_deck_archetype`'s result; an undetected archetype has no name
      and no description. */
  datatype ArchetypeAnalysis = ArchetypeAnalysis(
    detected: Option<string>,
    description: Option<string>,
    confidence: int,
    recommendations: seq<Recommendation>)

  /** The archetype selected for the resolved cards `cs`. */
  function DetectedArchetype(m: Matcher, cs: seq<Card>): Option<Archetype> {
    var sel := Select(m, Catalogue, MainClass(CountsOf(Classes(cs))), cs);
    if sel.best.Some? then Some(Catalogue[sel.best.value]) else None
  }

  /** `analyze_deck_archetype`. */
  function AnalysisOf(m: Matcher, cards: CardStore, ids: seq<string>): ArchetypeAnalysis {
    var cs := ResolvedCards(cards, ids);
    if ids == [] || cs == [] then ArchetypeAnalysis(None, None, 0, [])
    else
      var sel := Select(m, Catalogue, MainClass(CountsOf(Classes(cs))), cs);
      var arch := DetectedArchetype(m, cs);
      ArchetypeAnalysis(
        if arch.Some? then Some(arch.value.name) else None,
        if arch.Some? then Some(arch.value.strategyDescription) else None,
        if arch.Some? then Min(90, sel.bestScore * 8) else 0,
        RecommendationsOf(cs, arch))
  }

  /** A deck that is empty or resolves to no card detects nothing, has
      confidence 0 and no recommendation at all. */
  lemma NothingResolves(m: Matcher, cards: CardStore, ids: seq<string>)
    requires ResolvedCards(cards, ids) == []
    ensures AnalysisOf(m, cards, ids) == ArchetypeAnalysis(None, None, 0, [])
  {
  }

  /** A detected archetype belongs to the deck's main class, has enough key
      cards, and scores best among the eligible archetypes, the earliest one
      winning a tie; the confidence is 8 per score point up to 90, so between
      48 and 90. With no archetype detected the confidence is 0. */
  lemma DetectionProperties(m: Matcher, cards: CardStore, ids: seq<string>)
    requires ResolvedCards(cards, ids) != []
    ensures var cs := ResolvedCards(cards, ids);
            var main := MainClass(CountsOf(Classes(cs)));
            var r := AnalysisOf(m, cards, ids);
            (r.detected.None? <==> DetectedArchetype(m, cs).None?)
            && (r.detected.None? ==> r.confidence == 0
                                     && forall j :: 0 <= j < |Catalogue| && Eligible(m, Catalogue[j], main, cs) ==>
                                          ArchetypeScore(m, Catalogue[j], cs) == 0)
            && (r.detected.Some? ==>
                  exists i :: 0 <= i < |Catalogue|
                    && DetectedArchetype(m, cs) == Some(Catalogue[i])
                    && r.detected == Some(Catalogue[i].name)
                    && r.description == Some(Catalogue[i].strategyDescription)
                    && Catalogue[i].classId == main
                    && MatchCount(m, Catalogue[i].keyPatterns, cs) >= Catalogue[i].minCardsThreshold
                    && r.confidence == Min(90, 16 * MatchCount(m, Catalogue[i].keyPatterns, cs))
                    && 48 <= r.confidence <= 90
                    && (forall j :: 0 <= j < |Catalogue| && Eligible(m, Catalogue[j], main, cs) ==>
                          ArchetypeScore(m, Catalogue[j], cs) <= ArchetypeScore(m, Catalogue[i], cs))
                    && (forall j :: 0 <= j < i && Eligible(m, Catalogue[j], main, cs) ==>
                          ArchetypeScore(m, Catalogue[j], cs) < ArchetypeScore(m, Catalogue[i], cs)))
  {
    var cs := ResolvedCards(cards, ids);
    var main := MainClass(CountsOf(Classes(cs)));
    CatalogueShape();
    SelectionProperties(m, Catalogue, main, cs);
    var sel := Select(m, Catalogue, main, cs);
    var r := AnalysisOf(m, cards, ids);
    if sel.best.Some? {
      var i := sel.best.value;
      assert DetectedArchetype(m, cs) == Some(Catalogue[i]);
      assert r.detected == Some(Catalogue[i].name) && r.description == Some(Catalogue[i].strategyDescription);
      assert r.confidence == Min(90, sel.bestScore * 8);
    } else {
      assert DetectedArchetype(m, cs).None?;
      assert r.detected.None? && r.confidence == 0;
    }
  }

  /** The selection over any list of archetypes that ask for at least three
      key cards: a selected one belongs to the main class, has enough key
      cards and a confidence between 48 and 90, and scores best. */
  lemma SelectionProperties(m: Matcher, arcs: seq<Archetype>, main: int, cs: seq<Card>)
    requires forall i :: 0 <= i < |arcs| ==> arcs[i].minCardsThreshold >= 3
    ensures var sel := Select(m, arcs, main, cs);
            sel.best.None? ==> forall j :: 0 <= j < |arcs| && Eligible(m, arcs[j], main, cs) ==> ArchetypeScore(m, arcs[j], cs) == 0
    ensures var sel := Select(m, arcs, main, cs);
            sel.best.Some? ==>
              var i := sel.best.value;
              arcs[i].classId == main
              && MatchCount(m, arcs[i].keyPatterns, cs) >= arcs[i].minCardsThreshold
              && Min(90, sel.bestScore * 8) == Min(90, 16 * MatchCount(m, arcs[i].keyPatterns, cs))
              && 48 <= Min(90, sel.bestScore * 8) <= 90
              && (forall j :: 0 <= j < |arcs| && Eligible(m, arcs[j], main, cs) ==>
                    ArchetypeScore(m, arcs[j], cs) <= ArchetypeScore(m, arcs[i], cs))
              && (forall j :: 0 <= j < i && Eligible(m, arcs[j], main, cs) ==>
                    ArchetypeScore(m, arcs[j], cs) < ArchetypeScore(m, arcs[i], cs))
  {
    SelectProperties(m, arcs, main, cs);
  }

  /** With resolved cards, no detected archetype gives the one generic line;
      a detected one gives its strategy line first and then exactly the
      ideal-curve costs the deck has fewer than 0.7 times the ideal of, each
      with the deck's current count for that bucket. */
  lemma RecommendationProperties(m: Matcher, cards: CardStore, ids: seq<string>)
    requires ResolvedCards(cards, ids) != []
    ensures var cs := ResolvedCards(cards, ids);
            var recs := AnalysisOf(m, cards, ids).recommendations;
            match DetectedArchetype(m, cs)
            case None => recs == [Balanced]
            case Some(a) =>
              var curve := CountsOf(Buckets(cs));
              1 <= |recs| <= 1 + |a.idealCurve|
              && recs[0] == Strategy(a.strategyDescription)
              && (forall r :: r in recs[1..] ==>
                    r.IncreaseCost? && (r.cost, r.ideal) in a.idealCurve
                    && r.current == Get(curve, r.cost, 0) && Short(r.current, r.ideal))
              && (forall j :: 0 <= j < |a.idealCurve| && Short(Get(curve, a.idealCurve[j].0, 0), a.idealCurve[j].1) ==>
                    IncreaseCost(a.idealCurve[j].0, Get(curve, a.idealCurve[j].0, 0), a.idealCurve[j].1) in recs[1..])
  {
    var cs := ResolvedCards(cards, ids);
    match DetectedArchetype(m, cs)
    case None =>
    case Some(a) =>
      var curve := CountsOf(Buckets(cs));
      CurveGapsLines(a.idealCurve, curve);
      assert AnalysisOf(m, cards, ids).recommendations[1..] == CurveGaps(a.idealCurve, curve);
  }

  // ---------------------------------------------------------------------
  // Candidate bonus
  // ---------------------------------------------------------------------

  /** The reason a candidate earns the archetype bonus. */
  datatype BonusReason = KeyCard(archetype: string)

  /** `next((a for a in archetypes if a.name == name), None)`. */
  function FirstNamed(arcs: seq<Archetype>, name: string): (r: Option<Archetype>)
    ensures r.Some? ==> r.value in arcs && r.value.name == name
    ensures r.None? ==> forall j :: 0 <= j < |arcs| ==> arcs[j].name != name
  {
    if arcs == [] then None
    else if arcs[0].name == name then Some(arcs[0])
    else FirstNamed(arcs[1..], name)
  }

  /** `calculate_archetype_bonus`. */
  function ArchetypeBonusOf(m: Matcher, cards: CardStore, candidate: string, deck: seq<string>): (real, seq<BonusReason>) {
    if deck == [] then (0.0, [])
    else
      var detected := AnalysisOf(m, cards, deck).detected;
      if detected.None? || detected.value == "" then (0.0, [])
      else if candidate !in cards then (0.0, [])
      else
        var arch := FirstNamed(Catalogue, detected.value);
        if arch.None? then (0.0, [])
        else if AnyMatch(m, arch.value.keyPatterns, true, FullText(cards[candidate]))
        then (PyRound.Round(8.0, 1), [KeyCard(detected.value)])
        else (PyRound.Round(0.0, 1), [])
  }

  /** In a list whose names are distinct, the archetype found by name is the
      one at that name's position. */
  lemma FirstNamedUnique(arcs: seq<Archetype>, i: nat)
    requires i < |arcs|
    requires forall a, b :: 0 <= a < b < |arcs| ==> arcs[a].name != arcs[b].name
    ensures FirstNamed(arcs, arcs[i].name) == Some(arcs[i])
  {
    var r := FirstNamed(arcs, arcs[i].name);
    var j :| 0 <= j < |arcs| && arcs[j] == r.value;
    assert arcs[j].name == arcs[i].name;
  }

  /** The bonus is exactly 0.0 or 8.0, with one reason exactly when it is 8.0;
      it is 8.0 exactly when an archetype is detected for the deck and the
      candidate resolves to a card carrying one of its key patterns. */
  lemma BonusProperties(m: Matcher, cards: CardStore, candidate: string, deck: seq<string>)
    ensures var (bonus, reasons) := ArchetypeBonusOf(m, cards, candidate, deck);
            (bonus == 0.0 || bonus == 8.0)
            && (|reasons| == 1 <==> bonus == 8.0)
            && (|reasons| == 0 <==> bonus == 0.0)
    ensures var (bonus, reasons) := ArchetypeBonusOf(m, cards, candidate, deck);
            var cs := ResolvedCards(cards, deck);
            bonus == 8.0
            <==> cs != [] && DetectedArchetype(m, cs).Some? && candidate in cards
                 && AnyMatch(m, DetectedArchetype(m, cs).value.keyPatterns, true, FullText(cards[candidate]))
  {
    BonusCases(m, cards, candidate, deck);
  }

  /** The bonus is 8.0 with the one reason naming the detected archetype when
      an archetype is detected and the candidate carries one of its key
      patterns, and 0.0 with no reason otherwise. */
  lemma BonusCases(m: Matcher, cards: CardStore, candidate: string, deck: seq<string>)
    ensures var cs := ResolvedCards(cards, deck);
            var hit := cs != [] && DetectedArchetype(m, cs).Some? && candidate in cards
                       && AnyMatch(m, DetectedArchetype(m, cs).value.keyPatterns, true, FullText(cards[candidate]));
            ArchetypeBonusOf(m, cards, candidate, deck)
              == if hit then (8.0, [KeyCard(DetectedArchetype(m, cs).value.name)]) else (0.0, [])
  {
    PyRound.RoundInteger(8, 1);
    PyRound.RoundInteger(0, 1);
    var cs := ResolvedCards(cards, deck);
    if deck != [] && cs != [] {
      var sel := Select(m, Catalogue, MainClass(CountsOf(Classes(cs))), cs);
      var detected := AnalysisOf(m, cards, deck).detected;
      if sel.best.Some? {
        var i := sel.best.value;
        CatalogueShape();
        FirstNamedUnique(Catalogue, i);
        assert DetectedArchetype(m, cs) == Some(Catalogue[i]);
        assert detected == Some(Catalogue[i].name) && Catalogue[i].name != "";
      } else {
        assert DetectedArchetype(m, cs).None? && detected.None?;
      }
    } else if deck != [] {
      assert AnalysisOf(m, cards, deck).detected.None?;
    }
  }

  // ---------------------------------------------------------------------
  // The engine's loops
  // ---------------------------------------------------------------------

  /** The inner loops of the scoring loop for one archetype: every card whose
      text matches one of the key patterns adds 2 to the score and 1 to the
      matching cards, stopping at the first pattern that matches. */
  method ScoreArchetype(m: Matcher, a: Archetype, cs: seq<Card>) returns (score: int, matching: int)
    ensures matching == MatchCount(m, a.keyPatterns, cs)
    ensures score == ArchetypeScore(m, a, cs)
  {
    score := 0;
    matching := 0;
    var j := 0;
    while j < |cs|
      invariant 0 <= j <= |cs|
      invariant matching == MatchCount(m, a.keyPatterns, cs[..j])
      invariant score == 2 * matching
    {
      MatchCountStep(m, a.keyPatterns, cs, j);
      var found := SearchAny(m, a.keyPatterns, true, FullText(cs[j]));
      if found {
        score := score + 2;
        matching := matching + 1;
      }
      j := j + 1;
    }
    assert cs[..j] == cs;
  }

  /** The selection loop over the archetypes. */
  method SelectArchetype(m: Matcher, arcs: seq<Archetype>, main: int, cs: seq<Card>) returns (best: Option<nat>, bestScore: int)
    ensures Selection(best, bestScore) == Select(m, arcs, main, cs)
  {
    best := None;
    bestScore := 0;
    var k := 0;
    while k < |arcs|
      invariant 0 <= k <= |arcs|
      invariant Selection(best, bestScore) == Select(m, arcs[..k], main, cs)
    {
      assert arcs[..k + 1][..k] == arcs[..k];
      var a := arcs[k];
      if a.classId == main {
        var score, matching := ScoreArchetype(m, a, cs);
        if matching >= a.minCardsThreshold && score > bestScore {
          bestScore := score;
          best := Some(k);
        }
      }
      k := k + 1;
    }
    assert arcs[..k] == arcs;
  }

  lemma BucketStep(cs: seq<Card>, i: nat)
    requires i < |cs|
    ensures CountsOf(Buckets(cs[..i + 1])) == Increment(CountsOf(Buckets(cs[..i])), Min(cs[i].cost, 6))
  {
    assert Buckets(cs[..i + 1]) == Buckets(cs[..i]) + [Min(cs[i].cost, 6)];
    assert (Buckets(cs[..i]) + [Min(cs[i].cost, 6)])[..i] == Buckets(cs[..i]);
  }

  lemma GapStep(ideal: Dict<int, int>, current: Dict<int, int>, j: nat)
    requires j < |ideal|
    ensures CurveGaps(ideal[..j + 1], current)
            == CurveGaps(ideal[..j], current)
               + (if Short(Get(current, ideal[j].0, 0), ideal[j].1)
                  then [IncreaseCost(ideal[j].0, Get(current, ideal[j].0, 0), ideal[j].1)] else [])
  {
    assert ideal[..j + 1][..j] == ideal[..j];
  }

  /** `_generate_recommendations`: builds the current curve by bucket, then
      appends one line per ideal-curve entry the deck falls short of. */
  method GenerateRecommendations(cs: seq<Card>, arch: Option<Archetype>) returns (recs: seq<Recommendation>)
    ensures recs == RecommendationsOf(cs, arch)
  {
    if arch.None? {
      return [Balanced];
    }
    var a := arch.value;
    recs := [Strategy(a.strategyDescription)];
    var curve: Dict<int, int> := [];
    var i := 0;
    while i < |cs|
      invariant 0 <= i <= |cs|
      invariant curve == CountsOf(Buckets(cs[..i]))
    {
      BucketStep(cs, i);
      curve := Increment(curve, Min(cs[i].cost, 6));
      i := i + 1;
    }
    assert cs[..i] == cs;
    var j := 0;
    while j < |a.idealCurve|
      invariant 0 <= j <= |a.idealCurve|
      invariant recs == [Strategy(a.strategyDescription)] + CurveGaps(a.idealCurve[..j], curve)
    {
      GapStep(a.idealCurve, curve, j);
      var (cost, idealCount) := a.idealCurve[j];
      var currentCount := Get(curve, cost, 0);
      if (currentCount as real) < (idealCount as real) * 0.7 {
        recs := recs + [IncreaseCost(cost, currentCount, idealCount)];
      }
      j := j + 1;
    }
    assert a.idealCurve[..j] == a.idealCurve;
  }

  /** `analyze_deck_archetype`. */
  method AnalyzeDeckArchetype(m: Matcher, cards: CardStore, ids: seq<string>) returns (r: ArchetypeAnalysis)
    ensures r == AnalysisOf(m, cards, ids)
  {
    if ids == [] {
      return ArchetypeAnalysis(None, None, 0, []);
    }
    var cs: seq<Card> := [];
    var classCounts: Dict<int, int> := [];
    var i := 0;
    while i < |ids|
      invariant 0 <= i <= |ids|
      invariant cs == ResolvedCards(cards, ids[..i])
      invariant classCounts == CountsOf(Classes(cs))
    {
      assert ids[..i + 1][..i] == ids[..i];
      if ids[i] in cards {
        var card := cards[ids[i]];
        ClassStep(cs, card);
        cs := cs + [card];
        classCounts := Increment(classCounts, card.classId);
      }
      i := i + 1;
    }
    assert ids[..i] == ids;
    if cs == [] {
      return ArchetypeAnalysis(None, None, 0, []);
    }
    var main := MainClass(classCounts);
    var best, bestScore := SelectArchetype(m, Catalogue, main, cs);
    var arch := if best.Some? then Some(Catalogue[best.value]) else None;
    var recs := GenerateRecommendations(cs, arch);
    var confidence := if arch.Some? then Min(90, bestScore * 8) else 0;
    r := ArchetypeAnalysis(
      if arch.Some? then Some(arch.value.name) else None,
      if arch.Some? then Some(arch.value.strategyDescription) else None,
      confidence,
      recs);
  }

  /** `calculate_archetype_bonus`: the pattern loop stops at the first key
      pattern the candidate's text matches. */
  method CalculateArchetypeBonus(m: Matcher, cards: CardStore, candidate: string, deck: seq<string>)
    returns (bonus: real, reasons: seq<BonusReason>)
    ensures (bonus, reasons) == ArchetypeBonusOf(m, cards, candidate, deck)
  {
    if deck == [] {
      return 0.0, [];
    }
    var analysis := AnalyzeDeckArchetype(m, cards, deck);
    var detected := analysis.detected;
    if detected.None? || detected.value == "" {
      return 0.0, [];
    }
    if candidate !in cards {
      return 0.0, [];
    }
    var candidateText := FullText(cards[candidate]);
    var arch := FirstNamed(Catalogue, detected.value);
    if arch.None? {
      return 0.0, [];
    }
    var found := SearchAny(m, arch.value.keyPatterns, true, candidateText);
    if found {
      bonus, reasons := PyRound.Round(8.0, 1), [KeyCard(detected.value)];
    } else {
      bonus, reasons := PyRound.Round(0.0, 1), [];
    }
  }
}
