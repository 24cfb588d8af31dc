/** The base two-pick advisor (`TwoPickAdvisor`): deck analysis into a mana
    curve and role counts, the curve and role bonuses of a candidate, the
    reroll threshold, and the pick/reroll advice built from them. */
module PickAdvisor {
  import opened Common
  import opened Dicts
  import opened Decks

  /** Ideal number of cards per cost in a 30-card deck; other costs expect 1. */
  const IdealCurve: map<int, int> := map[1 := 4, 2 := 6, 3 := 6, 4 := 5, 5 := 4, 6 := 2, 7 := 1, 8 := 1]

  /** Target number of cards per role; other roles have no target. */
  const RoleTargets: map<string, int> := map["removal" := 4, "draw" := 3, "finisher" := 2, "protection" := 3, "aoe" := 2]

  const DeckSize := 30

  /** `analyze_deck`'s result. */
  datatype DeckAnalysis = DeckAnalysis(totalCards: nat, curve: Dict<int, int>, roles: Dict<string, int>)

  /** The analysis of a deck: its length (unresolved ids included), and the
      count tables of the costs and role tags of the cards that resolve. */
  function AnalysisOf(cards: CardStore, ids: seq<string>): DeckAnalysis {
    var resolved := ResolvedCards(cards, ids);
    DeckAnalysis(|ids|, CountsOf(Costs(resolved)), CountsOf(AllRoles(resolved)))
  }

  /** `total_cards` counts every id, the curve counts every resolved card once
      under its cost, and the role table counts every role tag. */
  lemma AnalysisCounts(cards: CardStore, ids: seq<string>, cost: int, role: string)
    ensures AnalysisOf(cards, ids).totalCards == |ids|
    ensures SumValues(AnalysisOf(cards, ids).curve) == |ResolvedCards(cards, ids)| <= |ids|
    ensures Get(AnalysisOf(cards, ids).curve, cost, 0) == Occurrences(Costs(ResolvedCards(cards, ids)), cost)
    ensures Get(AnalysisOf(cards, ids).roles, role, 0) == Occurrences(AllRoles(ResolvedCards(cards, ids)), role)
    ensures DistinctKeys(AnalysisOf(cards, ids).curve) && DistinctKeys(AnalysisOf(cards, ids).roles)
  {
    var resolved := ResolvedCards(cards, ids);
    SumValuesCountsOf(Costs(resolved));
    GetCountsOf(Costs(resolved), cost);
    GetCountsOf(AllRoles(resolved), role);
    IncrementAllDistinct([], Costs(resolved));
    IncrementAllDistinct([], AllRoles(resolved));
  }

  lemma ResolvedStep(cards: CardStore, ids: seq<string>, i: nat)
    requires i < |ids|
    ensures ResolvedCards(cards, ids[..i + 1])
            == ResolvedCards(cards, ids[..i]) + (if ids[i] in cards then [cards[ids[i]]] else [])
  {
    assert ids[..i + 1][..i] == ids[..i];
  }

  lemma CurveStep(prev: seq<Card>, c: Card)
    ensures CountsOf(Costs(prev + [c])) == Increment(CountsOf(Costs(prev)), c.cost)
  {
    assert Costs(prev + [c]) == Costs(prev) + [c.cost];
    assert (Costs(prev) + [c.cost])[..|Costs(prev)|] == Costs(prev);
  }

  lemma RolesStep(prev: seq<Card>, c: Card)
    ensures CountsOf(AllRoles(prev + [c])) == IncrementAll(CountsOf(AllRoles(prev)), c.roles)
  {
    assert (prev + [c])[..|prev|] == prev;
    IncrementAllAppend([], AllRoles(prev), c.roles);
  }

  /** `analyze_deck`. */
  method AnalyzeDeck(cards: CardStore, ids: seq<string>) returns (a: DeckAnalysis)
    ensures a == AnalysisOf(cards, ids)
  {
    var curve: Dict<int, int> := [];
    var roles: Dict<string, int> := [];
    var i := 0;
    while i < |ids|
      invariant 0 <= i <= |ids|
      invariant curve == CountsOf(Costs(ResolvedCards(cards, ids[..i])))
      invariant roles == CountsOf(AllRoles(ResolvedCards(cards, ids[..i])))
    {
      ghost var prev := ResolvedCards(cards, ids[..i]);
      ResolvedStep(cards, ids, i);
      if ids[i] in cards {
        var card := cards[ids[i]];
        assert ResolvedCards(cards, ids[..i + 1]) == prev + [card];
        CurveStep(prev, card);
        curve := Increment(curve, card.cost);
        assert curve == CountsOf(Costs(prev + [card]));
        var j := 0;
        while j < |card.roles|
          invariant 0 <= j <= |card.roles|
          invariant roles == IncrementAll(CountsOf(AllRoles(prev)), card.roles[..j])
        {
          IncrementAllStep(CountsOf(AllRoles(prev)), card.roles, j);
          roles := Increment(roles, card.roles[j]);
          j := j + 1;
        }
        assert card.roles[..j] == card.roles;
        RolesStep(prev, card);
        assert roles == CountsOf(AllRoles(prev + [card]));
      } else {
        assert ResolvedCards(cards, ids[..i + 1]) == prev;
      }
      i := i + 1;
    }
    assert ids[..i] == ids;
    a := DeckAnalysis(|ids|, curve, roles);
  }

  function IdealCount(cost: int): (n: int)
    ensures n >= 1
  {
    if cost in IdealCurve then IdealCurve[cost] else 1
  }

  /** The ideal count for `cost`, scaled to how full the deck is. */
  function AdjustedTarget(cost: int, a: DeckAnalysis): (t: real)
    ensures t >= 0.0
    ensures a.totalCards == 0 ==> t == 0.0
  {
    IdealCount(cost) as real * (a.totalCards as real / DeckSize as real)
  }

  /** `calculate_curve_bonus`: up to +15 for an under-filled cost (times 1.3
      for cheap cards early in the draft), up to -10 for an over-filled one. */
  function CurveBonus(cost: int, a: DeckAnalysis, pick: int): (r: real)
    ensures -10.0 <= r <= 19.5
    ensures r > 15.0 ==> pick <= 8 && cost <= 3
    ensures r > 0.0 ==> (Get(a.curve, cost, 0) as real) < AdjustedTarget(cost, a)
    ensures r < 0.0 ==> (Get(a.curve, cost, 0) as real) > AdjustedTarget(cost, a) * 1.5
    ensures (Get(a.curve, cost, 0) as real) < AdjustedTarget(cost, a) ==> r > 0.0
    ensures (Get(a.curve, cost, 0) as real) > AdjustedTarget(cost, a) * 1.5 ==> r < 0.0
  {
    var current := Get(a.curve, cost, 0) as real;
    var target := AdjustedTarget(cost, a);
    if current < target then
      var bonus := MinR((target - current) * 8.0, 15.0);
      if pick <= 8 && cost <= 3 then bonus * 1.3 else bonus
    else if current > target * 1.5 then
      -MinR((current - target) * 5.0, 10.0)
    else 0.0
  }

  /** With an empty deck the target is 0 and no count is below or above it. */
  lemma CurveBonusEmptyDeck(cards: CardStore, cost: int, pick: int)
    ensures CurveBonus(cost, AnalysisOf(cards, []), pick) == 0.0
  {
    var a := AnalysisOf(cards, []);
    assert a.curve == [];
  }

  /** The contribution of one role tag to the role bonus. */
  function RoleContribution(role: string, a: DeckAnalysis): (r: real)
    ensures -5.0 <= r <= 12.0
    ensures role !in RoleTargets ==> r == 0.0
    ensures r > 0.0 <==> role in RoleTargets && Get(a.roles, role, 0) < RoleTargets[role]
    ensures r == -5.0 <==> role in RoleTargets && 2 * Get(a.roles, role, 0) >= 3 * RoleTargets[role]
  {
    if role !in RoleTargets then 0.0
    else
      var current := Get(a.roles, role, 0);
      var target := RoleTargets[role];
      if current < target then MinR(((target - current) * 6) as real, 12.0)
      else if current as real >= target as real * 1.5 then -5.0
      else 0.0
  }

  function RoleBonusOf(roles: seq<string>, a: DeckAnalysis): (r: real)
    ensures -5.0 * |roles| as real <= r <= 12.0 * |roles| as real
  {
    if roles == [] then 0.0
    else RoleBonusOf(roles[..|roles| - 1], a) + RoleContribution(roles[|roles| - 1], a)
  }

  /** Role tags without a target (such as "heal") add nothing. */
  lemma {:induction false} RoleBonusUntargeted(roles: seq<string>, a: DeckAnalysis)
    requires forall i :: 0 <= i < |roles| ==> roles[i] !in RoleTargets
    ensures RoleBonusOf(roles, a) == 0.0
    decreases |roles|
  {
    if roles != [] {
      RoleBonusUntargeted(roles[..|roles| - 1], a);
    }
  }

  /** `calculate_role_bonus`. */
  method CalculateRoleBonus(roles: seq<string>, a: DeckAnalysis) returns (bonus: real)
    ensures bonus == RoleBonusOf(roles, a)
  {
    bonus := 0.0;
    var i := 0;
    while i < |roles|
      invariant 0 <= i <= |roles|
      invariant bonus == RoleBonusOf(roles[..i], a)
    {
      assert roles[..i + 1][..i] == roles[..i];
      var role := roles[i];
      if role in RoleTargets {
        var current := Get(a.roles, role, 0);
        var target := RoleTargets[role];
        if current < target {
          bonus := bonus + MinR(((target - current) * 6) as real, 12.0);
        } else if current as real >= target as real * 1.5 {
          bonus := bonus - 5.0;
        }
      }
      i := i + 1;
    }
    assert roles[..i] == roles;
  }

  /** `calculate_reroll_threshold`, clamped to [45, 80]. */
  function RerollThreshold(pick: int, rerollsLeft: int, a: DeckAnalysis): (r: real)
    ensures 45.0 <= r <= 80.0
  {
    var phase := if pick <= 5 then 8 else if pick <= 10 then 0 else -8;
    var rerollAdj := Min(rerollsLeft * 4, 12);
    var lowCost := Get(a.curve, 1, 0) + Get(a.curve, 2, 0);
    var urgency := (if Get(a.roles, "removal", 0) == 0 && pick >= 8 then 10 else 0)
                 + (if lowCost <= 2 && pick >= 6 then 8 else 0);
    MaxR(45.0, MinR(80.0, 60.0 + (phase + rerollAdj + urgency) as real))
  }

  /** More rerolls left never lowers the threshold. */
  lemma RerollThresholdMonotone(pick: int, r1: int, r2: int, a: DeckAnalysis)
    requires r1 <= r2
    ensures RerollThreshold(pick, r1, a) <= RerollThreshold(pick, r2, a)
  {
  }

  /** One entry of `card_scores`. */
  datatype CardScore = CardScore(
    cardId: string,
    name: string,
    cost: int,
    baseScore: real,
    curveBonus: real,
    roleBonus: real,
    duplicationPenalty: int,
    finalScore: real)

  /** -5 for each copy of the card already in the deck. */
  function DuplicationPenalty(id: string, deck: seq<string>): (p: int)
    ensures p <= 0
    ensures p == 0 <==> id !in deck
  {
    -5 * Occurrences(deck, id)
  }

  function ScoreOf(c: Card, id: string, a: DeckAnalysis, deck: seq<string>, pick: int): (s: CardScore)
    ensures s.cardId == id && s.name == c.name && s.cost == c.cost
    ensures s.finalScore == s.baseScore + s.curveBonus + s.roleBonus + s.duplicationPenalty as real
    ensures s.duplicationPenalty == -5 * Occurrences(deck, id)
  {
    var curve := CurveBonus(c.cost, a, pick);
    var role := RoleBonusOf(c.roles, a);
    var dup := DuplicationPenalty(id, deck);
    CardScore(id, c.name, c.cost, c.baseRating, curve, role, dup, c.baseRating + curve + role + dup as real)
  }

  /** The score entries of the candidates that resolve, in candidate order. */
  function ScoresOf(cards: CardStore, cands: seq<string>, a: DeckAnalysis, deck: seq<string>, pick: int): (r: seq<CardScore>)
    ensures |r| == |ResolvedCards(cards, cands)|
    ensures forall k :: 0 <= k < |r| ==> r[k].cardId in cands && r[k].cardId in cards
    ensures forall k :: 0 <= k < |r| ==> r[k] == ScoreOf(cards[r[k].cardId], r[k].cardId, a, deck, pick)
  {
    if cands == [] then []
    else
      var prev := ScoresOf(cards, cands[..|cands| - 1], a, deck, pick);
      var id := cands[|cands| - 1];
      assert forall x :: x in cands[..|cands| - 1] ==> x in cands;
      if id in cards then prev + [ScoreOf(cards[id], id, a, deck, pick)] else prev
  }

  lemma ScoresStep(cards: CardStore, cands: seq<string>, i: nat, a: DeckAnalysis, deck: seq<string>, pick: int)
    requires i < |cands|
    ensures ScoresOf(cards, cands[..i + 1], a, deck, pick)
            == ScoresOf(cards, cands[..i], a, deck, pick)
               + (if cands[i] in cards then [ScoreOf(cards[cands[i]], cands[i], a, deck, pick)] else [])
  {
    assert cands[..i + 1][..i] == cands[..i];
  }

  datatype Action = Pick | Reroll

  /** The reasoning lines, as tagged values. */
  datatype Reason =
    | NoEvaluableCards
    | BelowThreshold(best: real, threshold: real)
    | RerollsLeft(n: int)
    | Recommend(name: string, score: real)
    | CurveImprovement(bonus: real)
    | RoleCompletion(bonus: real)

  datatype PickAdvice = PickAdvice(
    action: Action,
    recommendedCardId: Option<string>,
    recommendedCardName: Option<string>,
    confidence: real,
    reasoning: seq<Reason>,
    cardScores: seq<CardScore>)

  /** The position of `max(card_scores, key=final_score)`. */
  function BestIndex(scores: seq<CardScore>): (i: nat)
    requires |scores| > 0
    ensures i < |scores|
    ensures forall j :: 0 <= j < |scores| ==> scores[j].finalScore <= scores[i].finalScore
    ensures forall j :: 0 <= j < i ==> scores[j].finalScore < scores[i].finalScore
  {
    ArgMax(scores, (s: CardScore) => s.finalScore)
  }

  function Confidence(best: real): (c: real)
    ensures 50.0 <= c <= 90.0
  {
    MinR(90.0, MaxR(50.0, AbsR(best - 60.0) + 50.0))
  }

  function PickReasons(best: CardScore): (r: seq<Reason>)
    ensures 1 <= |r| <= 3
    ensures r[0] == Recommend(best.name, best.finalScore)
  {
    [Recommend(best.name, best.finalScore)]
    + (if best.curveBonus > 0.0 then [CurveImprovement(best.curveBonus)] else [])
    + (if best.roleBonus > 0.0 then [RoleCompletion(best.roleBonus)] else [])
  }

  /** The advice made from the score entries: "pick" of nothing when there
      are none, otherwise a reroll when rerolls are left and the best score
      is below `threshold`, and a pick of the best entry else. */
  function DecisionOf(scores: seq<CardScore>, threshold: real, rerollsLeft: int): PickAdvice {
    if scores == [] then PickAdvice(Pick, None, None, 0.0, [NoEvaluableCards], [])
    else
      var best := scores[BestIndex(scores)];
      var reroll := rerollsLeft > 0 && best.finalScore < threshold;
      PickAdvice(
        if reroll then Reroll else Pick,
        if reroll then None else Some(best.cardId),
        if reroll then None else Some(best.name),
        Confidence(best.finalScore),
        if reroll then [BelowThreshold(best.finalScore, threshold), RerollsLeft(rerollsLeft)] else PickReasons(best),
        scores)
  }

  /** The advice `get_pick_advice` returns. */
  function AdviceOf(cards: CardStore, cands: seq<string>, deck: seq<string>, pick: int, rerollsLeft: int): PickAdvice {
    var a := AnalysisOf(cards, deck);
    DecisionOf(ScoresOf(cards, cands, a, deck, pick), RerollThreshold(pick, rerollsLeft, a), rerollsLeft)
  }

  /** The scoring loop of `get_pick_advice`: one entry per candidate that resolves. */
  method ScoreCandidates(cards: CardStore, cands: seq<string>, a: DeckAnalysis, deck: seq<string>, pick: int)
    returns (scores: seq<CardScore>)
    ensures scores == ScoresOf(cards, cands, a, deck, pick)
  {
    scores := [];
    var i := 0;
    while i < |cands|
      invariant 0 <= i <= |cands|
      invariant scores == ScoresOf(cards, cands[..i], a, deck, pick)
    {
      ScoresStep(cards, cands, i, a, deck, pick);
      var id := cands[i];
      if id in cards {
        var score := ScoreCandidate(cards[id], id, a, deck, pick);
        scores := scores + [score];
      }
      i := i + 1;
    }
    assert cands[..i] == cands;
  }

  /** The entry of one candidate, whose card is `card`. */
  method ScoreCandidate(card: Card, id: string, a: DeckAnalysis, deck: seq<string>, pick: int) returns (score: CardScore)
    ensures score == ScoreOf(card, id, a, deck, pick)
  {
    var curve := CurveBonus(card.cost, a, pick);
    var role := CalculateRoleBonus(card.roles, a);
    var dup := 0;
    if id in deck {
      dup := -5 * Occurrences(deck, id);
    }
    score := CardScore(id, card.name, card.cost, card.baseRating, curve, role, dup,
                       card.baseRating + curve + role + dup as real);
  }

  /** `get_pick_advice`. */
  method GetPickAdvice(cards: CardStore, cands: seq<string>, deck: seq<string>, pick: int, rerollsLeft: int)
    returns (advice: PickAdvice)
    ensures advice == AdviceOf(cards, cands, deck, pick, rerollsLeft)
  {
    var a := AnalyzeDeck(cards, deck);
    var scores := ScoreCandidates(cards, cands, a, deck, pick);
    if scores == [] {
      return PickAdvice(Pick, None, None, 0.0, [NoEvaluableCards], []);
    }
    var threshold := RerollThreshold(pick, rerollsLeft, a);
    advice := Decide(scores, threshold, rerollsLeft);
  }

  /** The decision part of `get_pick_advice`, once some candidate scored. */
  method Decide(scores: seq<CardScore>, threshold: real, rerollsLeft: int) returns (advice: PickAdvice)
    requires scores != []
    ensures advice == DecisionOf(scores, threshold, rerollsLeft)
  {
    var best := scores[BestIndex(scores)];
    var reroll := rerollsLeft > 0 && best.finalScore < threshold;
    var reasoning: seq<Reason> := [];
    if reroll {
      reasoning := reasoning + [BelowThreshold(best.finalScore, threshold)];
      reasoning := reasoning + [RerollsLeft(rerollsLeft)];
      assert reasoning == [BelowThreshold(best.finalScore, threshold), RerollsLeft(rerollsLeft)];
    } else {
      reasoning := reasoning + [Recommend(best.name, best.finalScore)];
      if best.curveBonus > 0.0 {
        reasoning := reasoning + [CurveImprovement(best.curveBonus)];
      }
      if best.roleBonus > 0.0 {
        reasoning := reasoning + [RoleCompletion(best.roleBonus)];
      }
      assert reasoning == PickReasons(best);
    }
    var confidence := MinR(90.0, MaxR(50.0, AbsR(best.finalScore - 60.0) + 50.0));
    advice := PickAdvice(
      if reroll then Reroll else Pick,
      if reroll then None else Some(best.cardId),
      if reroll then None else Some(best.name),
      confidence, reasoning, scores);
  }

  /** Without rerolls left the advice is always to pick. */
  lemma NoRerollWithoutRerolls(cards: CardStore, cands: seq<string>, deck: seq<string>, pick: int, rerollsLeft: int)
    requires rerollsLeft <= 0
    ensures AdviceOf(cards, cands, deck, pick, rerollsLeft).action == Pick
  {
  }

  /** With no resolvable candidate the advice is "pick", no card, confidence 0. */
  lemma NoCandidates(cards: CardStore, cands: seq<string>, deck: seq<string>, pick: int, rerollsLeft: int)
    requires forall i :: 0 <= i < |cands| ==> cands[i] !in cards
    ensures AdviceOf(cards, cands, deck, pick, rerollsLeft) == PickAdvice(Pick, None, None, 0.0, [NoEvaluableCards], [])
  {
    NoneResolved(cards, cands);
  }

  lemma {:induction false} NoneResolved(cards: CardStore, ids: seq<string>)
    requires forall i :: 0 <= i < |ids| ==> ids[i] !in cards
    ensures ResolvedCards(cards, ids) == []
    decreases |ids|
  {
    if ids != [] {
      NoneResolved(cards, ids[..|ids| - 1]);
    }
  }

  /** The decision when some candidate resolves: a reroll exactly when rerolls
      are left and the best score is below the threshold, then no card and two
      reasoning lines; otherwise the first candidate with the maximal final
      score, recommended first in the reasoning. Confidence lies in [50, 90]. */
  lemma AdviceDecision(cards: CardStore, cands: seq<string>, deck: seq<string>, pick: int, rerollsLeft: int)
    requires ResolvedCards(cards, cands) != []
    ensures var adv := AdviceOf(cards, cands, deck, pick, rerollsLeft);
            var scores := adv.cardScores;
            var a := AnalysisOf(cards, deck);
            |scores| > 0 &&
            exists i :: 0 <= i < |scores|
              && (forall j :: 0 <= j < |scores| ==> scores[j].finalScore <= scores[i].finalScore)
              && (forall j :: 0 <= j < i ==> scores[j].finalScore < scores[i].finalScore)
              && (adv.action == Reroll <==> rerollsLeft > 0 && scores[i].finalScore < RerollThreshold(pick, rerollsLeft, a))
              && (adv.action == Reroll ==> adv.recommendedCardId == None && |adv.reasoning| == 2)
              && (adv.action == Pick ==> adv.recommendedCardId == Some(scores[i].cardId)
                                         && adv.reasoning[0] == Recommend(scores[i].name, scores[i].finalScore))
              && 50.0 <= adv.confidence <= 90.0
  {
    var a := AnalysisOf(cards, deck);
    var scores := ScoresOf(cards, cands, a, deck, pick);
    var i := BestIndex(scores);
    assert AdviceOf(cards, cands, deck, pick, rerollsLeft).cardScores == scores;
  }
}
