/** The combined advisor (`EnhancedTwoPickAdvisor`): every candidate's score is
    the unweighted sum of the base rating, the curve, role and duplication
    terms of the base advisor, and the synergy and archetype bonuses; the
    pick/reroll decision is made on the score rounded to one decimal. Names
    typed by the user are resolved to card ids first. */
module EnhancedAdvisor {
  import opened Common
  import opened Text
  import PyRound
  import PA = PickAdvisor
  import SE = SynergyEngine
  import AA = ArchetypeAnalyzer

  /** `round(x, 1)`. */
  function R1(x: real): real {
    PyRound.Round(x, 1)
  }

  /** One entry of `card_scores`: every term as stored (rounded to one
      decimal), with the bonus reasons of the two engines. */
  datatype EnhancedScore = EnhancedScore(
    cardId: string,
    name: string,
    cost: int,
    baseScore: real,
    curveBonus: real,
    roleBonus: real,
    duplicationPenalty: real,
    synergyBonus: real,
    archetypeBonus: real,
    finalScore: real,
    synergyReasons: seq<SE.SynergyReason>,
    archetypeReasons: seq<AA.BonusReason>)

  /** The entry of a candidate from its unrounded terms. */
  function StoredScore(id: string, c: Card, curve: real, role: real, dup: int,
                       syn: (real, seq<SE.SynergyReason>), arch: (real, seq<AA.BonusReason>)): EnhancedScore {
    var final := c.baseRating + curve + role + dup as real + syn.0 + arch.0;
    EnhancedScore(id, c.name, c.cost, R1(c.baseRating), R1(curve), R1(role), R1(dup as real),
                  R1(syn.0), R1(arch.0), R1(final), syn.1, arch.1)
  }

  /** The score of candidate `id`, whose card is `c`. */
  function ScoreOf(m: Matcher, cards: CardStore, c: Card, id: string, a: PA.DeckAnalysis, deck: seq<string>, pick: int): EnhancedScore {
    StoredScore(id, c, PA.CurveBonus(c.cost, a, pick), PA.RoleBonusOf(c.roles, a), PA.DuplicationPenalty(id, deck),
                SE.SynergyBonusOf(m, cards, id, deck, pick), AA.ArchetypeBonusOf(m, cards, id, deck))
  }

  /** The stored final score is the unweighted sum of the six terms, rounded
      to one decimal, so within 0.05 of it. The duplication penalty is -5 per
      copy in the deck, the synergy bonus is stored as the engine returns it
      (it is already rounded) and the archetype bonus is 0 or 8. */
  lemma ScoreTerms(m: Matcher, cards: CardStore, id: string, a: PA.DeckAnalysis, deck: seq<string>, pick: int)
    requires id in cards
    ensures var c := cards[id];
            var s := ScoreOf(m, cards, c, id, a, deck, pick);
            var sum := c.baseRating + PA.CurveBonus(c.cost, a, pick) + PA.RoleBonusOf(c.roles, a)
                       + (-5 * Occurrences(deck, id)) as real
                       + SE.SynergyBonusOf(m, cards, id, deck, pick).0 + AA.ArchetypeBonusOf(m, cards, id, deck).0;
            s.cardId == id && s.name == c.name && s.cost == c.cost
            && s.finalScore == R1(sum)
            && -0.05 <= s.finalScore - sum <= 0.05
            && s.duplicationPenalty == (-5 * Occurrences(deck, id)) as real
            && s.synergyBonus == SE.SynergyBonusOf(m, cards, id, deck, pick).0 >= 0.0
            && (s.archetypeBonus == 0.0 || s.archetypeBonus == 8.0)
            && (|s.archetypeReasons| == 1 <==> s.archetypeBonus == 8.0)
  {
    var c := cards[id];
    var syn := SE.SynergyBonusOf(m, cards, id, deck, pick);
    var arch := AA.ArchetypeBonusOf(m, cards, id, deck);
    SE.SynergyBonusProperties(m, cards, id, deck, pick);
    AA.BonusProperties(m, cards, id, deck);
    StoredScoreTerms(id, c, PA.CurveBonus(c.cost, a, pick), PA.RoleBonusOf(c.roles, a), PA.DuplicationPenalty(id, deck), syn, arch);
  }

  /** The stored entry keeps the identity of the card, rounds the sum within
      0.05, and keeps integer and already rounded terms as they are. */
  lemma StoredScoreTerms(id: string, c: Card, curve: real, role: real, dup: int,
                         syn: (real, seq<SE.SynergyReason>), arch: (real, seq<AA.BonusReason>))
    requires R1(syn.0) == syn.0 && (arch.0 == 0.0 || arch.0 == 8.0)
    ensures var s := StoredScore(id, c, curve, role, dup, syn, arch);
            var sum := c.baseRating + curve + role + dup as real + syn.0 + arch.0;
            s.cardId == id && s.name == c.name && s.cost == c.cost
            && s.finalScore == R1(sum) && -0.05 <= s.finalScore - sum <= 0.05
            && s.duplicationPenalty == dup as real && s.synergyBonus == syn.0
            && s.archetypeBonus == arch.0 && s.archetypeReasons == arch.1
  {
    var sum := c.baseRating + curve + role + dup as real + syn.0 + arch.0;
    PyRound.RoundError(sum, 1);
    PyRound.ScaleOne();
    PyRound.RoundInteger(dup, 1);
    PyRound.RoundInteger(0, 1);
    PyRound.RoundInteger(8, 1);
  }

  /** The score entries of the candidates that resolve, in candidate order. */
  function ScoresOf(m: Matcher, cards: CardStore, cands: seq<string>, a: PA.DeckAnalysis, deck: seq<string>, pick: int)
    : (r: seq<EnhancedScore>)
    ensures |r| == |ResolvedCards(cards, cands)|
    ensures forall k :: 0 <= k < |r| ==> r[k].cardId in cands && r[k].cardId in cards
    ensures forall k :: 0 <= k < |r| ==> r[k] == ScoreOf(m, cards, cards[r[k].cardId], r[k].cardId, a, deck, pick)
  {
    if cands == [] then []
    else
      var prev := ScoresOf(m, cards, cands[..|cands| - 1], a, deck, pick);
      var id := cands[|cands| - 1];
      assert forall x :: x in cands[..|cands| - 1] ==> x in cands;
      if id in cards then prev + [ScoreOf(m, cards, cards[id], id, a, deck, pick)] else prev
  }

  /** One reasoning line, as a tagged value. */
  datatype Line =
    | NoEvaluableCards
    | BelowThreshold(best: real, threshold: real)
    | RerollsLeft(n: int)
    | Recommend(name: string, score: real)
    | CurveImprovement(bonus: real)
    | RoleCompletion(bonus: real)
    | SynergyEffect(bonus: real)
    | SynergyDetail(synergy: SE.SynergyReason)
    | ArchetypeFit(bonus: real)
    | ArchetypeDetail(archetype: AA.BonusReason)

  /** `s[:n]`. */
  function Take<T>(s: seq<T>, n: nat): (r: seq<T>)
    ensures |r| == Min(|s|, n)
    ensures r == s[..|r|]
  {
    if |s| <= n then s else s[..n]
  }

  function SynergyDetails(rs: seq<SE.SynergyReason>): (r: seq<Line>)
    ensures |r| == |rs|
    ensures forall i :: 0 <= i < |rs| ==> r[i] == SynergyDetail(rs[i])
  {
    seq(|rs|, i requires 0 <= i < |rs| => SynergyDetail(rs[i]))
  }

  function ArchetypeDetails(rs: seq<AA.BonusReason>): (r: seq<Line>)
    ensures |r| == |rs|
    ensures forall i :: 0 <= i < |rs| ==> r[i] == ArchetypeDetail(rs[i])
  {
    seq(|rs|, i requires 0 <= i < |rs| => ArchetypeDetail(rs[i]))
  }

  /** The reasoning of a pick: the recommendation, then a line per positive
      stored bonus, the synergy line followed by at most two synergy reasons
      and the archetype line by at most one archetype reason. */
  function PickLines(best: EnhancedScore): seq<Line> {
    [Recommend(best.name, best.finalScore)]
    + (if best.curveBonus > 0.0 then [CurveImprovement(best.curveBonus)] else [])
    + (if best.roleBonus > 0.0 then [RoleCompletion(best.roleBonus)] else [])
    + SynergyLines(best) + ArchetypeLines(best)
  }

  /** The synergy part of a pick's reasoning. */
  function SynergyLines(best: EnhancedScore): seq<Line> {
    if best.synergyBonus > 0.0
    then [SynergyEffect(best.synergyBonus)] + SynergyDetails(Take(best.synergyReasons, 2)) else []
  }

  /** The archetype part of a pick's reasoning. */
  function ArchetypeLines(best: EnhancedScore): seq<Line> {
    if best.archetypeBonus > 0.0
    then [ArchetypeFit(best.archetypeBonus)] + ArchetypeDetails(Take(best.archetypeReasons, 1)) else []
  }

  /** The number of lines of each detail kind. */
  function SynergyDetailCount(ls: seq<Line>): nat {
    if ls == [] then 0 else SynergyDetailCount(ls[..|ls| - 1]) + (if ls[|ls| - 1].SynergyDetail? then 1 else 0)
  }

  function ArchetypeDetailCount(ls: seq<Line>): nat {
    if ls == [] then 0 else ArchetypeDetailCount(ls[..|ls| - 1]) + (if ls[|ls| - 1].ArchetypeDetail? then 1 else 0)
  }

  lemma {:induction false} DetailCountAppend(s: seq<Line>, t: seq<Line>)
    ensures SynergyDetailCount(s + t) == SynergyDetailCount(s) + SynergyDetailCount(t)
    ensures ArchetypeDetailCount(s + t) == ArchetypeDetailCount(s) + ArchetypeDetailCount(t)
    decreases |t|
  {
    if t == [] {
      assert s + t == s;
    } else {
      assert (s + t)[..|s + t| - 1] == s + t[..|t| - 1];
      DetailCountAppend(s, t[..|t| - 1]);
    }
  }

  lemma {:induction false} DetailCounts(rs: seq<SE.SynergyReason>, qs: seq<AA.BonusReason>)
    ensures SynergyDetailCount(SynergyDetails(rs)) == |rs| && ArchetypeDetailCount(SynergyDetails(rs)) == 0
    ensures ArchetypeDetailCount(ArchetypeDetails(qs)) == |qs| && SynergyDetailCount(ArchetypeDetails(qs)) == 0
    decreases |rs| + |qs|
  {
    if rs != [] {
      assert SynergyDetails(rs)[..|rs| - 1] == SynergyDetails(rs[..|rs| - 1]);
      DetailCounts(rs[..|rs| - 1], qs);
    }
    if qs != [] {
      assert ArchetypeDetails(qs)[..|qs| - 1] == ArchetypeDetails(qs[..|qs| - 1]);
      DetailCounts(rs, qs[..|qs| - 1]);
    }
  }

  lemma SingleCounts(l: Line)
    ensures SynergyDetailCount([l]) == (if l.SynergyDetail? then 1 else 0)
    ensures ArchetypeDetailCount([l]) == (if l.ArchetypeDetail? then 1 else 0)
  {
    assert [l][..0] == [];
  }

  lemma SynergyLinesCounts(best: EnhancedScore)
    ensures |SynergyLines(best)| <= 3
    ensures SynergyDetailCount(SynergyLines(best)) == (if best.synergyBonus > 0.0 then Min(|best.synergyReasons|, 2) else 0)
    ensures ArchetypeDetailCount(SynergyLines(best)) == 0
  {
    if best.synergyBonus > 0.0 {
      var d := SynergyDetails(Take(best.synergyReasons, 2));
      DetailCounts(Take(best.synergyReasons, 2), []);
      SingleCounts(SynergyEffect(best.synergyBonus));
      DetailCountAppend([SynergyEffect(best.synergyBonus)], d);
    }
  }

  lemma ArchetypeLinesCounts(best: EnhancedScore)
    ensures |ArchetypeLines(best)| <= 2
    ensures ArchetypeDetailCount(ArchetypeLines(best)) == (if best.archetypeBonus > 0.0 then Min(|best.archetypeReasons|, 1) else 0)
    ensures SynergyDetailCount(ArchetypeLines(best)) == 0
  {
    if best.archetypeBonus > 0.0 {
      var d := ArchetypeDetails(Take(best.archetypeReasons, 1));
      DetailCounts([], Take(best.archetypeReasons, 1));
      SingleCounts(ArchetypeFit(best.archetypeBonus));
      DetailCountAppend([ArchetypeFit(best.archetypeBonus)], d);
    }
  }

  /** A pick's reasoning starts with the recommendation, has at most eight
      lines, and quotes the first two synergy reasons (only when the synergy
      bonus is positive) and the first archetype reason (only when the
      archetype bonus is positive). */
  lemma PickLinesShape(best: EnhancedScore)
    ensures var ls := PickLines(best);
            1 <= |ls| <= 8 && ls[0] == Recommend(best.name, best.finalScore)
            && SynergyDetailCount(ls) == (if best.synergyBonus > 0.0 then Min(|best.synergyReasons|, 2) else 0) <= 2
            && ArchetypeDetailCount(ls) == (if best.archetypeBonus > 0.0 then Min(|best.archetypeReasons|, 1) else 0) <= 1
  {
    var head: seq<Line> := [Recommend(best.name, best.finalScore)];
    var curve: seq<Line> := if best.curveBonus > 0.0 then [CurveImprovement(best.curveBonus)] else [];
    var role: seq<Line> := if best.roleBonus > 0.0 then [RoleCompletion(best.roleBonus)] else [];
    var syn := SynergyLines(best);
    var arch := ArchetypeLines(best);
    assert PickLines(best) == head + curve + role + syn + arch;
    SynergyLinesCounts(best);
    ArchetypeLinesCounts(best);
    SingleCounts(Recommend(best.name, best.finalScore));
    if curve != [] {
      SingleCounts(CurveImprovement(best.curveBonus));
    }
    if role != [] {
      SingleCounts(RoleCompletion(best.roleBonus));
    }
    DetailCountAppend(head, curve);
    DetailCountAppend(head + curve, role);
    DetailCountAppend(head + curve + role, syn);
    DetailCountAppend(head + curve + role + syn, arch);
  }

  /** `min(95, max(50, abs(best_score - 60) + 50))`. */
  function Confidence(best: real): (c: real)
    ensures 50.0 <= c <= 95.0
  {
    MinR(95.0, MaxR(50.0, AbsR(best - 60.0) + 50.0))
  }

  /** `PickAdvice` as the combined advisor fills it. */
  datatype EnhancedAdvice = EnhancedAdvice(
    action: PA.Action,
    recommendedCardId: Option<string>,
    recommendedCardName: Option<string>,
    confidence: real,
    reasoning: seq<Line>,
    cardScores: seq<EnhancedScore>)

  /** The position of `max(card_scores, key=lambda x: x["final_score"])`. */
  function BestIndex(scores: seq<EnhancedScore>): (i: nat)
    requires |scores| > 0
    ensures i < |scores|
    ensures forall j :: 0 <= j < |scores| ==> scores[j].finalScore <= scores[i].finalScore
    ensures forall j :: 0 <= j < i ==> scores[j].finalScore < scores[i].finalScore
  {
    ArgMax(scores, (s: EnhancedScore) => s.finalScore)
  }

  /** The advice made from the score entries: a pick of nothing when there
      are none, otherwise a reroll when rerolls are left and the best stored
      score is below `threshold`, and a pick of the best entry else. */
  function DecisionOf(scores: seq<EnhancedScore>, threshold: real, rerollsLeft: int): EnhancedAdvice {
    if scores == [] then EnhancedAdvice(PA.Pick, None, None, 0.0, [NoEvaluableCards], [])
    else
      var best := scores[BestIndex(scores)];
      var reroll := rerollsLeft > 0 && best.finalScore < threshold;
      EnhancedAdvice(
        if reroll then PA.Reroll else PA.Pick,
        if reroll then None else Some(best.cardId),
        if reroll then None else Some(best.name),
        Confidence(best.finalScore),
        if reroll then [BelowThreshold(best.finalScore, threshold), RerollsLeft(rerollsLeft)] else PickLines(best),
        scores)
  }

  /** The advice `get_pick_advice_enhanced` returns. */
  function AdviceOf(m: Matcher, cards: CardStore, cands: seq<string>, deck: seq<string>, pick: int, rerollsLeft: int)
    : EnhancedAdvice
  {
    var a := PA.AnalysisOf(cards, deck);
    DecisionOf(ScoresOf(m, cards, cands, a, deck, pick), PA.RerollThreshold(pick, rerollsLeft, a), rerollsLeft)
  }

  /** The decision rule on any score entries: the best entry is the first one
      with the largest stored final score, the advice rerolls exactly when
      rerolls are left and that score is below the threshold, and otherwise
      picks that entry. */
  lemma DecisionProperties(scores: seq<EnhancedScore>, threshold: real, rerollsLeft: int)
    ensures var adv := DecisionOf(scores, threshold, rerollsLeft);
            scores == [] ==> adv.action == PA.Pick && adv.recommendedCardId.None? && adv.confidence == 0.0
    ensures var adv := DecisionOf(scores, threshold, rerollsLeft);
            scores != [] ==>
              adv.cardScores == scores
              && exists i :: 0 <= i < |scores|
                   && (forall j :: 0 <= j < |scores| ==> scores[j].finalScore <= scores[i].finalScore)
                   && (forall j :: 0 <= j < i ==> scores[j].finalScore < scores[i].finalScore)
                   && (adv.action == PA.Reroll <==> rerollsLeft > 0 && scores[i].finalScore < threshold)
                   && (adv.action == PA.Reroll ==> adv.recommendedCardId.None? && |adv.reasoning| == 2)
                   && (adv.action == PA.Pick ==> adv.recommendedCardId == Some(scores[i].cardId)
                                                 && adv.reasoning == PickLines(scores[i]))
                   && 50.0 <= adv.confidence <= 95.0
    ensures rerollsLeft <= 0 ==> DecisionOf(scores, threshold, rerollsLeft).action == PA.Pick
  {
    if scores != [] {
      var i := BestIndex(scores);
      assert 0 <= i < |scores|;
    }
  }

  /** The advice is the decision rule applied to the threshold of the deck
      and to one score entry per candidate that resolves, in candidate order;
      so with no candidate resolving it is a pick of nothing with confidence
      0, and otherwise a picked card is one of the candidates. */
  lemma AdviceDecision(m: Matcher, cards: CardStore, cands: seq<string>, deck: seq<string>, pick: int, rerollsLeft: int)
    ensures var a := PA.AnalysisOf(cards, deck);
            var scores := ScoresOf(m, cards, cands, a, deck, pick);
            AdviceOf(m, cards, cands, deck, pick, rerollsLeft) == DecisionOf(scores, PA.RerollThreshold(pick, rerollsLeft, a), rerollsLeft)
            && |scores| == |ResolvedCards(cards, cands)|
            && (forall k :: 0 <= k < |scores| ==> scores[k].cardId in cands)
    ensures var adv := AdviceOf(m, cards, cands, deck, pick, rerollsLeft);
            ResolvedCards(cards, cands) == [] ==>
              adv.action == PA.Pick && adv.recommendedCardId.None? && adv.confidence == 0.0
    ensures var adv := AdviceOf(m, cards, cands, deck, pick, rerollsLeft);
            adv.recommendedCardId.Some? ==> adv.recommendedCardId.value in cands
  {
    var a := PA.AnalysisOf(cards, deck);
    var scores := ScoresOf(m, cards, cands, a, deck, pick);
    var threshold := PA.RerollThreshold(pick, rerollsLeft, a);
    DecisionProperties(scores, threshold, rerollsLeft);
    if scores != [] {
      var i := BestIndex(scores);
      assert scores[i].cardId in cands;
    }
  }

  /** Two copies of the same candidate score alike, so the first one is
      chosen. */
  lemma SameCandidateTwice(m: Matcher, cards: CardStore, id: string, deck: seq<string>, pick: int)
    requires id in cards
    ensures var a := PA.AnalysisOf(cards, deck);
            var scores := ScoresOf(m, cards, [id, id], a, deck, pick);
            |scores| == 2 && scores[0] == scores[1] && BestIndex(scores) == 0
  {
    var a := PA.AnalysisOf(cards, deck);
    var s := ScoreOf(m, cards, cards[id], id, a, deck, pick);
    assert [id, id][..1] == [id];
    assert [id][..0] == [];
    assert ScoresOf(m, cards, [id], a, deck, pick) == [s];
    assert ScoresOf(m, cards, [id, id], a, deck, pick) == [s, s];
    FirstOfEqualPair(s);
  }

  lemma FirstOfEqualPair(s: EnhancedScore)
    ensures BestIndex([s, s]) == 0
  {
    assert [s, s][0] == [s, s][1];
  }

  // ---------------------------------------------------------------------
  // Resolution of typed names
  // ---------------------------------------------------------------------

  /** The name-to-id resolver (`CardResolver.resolve_card_id`); its exact and
      partial-name SQL queries are not part of this model. */
  type Resolver = string -> Option<string>

  /** A resolved id that Python treats as true (neither None nor ""). */
  predicate Found(id: Option<string>) {
    id.Some? && id.value != ""
  }

  /** The stripped, non-empty pieces of `pieces`. */
  function StrippedNames(pieces: seq<string>): (r: seq<string>)
    ensures |r| <= |pieces|
  {
    if pieces == [] then []
    else
      var prev := StrippedNames(pieces[..|pieces| - 1]);
      var name := Strip(pieces[|pieces| - 1]);
      if name != [] then prev + [name] else prev
  }

  /** `[n.strip() for n in deck_input.replace('、', ',').split(',') if n.strip()]`. */
  function DeckNames(input: string): seq<string> {
    StrippedNames(Split(Replace(input, '、', ','), ','))
  }

  /** The ids of the names that resolve, in order. */
  function ResolvedIds(res: Resolver, names: seq<string>): (ids: seq<string>)
    ensures |ids| <= |names|
    ensures forall k :: 0 <= k < |ids| ==> ids[k] != ""
  {
    if names == [] then []
    else
      var prev := ResolvedIds(res, names[..|names| - 1]);
      var id := res(names[|names| - 1]);
      if Found(id) then prev + [id.value] else prev
  }

  lemma StripKeepsOut(s: string, c: char)
    requires c !in s
    ensures c !in Strip(s)
  {
    StripSlice(s);
  }

  /** Every piece of a stripped list is non-empty, carries no outer whitespace
      and no character that no piece had. */
  lemma {:induction false} StrippedNamesShape(pieces: seq<string>, c: char)
    requires forall k :: 0 <= k < |pieces| ==> c !in pieces[k]
    ensures forall k :: 0 <= k < |StrippedNames(pieces)| ==>
              var n := StrippedNames(pieces)[k];
              n != [] && !IsSpace(n[0]) && !IsSpace(n[|n| - 1]) && c !in n
    decreases |pieces|
  {
    if pieces != [] {
      var prefix := pieces[..|pieces| - 1];
      var last := pieces[|pieces| - 1];
      assert forall k :: 0 <= k < |prefix| ==> prefix[k] == pieces[k];
      StrippedNamesShape(prefix, c);
      StripEnds(last);
      StripKeepsOut(last, c);
      var prev := StrippedNames(prefix);
      var name := Strip(last);
      assert StrippedNames(pieces) == if name != [] then prev + [name] else prev;
    }
  }

  /** Every deck name is non-empty, stripped, and contains neither separator. */
  lemma DeckNamesShape(input: string)
    ensures forall k :: 0 <= k < |DeckNames(input)| ==>
              var n := DeckNames(input)[k];
              n != [] && !IsSpace(n[0]) && !IsSpace(n[|n| - 1]) && ',' !in n && '、' !in n
  {
    var replaced := Replace(input, '、', ',');
    var pieces := Split(replaced, ',');
    StrippedNamesShape(pieces, ',');
    assert '、' !in replaced;
    assert forall k :: 0 <= k < |pieces| ==> '、' !in pieces[k] by {
      JoinSplit(replaced, ',');
      forall k | 0 <= k < |pieces|
        ensures '、' !in pieces[k]
      {
        JoinedPiece(pieces, ',', k);
      }
    }
    StrippedNamesShape(pieces, '、');
  }

  /** Every piece is part of the joined text. */
  lemma {:induction false} JoinedPiece(pieces: seq<string>, sep: char, k: nat)
    requires |pieces| >= 1 && k < |pieces|
    ensures forall x :: x in pieces[k] ==> x in Join(pieces, sep)
    decreases |pieces|
  {
    if k > 0 {
      JoinedPiece(pieces[1..], sep, k - 1);
    }
  }

  /** The result of `get_pick_advice_by_names`. */
  datatype ByNamesResult =
    | NotFound(name: string, candidate1: Option<string>, candidate2: Option<string>)
    | Advised(advice: EnhancedAdvice, resolvedDeckCount: nat, originalDeckCount: nat)

  /** `get_pick_advice_by_names`. */
  function ByNamesOf(res: Resolver, m: Matcher, cards: CardStore, c1: string, c2: string, input: string,
                     pick: int, rerollsLeft: int): ByNamesResult
  {
    var id1 := res(c1);
    var id2 := res(c2);
    if !Found(id1) || !Found(id2) then NotFound(if !Found(id1) then c1 else c2, id1, id2)
    else
      var names := if Strip(input) != [] then DeckNames(input) else [];
      var deckIds := ResolvedIds(res, names);
      Advised(AdviceOf(m, cards, [id1.value, id2.value], deckIds, pick, rerollsLeft),
              |deckIds|, if Strip(input) != [] then |names| else 0)
  }

  /** An unresolved candidate gives the error result naming the first
      unresolved one and no advice; otherwise the resolved deck never has
      more ids than the input had names, and a blank input gives an empty
      deck. */
  lemma ByNamesProperties(res: Resolver, m: Matcher, cards: CardStore, c1: string, c2: string, input: string,
                          pick: int, rerollsLeft: int)
    ensures var r := ByNamesOf(res, m, cards, c1, c2, input, pick, rerollsLeft);
            (r.NotFound? <==> !Found(res(c1)) || !Found(res(c2)))
            && (r.NotFound? ==> r.name == (if !Found(res(c1)) then c1 else c2))
            && (r.Advised? ==> r.resolvedDeckCount <= r.originalDeckCount)
            && (r.Advised? && Strip(input) == [] ==> r.resolvedDeckCount == 0 && r.originalDeckCount == 0)
  {
  }

  // ---------------------------------------------------------------------
  // The advisor's loops
  // ---------------------------------------------------------------------

  /** The score of one resolved candidate. */
  method ScoreCandidate(m: Matcher, cards: CardStore, id: string, a: PA.DeckAnalysis, deck: seq<string>, pick: int)
    returns (s: EnhancedScore)
    requires id in cards
    ensures s == ScoreOf(m, cards, cards[id], id, a, deck, pick)
  {
    var card := cards[id];
    var baseScore := card.baseRating;
    var curveBonus := PA.CurveBonus(card.cost, a, pick);
    var roleBonus := PA.CalculateRoleBonus(card.roles, a);
    var duplicationPenalty := 0;
    if id in deck {
      duplicationPenalty := -5 * Occurrences(deck, id);
    }
    var synergyBonus, synergyReasons := SE.CalculateSynergyBonus(m, cards, id, deck, pick);
    var archetypeBonus, archetypeReasons := AA.CalculateArchetypeBonus(m, cards, id, deck);
    s := StoredScore(id, card, curveBonus, roleBonus, duplicationPenalty, (synergyBonus, synergyReasons),
                     (archetypeBonus, archetypeReasons));
  }

  lemma ScoresStep(m: Matcher, cards: CardStore, cands: seq<string>, i: nat, a: PA.DeckAnalysis, deck: seq<string>, pick: int)
    requires i < |cands|
    ensures ScoresOf(m, cards, cands[..i + 1], a, deck, pick)
            == ScoresOf(m, cards, cands[..i], a, deck, pick)
               + (if cands[i] in cards then [ScoreOf(m, cards, cards[cands[i]], cands[i], a, deck, pick)] else [])
  {
    assert cands[..i + 1][..i] == cands[..i];
  }

  /** The scoring loop of `get_pick_advice_enhanced`. */
  method ScoreCandidates(m: Matcher, cards: CardStore, cands: seq<string>, a: PA.DeckAnalysis, deck: seq<string>, pick: int)
    returns (scores: seq<EnhancedScore>)
    ensures scores == ScoresOf(m, cards, cands, a, deck, pick)
  {
    scores := [];
    var i := 0;
    while i < |cands|
      invariant 0 <= i <= |cands|
      invariant scores == ScoresOf(m, cards, cands[..i], a, deck, pick)
    {
      ScoresStep(m, cards, cands, i, a, deck, pick);
      if cands[i] in cards {
        var s := ScoreCandidate(m, cards, cands[i], a, deck, pick);
        scores := scores + [s];
      }
      i := i + 1;
    }
    assert cands[..i] == cands;
  }

  /** The reasoning lines of a pick, appended one by one. */
  method BuildPickLines(best: EnhancedScore) returns (reasoning: seq<Line>)
    ensures reasoning == PickLines(best)
  {
    reasoning := [Recommend(best.name, best.finalScore)];
    if best.curveBonus > 0.0 {
      reasoning := reasoning + [CurveImprovement(best.curveBonus)];
    }
    if best.roleBonus > 0.0 {
      reasoning := reasoning + [RoleCompletion(best.roleBonus)];
    }
    var synergyLines := AddSynergyLines(best);
    var archetypeLines := AddArchetypeLines(best);
    reasoning := reasoning + synergyLines + archetypeLines;
  }

  method AddSynergyLines(best: EnhancedScore) returns (lines: seq<Line>)
    ensures lines == SynergyLines(best)
  {
    lines := [];
    if best.synergyBonus > 0.0 {
      lines := lines + [SynergyEffect(best.synergyBonus)];
      if best.synergyReasons != [] {
        lines := lines + SynergyDetails(Take(best.synergyReasons, 2));
      }
    }
  }

  method AddArchetypeLines(best: EnhancedScore) returns (lines: seq<Line>)
    ensures lines == ArchetypeLines(best)
  {
    lines := [];
    if best.archetypeBonus > 0.0 {
      lines := lines + [ArchetypeFit(best.archetypeBonus)];
      if best.archetypeReasons != [] {
        lines := lines + ArchetypeDetails(Take(best.archetypeReasons, 1));
      }
    }
  }

  /** `get_pick_advice_enhanced`. */
  method GetPickAdviceEnhanced(m: Matcher, cards: CardStore, cands: seq<string>, deck: seq<string>, pick: int, rerollsLeft: int)
    returns (advice: EnhancedAdvice)
    ensures advice == AdviceOf(m, cards, cands, deck, pick, rerollsLeft)
  {
    var a := PA.AnalyzeDeck(cards, deck);
    var scores := ScoreCandidates(m, cards, cands, a, deck, pick);
    if scores == [] {
      return EnhancedAdvice(PA.Pick, None, None, 0.0, [NoEvaluableCards], []);
    }
    var best := scores[BestIndex(scores)];
    var threshold := PA.RerollThreshold(pick, rerollsLeft, a);
    var reroll := rerollsLeft > 0 && best.finalScore < threshold;
    var reasoning: seq<Line>;
    if reroll {
      reasoning := [BelowThreshold(best.finalScore, threshold)];
      reasoning := reasoning + [RerollsLeft(rerollsLeft)];
    } else {
      reasoning := BuildPickLines(best);
    }
    var confidence := Confidence(best.finalScore);
    advice := EnhancedAdvice(
      if reroll then PA.Reroll else PA.Pick,
      if reroll then None else Some(best.cardId),
      if reroll then None else Some(best.name),
      confidence, reasoning, scores);
  }

  /** The deck-name loop: the ids of the names that resolve. */
  method ResolveDeck(res: Resolver, names: seq<string>) returns (ids: seq<string>)
    ensures ids == ResolvedIds(res, names)
  {
    ids := [];
    var i := 0;
    while i < |names|
      invariant 0 <= i <= |names|
      invariant ids == ResolvedIds(res, names[..i])
    {
      assert names[..i + 1][..i] == names[..i];
      var id := res(names[i]);
      if Found(id) {
        ids := ids + [id.value];
      }
      i := i + 1;
    }
    assert names[..i] == names;
  }

  /** `get_pick_advice_by_names`. */
  method GetPickAdviceByNames(res: Resolver, m: Matcher, cards: CardStore, c1: string, c2: string, input: string,
                              pick: int, rerollsLeft: int) returns (r: ByNamesResult)
    ensures r == ByNamesOf(res, m, cards, c1, c2, input, pick, rerollsLeft)
  {
    var id1 := res(c1);
    var id2 := res(c2);
    if !Found(id1) || !Found(id2) {
      return NotFound(if !Found(id1) then c1 else c2, id1, id2);
    }
    var deckIds: seq<string> := [];
    var names: seq<string> := [];
    if Strip(input) != [] {
      names := DeckNames(input);
      deckIds := ResolveDeck(res, names);
    }
    var advice := GetPickAdviceEnhanced(m, cards, [id1.value, id2.value], deckIds, pick, rerollsLeft);
    r := Advised(advice, |deckIds|, if Strip(input) != [] then |names| else 0);
  }
}
