/** The synergy engine (`SynergyEngine`): per-class rules that count the
    deck's enablers and payoffs, and a bonus for a candidate that pays off an
    established enabler base or feeds the deck's payoffs. */
module SynergyEngine {
  import opened Common
  import opened Dicts
  import opened Decks
  import PyRound

  datatype SynergyRule = SynergyRule(
    name: string,
    enablerPatterns: seq<string>,
    payoffPatterns: seq<string>,
    minThreshold: int,
    maxBonus: real,
    bonusPerCard: real)

  /** The rules of one class (0 is neutral); a class without rules has none. */
  function RulesFor(classId: int): seq<SynergyRule> {
    if classId == 0 then [
      SynergyRule("エンハンス", ["エンハンス"], ["エンハンス"], 2, 8.0, 2.0),
      SynergyRule("守護", ["守護"], ["守護"], 2, 6.0, 1.5)]
    else if classId == 1 then [
      SynergyRule("フェアリー", ["フェアリー.*手札", "フェアリー.*場"], ["フェアリー", "手札.*枚.*以上"], 3, 12.0, 3.0),
      SynergyRule("コンボ", ["コンボ"], ["コンボ_\\d+"], 2, 15.0, 4.0),
      SynergyRule("自然", ["ナチュラ"], ["ナチュラ"], 2, 10.0, 3.0)]
    else if classId == 2 then [
      SynergyRule("兵士", ["兵士.*場"], ["兵士.*フォロワー"], 3, 12.0, 2.5),
      SynergyRule("指揮官", ["指揮官"], ["指揮官"], 2, 8.0, 2.0),
      SynergyRule("連携", ["連携"], ["連携"], 2, 10.0, 3.0)]
    else if classId == 3 then [
      SynergyRule("スペルブースト", ["スペル"], ["スペルブースト"], 4, 18.0, 3.5),
      SynergyRule("土の印", ["土の印.*\\+"], ["土の秘術", "土の印.*消費"], 3, 15.0, 4.0),
      SynergyRule("知恵の光", ["知恵の光"], ["知恵の光"], 2, 6.0, 2.0)]
    else if classId == 4 then [
      SynergyRule("覚醒", ["PP.*増", "PP.*回復"], ["覚醒"], 2, 12.0, 4.0),
      SynergyRule("竜族", ["ドラゴン.*フォロワー"], ["ドラゴン.*フォロワー"], 3, 10.0, 2.5)]
    else if classId == 5 then [
      SynergyRule("ネクロマンス", ["墓場"], ["ネクロマンス"], 4, 15.0, 3.0),
      SynergyRule("ラストワード", ["ラストワード"], ["ラストワード"], 3, 10.0, 2.5),
      SynergyRule("リアニメイト", ["リアニメイト"], ["リアニメイト"], 2, 12.0, 4.0)]
    else if classId == 6 then [
      SynergyRule("カウントダウン", ["カウントダウン"], ["カウントダウン"], 2, 10.0, 3.0),
      SynergyRule("守護", ["守護"], ["守護"], 3, 12.0, 2.0),
      SynergyRule("回復", ["回復"], ["回復"], 2, 6.0, 1.5)]
    else if classId == 7 then [
      SynergyRule("アーティファクト", ["アーティファクト.*手札", "アーティファクト.*場"], ["アーティファクト"], 3, 15.0, 3.5),
      SynergyRule("融合", ["融合"], ["融合"], 2, 12.0, 4.0),
      SynergyRule("共鳴", ["共鳴"], ["共鳴"], 2, 8.0, 3.0)]
    else []
  }

  /** The shape every catalogue rule has: a positive threshold, bonus and rate. */
  predicate ValidRule(r: SynergyRule) {
    r.minThreshold >= 1 && r.maxBonus > 0.0 && r.bonusPerCard > 0.0
  }

  predicate ValidRules(rules: seq<SynergyRule>) {
    forall i :: 0 <= i < |rules| ==> ValidRule(rules[i])
  }

  lemma CatalogueValid(classId: int)
    ensures ValidRules(RulesFor(classId))
  {
  }

  /** The enabler and payoff counts recorded for one rule. */
  datatype Counts = Counts(enablers: int, payoffs: int, total: int)

  datatype DeckSynergies = DeckSynergies(
    synergies: Dict<string, Counts>,
    classDistribution: Dict<int, int>,
    synergyScore: int,
    mainClass: int)

  function RuleCounts(m: Matcher, r: SynergyRule, cs: seq<Card>): (c: Counts)
    ensures 0 <= c.enablers <= |cs| && 0 <= c.payoffs <= |cs|
    ensures c.total == c.enablers + c.payoffs
  {
    var e := MatchCount(m, r.enablerPatterns, cs);
    var p := MatchCount(m, r.payoffPatterns, cs);
    Counts(e, p, e + p)
  }

  /** The `synergy_counts` table built over `rules`: a rule with an enabler or
      a payoff in the deck is recorded under its name, a later rule of the
      same name replacing the earlier entry in place. */
  function RecordRules(m: Matcher, rules: seq<SynergyRule>, cs: seq<Card>): Dict<string, Counts> {
    if rules == [] then []
    else
      var d := RecordRules(m, rules[..|rules| - 1], cs);
      var r := rules[|rules| - 1];
      var c := RuleCounts(m, r, cs);
      if c.enablers > 0 || c.payoffs > 0 then Put(d, r.name, c) else d
  }

  /** What every recorded entry satisfies. */
  predicate ValidEntry(e: (string, Counts), n: nat) {
    0 <= e.1.enablers <= n && 0 <= e.1.payoffs <= n && e.1.total == e.1.enablers + e.1.payoffs && e.1.total > 0
  }

  predicate ValidSynergies(d: Dict<string, Counts>, n: nat) {
    DistinctKeys(d) && forall k :: 0 <= k < |d| ==> ValidEntry(d[k], n)
  }

  /** Each recorded rule has at most one enabler and one payoff per resolved
      card, and a positive total; every rule name is recorded once. */
  lemma {:induction false} RecordRulesValid(m: Matcher, rules: seq<SynergyRule>, cs: seq<Card>)
    ensures ValidSynergies(RecordRules(m, rules, cs), |cs|)
    decreases |rules|
  {
    if rules != [] {
      var d := RecordRules(m, rules[..|rules| - 1], cs);
      var r := rules[|rules| - 1];
      var c := RuleCounts(m, r, cs);
      RecordRulesValid(m, rules[..|rules| - 1], cs);
      if c.enablers > 0 || c.payoffs > 0 {
        PutEntries(d, r.name, c);
        PutDistinct(d, r.name, c);
        assert ValidEntry((r.name, c), |cs|);
      }
    }
  }

  /** `sum(min(data['total'] * 2, 10) for data in synergy_counts.values())`. */
  function SynergyScoreOf(d: Dict<string, Counts>): int {
    if d == [] then 0 else SynergyScoreOf(d[..|d| - 1]) + Min(d[|d| - 1].1.total * 2, 10)
  }

  lemma {:induction false} SynergyScoreBounds(d: Dict<string, Counts>, n: nat)
    requires forall k :: 0 <= k < |d| ==> ValidEntry(d[k], n)
    ensures 0 <= SynergyScoreOf(d) <= 10 * |d|
    decreases |d|
  {
    if d != [] {
      SynergyScoreBounds(d[..|d| - 1], n);
      assert ValidEntry(d[|d| - 1], n);
    }
  }

  /** The rules applied to the deck: the main class's, then the neutral ones. */
  function DeckRules(mainClass: int): seq<SynergyRule> {
    RulesFor(mainClass) + RulesFor(0)
  }

  /** `analyze_deck_synergies`. */
  function SynergiesOf(m: Matcher, cards: CardStore, ids: seq<string>): DeckSynergies {
    if ids == [] then DeckSynergies([], [], 0, 0)
    else
      var cs := ResolvedCards(cards, ids);
      var classCounts := CountsOf(Classes(cs));
      var main := MainClass(classCounts);
      var syn := RecordRules(m, DeckRules(main), cs);
      DeckSynergies(syn, classCounts, SynergyScoreOf(syn), main)
  }

  /** An empty deck has no synergies, score 0 and main class 0. */
  lemma EmptyDeckSynergies(m: Matcher, cards: CardStore)
    ensures SynergiesOf(m, cards, []) == DeckSynergies([], [], 0, 0)
  {
  }

  /** The recorded entries are bounded by the resolved cards, the score by 10
      per recorded rule, and the main class is the first class with the
      largest count, or 0 when no card resolves. */
  lemma SynergiesProperties(m: Matcher, cards: CardStore, ids: seq<string>)
    ensures var s := SynergiesOf(m, cards, ids);
            ValidSynergies(s.synergies, |ResolvedCards(cards, ids)|)
            && 0 <= s.synergyScore <= 10 * |s.synergies|
    ensures var s := SynergiesOf(m, cards, ids);
            var cs := ResolvedCards(cards, ids);
            (cs == [] ==> s.mainClass == 0)
            && (cs != [] ==> HasKey(s.classDistribution, s.mainClass)
                             && forall c :: Occurrences(Classes(cs), c) <= Occurrences(Classes(cs), s.mainClass))
  {
    var cs := ResolvedCards(cards, ids);
    if ids == [] {
      assert cs == [];
    } else {
      var main := MainClass(CountsOf(Classes(cs)));
      RecordRulesValid(m, DeckRules(main), cs);
      SynergyScoreBounds(RecordRules(m, DeckRules(main), cs), |cs|);
      MainClassMaximal(cs);
    }
  }

  lemma RecordStep(m: Matcher, rules: seq<SynergyRule>, k: nat, cs: seq<Card>)
    requires k < |rules|
    ensures RecordRules(m, rules[..k + 1], cs)
            == (var c := RuleCounts(m, rules[k], cs);
                if c.enablers > 0 || c.payoffs > 0 then Put(RecordRules(m, rules[..k], cs), rules[k].name, c)
                else RecordRules(m, rules[..k], cs))
  {
    assert rules[..k + 1][..k] == rules[..k];
  }

  /** The inner loop over the deck's cards for one rule. */
  method CountRule(m: Matcher, r: SynergyRule, cs: seq<Card>) returns (enablers: int, payoffs: int)
    ensures Counts(enablers, payoffs, enablers + payoffs) == RuleCounts(m, r, cs)
  {
    enablers := 0;
    payoffs := 0;
    var j := 0;
    while j < |cs|
      invariant 0 <= j <= |cs|
      invariant enablers == MatchCount(m, r.enablerPatterns, cs[..j])
      invariant payoffs == MatchCount(m, r.payoffPatterns, cs[..j])
    {
      assert cs[..j + 1][..j] == cs[..j];
      var fullText := FullText(cs[j]);
      var isEnabler := SearchAny(m, r.enablerPatterns, true, fullText);
      if isEnabler {
        enablers := enablers + 1;
      }
      var isPayoff := SearchAny(m, r.payoffPatterns, true, fullText);
      if isPayoff {
        payoffs := payoffs + 1;
      }
      j := j + 1;
    }
    assert cs[..j] == cs;
  }

  /** `analyze_deck_synergies`. */
  method AnalyzeDeckSynergies(m: Matcher, cards: CardStore, ids: seq<string>) returns (r: DeckSynergies)
    ensures r == SynergiesOf(m, cards, ids)
  {
    if ids == [] {
      return DeckSynergies([], [], 0, 0);
    }
    var cs, classCounts := CountClasses(cards, ids);
    var main := MainClass(classCounts);
    var synergyCounts := RecordAll(m, RulesFor(main) + RulesFor(0), cs);
    r := DeckSynergies(synergyCounts, classCounts, SynergyScoreOf(synergyCounts), main);
  }

  /** The first loop of `analyze_deck_synergies`: the deck's cards found in
      the store, and the count of each class among them. */
  method CountClasses(cards: CardStore, ids: seq<string>) returns (cs: seq<Card>, classCounts: Dict<int, int>)
    ensures cs == ResolvedCards(cards, ids)
    ensures classCounts == CountsOf(Classes(cs))
  {
    cs := [];
    classCounts := [];
    var i := 0;
    while i < |ids|
      invariant 0 <= i <= |ids|
      invariant cs == ResolvedCards(cards, ids[..i])
      invariant classCounts == CountsOf(Classes(cs))
    {
      assert ids[..i + 1][..i] == ids[..i];
      if ids[i] in cards {
        var card := cards[ids[i]];
        ClassStep(cs, card);
        cs := cs + [card];
        classCounts := Increment(classCounts, card.classId);
      }
      i := i + 1;
    }
    assert ids[..i] == ids;
  }

  /** The second loop: an entry for every rule some card enables or pays
      off. */
  method RecordAll(m: Matcher, rules: seq<SynergyRule>, cs: seq<Card>) returns (synergyCounts: Dict<string, Counts>)
    ensures synergyCounts == RecordRules(m, rules, cs)
  {
    synergyCounts := [];
    var k := 0;
    while k < |rules|
      invariant 0 <= k <= |rules|
      invariant synergyCounts == RecordRules(m, rules[..k], cs)
    {
      RecordStep(m, rules, k, cs);
      var rule := rules[k];
      var enablers, payoffs := CountRule(m, rule, cs);
      if enablers > 0 || payoffs > 0 {
        synergyCounts := Put(synergyCounts, rule.name, Counts(enablers, payoffs, enablers + payoffs));
      }
      k := k + 1;
    }
    assert rules[..k] == rules;
  }

  /** One line of the bonus reasoning, carrying the bonus it adds. */
  datatype SynergyReason =
    | PayoffReason(rule: string, bonus: real, enablers: int)
    | EnablerReason(rule: string, bonus: real)

  function PayoffPhase(pick: int): real {
    if pick <= 10 then 1.0 else 0.8
  }

  function EnablerPhase(pick: int): real {
    if pick <= 6 then 1.2 else if pick <= 10 then 1.0 else 0.6
  }

  /** `n * x` for a card count `n`, written as repeated addition; counts are
      never negative, and a negative `n` gives 0. */
  function Times(n: int, x: real): real
    decreases n
  {
    if n <= 0 then 0.0 else Times(n - 1, x) + x
  }

  lemma {:induction false} TimesIsProduct(n: nat, x: real)
    ensures Times(n, x) == n as real * x
    decreases n
  {
    if n > 0 {
      TimesIsProduct(n - 1, x);
      assert (n - 1) as real * x + x == n as real * x;
    }
  }

  lemma {:induction false} TimesNonNegative(n: int, x: real)
    requires x >= 0.0
    ensures Times(n, x) >= 0.0
    decreases n
  {
    if n > 0 {
      TimesNonNegative(n - 1, x);
    }
  }

  /** `min(enablers * bonus_per_card, max_bonus)` scaled by the pick phase. */
  function PayoffBonus(r: SynergyRule, enablers: int, pick: int): real {
    var b := MinR(Times(enablers, r.bonusPerCard), r.maxBonus);
    if pick <= 10 then b else b * 0.8
  }

  /** `min(payoffs * (bonus_per_card * 0.7), max_bonus * 0.6)` scaled by the pick phase. */
  function EnablerBonus(r: SynergyRule, payoffs: int, pick: int): real {
    var b := MinR(Times(payoffs, r.bonusPerCard * 0.7), r.maxBonus * 0.6);
    if pick <= 6 then b * 1.2 else if pick <= 10 then b else b * 0.6
  }

  /** The bonuses are the source's formulas: the capped product times the phase factor. */
  lemma BonusFormulas(r: SynergyRule, n: nat, pick: int)
    ensures PayoffBonus(r, n, pick) == MinR(n as real * r.bonusPerCard, r.maxBonus) * PayoffPhase(pick)
    ensures EnablerBonus(r, n, pick) == MinR(n as real * (r.bonusPerCard * 0.7), r.maxBonus * 0.6) * EnablerPhase(pick)
  {
    TimesIsProduct(n, r.bonusPerCard);
    TimesIsProduct(n, r.bonusPerCard * 0.7);
  }

  /** A payoff bonus lies between 0 and the rule's cap, scaled by the phase;
      an enabler bonus between 0 and 60% of the cap, scaled by its phase. */
  lemma BonusBounds(r: SynergyRule, n: int, pick: int)
    requires ValidRule(r)
    ensures 0.0 <= PayoffBonus(r, n, pick) <= r.maxBonus * PayoffPhase(pick)
    ensures 0.0 <= EnablerBonus(r, n, pick) <= r.maxBonus * 0.6 * EnablerPhase(pick)
  {
    TimesNonNegative(n, r.bonusPerCard);
    TimesNonNegative(n, r.bonusPerCard * 0.7);
  }

  /** The payoff condition: the candidate matches a payoff pattern and the
      deck already holds enough enablers. */
  predicate PaysOff(m: Matcher, r: SynergyRule, data: Counts, text: string) {
    AnyMatch(m, r.payoffPatterns, true, text) && data.enablers >= r.minThreshold
  }

  /** The enabler condition: the candidate matches an enabler pattern and the
      deck holds a payoff. */
  predicate Enables(m: Matcher, r: SynergyRule, data: Counts, text: string) {
    AnyMatch(m, r.enablerPatterns, true, text) && data.payoffs > 0
  }

  /** The contribution of one applicable rule to the candidate's bonus: the
      payoff branch, else the enabler branch, else nothing. */
  function Contribution(m: Matcher, r: SynergyRule, syn: Dict<string, Counts>, text: string, pick: int): Option<SynergyReason> {
    var data := Lookup(syn, r.name);
    if data.None? then None
    else if PaysOff(m, r, data.value, text) then
      Some(PayoffReason(r.name, PayoffBonus(r, data.value.enablers, pick), data.value.enablers))
    else if Enables(m, r, data.value, text) then
      Some(EnablerReason(r.name, EnablerBonus(r, data.value.payoffs, pick)))
    else None
  }

  /** A rule contributes only when the deck recorded it and the candidate
      pays it off or enables it; the payoff branch takes precedence, so an
      entry contributes through exactly one branch, within that branch's cap. */
  lemma ContributionProperties(m: Matcher, r: SynergyRule, syn: Dict<string, Counts>, text: string, pick: int)
    ensures var c := Contribution(m, r, syn, text, pick);
            var data := Lookup(syn, r.name);
            (c.Some? <==> data.Some? && (PaysOff(m, r, data.value, text) || Enables(m, r, data.value, text)))
            && (c.Some? ==> c.value.rule == r.name)
            && (c.Some? && c.value.PayoffReason? ==> PaysOff(m, r, data.value, text))
            && (c.Some? && c.value.EnablerReason? ==> !PaysOff(m, r, data.value, text) && Enables(m, r, data.value, text))
            && (c.Some? && c.value.PayoffReason? && ValidRule(r) ==>
                  0.0 <= c.value.bonus <= r.maxBonus * PayoffPhase(pick))
            && (c.Some? && c.value.EnablerReason? && ValidRule(r) ==>
                  0.0 <= c.value.bonus <= r.maxBonus * 0.6 * EnablerPhase(pick))
  {
    var data := Lookup(syn, r.name);
    if data.Some? && ValidRule(r) {
      if PaysOff(m, r, data.value, text) {
        BonusBounds(r, data.value.enablers, pick);
      } else if Enables(m, r, data.value, text) {
        BonusBounds(r, data.value.payoffs, pick);
      }
    }
  }

  /** The reasons produced over `rules`, in order, one per contributing rule. */
  function ReasonsOf(m: Matcher, rules: seq<SynergyRule>, syn: Dict<string, Counts>, text: string, pick: int): (rs: seq<SynergyReason>)
    ensures |rs| <= |rules|
  {
    if rules == [] then []
    else
      var c := Contribution(m, rules[|rules| - 1], syn, text, pick);
      ReasonsOf(m, rules[..|rules| - 1], syn, text, pick) + (if c.Some? then [c.value] else [])
  }

  /** The number of applicable rule entries that contribute, repeats counted. */
  function ContributingCount(m: Matcher, rules: seq<SynergyRule>, syn: Dict<string, Counts>, text: string, pick: int): nat {
    if rules == [] then 0
    else ContributingCount(m, rules[..|rules| - 1], syn, text, pick)
         + (if Contribution(m, rules[|rules| - 1], syn, text, pick).Some? then 1 else 0)
  }

  function BonusSum(rs: seq<SynergyReason>): real {
    if rs == [] then 0.0 else BonusSum(rs[..|rs| - 1]) + rs[|rs| - 1].bonus
  }

  lemma BonusSumSnoc(rs: seq<SynergyReason>, r: SynergyReason)
    ensures BonusSum(rs + [r]) == BonusSum(rs) + r.bonus
  {
    assert (rs + [r])[..|rs|] == rs;
  }

  lemma TotalStep(total: real, rs: seq<SynergyReason>, r: SynergyReason)
    requires total == BonusSum(rs)
    ensures total + r.bonus == BonusSum(rs + [r])
  {
    BonusSumSnoc(rs, r);
  }

  lemma {:induction false} BonusSumAppend(s: seq<SynergyReason>, t: seq<SynergyReason>)
    ensures BonusSum(s + t) == BonusSum(s) + BonusSum(t)
    decreases |t|
  {
    if t == [] {
      assert s + t == s;
    } else {
      assert (s + t)[..|s + t| - 1] == s + t[..|t| - 1];
      BonusSumAppend(s, t[..|t| - 1]);
    }
  }

  lemma {:induction false} ReasonsAppend(m: Matcher, s: seq<SynergyRule>, t: seq<SynergyRule>, syn: Dict<string, Counts>, text: string, pick: int)
    ensures ReasonsOf(m, s + t, syn, text, pick) == ReasonsOf(m, s, syn, text, pick) + ReasonsOf(m, t, syn, text, pick)
    decreases |t|
  {
    if t == [] {
      assert s + t == s;
    } else {
      assert (s + t)[..|s + t| - 1] == s + t[..|t| - 1];
      ReasonsAppend(m, s, t[..|t| - 1], syn, text, pick);
    }
  }

  /** There is one reason per contributing rule entry, and with valid rules
      every reason adds a non-negative bonus. */
  lemma {:induction false} ReasonsCount(m: Matcher, rules: seq<SynergyRule>, syn: Dict<string, Counts>, text: string, pick: int)
    ensures |ReasonsOf(m, rules, syn, text, pick)| == ContributingCount(m, rules, syn, text, pick)
    ensures ValidRules(rules) ==> BonusSum(ReasonsOf(m, rules, syn, text, pick)) >= 0.0
    decreases |rules|
  {
    if rules != [] {
      var prefix := rules[..|rules| - 1];
      var r := rules[|rules| - 1];
      var c := Contribution(m, r, syn, text, pick);
      ReasonsCount(m, prefix, syn, text, pick);
      var cs := if c.Some? then [c.value] else [];
      BonusSumAppend(ReasonsOf(m, prefix, syn, text, pick), cs);
      if ValidRules(rules) {
        assert ValidRule(r);
        assert ValidRules(prefix) by {
          forall i | 0 <= i < |prefix| ensures ValidRule(prefix[i]) {
            assert prefix[i] == rules[i];
          }
        }
        if c.Some? {
          ContributionProperties(m, r, syn, text, pick);
          assert BonusSum(cs) == BonusSum([]) + c.value.bonus;
        }
      }
    }
  }

  /** The rules applied to a candidate: its own class's, the deck's main
      class's, then the neutral ones, each list in full. */
  function CandidateRules(candidateClass: int, mainClass: int): seq<SynergyRule> {
    RulesFor(candidateClass) + RulesFor(mainClass) + RulesFor(0)
  }

  /** `calculate_synergy_bonus`: the rounded total and the reasons. */
  function SynergyBonusOf(m: Matcher, cards: CardStore, candidate: string, deck: seq<string>, pick: int): (real, seq<SynergyReason>) {
    if deck == [] || candidate !in cards then (0.0, [])
    else
      var s := SynergiesOf(m, cards, deck);
      var c := cards[candidate];
      var rs := ReasonsOf(m, CandidateRules(c.classId, s.mainClass), s.synergies, FullText(c), pick);
      (PyRound.Round(BonusSum(rs), 1), rs)
  }

  /** An empty deck or an unknown candidate gives no bonus. */
  lemma NoBonusWithoutDeckOrCandidate(m: Matcher, cards: CardStore, candidate: string, deck: seq<string>, pick: int)
    requires deck == [] || candidate !in cards
    ensures SynergyBonusOf(m, cards, candidate, deck, pick) == (0.0, [])
  {
  }

  /** The bonus is never negative and already rounded to one decimal, and
      there is one reason per applicable rule entry that contributes. */
  lemma SynergyBonusProperties(m: Matcher, cards: CardStore, candidate: string, deck: seq<string>, pick: int)
    ensures SynergyBonusOf(m, cards, candidate, deck, pick).0 >= 0.0
    ensures PyRound.Round(SynergyBonusOf(m, cards, candidate, deck, pick).0, 1) == SynergyBonusOf(m, cards, candidate, deck, pick).0
    ensures deck != [] && candidate in cards ==>
              var s := SynergiesOf(m, cards, deck);
              var c := cards[candidate];
              |SynergyBonusOf(m, cards, candidate, deck, pick).1|
                == ContributingCount(m, CandidateRules(c.classId, s.mainClass), s.synergies, FullText(c), pick)
  {
    if deck != [] && candidate in cards {
      var s := SynergiesOf(m, cards, deck);
      var c := cards[candidate];
      var rules := CandidateRules(c.classId, s.mainClass);
      assert ValidRules(rules) by {
        CatalogueValid(c.classId);
        CatalogueValid(s.mainClass);
        CatalogueValid(0);
      }
      ReasonsCount(m, rules, s.synergies, FullText(c), pick);
      var total := BonusSum(ReasonsOf(m, rules, s.synergies, FullText(c), pick));
      PyRound.RoundMonotone(0.0, total, 1);
      PyRound.RoundInteger(0, 1);
      PyRound.RoundIdempotent(total, 1);
    } else {
      PyRound.RoundInteger(0, 1);
    }
  }

  /** A candidate of the deck's main class sees that class's rules twice, so
      their contributions count double. */
  lemma MainClassRulesCountTwice(m: Matcher, candidateClass: int, syn: Dict<string, Counts>, text: string, pick: int)
    ensures var rs := ReasonsOf(m, CandidateRules(candidateClass, candidateClass), syn, text, pick);
            var own := ReasonsOf(m, RulesFor(candidateClass), syn, text, pick);
            var neutral := ReasonsOf(m, RulesFor(0), syn, text, pick);
            rs == own + own + neutral && BonusSum(rs) == 2.0 * BonusSum(own) + BonusSum(neutral)
  {
    var own := ReasonsOf(m, RulesFor(candidateClass), syn, text, pick);
    var neutral := ReasonsOf(m, RulesFor(0), syn, text, pick);
    ReasonsAppend(m, RulesFor(candidateClass) + RulesFor(candidateClass), RulesFor(0), syn, text, pick);
    ReasonsAppend(m, RulesFor(candidateClass), RulesFor(candidateClass), syn, text, pick);
    BonusSumAppend(own + own, neutral);
    BonusSumAppend(own, own);
  }

  lemma ReasonsStep(m: Matcher, rules: seq<SynergyRule>, k: nat, syn: Dict<string, Counts>, text: string, pick: int)
    requires k < |rules|
    ensures ReasonsOf(m, rules[..k + 1], syn, text, pick)
            == ReasonsOf(m, rules[..k], syn, text, pick)
               + (var c := Contribution(m, rules[k], syn, text, pick); if c.Some? then [c.value] else [])
  {
    assert rules[..k + 1][..k] == rules[..k];
  }

  /** The loop of `calculate_synergy_bonus` over the applicable rules: an
      entry recorded for the deck adds the payoff bonus when the candidate is
      a payoff and the enablers reach the threshold, else the enabler bonus
      when the candidate is an enabler and the deck has a payoff. */
  method ApplyRules(m: Matcher, rules: seq<SynergyRule>, syn: Dict<string, Counts>, text: string, pick: int)
    returns (total: real, reasons: seq<SynergyReason>)
    ensures reasons == ReasonsOf(m, rules, syn, text, pick)
    ensures total == BonusSum(reasons)
  {
    total := 0.0;
    reasons := [];
    var k := 0;
    while k < |rules|
      invariant 0 <= k <= |rules|
      invariant reasons == ReasonsOf(m, rules[..k], syn, text, pick)
      invariant total == BonusSum(reasons)
    {
      ReasonsTotalStep(m, rules, k, syn, text, pick, total, reasons);
      total, reasons := ApplyRule(m, rules[k], syn, text, pick, total, reasons);
      k := k + 1;
    }
    assert rules[..k] == rules;
  }

  lemma ReasonsTotalStep(m: Matcher, rules: seq<SynergyRule>, k: nat, syn: Dict<string, Counts>, text: string, pick: int,
                         total: real, reasons: seq<SynergyReason>)
    requires k < |rules|
    requires reasons == ReasonsOf(m, rules[..k], syn, text, pick) && total == BonusSum(reasons)
    ensures var c := Contribution(m, rules[k], syn, text, pick);
            var next := if c.Some? then reasons + [c.value] else reasons;
            next == ReasonsOf(m, rules[..k + 1], syn, text, pick)
            && (if c.Some? then total + c.value.bonus else total) == BonusSum(next)
  {
    ReasonsStep(m, rules, k, syn, text, pick);
    var c := Contribution(m, rules[k], syn, text, pick);
    if c.Some? {
      TotalStep(total, reasons, c.value);
    } else {
      assert reasons + [] == reasons;
    }
  }

  /** The body of that loop for one rule: it adds the rule's contribution,
      if any, to the running total and reasons. */
  method ApplyRule(m: Matcher, rule: SynergyRule, syn: Dict<string, Counts>, text: string, pick: int,
                   total: real, reasons: seq<SynergyReason>)
    returns (total': real, reasons': seq<SynergyReason>)
    ensures var c := Contribution(m, rule, syn, text, pick);
            reasons' == (if c.Some? then reasons + [c.value] else reasons)
            && total' == (if c.Some? then total + c.value.bonus else total)
  {
    total', reasons' := total, reasons;
    var data := Lookup(syn, rule.name);
    if data.Some? {
      var isEnabler := SearchAny(m, rule.enablerPatterns, true, text);
      var isPayoff := SearchAny(m, rule.payoffPatterns, true, text);
      if isPayoff && data.value.enablers >= rule.minThreshold {
        var b := PayoffBonus(rule, data.value.enablers, pick);
        total' := total + b;
        reasons' := reasons + [PayoffReason(rule.name, b, data.value.enablers)];
      } else if isEnabler && data.value.payoffs > 0 {
        var b := EnablerBonus(rule, data.value.payoffs, pick);
        total' := total + b;
        reasons' := reasons + [EnablerReason(rule.name, b)];
      }
    }
  }

  /** `calculate_synergy_bonus`. */
  method CalculateSynergyBonus(m: Matcher, cards: CardStore, candidate: string, deck: seq<string>, pick: int)
    returns (bonus: real, reasons: seq<SynergyReason>)
    ensures (bonus, reasons) == SynergyBonusOf(m, cards, candidate, deck, pick)
  {
    if deck == [] {
      return 0.0, [];
    }
    var s := AnalyzeDeckSynergies(m, cards, deck);
    if candidate !in cards {
      return 0.0, [];
    }
    var c := cards[candidate];
    var total;
    total, reasons := ApplyRules(m, CandidateRules(c.classId, s.mainClass), s.synergies, FullText(c), pick);
    bonus := PyRound.Round(total, 1);
  }
}
