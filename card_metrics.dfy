/** The offline card rating (`CardMetricsBuilder`): a base rating made of a
    card-type base value, stat efficiency, role and keyword weights, a rarity
    bonus and an "immediate impact" score, lowered for tokens and clamped to
    [10, 95]. Every component is an integer, so the ratings are modelled as
    `int` and the `round(…, 1)` applied before storing changes nothing
    (`RoundedRatingIsRating`). */
module CardMetrics {
  import opened Common
  import PyRound

  const RarityBonus: map<string, int> :=
    map["bronze" := 0, "silver" := 5, "gold" := 10, "legendary" := 15]

  const RoleWeights: map<string, int> :=
    map["removal" := 15, "aoe" := 18, "draw" := 8, "finisher" := 12, "protection" := 8, "heal" := 4]

  /** Keyword weights: storm, rush, ward, bane, drain, fanfare, last word. */
  const KeywordWeights: map<string, int> :=
    map["疾走" := 12, "突進" := 8, "守護" := 6, "必殺" := 8, "ドレイン" := 6, "ファンファーレ" := 3, "ラストワード" := 3]

  /** Expected attack + defense for costs 1 to 10. */
  const ExpectedStatsTable: map<int, int> :=
    map[1 := 2, 2 := 4, 3 := 6, 4 := 8, 5 := 10, 6 := 12, 7 := 14, 8 := 16, 9 := 18, 10 := 20]

  const TypeBase: map<string, int> :=
    map["follower" := 45, "spell" := 50, "amulet" := 40, "countdown_amulet" := 42]

  const Storm := "疾走"
  const Rush := "突進"
  const Awakening := "覚醒"
  const DragonClass := 4

  /** Removal words (destroy, banish, damage) and draw words searched in the skill text. */
  const RemovalPattern := "(破壊|消滅|ダメージ)"
  const DrawPattern := "(ドロー|引く)"

  /** `expected_stats.get(cost, cost * 2)`. */
  function ExpectedStats(cost: int): int {
    if cost in ExpectedStatsTable then ExpectedStatsTable[cost] else cost * 2
  }

  /** The table agrees with its own fallback: every cost expects twice its cost. */
  lemma ExpectedStatsIsTwiceCost(cost: int)
    ensures ExpectedStats(cost) == 2 * cost
  {
    if cost in ExpectedStatsTable {
      assert 1 <= cost <= 10;
    }
  }

  /** A missing or zero attack/defense is falsy in the source. */
  predicate HasStat(v: Option<int>) {
    v.Some? && v.value != 0
  }

  /** `calculate_stat_efficiency`: two points per point of attack + defense
      above or below the expected total; non-followers and followers with a
      missing or zero stat score 0. */
  function StatEfficiency(c: Card): (r: int)
    ensures c.cardType != "follower" || !HasStat(c.attack) || !HasStat(c.defense) ==> r == 0
    ensures c.cardType == "follower" && HasStat(c.attack) && HasStat(c.defense) ==>
              r == (c.attack.value + c.defense.value - 2 * c.cost) * 2
  {
    ExpectedStatsIsTwiceCost(c.cost);
    if c.cardType != "follower" || !HasStat(c.attack) || !HasStat(c.defense) then 0
    else (c.attack.value + c.defense.value - ExpectedStats(c.cost)) * 2
  }

  function RoleWeight(role: string): (w: int)
    ensures 0 <= w <= 18
  {
    if role in RoleWeights then RoleWeights[role] else 0
  }

  /** The sum of the role weights of `roles`, unknown roles adding nothing. */
  function RoleScoreOf(roles: seq<string>): (r: int)
    ensures 0 <= r <= 18 * |roles|
  {
    if roles == [] then 0 else RoleScoreOf(roles[..|roles| - 1]) + RoleWeight(roles[|roles| - 1])
  }

  lemma {:induction false} RoleScoreAppend(s: seq<string>, t: seq<string>)
    ensures RoleScoreOf(s + t) == RoleScoreOf(s) + RoleScoreOf(t)
    decreases |t|
  {
    if t == [] {
      assert s + t == s;
    } else {
      assert (s + t)[..|s + t| - 1] == s + t[..|t| - 1];
      RoleScoreAppend(s, t[..|t| - 1]);
    }
  }

  /** Roles outside the weight table do not change the score. */
  lemma {:induction false} RoleScoreUnknownRoles(roles: seq<string>)
    requires forall i :: 0 <= i < |roles| ==> roles[i] !in RoleWeights
    ensures RoleScoreOf(roles) == 0
    decreases |roles|
  {
    if roles != [] {
      RoleScoreUnknownRoles(roles[..|roles| - 1]);
    }
  }

  /** `calculate_role_score`. */
  method CalculateRoleScore(c: Card) returns (score: int)
    ensures score == RoleScoreOf(c.roles)
    ensures score >= 0
  {
    score := 0;
    var i := 0;
    while i < |c.roles|
      invariant 0 <= i <= |c.roles|
      invariant score == RoleScoreOf(c.roles[..i])
    {
      assert c.roles[..i + 1][..i] == c.roles[..i];
      if c.roles[i] in RoleWeights {
        score := score + RoleWeights[c.roles[i]];
      }
      i := i + 1;
    }
    assert c.roles[..i] == c.roles;
  }

  function KeywordWeight(k: string): (w: int)
    ensures 0 <= w <= 12
  {
    if k in KeywordWeights then KeywordWeights[k] else 0
  }

  function KeywordSum(keywords: seq<string>): (r: int)
    ensures 0 <= r <= 12 * |keywords|
  {
    if keywords == [] then 0 else KeywordSum(keywords[..|keywords| - 1]) + KeywordWeight(keywords[|keywords| - 1])
  }

  /** The awakening bonus is given to dragon cards only. */
  function AwakeningBonus(c: Card): (b: int)
    ensures b == 5 <==> c.classId == DragonClass && Awakening in c.keywords
    ensures b == 0 || b == 5
  {
    if c.classId == DragonClass && Awakening in c.keywords then 5 else 0
  }

  /** `calculate_keyword_score`. */
  method CalculateKeywordScore(c: Card) returns (score: int)
    ensures score == KeywordSum(c.keywords) + AwakeningBonus(c)
    ensures score >= 0
    ensures c.classId != DragonClass ==> score == KeywordSum(c.keywords)
  {
    score := 0;
    var i := 0;
    while i < |c.keywords|
      invariant 0 <= i <= |c.keywords|
      invariant score == KeywordSum(c.keywords[..i])
    {
      assert c.keywords[..i + 1][..i] == c.keywords[..i];
      if c.keywords[i] in KeywordWeights {
        score := score + KeywordWeights[c.keywords[i]];
      }
      i := i + 1;
    }
    assert c.keywords[..i] == c.keywords;
    if c.classId == DragonClass && Awakening in c.keywords {
      score := score + 5;
    }
  }

  /** The positive part of the impact score, before the heavy-card penalty. */
  function ImpactGain(m: Matcher, c: Card): (g: int)
    ensures 0 <= g <= 31
  {
    (if c.cardType == "spell" then 8 else 0)
    + (if Storm in c.keywords then 10 else if Rush in c.keywords then 6 else 0)
    + (if m(Regex(RemovalPattern, false), c.skillText) then 8 else 0)
    + (if m(Regex(DrawPattern, false), c.skillText) then 5 else 0)
  }

  /** The impact score: the gain, or -8 for a card of cost 6 or more with no
      immediate effect; so it is -8 or lies in [0, 31]. */
  function ImpactScoreOf(m: Matcher, c: Card): (r: int)
    ensures r == -8 <==> c.cost >= 6 && ImpactGain(m, c) == 0
    ensures r != -8 ==> 0 <= r <= 31
  {
    var g := ImpactGain(m, c);
    if c.cost >= 6 && g == 0 then -8 else g
  }

  /** `calculate_impact_score`. */
  method CalculateImpactScore(m: Matcher, c: Card) returns (score: int)
    ensures score == ImpactScoreOf(m, c)
  {
    score := 0;
    if c.cardType == "spell" {
      score := score + 8;
    }
    if Storm in c.keywords {
      score := score + 10;
    } else if Rush in c.keywords {
      score := score + 6;
    }
    if m(Regex(RemovalPattern, false), c.skillText) {
      score := score + 8;
    }
    if m(Regex(DrawPattern, false), c.skillText) {
      score := score + 5;
    }
    if c.cost >= 6 && score == 0 {
      score := score - 8;
    }
  }

  /** Storm and rush are exclusive: once a card has storm, no other keyword,
      rush included, changes its gain. */
  lemma StormExcludesRush(m: Matcher, c: Card, keywords: seq<string>)
    requires Storm in c.keywords && Storm in keywords
    ensures ImpactGain(m, c) == ImpactGain(m, c.(keywords := keywords))
  {
  }

  /** `type_base`, 45 for an unknown card type. */
  function TypeBaseOf(cardType: string): (b: int)
    ensures cardType !in TypeBase ==> b == 45
    ensures 40 <= b <= 50
  {
    if cardType in TypeBase then TypeBase[cardType] else 45
  }

  /** `rarity_bonus.get(rarity, 0)`. */
  function RarityBonusOf(rarity: string): (b: int)
    ensures rarity !in RarityBonus ==> b == 0
    ensures 0 <= b <= 15
  {
    if rarity in RarityBonus then RarityBonus[rarity] else 0
  }

  /** The stored metrics of one card. */
  datatype Metrics = Metrics(
    baseRating: int,
    statEfficiency: int,
    roleScore: int,
    keywordScore: int,
    rarityBonus: int,
    impactScore: int)

  /** The rating before the clamp. */
  function RawRating(m: Matcher, c: Card): int {
    TypeBaseOf(c.cardType) + StatEfficiency(c) + RoleScoreOf(c.roles)
    + KeywordSum(c.keywords) + AwakeningBonus(c) + RarityBonusOf(c.rarity)
    + ImpactScoreOf(m, c) - (if c.isToken then 15 else 0)
  }

  function Clamp(lo: int, hi: int, x: int): (r: int)
    requires lo <= hi
    ensures lo <= r <= hi
    ensures lo <= x <= hi ==> r == x
  {
    Max(lo, Min(hi, x))
  }

  /** The metrics `calculate_base_rating` stores for a card. */
  function MetricsOf(m: Matcher, c: Card): Metrics {
    Metrics(Clamp(10, 95, RawRating(m, c)), StatEfficiency(c), RoleScoreOf(c.roles),
            KeywordSum(c.keywords) + AwakeningBonus(c), RarityBonusOf(c.rarity), ImpactScoreOf(m, c))
  }

  /** `calculate_base_rating`. */
  method CalculateBaseRating(m: Matcher, c: Card) returns (r: Metrics)
    ensures r == MetricsOf(m, c)
    ensures 10 <= r.baseRating <= 95
  {
    var typeBase := TypeBaseOf(c.cardType);
    var statEff := StatEfficiency(c);
    var roleScore := CalculateRoleScore(c);
    var keywordScore := CalculateKeywordScore(c);
    var rarity := RarityBonusOf(c.rarity);
    var impact := CalculateImpactScore(m, c);
    var rating := typeBase + statEff + roleScore + keywordScore + rarity + impact;
    if c.isToken {
      rating := rating - 15;
    }
    rating := Max(10, Min(95, rating));
    r := Metrics(rating, statEff, roleScore, keywordScore, rarity, impact);
  }

  /** A token rates exactly 15 below the same card as a non-token, before the clamp. */
  lemma TokenPenalty(m: Matcher, c: Card)
    ensures RawRating(m, c.(isToken := true)) == RawRating(m, c.(isToken := false)) - 15
  {
    var t := c.(isToken := true);
    var f := c.(isToken := false);
    assert t.cardType == f.cardType && t.roles == f.roles && t.keywords == f.keywords && t.rarity == f.rarity;
    assert StatEfficiency(t) == StatEfficiency(f);
    assert AwakeningBonus(t) == AwakeningBonus(f);
    assert ImpactGain(m, t) == ImpactGain(m, f);
  }

  /** The stored rating is already a whole number, so Python's `round(…, 1)` keeps it. */
  lemma RoundedRatingIsRating(m: Matcher, c: Card)
    ensures PyRound.Round(MetricsOf(m, c).baseRating as real, 1) == MetricsOf(m, c).baseRating as real
    ensures 10.0 <= PyRound.Round(RawRating(m, c) as real, 1) || RawRating(m, c) < 10
  {
    PyRound.RoundInteger(MetricsOf(m, c).baseRating, 1);
    PyRound.RoundInteger(RawRating(m, c), 1);
  }

  /** A cost-2 3/3 follower with the removal role and nothing else rates 64:
      type base 45, stat efficiency (6 - 4) * 2 = 4, role score 15. */
  lemma CardAScenario(c: Card)
    requires c.cardType == "follower" && c.cost == 2
    requires c.attack == Some(3) && c.defense == Some(3)
    requires c.roles == ["removal"] && c.keywords == [] && c.rarity == "bronze"
    requires c.skillText == "" && !c.isToken
    ensures MetricsOf((r: Regex, t: string) => false, c).baseRating == 64
    ensures MetricsOf((r: Regex, t: string) => false, c).statEfficiency == 4
  {
    assert RoleScoreOf(c.roles) == RoleScoreOf([]) + RoleWeight("removal");
  }
}
