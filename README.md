# 2Pick draft advisor — a Dafny model

This project models the core of a draft advisor for the "2Pick" mode of a
collectible card game, and proves properties of that model. In 2Pick a player
builds a 30-card deck pick by pick. Each pick offers two candidate cards, and
the player may spend a limited number of rerolls to see two others. The
modelled system has several parts:

- **Card pipeline.** It normalises the card records of the official card list
  (cleaning the HTML of skill texts, extracting keywords, tagging roles and
  synergies) and validates the API's responses.
- **Static rating.** It gives every card a static rating from its stats,
  roles, keywords, rarity and immediate impact.
- **Pick advice.** It scores each candidate against the deck drafted so far:
  the mana curve, role targets, duplicates, class synergy rules and the
  archetype the deck is heading for. It then advises a pick or a reroll.
- **Deck assessment.** It predicts a win rate for a deck.
- **Weight learning and caching.** It learns weights from logged picks, keeps
  those weights in a file, and caches card look-ups with a TTL cache.

| file | models |
|---|---|
| `common.dfy` | cards and the card store, `s.count(x)`, `list(set(s))`, `max(s, key=…)`, the regular-expression search as a parameter |
| `dicts.dfy` | Python dicts as the engines build them (insertion order, `get` with a default, count tables) |
| `py_round.dfy` | Python's `round(x, n)` (half to even) |
| `text.dfy` | `str.strip`, `str.split`, `str.replace`, `re.sub(r'\s+', ' ', …)` |
| `card_processor.dfy` | `clean_html_text`, `extract_keywords`, `CardDataProcessor`, `_validate_response` |
| `card_metrics.dfy` | `CardMetricsBuilder`: stat efficiency, role, keyword and impact scores, base rating |
| `decks.dfy` | the deck summaries shared by the engines (classes, costs, main class, match counts) |
| `pick_advisor.dfy` | `TwoPickAdvisor`: deck analysis, curve and role bonuses, reroll threshold, advice |
| `synergy_engine.dfy` | `SynergyEngine`: rule catalogue, deck synergies, candidate synergy bonus |
| `archetype_analyzer.dfy` | `ArchetypeAnalyzer`: catalogue, detection, recommendations, archetype bonus |
| `enhanced_advisor.dfy` | `EnhancedTwoPickAdvisor`: the combined score, the advice, advice by names |
| `win_predictor.dfy` | `WinRatePredictor` |
| `weights_manager.dfy` | `WeightsManager` and the weights file |
| `learning_system.dfy` | `LearningSystem`: training examples, regularised regression step, update |
| `cache_system.dfy` | `SimpleCache` and `cached_method` |

Modelling choices that apply throughout:

- **Numbers.** Numbers are exact: Python floats are `real`, and `round` is
  half to even on the exact value.
- **Regular expressions.** A regular-expression search is the parameter
  `Matcher`: a function from a pattern, with its IGNORECASE flag, and a text
  to a boolean. The patterns themselves, their order and the loops that stop
  at the first match are modelled.
- **Card store.** The card database is a `map` from card id to card. An id
  that is not in the map plays the part of a query that returns no row.
- **Dicts.** Dicts that the code builds in loops are insertion-ordered
  association lists. The code depends on that order: on a tie, `max(d.keys(),
  key=…)` keeps the first maximal key.
- **Reasons.** Reasoning and recommendation strings are tagged values that
  carry the numbers the text would show.
- **Imperative form.** Loops are methods with loop invariants, each proved
  equal to a specification function. Stateful objects (the cache, the weights
  store, the learning system) are classes. Pure computations are functions
  with lemmas.

In these places the code does something other than one might expect:

- The archetype analysis of an empty deck, or of one in which no card
  resolves, returns no recommendations at all, not the generic "balanced"
  line (`archetype_analyzer.py:107-108`, `archetype_analyzer.py:131-132`).
- The rules for a candidate's synergy bonus are three lists concatenated:
  the candidate's class, the deck's main class and neutral. A candidate of
  the main class therefore meets its class's rules twice, and they count
  twice. This is `SynergyEngine.MainClassRulesCountTwice`.
- `_analyze_roles` computes a lower-cased copy of the text and never uses it.
  Roles are matched case-sensitively.
- The order of `list(set(…))` is unspecified in Python. The model keeps
  first occurrences, and the contracts promise only the elements and that
  there are no duplicates.

## Model

| member | source | states |
|---|---|---|
| Common.ResolvedCards | pick_advisor.py:66-69 | the resolved cards are at most the ids given, and each comes from an id the store knows |
| Common.Occurrences | enhanced_advisor.py:91-93 | `count(x)` is at most the length, and 0 exactly when `x` is absent |
| Common.OccurrencesAppend | enhanced_advisor.py:91-93 | the count over a concatenation is the sum of the counts |
| Common.IndexOf | archetype_analyzer.py:222 | the position found holds `x`, and no earlier position does |
| Common.Dedup | shadowverse_db_builder.py:67 | `list(set(s))` has no duplicates and holds exactly the elements of `s` |
| Common.SearchAny | archetype_analyzer.py:230-234 | the loop that stops at the first matching pattern finds a match exactly when some pattern matches |
| Common.ArgMax | pick_advisor.py:202 | `max(key=…)` picks an element with the largest key, every earlier one having a strictly smaller key |
| Common.ShareBounds | win_predictor.py:110 | a share of a positive whole is in [0, 1] |
| Dicts.Find | pick_advisor.py:73 | the position of a key is its first occurrence, and -1 exactly when the key is absent |
| Dicts.Lookup | synergy_engine.py:197 | `d.get(k)` is present exactly when the key is, and agrees with `get` with a default |
| Dicts.FindSameKeys | pick_advisor.py:73 | two tables with the same keys in the same places find every key in the same place |
| Dicts.FindAppend | pick_advisor.py:73 | appending a new key finds it at the end and every other key where it was |
| Dicts.GetPut | pick_advisor.py:73 | after `d[k] = v`, `k` reads `v` and every other key reads what it did before |
| Dicts.PutEntries | pick_advisor.py:73 | `d[k] = v` adds no entry other than `(k, v)` |
| Dicts.PutDistinct | pick_advisor.py:73 | assignment keeps the keys distinct |
| Dicts.Remove | cache_system.py:25 | `del d[k]` removes exactly one entry |
| Dicts.GetRemove | cache_system.py:25 | `del d[k]` drops `k` and keeps every other key, its value and its order |
| Dicts.IncrementAllAppend | pick_advisor.py:76-77 | counting `s + t` is counting `s` and then `t` |
| Dicts.GetIncrementAll | pick_advisor.py:76-77 | each key of a count table holds its earlier count plus its number of occurrences, and a key is present exactly when it was counted |
| Dicts.CountIncrementAll | pick_advisor.py:76-77 | each key holds its earlier count plus its number of occurrences |
| Dicts.KeysIncrementAll | pick_advisor.py:76-77 | a key is present exactly when it was present or was counted |
| Dicts.GetCountsOf | pick_advisor.py:72-77 | a count table built from `{}` holds each element's number of occurrences, and only the elements counted |
| Dicts.IncrementAllDistinct | pick_advisor.py:72-77 | a count table's keys are distinct |
| Dicts.SumValuesUpdate | win_predictor.py:71 | replacing one entry changes the sum by the difference |
| Dicts.SumValuesIncrementAll | win_predictor.py:71 | counting `s` raises the sum of the values by the length of `s` |
| Dicts.SumValuesCountsOf | win_predictor.py:71 | a count table's values add up to the number of elements counted |
| Dicts.IncrementAllNonNegative | pick_advisor.py:72-77 | counts built from non-negative counts stay non-negative |
| Dicts.MaxCountIndex | synergy_engine.py:113 | the main key is the first one whose count is maximal |
| PyRound.RoundIdempotent | synergy_engine.py:226 | rounding a rounded value changes nothing |
| PyRound.RoundError | enhanced_advisor.py:118 | the rounded value is within half a unit of the last kept digit |
| PyRound.RoundMonotone | synergy_engine.py:226 | rounding preserves order |
| PyRound.RoundInteger | build_card_metrics.py:172 | an integer is its own rounding |
| PyRound.RoundBetween | win_predictor.py:58 | rounding a value between two integers keeps it between them |
| PyRound.RoundedUnits | build_card_metrics.py:172 | the integer chosen is within 0.5 of the value |
| PyRound.RoundedUnitsOfInteger | build_card_metrics.py:172 | an integer rounds to itself |
| PyRound.RoundedUnitsMonotone | synergy_engine.py:226 | rounding to an integer preserves order |
| PyRound.RoundAtError | enhanced_advisor.py:118 | the multiple chosen is within half a step of the value |
| PyRound.RoundAtMonotone | synergy_engine.py:226 | rounding to a step preserves order |
| PyRound.RoundAtInteger | build_card_metrics.py:172 | an integer is a multiple of every step |
| PyRound.RoundAtMultiple | synergy_engine.py:226 | a multiple of the step is its own rounding |
| PyRound.RoundAtIdempotent | synergy_engine.py:226 | rounding to a step twice rounds once |
| Text.TrimLeft | enhanced_advisor.py:47 | `lstrip` removes a prefix, all of it whitespace, and leaves no leading whitespace |
| Text.TrimRight | enhanced_advisor.py:47 | `rstrip` removes a suffix, all of it whitespace, and leaves no trailing whitespace |
| Text.StripSlice | enhanced_advisor.py:47 | `strip` keeps a contiguous part and removes only whitespace around it |
| Text.StripBounds | enhanced_advisor.py:47 | the kept part lies between two bounds, with only whitespace before the first and from the second on |
| Text.StripEnds | enhanced_advisor.py:47 | a stripped text neither starts nor ends with whitespace |
| Text.StripIdempotent | shadowverse_db_builder.py:58 | stripping twice strips nothing more |
| Text.StripEmpty | enhanced_advisor.py:46 | `s.strip()` is empty exactly when `s` is all whitespace |
| Text.Replace | enhanced_advisor.py:47 | `replace` changes exactly the occurrences of the character, and keeps the length |
| Text.Split | enhanced_advisor.py:47 | `split` gives at least one piece, and no piece holds the separator |
| Text.JoinSplit | enhanced_advisor.py:47 | joining the pieces of a split with the separator gives back the input |
| Text.Collapse | shadowverse_db_builder.py:56 | the collapse is empty only for the empty text, starts with whitespace exactly when the text does, and never has two whitespace characters in a row |
| Text.VisibleAppend | shadowverse_db_builder.py:56 | the visible characters of a concatenation are those of its parts |
| Text.VisibleTrimLeft | shadowverse_db_builder.py:58 | `lstrip` keeps every visible character |
| Text.VisibleTrimRight | shadowverse_db_builder.py:58 | `rstrip` keeps every visible character |
| Text.CollapseKeepsVisible | shadowverse_db_builder.py:56 | collapsing whitespace keeps every other character, in order |
| Text.StripKeepsVisible | shadowverse_db_builder.py:58 | `strip` keeps every other character, in order |
| Text.StripKeepsSingleSpaces | shadowverse_db_builder.py:56-58 | a text without two whitespace characters in a row keeps that property when stripped |
| Text.SliceKeepsSingleSpaces | shadowverse_db_builder.py:56-58 | a slice of a text without two whitespace characters in a row has none either |
| CardProcessor.CleanHtmlProperties | shadowverse_db_builder.py:44-58 | the empty text cleans to ""; a cleaned text has no outer whitespace and no two whitespace characters in a row, and keeps every other character of the tag-stripped text in order |
| CardProcessor.CloseFrom | shadowverse_db_builder.py:66 | the lazy capture ends at the first `</color>` from its start, with no newline before it |
| CardProcessor.CaptureProperties | shadowverse_db_builder.py:66 | a capture is a tagged span of the text that holds no newline and no `</color>` |
| CardProcessor.CaptureTagged | shadowverse_db_builder.py:66 | the text between an opening tag and a later closing tag is a tagged span |
| CardProcessor.CaptureLazy | shadowverse_db_builder.py:66 | a span scanned without meeting a closing tag holds no closing tag |
| CardProcessor.CaptureNoNewline | shadowverse_db_builder.py:66 | a span scanned without meeting a newline holds no newline |
| CardProcessor.FindKeywordsSound | shadowverse_db_builder.py:66 | every keyword `findall` finds is a tagged span without a newline and without a `</color>` |
| CardProcessor.ExtractKeywordsProperties | shadowverse_db_builder.py:60-67 | the empty text gives []; otherwise each keyword found is listed exactly once, and nothing else is |
| CardProcessor.LazyCapture | shadowverse_db_builder.py:66 | two tagged keywords in a row are found separately |
| CardProcessor.Names | shadowverse_db_builder.py:333-339 | the names of a pattern table, in table order |
| CardProcessor.Matched | shadowverse_db_builder.py:313-317 | a table lists at most one name per entry |
| CardProcessor.MatchedProperties | shadowverse_db_builder.py:313-317 | a name is listed exactly when one of its patterns matches; with distinct names each is listed once, in table order |
| CardProcessor.MatchedMembers | shadowverse_db_builder.py:313-317 | a name is listed exactly when one of its patterns matches, and only table names are listed |
| CardProcessor.MatchedOrdered | shadowverse_db_builder.py:313-317 | with distinct table names, the listed names are distinct and in table order |
| CardProcessor.RoleNamesDistinct | shadowverse_db_builder.py:209-228 | the role table's names are distinct |
| CardProcessor.SynergyNamesDistinct | shadowverse_db_builder.py:231-239 | the synergy table's names are distinct |
| CardProcessor.RolesProperties | shadowverse_db_builder.py:308-319 | each role is listed once, exactly when one of its patterns matches, in table order, and only the six role names appear |
| CardProcessor.KeywordTags | shadowverse_db_builder.py:333-343 | a tag is listed exactly when a keyword that the table maps to it is present |
| CardProcessor.KeywordTagsStep | shadowverse_db_builder.py:341-343 | one keyword step appends the keyword's tag when the table maps it, and nothing otherwise |
| CardProcessor.AppendKeywordTags | shadowverse_db_builder.py:341-343 | the keyword loop appends exactly the keyword tags to the tags found in the text |
| CardProcessor.SynergiesProperties | shadowverse_db_builder.py:321-345 | each synergy tag is listed once: the matching pattern names and the tags of the mapped keywords, and nothing else |
| CardProcessor.MatchTable | shadowverse_db_builder.py:313-317 | the nested loop that breaks at the first matching pattern lists exactly the table's matched names |
| CardProcessor.AnalyzeRoles | shadowverse_db_builder.py:308-319 | `_analyze_roles` gives the role specification: distinct role names only |
| CardProcessor.AnalyzeSynergies | shadowverse_db_builder.py:321-345 | `_analyze_synergies` gives the synergy specification, without duplicates |
| CardProcessor.NormalizeRejects | shadowverse_db_builder.py:243-255 | a card is rejected exactly when `common` is not an object, the id or the name is missing or empty, or the class or the cost is missing; class 0 and cost 0 are accepted |
| CardProcessor.NormalizeDefaults | shadowverse_db_builder.py:258-260 | an unknown class is "Unknown", a missing type is a follower, a null or unmapped type is "unknown", and a missing or unmapped rarity is bronze |
| CardProcessor.NormalizeLookups | shadowverse_db_builder.py:258-260 | an accepted card's class, type and rarity names are the three table lookups, with type and rarity defaulting to 1 when absent |
| CardProcessor.LookupDefaults | shadowverse_db_builder.py:258-260 | the class table maps 0 to 7 and gives "Unknown" otherwise; an absent type is a follower, a null or unmapped one "unknown"; an absent or unmapped rarity is bronze |
| CardProcessor.NormalizeKeywords | shadowverse_db_builder.py:268-272 | the keywords are those of the raw skill text and, when non-empty, of the raw evolved text, each once |
| CardProcessor.NormalizeTags | shadowverse_db_builder.py:298-300 | the roles and synergy tags are those of the two cleaned texts joined by a space (synergies also from the keywords), each once |
| CardProcessor.NormalizeCard | shadowverse_db_builder.py:241-306 | `normalize_card` builds the card of the specification function about which the four lemmas above are proved |
| CardProcessor.ValidateProperties | shadowverse_db_builder.py:130-140 | a response is valid exactly when it is an object whose `data_headers` object has `result_code` 1 and which has `data`; validation raises exactly when `data_headers` is present but not an object |
| CardProcessor.PageOf | shadowverse_db_builder.py:112-119 | a page is returned exactly when its response is valid, and then unchanged |
| CardMetrics.ExpectedStatsIsTwiceCost | build_card_metrics.py:37-39 | the expected-stats table agrees with its fallback: every cost expects twice its cost |
| CardMetrics.StatEfficiency | build_card_metrics.py:87-96 | 0 for a non-follower or a missing or zero stat; otherwise twice the surplus of attack + defense over the expected stats |
| CardMetrics.RoleWeight | build_card_metrics.py:21-28 | every role weight is between 0 and 18 |
| CardMetrics.RoleScoreOf | build_card_metrics.py:98-104 | the role score is between 0 and 18 per role |
| CardMetrics.RoleScoreAppend | build_card_metrics.py:98-104 | the role score is additive over the role list |
| CardMetrics.RoleScoreUnknownRoles | build_card_metrics.py:101-103 | roles outside the weight table add nothing |
| CardMetrics.CalculateRoleScore | build_card_metrics.py:98-104 | the loop computes the role score, which is never negative |
| CardMetrics.KeywordWeight | build_card_metrics.py:31-34 | every keyword weight is between 0 and 12 |
| CardMetrics.KeywordSum | build_card_metrics.py:108-111 | the keyword sum is between 0 and 12 per keyword |
| CardMetrics.AwakeningBonus | build_card_metrics.py:113-115 | the awakening bonus is 5 exactly for a dragon card with the awakening keyword, else 0 |
| CardMetrics.CalculateKeywordScore | build_card_metrics.py:106-117 | the keyword score is the keyword sum plus the awakening bonus, never negative, and just the sum for a non-dragon |
| CardMetrics.ImpactGain | build_card_metrics.py:121-139 | the positive part of the impact score is between 0 and 31 |
| CardMetrics.ImpactScoreOf | build_card_metrics.py:141-145 | the impact is -8 exactly for a card of cost 6 or more with no gain, otherwise in [0, 31] |
| CardMetrics.CalculateImpactScore | build_card_metrics.py:119-145 | `calculate_impact_score` computes the impact score |
| CardMetrics.StormExcludesRush | build_card_metrics.py:129-133 | two cards that differ only in their keywords, both lists holding storm, gain alike, so rush adds nothing beside storm |
| CardMetrics.TypeBaseOf | build_card_metrics.py:150-152 | the type base is in [40, 50], and 45 for an unknown type |
| CardMetrics.RarityBonusOf | build_card_metrics.py:16-18 | the rarity bonus is in [0, 15], and 0 for an unknown rarity |
| CardMetrics.Clamp | build_card_metrics.py:169 | the clamped value is in the range, and unchanged when already in it |
| CardMetrics.CalculateBaseRating | build_card_metrics.py:147-186 | the metrics of the card, with a base rating in [10, 95] |
| CardMetrics.TokenPenalty | build_card_metrics.py:164-166 | a token rates exactly 15 below the same card as a non-token, before the clamp |
| CardMetrics.RoundedRatingIsRating | build_card_metrics.py:172 | the stored rating is whole, so rounding keeps it |
| CardMetrics.CardAScenario | build_card_metrics.py:147-172 | a cost-2 3/3 bronze follower with the removal role and nothing else rates 64, with stat efficiency 4 |
| Decks.Classes | synergy_engine.py:110 | the class of each card, in order |
| Decks.Costs | pick_advisor.py:72-73 | the cost of each card, in order |
| Decks.ClassStep | synergy_engine.py:110 | one step of the class count loop counts one more card |
| Decks.MainClassMaximal | synergy_engine.py:113 | the main class is 0 for no cards; otherwise a class of the deck that no class outnumbers |
| Decks.MatchCount | archetype_analyzer.py:148-154 | at most one match per card |
| Decks.MatchCountStep | archetype_analyzer.py:148-154 | one step of a matching loop counts the next card once or not at all |
| PickAdvisor.AnalysisCounts | pick_advisor.py:60-83 | `total_cards` counts every id; the curve counts every resolved card once under its cost; the roles count every role tag; keys are distinct |
| PickAdvisor.ResolvedStep | pick_advisor.py:66-69 | one loop step skips an unknown id or adds its card |
| PickAdvisor.CurveStep | pick_advisor.py:72-73 | one loop step raises the count of the card's cost by one |
| PickAdvisor.RolesStep | pick_advisor.py:76-77 | one loop step counts each role tag of the card |
| PickAdvisor.AnalyzeDeck | pick_advisor.py:60-83 | `analyze_deck` computes the deck analysis whose counts `AnalysisCounts` states |
| PickAdvisor.IdealCount | pick_advisor.py:89 | every ideal count is at least 1 (1 off the table) |
| PickAdvisor.AdjustedTarget | pick_advisor.py:92-93 | the adjusted target is never negative, and 0 for an empty deck |
| PickAdvisor.CurveBonus | pick_advisor.py:85-107 | the bonus is in [-10, 19.5]; positive exactly when the cost is under-filled, negative exactly when over 1.5 times the target; above 15 only early and for cheap cards |
| PickAdvisor.CurveBonusEmptyDeck | pick_advisor.py:92-105 | with an empty deck the curve bonus is 0 |
| PickAdvisor.RoleContribution | pick_advisor.py:114-125 | one role adds in [-5, 12]: nothing without a target, a positive amount exactly when under target, -5 exactly at 1.5 times the target or more |
| PickAdvisor.RoleBonusOf | pick_advisor.py:109-127 | the role bonus is between -5 and 12 per role tag |
| PickAdvisor.RoleBonusUntargeted | pick_advisor.py:115-116 | role tags without a target add nothing |
| PickAdvisor.CalculateRoleBonus | pick_advisor.py:109-127 | the loop computes the role bonus |
| PickAdvisor.RerollThreshold | pick_advisor.py:129-156 | the threshold is in [45, 80] |
| PickAdvisor.RerollThresholdMonotone | pick_advisor.py:143 | more rerolls left never lowers the threshold |
| PickAdvisor.DuplicationPenalty | pick_advisor.py:180-183 | the penalty is never positive, and 0 exactly when the card is not in the deck |
| PickAdvisor.ScoreOf | pick_advisor.py:166-196 | the entry names the candidate; its final score is the sum of its terms; the penalty is -5 per copy in the deck |
| PickAdvisor.ScoresOf | pick_advisor.py:166-196 | one entry per resolving candidate, each the score of a candidate |
| PickAdvisor.ScoresStep | pick_advisor.py:168-170 | one loop step skips an unknown candidate or appends its entry |
| PickAdvisor.BestIndex | pick_advisor.py:202 | the best entry has the largest final score, every earlier entry scoring strictly less |
| PickAdvisor.Confidence | pick_advisor.py:224 | the confidence is in [50, 90] |
| PickAdvisor.PickReasons | pick_advisor.py:213-222 | a pick has one to three reasons, the recommendation first |
| PickAdvisor.ScoreCandidates | pick_advisor.py:166-196 | the scoring loop gives the entries of the resolving candidates |
| PickAdvisor.ScoreCandidate | pick_advisor.py:171-196 | one candidate's entry is its score |
| PickAdvisor.GetPickAdvice | pick_advisor.py:158-233 | `get_pick_advice` gives the advice whose decision is proved below |
| PickAdvisor.Decide | pick_advisor.py:202-233 | the decision step builds the advice of the decision function, reasoning included |
| PickAdvisor.NoRerollWithoutRerolls | pick_advisor.py:210 | without rerolls left the advice is always to pick |
| PickAdvisor.NoCandidates | pick_advisor.py:198-199 | with no candidate resolving, the advice is a pick of nothing with confidence 0 |
| PickAdvisor.NoneResolved | pick_advisor.py:66-69 | ids the store does not know resolve to no card |
| PickAdvisor.AdviceDecision | pick_advisor.py:202-233 | a reroll exactly when rerolls are left and the best score is below the threshold, then no card and two lines; otherwise the first best candidate, recommended first; confidence in [50, 90] |
| SynergyEngine.CatalogueValid | synergy_engine.py:23-82 | every rule of every class has non-negative bonuses and threshold |
| SynergyEngine.RuleCounts | synergy_engine.py:119-143 | enablers and payoffs are each at most one per card, and total is their sum |
| SynergyEngine.RecordRulesValid | synergy_engine.py:119-143 | every recorded rule has counts bounded by the cards and a non-zero total |
| SynergyEngine.SynergyScoreBounds | synergy_engine.py:146-148 | the synergy score is between 0 and 10 per recorded rule |
| SynergyEngine.EmptyDeckSynergies | synergy_engine.py:86-87 | an empty deck has no synergies, no classes, score 0 and main class 0 |
| SynergyEngine.SynergiesProperties | synergy_engine.py:84-155 | the recorded counts are bounded by the resolved cards, the score by 10 per rule, and the main class is 0 for no cards, else a present class that no class outnumbers |
| SynergyEngine.RecordStep | synergy_engine.py:119-143 | one rule step records the rule exactly when it counted something |
| SynergyEngine.CountRule | synergy_engine.py:120-143 | the per-rule loop counts the enablers and the payoffs, one per card at most |
| SynergyEngine.AnalyzeDeckSynergies | synergy_engine.py:84-155 | `analyze_deck_synergies` gives the analysis whose properties are proved above |
| SynergyEngine.CountClasses | synergy_engine.py:89-110 | the card loop gives the resolving cards and the count of each class, in first-seen order |
| SynergyEngine.RecordAll | synergy_engine.py:118-143 | the rule loop records the counts of every rule some card enables or pays off |
| SynergyEngine.TimesIsProduct | synergy_engine.py:209 | repeated addition is the product |
| SynergyEngine.TimesNonNegative | synergy_engine.py:209 | a count times a non-negative rate is non-negative |
| SynergyEngine.BonusFormulas | synergy_engine.py:207-224 | the payoff bonus is `min(enablers * per_card, max) * phase`, the enabler bonus `min(payoffs * per_card * 0.7, max * 0.6) * phase` |
| SynergyEngine.BonusBounds | synergy_engine.py:207-224 | each bonus is non-negative and within its branch's cap |
| SynergyEngine.ContributionProperties | synergy_engine.py:196-224 | a rule contributes only when the deck recorded it and the candidate pays it off or enables it; payoff takes precedence; the bonus is within its branch's cap |
| SynergyEngine.ReasonsOf | synergy_engine.py:196-224 | at most one reason per rule |
| SynergyEngine.BonusSumSnoc | synergy_engine.py:213 | appending a reason adds its bonus to the total |
| SynergyEngine.TotalStep | synergy_engine.py:213 | the running total is the sum of the reasons so far |
| SynergyEngine.BonusSumAppend | synergy_engine.py:213 | the total is additive over reason lists |
| SynergyEngine.ReasonsAppend | synergy_engine.py:192-196 | the reasons of concatenated rule lists are concatenated |
| SynergyEngine.ReasonsCount | synergy_engine.py:196-224 | one reason per contributing rule; with valid rules the total is non-negative |
| SynergyEngine.NoBonusWithoutDeckOrCandidate | synergy_engine.py:161-177 | an empty deck or an unknown candidate gives (0.0, []) |
| SynergyEngine.SynergyBonusProperties | synergy_engine.py:157-226 | the bonus is non-negative and already rounded to one decimal, with one reason per contributing applicable rule |
| SynergyEngine.MainClassRulesCountTwice | synergy_engine.py:192-194 | a candidate of the main class sees that class's rules twice, so their contributions count double |
| SynergyEngine.ReasonsStep | synergy_engine.py:196-224 | one rule step appends the rule's contribution, if any |
| SynergyEngine.ApplyRules | synergy_engine.py:196-224 | the rule loop gives the reasons and their total |
| SynergyEngine.ApplyRule | synergy_engine.py:196-224 | one rule appends its reason, if it contributes, and adds its bonus to the total |
| SynergyEngine.ReasonsTotalStep | synergy_engine.py:196-224 | one rule step keeps the reasons equal to those of the rules so far, and the total equal to their sum |
| SynergyEngine.CalculateSynergyBonus | synergy_engine.py:157-226 | `calculate_synergy_bonus` gives the bonus whose properties are proved above |
| ArchetypeAnalyzer.CatalogueShape | archetype_analyzer.py:22-103 | every archetype asks for at least three key cards, and names are distinct and non-empty |
| ArchetypeAnalyzer.Select | archetype_analyzer.py:141-158 | the selected archetype is one of those scanned |
| ArchetypeAnalyzer.SelectProperties | archetype_analyzer.py:141-158 | the selected archetype is eligible and scores best, every earlier eligible one scoring less; none is selected exactly when every eligible one scores 0 |
| ArchetypeAnalyzer.SelectionProperties | archetype_analyzer.py:141-163 | with thresholds of at least 3, a selected archetype is of the main class, has enough key cards, and its confidence is 16 per key card up to 90; none selected means every eligible archetype scores 0 |
| ArchetypeAnalyzer.Buckets | archetype_analyzer.py:182-184 | each card's bucket is its cost capped at 6 |
| ArchetypeAnalyzer.BucketOccurrences | archetype_analyzer.py:182-184 | bucket 6 holds every card of cost 6 or more, a lower bucket the cards of that cost, and no bucket is above 6 |
| ArchetypeAnalyzer.CurrentCurve | archetype_analyzer.py:181-184 | the current curve counts each bucket as above, and has no key above 6 |
| ArchetypeAnalyzer.CurveGapsLines | archetype_analyzer.py:186-191 | a gap line is given exactly for each ideal-curve entry the curve falls short of, reporting the current count |
| ArchetypeAnalyzer.NothingResolves | archetype_analyzer.py:107-132 | a deck resolving to no card detects nothing, has confidence 0 and no recommendation |
| ArchetypeAnalyzer.DetectionProperties | archetype_analyzer.py:135-170 | a detected archetype is of the main class, has enough key cards and scores best, the earliest winning a tie; confidence is 16 per key card up to 90; none detected means confidence 0 |
| ArchetypeAnalyzer.RecommendationProperties | archetype_analyzer.py:172-193 | no archetype gives the one generic line; a detected one gives its strategy first, then exactly the short ideal-curve costs with their current counts |
| ArchetypeAnalyzer.FirstNamed | archetype_analyzer.py:222 | the archetype found has the name, and none is found only when no archetype has it |
| ArchetypeAnalyzer.FirstNamedUnique | archetype_analyzer.py:222 | in a table of distinct names, an archetype's name finds that archetype |
| ArchetypeAnalyzer.BonusProperties | archetype_analyzer.py:195-236 | the bonus is 0.0 or 8.0, with one reason exactly when 8.0, and 8.0 exactly when an archetype is detected and the candidate carries one of its key patterns |
| ArchetypeAnalyzer.BonusCases | archetype_analyzer.py:195-236 | the bonus is (8.0, one key-card reason naming the detected archetype) exactly when the deck resolves, an archetype is detected and the candidate carries one of its key patterns, and (0.0, no reason) otherwise |
| ArchetypeAnalyzer.ScoreArchetype | archetype_analyzer.py:145-154 | the card loop scores 2 and counts 1 per matching card |
| ArchetypeAnalyzer.SelectArchetype | archetype_analyzer.py:138-158 | the selection loop gives the selection above |
| ArchetypeAnalyzer.BucketStep | archetype_analyzer.py:182-184 | one loop step counts the card's bucket |
| ArchetypeAnalyzer.GapStep | archetype_analyzer.py:186-191 | one loop step appends the entry's gap line when the curve is short |
| ArchetypeAnalyzer.GenerateRecommendations | archetype_analyzer.py:172-193 | `_generate_recommendations` gives the lines proved above |
| ArchetypeAnalyzer.AnalyzeDeckArchetype | archetype_analyzer.py:105-170 | `analyze_deck_archetype` gives the analysis proved above |
| ArchetypeAnalyzer.CalculateArchetypeBonus | archetype_analyzer.py:195-236 | `calculate_archetype_bonus` gives the bonus proved above |
| EnhancedAdvisor.ScoreTerms | enhanced_advisor.py:75-121 | the stored final score is the rounded sum of the six terms, within 0.05 of it; -5 per copy; the synergy bonus as the engine returns it; the archetype bonus 0 or 8 with one reason exactly when 8 |
| EnhancedAdvisor.StoredScoreTerms | enhanced_advisor.py:105-121 | given a synergy bonus already at one decimal and an archetype bonus of 0 or 8, the entry names the card, stores both bonuses, the penalty and the archetype reasons as given, and a final score that is the rounded sum, within 0.05 of it |
| EnhancedAdvisor.ScoresOf | enhanced_advisor.py:75-121 | one entry per resolving candidate, each the score of a candidate |
| EnhancedAdvisor.Take | enhanced_advisor.py:153 | `s[:n]` is the first n elements, or all of `s` when it is shorter |
| EnhancedAdvisor.SynergyDetails | enhanced_advisor.py:153 | one detail line per synergy reason, in order |
| EnhancedAdvisor.ArchetypeDetails | enhanced_advisor.py:157 | one detail line per archetype reason, in order |
| EnhancedAdvisor.DetailCountAppend | enhanced_advisor.py:143-157 | detail counts are additive over line lists |
| EnhancedAdvisor.DetailCounts | enhanced_advisor.py:153-157 | synergy details are synergy lines only, archetype details archetype lines only |
| EnhancedAdvisor.SingleCounts | enhanced_advisor.py:143-157 | one line counts as a detail of its own kind only |
| EnhancedAdvisor.SynergyLinesCounts | enhanced_advisor.py:150-153 | the synergy part has at most three lines, quoting the first two reasons only when the bonus is positive |
| EnhancedAdvisor.ArchetypeLinesCounts | enhanced_advisor.py:154-157 | the archetype part has at most two lines, quoting the first reason only when the bonus is positive |
| EnhancedAdvisor.PickLinesShape | enhanced_advisor.py:142-157 | a pick's reasoning starts with the recommendation, has one to eight lines, and quotes at most two synergy and one archetype reason, and only for positive bonuses |
| EnhancedAdvisor.Confidence | enhanced_advisor.py:159 | the confidence is in [50, 95] |
| EnhancedAdvisor.BestIndex | enhanced_advisor.py:127-128 | the best entry has the largest stored final score, every earlier one scoring strictly less |
| EnhancedAdvisor.AdviceDecision | enhanced_advisor.py:75-168 | the advice is the decision on the candidates' scores and the threshold, with one score per resolving candidate, each naming a candidate; no candidate resolving gives a pick of nothing with confidence 0; a recommended card is one of the candidates |
| EnhancedAdvisor.DecisionProperties | enhanced_advisor.py:123-168 | on any scores: none gives a pick of nothing with confidence 0; otherwise the scores are kept, a reroll exactly when rerolls are left and the first best stored score is below the threshold, else a pick of that candidate with its reasoning; confidence in [50, 95]; no reroll without rerolls left |
| EnhancedAdvisor.SameCandidateTwice | enhanced_advisor.py:75-128 | two copies of the same candidate score alike, and the first is chosen |
| EnhancedAdvisor.FirstOfEqualPair | enhanced_advisor.py:127-128 | of two equal entries the first is the best |
| EnhancedAdvisor.StrippedNames | enhanced_advisor.py:47 | the filter keeps at most as many names as pieces |
| EnhancedAdvisor.ResolvedIds | enhanced_advisor.py:48-51 | at most one id per name, none of them empty |
| EnhancedAdvisor.StripKeepsOut | enhanced_advisor.py:47 | stripping adds no character |
| EnhancedAdvisor.StrippedNamesShape | enhanced_advisor.py:47 | every kept name is non-empty, has no outer whitespace and no character that no piece had |
| EnhancedAdvisor.DeckNamesShape | enhanced_advisor.py:47 | every deck name is non-empty, stripped, and contains neither separator |
| EnhancedAdvisor.JoinedPiece | enhanced_advisor.py:47 | every character of a piece is in the joined text |
| EnhancedAdvisor.ByNamesProperties | enhanced_advisor.py:27-65 | an unresolved candidate gives the error naming the first one; otherwise the resolved deck has no more ids than names, and a blank input gives an empty deck |
| EnhancedAdvisor.ScoreCandidate | enhanced_advisor.py:76-121 | one candidate's entry is its score |
| EnhancedAdvisor.ScoresStep | enhanced_advisor.py:75-78 | one loop step skips an unknown candidate or appends its entry |
| EnhancedAdvisor.ScoreCandidates | enhanced_advisor.py:75-121 | the scoring loop gives the entries of the resolving candidates |
| EnhancedAdvisor.BuildPickLines | enhanced_advisor.py:142-157 | the appends build the pick reasoning |
| EnhancedAdvisor.AddSynergyLines | enhanced_advisor.py:150-153 | the synergy appends build the synergy part |
| EnhancedAdvisor.AddArchetypeLines | enhanced_advisor.py:154-157 | the archetype appends build the archetype part |
| EnhancedAdvisor.GetPickAdviceEnhanced | enhanced_advisor.py:67-168 | `get_pick_advice_enhanced` gives the advice whose decision is proved above |
| EnhancedAdvisor.ResolveDeck | enhanced_advisor.py:48-51 | the deck loop gives the ids of the names that resolve |
| EnhancedAdvisor.GetPickAdviceByNames | enhanced_advisor.py:27-65 | `get_pick_advice_by_names` gives the result proved above |
| WinPredictor.NormalizeRating | win_predictor.py:64-66 | the normalised rating is in [0, 1]: 0 up to 40, 1 from 70, linear between |
| WinPredictor.CostQuality | win_predictor.py:79-83 | a cost's quality is in [0, 1], and 1 exactly when the count equals the expected count |
| WinPredictor.QualitySum | win_predictor.py:76-84 | the qualities add up to between 0 and the number of ideal costs |
| WinPredictor.CurveQualityBounds | win_predictor.py:68-86 | the curve quality is in [0, 1], and 0.5 for an empty curve |
| WinPredictor.RoleTerm | win_predictor.py:95 | a role's term is at most 1, exactly 1 when the count reaches the target, and non-negative for a non-negative count |
| WinPredictor.CoverageSum | win_predictor.py:93-95 | the terms add up to at most the number of roles, and at least 0 for non-negative counts |
| WinPredictor.RoleCoverageBounds | win_predictor.py:88-97 | the role coverage is at most 1, and at least 0 for non-negative counts |
| WinPredictor.DuplicateCountRepeated | win_predictor.py:109 | the number of counts of 2 or more is the number of keys counted at least twice |
| WinPredictor.RepeatedCounts | win_predictor.py:105-109 | the keys counted at least twice are the ids occurring at least twice |
| WinPredictor.ConsistencyCounts | win_predictor.py:99-112 | a deck's consistency is a quarter of its repeated ids, capped at 1, and always in [0, 1] |
| WinPredictor.TipsProperties | win_predictor.py:114-133 | never empty; each of the four tips appears exactly when its factor is below its threshold; the closing line appears alone exactly when none does |
| WinPredictor.ClampedRate | win_predictor.py:51-52 | the clamped rate is in [25, 85] |
| WinPredictor.WeightedBand | win_predictor.py:48-51 | factors in [0, 1] keep the weighted score in [0, 1] and the rate in [35, 75] |
| WinPredictor.PredictionProperties | win_predictor.py:21-62 | an empty deck predicts 50 with confidence 0; otherwise a rate in [25, 85], confidence 4 per card up to 100, and recommendations; with non-negative inputs the rate is in [35, 75] |
| WinPredictor.EvaluateCurveQuality | win_predictor.py:68-86 | the loop computes the curve quality |
| WinPredictor.EvaluateRoleCoverage | win_predictor.py:88-97 | the loop computes the role coverage |
| WinPredictor.EvaluateConsistency | win_predictor.py:99-112 | the count table loop computes the consistency |
| WinPredictor.GenerateRecommendations | win_predictor.py:114-133 | the appends build the tips |
| WinPredictor.PredictWinRate | win_predictor.py:21-62 | `predict_win_rate` gives the prediction proved above |
| Weights.WeightTable.constructor | weights_manager.py:47 | a new dict holds the given entries |
| Weights.WeightsFile.constructor | weights_manager.py:14 | a weights file in the given state |
| Weights.Merge | weights_manager.py:42 | `update` keys take the new values; every other key keeps its value; no other key appears |
| Weights.SaveWeights | weights_manager.py:27-34 | the file then holds the version and the weights |
| Weights.LoadWeightsAsWritten | weights_manager.py:12-25 | as written: a missing file is created with the defaults; every fallback returns the default dict itself; a stored `weights` entry gives a new dict |
| Weights.LoadWeights | weights_manager.py:12-25 | the corrected loader returns a new dict on every path, with the defaults' entries on a fallback |
| Weights.WeightsManager.constructor | weights_manager.py:8-10 | the manager's weights are a new dict, not the defaults, loaded as the corrected loader says |
| Weights.WeightsManager.AsWritten | weights_manager.py:8-10 | as written, the manager's weights are the default dict itself on every fallback |
| Weights.WeightsManager.GetWeights | weights_manager.py:36-38 | `get_weights` returns a new dict with the current entries |
| Weights.WeightsManager.UpdateWeights | weights_manager.py:40-43 | the current dict is merged in place and saved; the defaults change exactly when they are the current dict |
| Weights.WeightsManager.ResetToDefault | weights_manager.py:45-48 | a copy of the defaults as they are becomes current and is saved |
| Weights.ResetAfterUpdateAsWritten | weights_manager.py:12-25 | with no file, update then reset restores 2.0 for "base", and the process-wide defaults are changed |
| Weights.ResetAfterUpdate | weights_manager.py:45-48 | with the corrected loader, update then reset restores the configured defaults and leaves them untouched |
| Weights.CopyIsIndependent | weights_manager.py:36-38 | changing the dict `get_weights` returned leaves the stored weights alone |
| Learning.FeatureDiff | learning_system.py:36-44 | seven differences, chosen minus other, a missing entry reading 0 |
| Learning.FirstWithId | learning_system.py:30 | the first score with the chosen id, or none when no score has it |
| Learning.Others | learning_system.py:31 | exactly the scores with another id |
| Learning.PairExamples | learning_system.py:34-50 | one example labelled 1 per other score, with the feature difference and the agreement flag |
| Learning.RowExamplesShape | learning_system.py:25-53 | a qualifying row gives one example per other score, from the first chosen score; any other row gives none |
| Learning.RowsThatGiveNothing | learning_system.py:18-53 | a row that is not a pick, has no chosen id, or has missing or malformed scores gives nothing; so does one with fewer than two scores or a missing `card_id` |
| Learning.ExamplesAppend | learning_system.py:25-55 | the examples of a log are those of its parts, in order |
| Learning.FlattenAppend | learning_system.py:25-55 | the results collected over a concatenation of rows are those of the first part followed by those of the second |
| Learning.ExamplesLabelled | learning_system.py:36-50 | every example has label 1 and seven features |
| Learning.Clip | learning_system.py:81 | the clip is in [0.1, 3.0], and unchanged when already in it |
| Learning.Matrix | learning_system.py:64 | one matrix row per example |
| Learning.OptimizedProperties | learning_system.py:57-90 | fewer than five examples or a singular system keep the current weights; a solved system weights exactly the seven features, each in [0.1, 3.0] |
| Learning.AgreementCount | learning_system.py:113 | the agreeing examples are at most all of them |
| Learning.TrainProperties | learning_system.py:92-124 | no examples means no training; otherwise the count, an agreement rate in [0, 100] and each change the rounded difference; with one to four examples every change is 0 |
| Learning.LearningSystem.constructor | learning_system.py:10-12 | the learning system's weights manager is `WeightsManager()` as written: with no usable `weights` entry in the file its current table is the process-wide default table itself, otherwise a new table holding the stored weights; the defaults are not changed |
| Learning.LearningSystem.CollectTrainingData | learning_system.py:14-55 | the row loop gives the examples of the log |
| Learning.LearningSystem.CollectRow | learning_system.py:28-50 | the inner loop gives the examples of one row |
| Learning.LearningSystem.OptimizeWeights | learning_system.py:57-90 | `optimize_weights` gives the weights proved above |
| Learning.LearningSystem.TrainAndUpdate | learning_system.py:92-124 | the report; the current table merged in place with the new weights and saved whenever there were examples, unchanged otherwise; the defaults stay as they were when the current table is not the default table, and otherwise change with it |
| Cache.OldestIndex | cache_system.py:35-36 | the evicted entry is the first with the smallest timestamp |
| Cache.SetProperties | cache_system.py:30-39 | `set` stores the value under the key and keeps every other key, except that at capacity it first evicts exactly the oldest entry; it fails only on an empty table with `max_size <= 0`; with `max_size >= 1` the size stays within it |
| Cache.PutSize | cache_system.py:39 | storing grows the table by one exactly for a new key |
| Cache.GetOf | cache_system.py:15-28 | a hit leaves the table alone; a present miss deletes the entry; an absent key changes nothing |
| Cache.SetThenGet | cache_system.py:15-39 | a value read back when it was stored is the value stored |
| Cache.ExpiredIsMiss | cache_system.py:20-25 | an entry older than the TTL is never returned, and is gone afterwards |
| Cache.HitRate | cache_system.py:48-49 | the hit rate is in [0, 1], 0 without requests or hits, and the share of hits otherwise |
| Cache.SimpleCache.constructor | cache_system.py:9-13 | an empty cache with the given size and TTL and zero counters |
| Cache.SimpleCache.Get | cache_system.py:15-28 | the table after `get` and its result are as specified above; exactly one counter goes up |
| Cache.SimpleCache.Set | cache_system.py:30-39 | the table after `set` is as specified above, or unchanged where `min()` raises; the counters are unchanged |
| Cache.SimpleCache.Clear | cache_system.py:41-44 | an empty table and zero counters |
| Cache.SimpleCache.GetStats | cache_system.py:46-56 | the size, the maximum size, the hit rate and the request count |
| Cache.CardInfoCache | cache_system.py:83 | the card information cache is empty, with size 1000 and TTL 600 |
| Cache.CachedCall | cache_system.py:58-80 | a cached value is returned as is; otherwise the computed result is returned, and stored only when it is not `None` |

## Left out

- Networking, SQLite, the file system and logging are left out: `fetch_all_cards`, `CardDatabase`, the metrics table, `main`, `display_statistics`, `build_all_metrics` and `show_top_cards`. Their inputs and outputs are parameters: the card store, the parsed JSON, the log rows and the weights file state.
- `fetch_single_page`'s HTTP request is external I/O. Only what it returns for a parsed response is modelled (`PageOf`).
- `card_resolver.py` depends on SQL. The resolver is the parameter `Resolver`.
- Regular-expression semantics are external. Each search is the parameter `Matcher`, and the two tag substitutions of `clean_html_text` are the parameter `stripTags`.
- `np.linalg.solve` is numeric library code. It is the parameter `Solver`, whose `None` result stands for `LinAlgError`.
- Floating point is modelled as exact reals, so binary rounding artefacts are not captured.
- The cache key `hash(str(args))` is modelled as an opaque key string. The clock is a parameter of each operation. The wrapped function's result is a parameter of `CachedCall`.
- Reason and recommendation texts are tagged values, not formatted strings.
- `str(card_id)` is modelled by keeping the id as a string. An id that is not a string, and falsy ids other than `""`, are not modelled.
- Raw card fields of JSON types other than the modelled ones are not modelled, and neither is the exception path that they would trigger.
- `get_deck_analysis_detailed` (enhanced_advisor.py:170-193) calls a method of the base class that is not part of this model, so it is left out.
- `get_cache_stats`, `get_card_info`'s SQL and its JSON decoding are left out. `get_card_info` is the card store lookup.
- `check_class_mapping.py`, `analytics_migration.py`, `app.py`, `run.py` and `config.py` are left out, except the configuration constants that the core uses.
- The JSON key order and indentation of the weights file are left out.
- A card without a `card_metrics` row is not modelled. `get_card_info` joins with `LEFT JOIN`, so such a card's `base_rating` reads `None`, and adding it to the other score terms raises `TypeError` in `get_pick_advice` and `get_pick_advice_enhanced` (pick_advisor.py:36-39, pick_advisor.py:171-185, enhanced_advisor.py:81-106). Every card in the store has a rating (`Card.baseRating`).
- A NULL skill text read through `card.get("skill_text", "")` is `None`, and the `in` tests of `calculate_impact_score` then raise (build_card_metrics.py:122). Card texts are never NULL in the model.
- A `scores_json` that parses to something other than a list of objects is not modelled. `len` of `null`, a number or a boolean raises `TypeError`. With two elements or more, `s['card_id']` on an element that is not an object (a dict's keys and a string's characters included) raises `TypeError` too. `collect_training_data` catches neither (learning_system.py:28-31, learning_system.py:52). `ScoresJson` has only the parsed-list and the undecodable cases.
- A weights file whose JSON is not an object, or whose `weights` entry is not an object of numbers, is not modelled. The first raises `AttributeError` on `data.get` in `_load_weights`, which catches only `JSONDecodeError` and `KeyError`. The second makes the loader return that value as the current weights; for `"weights": null` that is `None` (weights_manager.py:17-19). `FileState` has only the missing, unreadable and object-with-or-without-`weights` cases.

## Findings

| source | as written | input that shows it | evidently intended | confidence | as-written member | corrected member |
|---|---|---|---|---|---|---|
| weights_manager.py:12-25 | every fallback of `_load_weights` returns the process-wide `DEFAULT_WEIGHTS['weights']` dict itself, so `update_weights` changes the defaults in place | no weights file, `update_weights({"base": 2.0})`, then `reset_to_default()`: "base" is 2.0, not 1.0 | the loader returns a copy, as `reset_to_default` makes one, so the reset restores the configured 1.0 | not executed | Weights.ResetAfterUpdateAsWritten | Weights.ResetAfterUpdate |
