/** The card normaliser of the database builder (`CardDataProcessor`): the
    required-field check and defaulting lookups that turn one raw card of the
    card-list API into a `NormalizedCard`, the text cleaning and keyword
    extraction it applies to skill text, the role and synergy tagging, and
    the validator of an API response. */
module CardProcessor {
  import opened Common
  import opened Dicts
  import opened Text

  // ---------------------------------------------------------------------
  // clean_html_text

  /** `clean_html_text(text)`. The two tag substitutions (the ruby rewrite
      and the removal of the remaining tags) are regular-expression work and
      are the parameter `stripTags`; the whitespace collapse and the final
      `strip()` are modelled. */
  function CleanHtml(stripTags: string -> string, text: string): string {
    if text == "" then "" else Strip(Collapse(stripTags(text)))
  }

  /** The empty text cleans to ""; a cleaned text neither starts nor ends
      with whitespace, never has two whitespace characters in a row, and
      keeps every other character of the tag-stripped text in order. */
  lemma CleanHtmlProperties(stripTags: string -> string, text: string)
    ensures text == "" ==> CleanHtml(stripTags, text) == ""
    ensures var r := CleanHtml(stripTags, text);
            r == [] || (!IsSpace(r[0]) && !IsSpace(r[|r| - 1]))
    ensures var r := CleanHtml(stripTags, text);
            forall i :: 0 <= i < |r| - 1 ==> !(IsSpace(r[i]) && IsSpace(r[i + 1]))
    ensures text != "" ==> Visible(CleanHtml(stripTags, text)) == Visible(stripTags(text))
  {
    if text != "" {
      var c := Collapse(stripTags(text));
      StripEnds(c);
      StripKeepsSingleSpaces(c);
      StripKeepsVisible(c);
      CollapseKeepsVisible(stripTags(text));
    }
  }

  // ---------------------------------------------------------------------
  // extract_keywords: re.findall(r'<color=Keyword>(.*?)</color>', text)

  const KeywordOpen: string := "<color=Keyword>"
  const KeywordClose: string := "</color>"

  /** `w` occurs in `text` at position `p`. */
  predicate StartsAt(text: string, p: int, w: string) {
    0 <= p && p + |w| <= |text| && text[p..p + |w|] == w
  }

  /** Where the lazy capture `(.*?)</color>` that starts at `q` ends: the
      first position from `q` on at which `</color>` begins, provided no
      newline comes before it (`.` does not match a newline). */
  function CloseFrom(text: string, q: nat): (r: Option<nat>)
    requires q <= |text|
    ensures r.Some? ==> q <= r.value && StartsAt(text, r.value, KeywordClose)
    ensures r.Some? ==> forall p :: q <= p < r.value ==> text[p] != '\n' && !StartsAt(text, p, KeywordClose)
    decreases |text| - q
  {
    if StartsAt(text, q, KeywordClose) then Some(q)
    else if q == |text| || text[q] == '\n' then None
    else CloseFrom(text, q + 1)
  }

  /** `re.findall` of the keyword pattern over `text[p:]`: a match at `p`
      contributes its capture and the scan resumes after it; otherwise the
      scan moves on by one character. */
  function FindKeywords(text: string, p: nat): (r: seq<string>)
    requires p <= |text|
    decreases |text| - p
  {
    if p + |KeywordOpen| > |text| then []
    else if StartsAt(text, p, KeywordOpen) && CloseFrom(text, p + |KeywordOpen|).Some? then
      var q := CloseFrom(text, p + |KeywordOpen|).value;
      [text[p + |KeywordOpen|..q]] + FindKeywords(text, q + |KeywordClose|)
    else FindKeywords(text, p + 1)
  }

  /** `text` holds `<color=Keyword>k</color>`. */
  predicate Tagged(text: string, k: string) {
    exists i :: 0 <= i <= |text| && StartsAt(text, i, KeywordOpen + k + KeywordClose)
  }

  /** The capture of a match at `p` is a tagged span of `text`, holds no
      newline, and holds no `</color>`: the capture is lazy. */
  lemma CaptureProperties(text: string, p: nat)
    requires p + |KeywordOpen| <= |text| && StartsAt(text, p, KeywordOpen)
    requires CloseFrom(text, p + |KeywordOpen|).Some?
    ensures var start := p + |KeywordOpen|;
            var k := text[start..CloseFrom(text, start).value];
            Tagged(text, k) && '\n' !in k && forall j :: !StartsAt(k, j, KeywordClose)
  {
    var start := p + |KeywordOpen|;
    var q := CloseFrom(text, start).value;
    CaptureTagged(text, p, q);
    CaptureLazy(text, start, q);
    CaptureNoNewline(text, start, q);
  }

  lemma CaptureTagged(text: string, p: nat, q: nat)
    requires p + |KeywordOpen| <= q && StartsAt(text, p, KeywordOpen) && StartsAt(text, q, KeywordClose)
    ensures Tagged(text, text[p + |KeywordOpen|..q])
  {
    var start := p + |KeywordOpen|;
    var k := text[start..q];
    assert text[p..q + |KeywordClose|] == KeywordOpen + k + KeywordClose by {
      assert text[p..q + |KeywordClose|] == text[p..start] + text[start..q] + text[q..q + |KeywordClose|];
    }
    assert StartsAt(text, p, KeywordOpen + k + KeywordClose);
  }

  lemma CaptureLazy(text: string, start: nat, q: nat)
    requires start <= q <= |text|
    requires forall p :: start <= p < q ==> !StartsAt(text, p, KeywordClose)
    ensures forall j :: !StartsAt(text[start..q], j, KeywordClose)
  {
    var k := text[start..q];
    forall j | StartsAt(k, j, KeywordClose)
      ensures false
    {
      assert |KeywordClose| == 8;
      assert start + j < q;
      assert forall i :: j <= i < j + |KeywordClose| ==> k[i] == text[start + i];
      assert k[j..j + |KeywordClose|] == text[start + j..start + j + |KeywordClose|];
      assert StartsAt(text, start + j, KeywordClose);
    }
  }

  lemma CaptureNoNewline(text: string, start: nat, q: nat)
    requires start <= q <= |text|
    requires forall p :: start <= p < q ==> text[p] != '\n'
    ensures '\n' !in text[start..q]
  {
    var k := text[start..q];
    forall c | 0 <= c < |k|
      ensures k[c] != '\n'
    {
      assert k[c] == text[start + c];
    }
  }

  /** Every keyword found is a tagged span of `text` without a newline and
      without a `</color>` inside it. */
  lemma {:induction false} FindKeywordsSound(text: string, p: nat)
    requires p <= |text|
    ensures forall k :: k in FindKeywords(text, p) ==>
              Tagged(text, k) && '\n' !in k && forall j :: !StartsAt(k, j, KeywordClose)
    decreases |text| - p
  {
    if p + |KeywordOpen| <= |text| {
      var start := p + |KeywordOpen|;
      if StartsAt(text, p, KeywordOpen) && CloseFrom(text, start).Some? {
        FindKeywordsSound(text, CloseFrom(text, start).value + |KeywordClose|);
        CaptureProperties(text, p);
      } else {
        FindKeywordsSound(text, p + 1);
      }
    }
  }

  /** `extract_keywords(text)`. */
  function ExtractKeywords(text: string): seq<string> {
    if text == "" then [] else Dedup(FindKeywords(text, 0))
  }

  /** `extract_keywords` gives [] for the empty text, and otherwise each
      keyword `findall` finds exactly once, and nothing else. */
  lemma ExtractKeywordsProperties(text: string)
    ensures text == "" ==> ExtractKeywords(text) == []
    ensures NoDuplicates(ExtractKeywords(text))
    ensures text != "" ==> forall k :: k in ExtractKeywords(text) <==> k in FindKeywords(text, 0)
    ensures forall k :: k in ExtractKeywords(text) ==> Tagged(text, k) && '\n' !in k
  {
    if text != "" {
      var found := FindKeywords(text, 0);
      FindKeywordsSound(text, 0);
      assert forall k :: k in ExtractKeywords(text) <==> k in found by {
        forall k ensures k in ExtractKeywords(text) <==> k in found {
          if k in found {
            var i :| 0 <= i < |found| && found[i] == k;
          }
        }
      }
    }
  }

  /** The lazy capture stops at the first `</color>`: two tagged keywords in
      a row are found separately. */
  lemma LazyCapture()
    ensures FindKeywords(KeywordOpen + "A" + KeywordClose + KeywordOpen + "B" + KeywordClose, 0) == ["A", "B"]
  {
    var a := KeywordOpen + "A" + KeywordClose;
    var t := a + KeywordOpen + "B" + KeywordClose;
    var n := |KeywordOpen|;
    var l := |a|;
    assert StartsAt(t, 0, KeywordOpen);
    assert CloseFrom(t, n) == Some(n + 1) by {
      assert t[n] == 'A';
      assert StartsAt(t, n + 1, KeywordClose);
    }
    assert FindKeywords(t, 0) == ["A"] + FindKeywords(t, l) by {
      assert t[n..n + 1] == "A";
    }
    assert StartsAt(t, l, KeywordOpen);
    assert CloseFrom(t, l + n) == Some(l + n + 1) by {
      assert t[l + n] == 'B';
      assert StartsAt(t, l + n + 1, KeywordClose);
    }
    assert FindKeywords(t, l) == ["B"] + FindKeywords(t, |t|) by {
      assert t[l + n..l + n + 1] == "B";
    }
  }

  // ---------------------------------------------------------------------
  // _analyze_roles and _analyze_synergies

  /** A pattern table: a name and the patterns that give it, in declaration
      order. */
  type PatternTable = seq<(string, seq<string>)>

  /** `role_patterns`. */
  const RolePatterns: PatternTable := [
    ("removal", ["破壊", "消滅", "ダメージ.*与える", "選ぶ.*破壊"]),
    ("draw", ["カードを.*引く", "ドロー", "手札に加える"]),
    ("heal", ["回復", "体力.*回復"]),
    ("aoe", ["すべての.*フォロワー", "全ての.*フォロワー"]),
    ("finisher", ["リーダー.*ダメージ"]),
    ("protection", ["守護", "バリア"])]

  /** `synergy_patterns`. */
  const SynergyPatterns: PatternTable := [
    ("spellboost", ["スペルブースト"]),
    ("earth_rite", ["土の印", "土の秘術"]),
    ("combo", ["コンボ"]),
    ("necromancy", ["ネクロマンス"]),
    ("enhance", ["エンハンス"]),
    ("fusion", ["融合"]),
    ("awakening", ["覚醒"])]

  /** `keyword_synergies`: the tag a keyword gives directly. */
  const KeywordSynergies: Dict<string, string> := [
    ("ファンファーレ", "fanfare"),
    ("ラストワード", "lastword"),
    ("守護", "ward"),
    ("疾走", "storm"),
    ("突進", "rush")]

  function Names(t: PatternTable): (r: seq<string>)
    ensures |r| == |t| && forall i :: 0 <= i < |t| ==> r[i] == t[i].0
  {
    seq(|t|, i requires 0 <= i < |t| => t[i].0)
  }

  /** The names of the entries of `t` one of whose patterns `re.search`
      finds in `text` (case-sensitively), in table order. */
  function Matched(m: Matcher, t: PatternTable, text: string): (r: seq<string>)
    ensures |r| <= |t|
  {
    if t == [] then []
    else
      var prev := Matched(m, t[..|t| - 1], text);
      if AnyMatch(m, t[|t| - 1].1, false, text) then prev + [t[|t| - 1].0] else prev
  }

  /** The elements of `r` appear in the order of their first positions in
      `names`. */
  predicate InOrder(r: seq<string>, names: seq<string>) {
    forall i, j :: 0 <= i < j < |r| && r[i] in names && r[j] in names ==>
      IndexOf(names, r[i]) < IndexOf(names, r[j])
  }

  /** A name is listed exactly when one of its patterns matches; with
      distinct names each is listed at most once and in table order. */
  lemma MatchedProperties(m: Matcher, t: PatternTable, text: string)
    ensures forall x :: x in Matched(m, t, text) <==>
              exists i :: 0 <= i < |t| && t[i].0 == x && AnyMatch(m, t[i].1, false, text)
    ensures forall x :: x in Matched(m, t, text) ==> x in Names(t)
    ensures NoDuplicates(Names(t)) ==> NoDuplicates(Matched(m, t, text))
    ensures NoDuplicates(Names(t)) ==> InOrder(Matched(m, t, text), Names(t))
  {
    MatchedMembers(m, t, text);
    if NoDuplicates(Names(t)) {
      MatchedOrdered(m, t, text);
    }
  }

  lemma {:induction false} MatchedMembers(m: Matcher, t: PatternTable, text: string)
    ensures forall x :: x in Matched(m, t, text) <==>
              exists i :: 0 <= i < |t| && t[i].0 == x && AnyMatch(m, t[i].1, false, text)
    ensures forall x :: x in Matched(m, t, text) ==> x in Names(t)
    decreases |t|
  {
    if t != [] {
      var n := |t| - 1;
      var init := t[..n];
      var prev := Matched(m, init, text);
      MatchedMembers(m, init, text);
      assert forall i :: 0 <= i < n ==> init[i] == t[i];
      forall x | x in prev
        ensures x in Names(t)
      {
        var i :| 0 <= i < n && init[i].0 == x && AnyMatch(m, init[i].1, false, text);
        assert Names(t)[i] == x;
      }
      assert t[n].0 == Names(t)[n];
    }
  }

  lemma {:induction false} MatchedOrdered(m: Matcher, t: PatternTable, text: string)
    requires NoDuplicates(Names(t))
    ensures NoDuplicates(Matched(m, t, text))
    ensures InOrder(Matched(m, t, text), Names(t))
    decreases |t|
  {
    if t != [] {
      var n := |t| - 1;
      var init := t[..n];
      var prev := Matched(m, init, text);
      var r := Matched(m, t, text);
      assert Names(init) == Names(t)[..n];
      assert NoDuplicates(Names(init));
      MatchedOrdered(m, init, text);
      MatchedMembers(m, init, text);
      forall x | x in prev
        ensures IndexOf(Names(t), x) == IndexOf(Names(init), x) < n
      {
        var i := IndexOf(Names(init), x);
        assert Names(t)[i] == x;
        assert IndexOf(Names(t), x) <= i;
      }
      assert t[n].0 == Names(t)[n];
      assert IndexOf(Names(t), t[n].0) == n;
      assert r == prev || r == prev + [t[n].0];
      forall i, j | 0 <= i < j < |r| && r[i] in Names(t) && r[j] in Names(t)
        ensures IndexOf(Names(t), r[i]) < IndexOf(Names(t), r[j])
      {
        assert r[i] == prev[i] && prev[i] in prev;
        if j < |prev| {
          assert r[j] == prev[j] && prev[j] in prev;
          assert IndexOf(Names(init), prev[i]) < IndexOf(Names(init), prev[j]);
        } else {
          assert r[j] == t[n].0;
        }
      }
      if r != prev {
        assert t[n].0 !in prev;
      }
    }
  }

  /** The role table's names are distinct. */
  lemma RoleNamesDistinct()
    ensures NoDuplicates(Names(RolePatterns))
  {
  }

  lemma SynergyNamesDistinct()
    ensures NoDuplicates(Names(SynergyPatterns))
  {
  }

  /** `_analyze_roles(text)`. */
  function RolesOf(m: Matcher, text: string): seq<string> {
    Matched(m, RolePatterns, text)
  }

  /** Each role is listed at most once, exactly when one of its patterns
      matches, in `role_patterns` order, and only the six role names
      appear. */
  lemma RolesProperties(m: Matcher, text: string)
    ensures NoDuplicates(RolesOf(m, text))
    ensures forall x :: x in RolesOf(m, text) ==> x in Names(RolePatterns)
    ensures forall i :: 0 <= i < |RolePatterns| ==>
              (RolePatterns[i].0 in RolesOf(m, text) <==> AnyMatch(m, RolePatterns[i].1, false, text))
    ensures InOrder(RolesOf(m, text), Names(RolePatterns))
  {
    RoleNamesDistinct();
    MatchedProperties(m, RolePatterns, text);
    forall x | x in RolesOf(m, text)
      ensures x in Names(RolePatterns)
    {
      var i :| 0 <= i < |RolePatterns| && RolePatterns[i].0 == x && AnyMatch(m, RolePatterns[i].1, false, text);
      assert Names(RolePatterns)[i] == x;
    }
    forall i | 0 <= i < |RolePatterns|
      ensures RolePatterns[i].0 in RolesOf(m, text) ==> AnyMatch(m, RolePatterns[i].1, false, text)
    {
      if RolePatterns[i].0 in RolesOf(m, text) {
        var j :| 0 <= j < |RolePatterns| && RolePatterns[j].0 == RolePatterns[i].0
                 && AnyMatch(m, RolePatterns[j].1, false, text);
        assert Names(RolePatterns)[i] == Names(RolePatterns)[j];
      }
    }
  }

  /** The tags a keyword table (`keyword_synergies`) gives the keywords, in
      order. */
  function KeywordTags(table: Dict<string, string>, keywords: seq<string>): (r: seq<string>)
    ensures forall x :: x in r <==> exists k :: k in keywords && Lookup(table, k) == Some(x)
  {
    if keywords == [] then []
    else
      var prev := KeywordTags(table, keywords[..|keywords| - 1]);
      var k := keywords[|keywords| - 1];
      assert keywords == keywords[..|keywords| - 1] + [k];
      var tag := Lookup(table, k);
      if tag.Some? then prev + [tag.value] else prev
  }

  /** `_analyze_synergies(text, keywords)`. */
  function SynergiesOf(m: Matcher, text: string, keywords: seq<string>): seq<string> {
    Dedup(Matched(m, SynergyPatterns, text) + KeywordTags(KeywordSynergies, keywords))
  }

  /** Synergy tags are listed once each: the names of the synergy patterns
      that match, and the tags of the mapped keywords present, and nothing
      else. */
  lemma SynergiesProperties(m: Matcher, text: string, keywords: seq<string>, x: string)
    ensures NoDuplicates(SynergiesOf(m, text, keywords))
    ensures x in SynergiesOf(m, text, keywords) <==>
              (exists i :: 0 <= i < |SynergyPatterns| && SynergyPatterns[i].0 == x
                           && AnyMatch(m, SynergyPatterns[i].1, false, text))
              || (exists k :: k in keywords && Lookup(KeywordSynergies, k) == Some(x))
  {
    MatchedProperties(m, SynergyPatterns, text);
    var s := Matched(m, SynergyPatterns, text) + KeywordTags(KeywordSynergies, keywords);
    var r := SynergiesOf(m, text, keywords);
    if x in r {
      var i :| 0 <= i < |r| && r[i] == x;
    }
    if x in s {
      var i :| 0 <= i < |s| && s[i] == x;
    }
  }

  /** The loop over the keywords: appends the tag of each mapped keyword. */
  method AppendKeywordTags(table: Dict<string, string>, init: seq<string>, keywords: seq<string>) returns (synergies: seq<string>)
    ensures synergies == init + KeywordTags(table, keywords)
  {
    synergies := init;
    var i := 0;
    while i < |keywords|
      invariant 0 <= i <= |keywords|
      invariant synergies == init + KeywordTags(table, keywords[..i])
    {
      KeywordTagsStep(table, keywords, i);
      var tag := Lookup(table, keywords[i]);
      if tag.Some? {
        synergies := synergies + [tag.value];
      }
      i := i + 1;
    }
    assert keywords[..|keywords|] == keywords;
  }

  lemma KeywordTagsStep(table: Dict<string, string>, keywords: seq<string>, i: nat)
    requires i < |keywords|
    ensures var tag := Lookup(table, keywords[i]);
            KeywordTags(table, keywords[..i + 1]) == KeywordTags(table, keywords[..i]) + (if tag.Some? then [tag.value] else [])
  {
    assert keywords[..i + 1][..i] == keywords[..i];
  }

  /** The recurring loop over a pattern table: the first pattern that
      matches lists the name and ends the inner loop. */
  method MatchTable(m: Matcher, t: PatternTable, text: string) returns (names: seq<string>)
    ensures names == Matched(m, t, text)
  {
    names := [];
    var i := 0;
    while i < |t|
      invariant 0 <= i <= |t|
      invariant names == Matched(m, t[..i], text)
    {
      var found := SearchAny(m, t[i].1, false, text);
      assert t[..i + 1][..i] == t[..i];
      if found {
        names := names + [t[i].0];
      }
      i := i + 1;
    }
    assert t[..|t|] == t;
  }

  /** `_analyze_roles(text)`; the lower-cased copy of the text it makes is
      never searched. */
  method AnalyzeRoles(m: Matcher, text: string) returns (roles: seq<string>)
    ensures roles == RolesOf(m, text)
    ensures NoDuplicates(roles) && forall x :: x in roles ==> x in Names(RolePatterns)
  {
    roles := MatchTable(m, RolePatterns, text);
    RolesProperties(m, text);
  }

  /** `_analyze_synergies(text, keywords)`. */
  method AnalyzeSynergies(m: Matcher, text: string, keywords: seq<string>) returns (tags: seq<string>)
    ensures tags == SynergiesOf(m, text, keywords)
    ensures NoDuplicates(tags)
  {
    var fromText := MatchTable(m, SynergyPatterns, text);
    var synergies := AppendKeywordTags(KeywordSynergies, fromText, keywords);
    tags := Dedup(synergies);
  }

  // ---------------------------------------------------------------------
  // normalize_card

  /** A field of a JSON object: missing, JSON `null`, or a value. */
  datatype Field<T> = Absent | Null | Present(value: T)

  /** `d.get(k)`. */
  function GetField<T>(f: Field<T>): Option<T> {
    if f.Present? then Some(f.value) else None
  }

  /** `d.get(k, dflt)`: the default only for a missing key. */
  function GetFieldOr<T>(f: Field<T>, dflt: T): Option<T> {
    match f
    case Absent => Some(dflt)
    case Null => None
    case Present(v) => Some(v)
  }

  /** A text field as `clean_html_text` and `extract_keywords` read it:
      missing and `null` both act as "". */
  function TextOf(f: Field<string>): string {
    if f.Present? then f.value else ""
  }

  /** A text field that is present and non-empty (Python truthiness). */
  predicate Truthy(f: Field<string>) {
    f.Present? && f.value != ""
  }

  /** The `common` object of a raw card. The card id is held as the text
      `str(card_id)` gives. */
  datatype RawCommon = RawCommon(
    cardId: Field<string>,
    name: Field<string>,
    classId: Field<int>,
    cost: Field<int>,
    cardType: Field<int>,
    rarity: Field<int>,
    skillText: Field<string>,
    flavourText: Field<string>,
    atk: Field<int>,
    life: Field<int>,
    tribes: Field<seq<int>>,
    cardSetId: Field<int>,
    isToken: Field<bool>,
    cv: Field<string>,
    illustrator: Field<string>)

  /** The `evo` object of a raw card (a missing `evo` reads as `{}`, every
      field absent). */
  datatype RawEvo = RawEvo(atk: Field<int>, life: Field<int>, skillText: Field<string>)

  /** A raw card: `common` is `None` when it is not an object (a missing
      `common` reads as `{}` and fails the required-field check the same
      way); `evo` is `None` when it is not an object. */
  datatype RawCard = RawCard(common: Option<RawCommon>, evo: Option<RawEvo>)

  datatype NormalizedCard = NormalizedCard(
    cardId: string,
    name: string,
    classId: int,
    className: string,
    cost: int,
    cardType: string,
    rarity: string,
    attack: Option<int>,
    defense: Option<int>,
    evolvedAttack: Option<int>,
    evolvedDefense: Option<int>,
    skillText: string,
    evoSkillText: string,
    flavourText: string,
    tribes: Option<seq<int>>,
    cardSetId: Option<int>,
    isToken: Option<bool>,
    cv: Option<string>,
    illustrator: Option<string>,
    baseRating: real,
    roles: seq<string>,
    synergyTags: seq<string>,
    keywords: seq<string>)

  /** `class_mapping`, indexed by class id. */
  const ClassNames: seq<string> := ["Neutral", "Elf", "Royal", "Witch", "Dragon", "Nightmare", "Bishop", "Nemesis"]

  /** `class_mapping.get(class_id, "Unknown")`. */
  function ClassNameOf(classId: int): string {
    if 0 <= classId < |ClassNames| then ClassNames[classId] else "Unknown"
  }

  /** `type_mapping.get(t, "unknown")`, where a `null` type looks up `None`. */
  function TypeNameOf(t: Option<int>): string {
    if t == Some(1) then "follower"
    else if t == Some(2) then "amulet"
    else if t == Some(3) then "countdown_amulet"
    else if t == Some(4) then "spell"
    else "unknown"
  }

  /** `rarity_mapping.get(r, "bronze")`. */
  function RarityNameOf(r: Option<int>): string {
    if r == Some(2) then "silver"
    else if r == Some(3) then "gold"
    else if r == Some(4) then "legendary"
    else "bronze"
  }

  /** `all([card_id, name, class_id is not None, cost is not None])`. */
  predicate HasRequired(c: RawCommon) {
    Truthy(c.cardId) && Truthy(c.name) && c.classId.Present? && c.cost.Present?
  }

  /** The keyword list of `normalize_card`: the keywords of the raw skill
      text, then those of the raw evolved skill text when it is present and
      non-empty, without duplicates. */
  function CardKeywords(c: RawCommon, evo: Option<RawEvo>): seq<string> {
    var evoKeywords := if evo.Some? && Truthy(evo.value.skillText) then ExtractKeywords(evo.value.skillText.value) else [];
    Dedup(ExtractKeywords(TextOf(c.skillText)) + evoKeywords)
  }

  /** The cleaned evolved skill text (`''` when `evo` is not an object). */
  function EvoSkillText(stripTags: string -> string, evo: Option<RawEvo>): string {
    if evo.Some? then CleanHtml(stripTags, TextOf(evo.value.skillText)) else ""
  }

  /** The card `normalize_card` builds before it assigns the roles and the
      synergy tags. */
  function BaseCard(stripTags: string -> string, c: RawCommon, evo: Option<RawEvo>): NormalizedCard
    requires HasRequired(c)
  {
    NormalizedCard(
      c.cardId.value, c.name.value, c.classId.value, ClassNameOf(c.classId.value), c.cost.value,
      TypeNameOf(GetFieldOr(c.cardType, 1)), RarityNameOf(GetFieldOr(c.rarity, 1)),
      GetField(c.atk), GetField(c.life),
      if evo.Some? then GetField(evo.value.atk) else None,
      if evo.Some? then GetField(evo.value.life) else None,
      CleanHtml(stripTags, TextOf(c.skillText)), EvoSkillText(stripTags, evo),
      CleanHtml(stripTags, TextOf(c.flavourText)),
      GetFieldOr(c.tribes, []), GetField(c.cardSetId), GetFieldOr(c.isToken, false),
      GetFieldOr(c.cv, ""), GetFieldOr(c.illustrator, ""),
      50.0, [], [], CardKeywords(c, evo))
  }

  /** `normalize_card(raw_card)`. */
  function NormalizeOf(m: Matcher, stripTags: string -> string, raw: RawCard): Option<NormalizedCard> {
    if raw.common.None? || !HasRequired(raw.common.value) then None
    else
      var card := BaseCard(stripTags, raw.common.value, raw.evo);
      var text := card.skillText + " " + card.evoSkillText;
      Some(card.(roles := RolesOf(m, text), synergyTags := SynergiesOf(m, text, card.keywords)))
  }

  /** `normalize_card` rejects a card exactly when `common` is not an object,
      the id or the name is missing or empty, or the class or the cost is
      missing; class 0 and cost 0 are accepted. */
  lemma NormalizeRejects(m: Matcher, stripTags: string -> string, raw: RawCard)
    ensures NormalizeOf(m, stripTags, raw).None? <==>
              raw.common.None?
              || !Truthy(raw.common.value.cardId) || !Truthy(raw.common.value.name)
              || !raw.common.value.classId.Present? || !raw.common.value.cost.Present?
    ensures NormalizeOf(m, stripTags, raw).Some? ==>
              var c := raw.common.value;
              var n := NormalizeOf(m, stripTags, raw).value;
              n.cardId == c.cardId.value && n.name == c.name.value
              && n.classId == c.classId.value && n.cost == c.cost.value && n.baseRating == 50.0
  {
  }

  /** The lookups default as the mappings say: an unknown class is
      "Unknown", a missing type is a follower, a `null` or unmapped type is
      "unknown", and a missing or unmapped rarity is bronze. */
  lemma NormalizeDefaults(m: Matcher, stripTags: string -> string, raw: RawCard)
    requires NormalizeOf(m, stripTags, raw).Some?
    ensures var c := raw.common.value;
            var n := NormalizeOf(m, stripTags, raw).value;
            (0 <= c.classId.value < 8 ==> n.className == ClassNames[c.classId.value])
            && (!(0 <= c.classId.value < 8) ==> n.className == "Unknown")
            && (c.cardType.Absent? ==> n.cardType == "follower")
            && (c.cardType.Null? ==> n.cardType == "unknown")
            && (c.cardType.Present? && !(1 <= c.cardType.value <= 4) ==> n.cardType == "unknown")
            && (c.rarity.Absent? ==> n.rarity == "bronze")
            && (c.rarity.Present? && !(1 <= c.rarity.value <= 4) ==> n.rarity == "bronze")
  {
    NormalizeLookups(m, stripTags, raw);
    var c := raw.common.value;
    LookupDefaults(c.classId.value, c.cardType, c.rarity);
  }

  /** The defaults of the class, type and rarity lookups. */
  lemma LookupDefaults(classId: int, cardType: Field<int>, rarity: Field<int>)
    ensures (0 <= classId < 8 ==> ClassNameOf(classId) == ClassNames[classId])
            && (!(0 <= classId < 8) ==> ClassNameOf(classId) == "Unknown")
            && (cardType.Absent? ==> TypeNameOf(GetFieldOr(cardType, 1)) == "follower")
            && (cardType.Null? ==> TypeNameOf(GetFieldOr(cardType, 1)) == "unknown")
            && (cardType.Present? && !(1 <= cardType.value <= 4) ==> TypeNameOf(GetFieldOr(cardType, 1)) == "unknown")
            && (rarity.Absent? ==> RarityNameOf(GetFieldOr(rarity, 1)) == "bronze")
            && (rarity.Present? && !(1 <= rarity.value <= 4) ==> RarityNameOf(GetFieldOr(rarity, 1)) == "bronze")
  {
  }

  /** The class, type and rarity names of a normalized card are the
      lookups of its raw fields. */
  lemma NormalizeLookups(m: Matcher, stripTags: string -> string, raw: RawCard)
    requires NormalizeOf(m, stripTags, raw).Some?
    ensures var c := raw.common.value;
            var n := NormalizeOf(m, stripTags, raw).value;
            n.className == ClassNameOf(c.classId.value) && n.cardType == TypeNameOf(GetFieldOr(c.cardType, 1))
            && n.rarity == RarityNameOf(GetFieldOr(c.rarity, 1))
  {
  }

  /** The card's keywords are those of the raw skill text and, when it is
      present and non-empty, of the raw evolved skill text, each once. */
  lemma NormalizeKeywords(m: Matcher, stripTags: string -> string, raw: RawCard, k: string)
    requires NormalizeOf(m, stripTags, raw).Some?
    ensures var n := NormalizeOf(m, stripTags, raw).value;
            NoDuplicates(n.keywords)
            && (k in n.keywords <==>
                  k in ExtractKeywords(TextOf(raw.common.value.skillText))
                  || (raw.evo.Some? && Truthy(raw.evo.value.skillText)
                      && k in ExtractKeywords(raw.evo.value.skillText.value)))
  {
    var c := raw.common.value;
    var keywords := CardKeywords(c, raw.evo);
    var evoKeywords := if raw.evo.Some? && Truthy(raw.evo.value.skillText) then ExtractKeywords(raw.evo.value.skillText.value) else [];
    var all := ExtractKeywords(TextOf(c.skillText)) + evoKeywords;
    assert NormalizeOf(m, stripTags, raw).value.keywords == keywords;
    if k in keywords {
      var i :| 0 <= i < |keywords| && keywords[i] == k;
    }
    if k in all {
      var i :| 0 <= i < |all| && all[i] == k;
    }
  }

  /** Roles and synergy tags are those of the cleaned skill text and
      evolved skill text joined by a space (the synergy tags also of the
      card's keywords), each listed once. */
  lemma NormalizeTags(m: Matcher, stripTags: string -> string, raw: RawCard)
    requires NormalizeOf(m, stripTags, raw).Some?
    ensures var n := NormalizeOf(m, stripTags, raw).value;
            var text := n.skillText + " " + n.evoSkillText;
            n.roles == RolesOf(m, text) && n.synergyTags == SynergiesOf(m, text, n.keywords)
            && NoDuplicates(n.roles) && NoDuplicates(n.synergyTags)
            && (forall x :: x in n.roles ==> x in Names(RolePatterns))
    ensures var n := NormalizeOf(m, stripTags, raw).value;
            n.skillText == CleanHtml(stripTags, TextOf(raw.common.value.skillText))
            && n.evoSkillText == EvoSkillText(stripTags, raw.evo)
  {
    var n := NormalizeOf(m, stripTags, raw).value;
    var text := n.skillText + " " + n.evoSkillText;
    RolesProperties(m, text);
    SynergiesProperties(m, text, n.keywords, "");
  }

  /** `normalize_card(raw_card)`: builds the card, then assigns the roles and
      the synergy tags found in the cleaned skill texts. */
  method NormalizeCard(m: Matcher, stripTags: string -> string, raw: RawCard) returns (r: Option<NormalizedCard>)
    ensures r == NormalizeOf(m, stripTags, raw)
  {
    if raw.common.None? {
      return None;
    }
    var c := raw.common.value;
    if !(Truthy(c.cardId) && Truthy(c.name) && c.classId.Present? && c.cost.Present?) {
      return None;
    }
    var card := BaseCard(stripTags, c, raw.evo);
    var text := card.skillText + " " + card.evoSkillText;
    var roles := AnalyzeRoles(m, text);
    var tags := AnalyzeSynergies(m, text, card.keywords);
    card := card.(roles := roles, synergyTags := tags);
    r := Some(card);
  }

  // ---------------------------------------------------------------------
  // ShadowverseCardFetcher._validate_response

  /** A parsed JSON value. */
  datatype Json = JNull | JBool(b: bool) | JNum(n: real) | JStr(s: string) | JArr(items: seq<Json>) | JObj(fields: map<string, Json>)

  /** `v == 1` in Python: the number 1 (integer or float) and `True`. */
  predicate EqualsOne(v: Json) {
    v == JNum(1.0) || v == JBool(true)
  }

  /** `data.get('data_headers', {})`, or `None` where the value has no
      `get` (it is not an object), on which `headers.get(...)` raises. */
  function HeadersOf(fields: map<string, Json>): Option<map<string, Json>> {
    if "data_headers" !in fields then Some(map[])
    else if fields["data_headers"].JObj? then Some(fields["data_headers"].fields)
    else None
  }

  /** `_validate_response(data)`; `None` where it raises `AttributeError`. */
  function ValidateResponse(data: Json): Option<bool> {
    if !data.JObj? then Some(false)
    else
      var headers := HeadersOf(data.fields);
      if headers.None? then None
      else if !("result_code" in headers.value && EqualsOne(headers.value["result_code"])) then Some(false)
      else Some("data" in data.fields)
  }

  /** A response is valid exactly when it is an object whose `data_headers`
      object has `result_code` 1 and which has a `data` entry; validation
      raises exactly when `data_headers` is present but not an object. */
  lemma ValidateProperties(data: Json)
    ensures ValidateResponse(data) == Some(true) <==>
              data.JObj? && "data_headers" in data.fields && data.fields["data_headers"].JObj?
              && "result_code" in data.fields["data_headers"].fields
              && EqualsOne(data.fields["data_headers"].fields["result_code"])
              && "data" in data.fields
    ensures ValidateResponse(data).None? <==>
              data.JObj? && "data_headers" in data.fields && !data.fields["data_headers"].JObj?
    ensures !data.JObj? ==> ValidateResponse(data) == Some(false)
  {
  }

  /** What `fetch_single_page` returns for a parsed response: the response
      when it is valid, otherwise `None` (also when validation raises, which
      the `except Exception` handler turns into `None`). */
  function PageOf(data: Json): (r: Option<Json>)
    ensures r.Some? <==> ValidateResponse(data) == Some(true)
    ensures r.Some? ==> r.value == data
  {
    if ValidateResponse(data) == Some(true) then Some(data) else None
  }
}
