/** Values shared by every part of the advisor: the card record as the card
    store returns it, the regular-expression search abstraction, and small
    counting helpers over sequences. */
module Common {

  datatype Option<T> = None | Some(value: T)

  /** A pattern as passed to Python's `re.search`, together with whether the
      call site passes `re.IGNORECASE`. */
  datatype Regex = Regex(pattern: string, ignoreCase: bool)

  /** `re.search(r.pattern, text) is not None`. Regular-expression semantics
      are not modelled: every operation that searches text takes the matcher
      as a parameter, and the pattern lists themselves are kept as data. */
  type Matcher = (Regex, string) -> bool

  /** One row of the card store: a card of the `cards` table together with
      the `base_rating` of its `card_metrics` row. Every card here has a
      metrics row and non-NULL text columns; the synergy and archetype
      engines also read a NULL text as "" (`row[i] or ''`), but the metrics
      builder and the advisors do not. */
  datatype Card = Card(
    cardId: string,
    name: string,
    classId: int,
    cost: int,
    cardType: string,
    rarity: string,
    attack: Option<int>,
    defense: Option<int>,
    skillText: string,
    evoSkillText: string,
    isToken: bool,
    roles: seq<string>,
    keywords: seq<string>,
    baseRating: real)

  /** The card store: every SQL lookup by card id becomes a map lookup. */
  type CardStore = map<string, Card>

  /** `f"{skill_text} {evo_skill_text}"`, the text the engines search. */
  function FullText(c: Card): string {
    c.skillText + " " + c.evoSkillText
  }

  /** The cards of `ids` that the store knows, in order; ids that do not
      resolve are skipped (the engines' `if row:` / `if not card: continue`). */
  function ResolvedCards(cards: CardStore, ids: seq<string>): (r: seq<Card>)
    ensures |r| <= |ids|
    ensures forall c :: c in r ==> exists id :: id in ids && id in cards && cards[id] == c
  {
    if ids == [] then []
    else
      var prev := ResolvedCards(cards, ids[..|ids| - 1]);
      var id := ids[|ids| - 1];
      assert ids[..|ids| - 1] <= ids;
      if id in cards then prev + [cards[id]] else prev
  }

  /** `s.count(x)`. */
  function Occurrences<T(==)>(s: seq<T>, x: T): (n: nat)
    ensures n <= |s|
    ensures n == 0 <==> x !in s
  {
    if s == [] then 0
    else
      var n := Occurrences(s[..|s| - 1], x);
      assert s == s[..|s| - 1] + [s[|s| - 1]];
      if s[|s| - 1] == x then n + 1 else n
  }

  lemma {:induction false} OccurrencesAppend<T>(s: seq<T>, t: seq<T>, x: T)
    ensures Occurrences(s + t, x) == Occurrences(s, x) + Occurrences(t, x)
    decreases |t|
  {
    if t == [] {
      assert s + t == s;
    } else {
      var t' := t[..|t| - 1];
      assert (s + t)[..|s + t| - 1] == s + t';
      OccurrencesAppend(s, t', x);
    }
  }

  predicate NoDuplicates<T(==)>(s: seq<T>) {
    forall i, j :: 0 <= i < j < |s| ==> s[i] != s[j]
  }

  /** `s.index(x)`: the first position of `x`. */
  function IndexOf<T(==)>(s: seq<T>, x: T): (i: nat)
    requires x in s
    ensures i < |s| && s[i] == x
    ensures forall j :: 0 <= j < i ==> s[j] != x
  {
    if s[0] == x then 0 else 1 + IndexOf(s[1..], x)
  }

  /** `list(set(s))`. Python's set order is unspecified; this model keeps
      first occurrences in order, and the contracts promise only the elements
      and the absence of duplicates. */
  function Dedup<T(==)>(s: seq<T>): (r: seq<T>)
    ensures NoDuplicates(r)
    ensures forall i :: 0 <= i < |r| ==> r[i] in s
    ensures forall i :: 0 <= i < |s| ==> s[i] in r
    ensures |r| <= |s|
  {
    if s == [] then []
    else
      var prev := Dedup(s[..|s| - 1]);
      var x := s[|s| - 1];
      assert forall i :: 0 <= i < |s| - 1 ==> s[i] == s[..|s| - 1][i];
      if x in prev then prev else prev + [x]
  }

  /** `any(re.search(p, text, flags) for p in patterns)`. */
  predicate AnyMatch(m: Matcher, patterns: seq<string>, ignoreCase: bool, text: string) {
    exists i :: 0 <= i < |patterns| && m(Regex(patterns[i], ignoreCase), text)
  }

  /** The source's recurring loop
        for pattern in patterns:
            if re.search(pattern, text): ...; break
      which stops at the first pattern that matches. */
  method SearchAny(m: Matcher, patterns: seq<string>, ignoreCase: bool, text: string)
    returns (found: bool)
    ensures found <==> AnyMatch(m, patterns, ignoreCase, text)
  {
    found := false;
    var i := 0;
    while i < |patterns|
      invariant 0 <= i <= |patterns|
      invariant !found
      invariant forall j :: 0 <= j < i ==> !m(Regex(patterns[j], ignoreCase), text)
    {
      if m(Regex(patterns[i], ignoreCase), text) {
        found := true;
        return;
      }
      i := i + 1;
    }
  }

  /** Python's `max(s, key=f)`: the index of the FIRST element whose key is
      maximal (`max` replaces its candidate only on a strictly larger key). */
  function ArgMax<T>(s: seq<T>, f: T -> real): (i: nat)
    requires |s| > 0
    ensures i < |s|
    ensures forall j :: 0 <= j < |s| ==> f(s[j]) <= f(s[i])
    ensures forall j :: 0 <= j < i ==> f(s[j]) < f(s[i])
  {
    if |s| == 1 then 0
    else
      var i := ArgMax(s[..|s| - 1], f);
      assert forall j :: 0 <= j < |s| - 1 ==> s[..|s| - 1][j] == s[j];
      if f(s[|s| - 1]) > f(s[i]) then |s| - 1 else i
  }

  /** A share `a / b` of a positive whole is in [0, 1]. */
  lemma ShareBounds(a: nat, b: nat)
    requires a <= b && b > 0
    ensures 0.0 <= a as real / b as real <= 1.0
  {
    var q := a as real / b as real;
    assert q * b as real == a as real;
  }

  function Min(a: int, b: int): int { if a <= b then a else b }
  function Max(a: int, b: int): int { if a >= b then a else b }
  function MinR(a: real, b: real): real { if a <= b then a else b }
  function MaxR(a: real, b: real): real { if a >= b then a else b }
  function AbsR(x: real): real { if x < 0.0 then -x else x }
}
