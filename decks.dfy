/** Deck-level quantities that more than one engine computes the same way:
    the class of every resolved card, the main class the engines derive from
    the class counts, and the number of cards whose text matches a pattern
    list. */
module Decks {
  import opened Common
  import opened Dicts

  /** The class of each card, in order. */
  function Classes(cs: seq<Card>): (r: seq<int>)
    ensures |r| == |cs|
    ensures forall i :: 0 <= i < |cs| ==> r[i] == cs[i].classId
  {
    seq(|cs|, i requires 0 <= i < |cs| => cs[i].classId)
  }

  /** The cost of each card, in order. */
  function Costs(cs: seq<Card>): (r: seq<int>)
    ensures |r| == |cs|
    ensures forall i :: 0 <= i < |cs| ==> r[i] == cs[i].cost
  {
    seq(|cs|, i requires 0 <= i < |cs| => cs[i].cost)
  }

  /** The role tags of `cs`, card after card, repeats kept. */
  function AllRoles(cs: seq<Card>): seq<string> {
    if cs == [] then [] else AllRoles(cs[..|cs| - 1]) + cs[|cs| - 1].roles
  }

  /** `max(class_counts.keys(), key=lambda x: class_counts[x]) if class_counts else 0`. */
  function MainClass(classCounts: Dict<int, int>): int {
    if classCounts == [] then 0 else FirstMaxKey(classCounts)
  }

  /** The loop step `class_counts[c] = class_counts.get(c, 0) + 1`. */
  lemma ClassStep(prev: seq<Card>, c: Card)
    ensures CountsOf(Classes(prev + [c])) == Increment(CountsOf(Classes(prev)), c.classId)
  {
    assert Classes(prev + [c]) == Classes(prev) + [c.classId];
    assert (Classes(prev) + [c.classId])[..|Classes(prev)|] == Classes(prev);
  }

  /** The main class is 0 when no card resolves; otherwise it is a class of
      the deck and no class occurs more often. */
  lemma MainClassMaximal(cs: seq<Card>)
    ensures cs == [] ==> MainClass(CountsOf(Classes(cs))) == 0
    ensures cs != [] ==> var main := MainClass(CountsOf(Classes(cs)));
                         HasKey(CountsOf(Classes(cs)), main)
                         && (exists i :: 0 <= i < |cs| && cs[i].classId == main)
                         && forall c :: Occurrences(Classes(cs), c) <= Occurrences(Classes(cs), main)
  {
    var classCounts := CountsOf(Classes(cs));
    if cs == [] {
      assert Classes(cs) == [];
    } else {
      assert Classes(cs)[0] in Classes(cs);
      GetCountsOf(Classes(cs), Classes(cs)[0]);
      assert classCounts != [];
      var main := MainClass(classCounts);
      var i := MaxCountIndex(classCounts);
      GetCountsOf(Classes(cs), main);
      assert HasKey(classCounts, main) by {
        assert classCounts[i].0 == main;
      }
      assert main in Classes(cs);
      var k :| 0 <= k < |cs| && Classes(cs)[k] == main;
      assert cs[k].classId == main;
      forall c
        ensures Occurrences(Classes(cs), c) <= Occurrences(Classes(cs), main)
      {
        GetCountsOf(Classes(cs), c);
        if HasKey(classCounts, c) {
          assert classCounts[Find(classCounts, c)].1 <= classCounts[i].1;
          IncrementAllDistinct([], Classes(cs));
          assert Find(classCounts, main) == i;
        }
      }
    }
  }

  /** The number of cards of `cs` whose text matches one of `patterns`
      (case-insensitively); each card counts at most once. */
  function MatchCount(m: Matcher, patterns: seq<string>, cs: seq<Card>): (n: nat)
    ensures n <= |cs|
  {
    if cs == [] then 0
    else MatchCount(m, patterns, cs[..|cs| - 1]) + (if AnyMatch(m, patterns, true, FullText(cs[|cs| - 1])) then 1 else 0)
  }

  /** The loop step of every counting loop over `cs`. */
  lemma MatchCountStep(m: Matcher, patterns: seq<string>, cs: seq<Card>, j: nat)
    requires j < |cs|
    ensures MatchCount(m, patterns, cs[..j + 1])
            == MatchCount(m, patterns, cs[..j]) + (if AnyMatch(m, patterns, true, FullText(cs[j])) then 1 else 0)
  {
    assert cs[..j + 1][..j] == cs[..j];
  }
}
