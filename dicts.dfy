/** A Python `dict` as the engines use it: keys kept in insertion order, an
    assignment to a present key keeps its position, `get` with a default.
    The engines build their count tables (`curve[cost] = curve.get(cost, 0) + 1`)
    and depend on the insertion order (`max(d.keys(), key=...)` keeps the first
    maximal key), so the order is part of the model. */
module Dicts {
  import opened Common

  type Dict<K, V> = seq<(K, V)>

  /** Position of key `k`, or -1 when it is absent. */
  function Find<K(==), V>(d: Dict<K, V>, k: K): (i: int)
    ensures -1 <= i < |d|
    ensures 0 <= i ==> d[i].0 == k && forall j :: 0 <= j < i ==> d[j].0 != k
    ensures i == -1 <==> forall j :: 0 <= j < |d| ==> d[j].0 != k
  {
    if |d| == 0 then -1
    else if d[0].0 == k then 0
    else
      var j := Find(d[1..], k);
      if j == -1 then -1 else j + 1
  }

  /** `k in d`. */
  predicate HasKey<K(==), V>(d: Dict<K, V>, k: K) {
    Find(d, k) >= 0
  }

  /** `d.get(k, dflt)`. */
  function Get<K(==), V>(d: Dict<K, V>, k: K, dflt: V): V {
    var i := Find(d, k);
    if i >= 0 then d[i].1 else dflt
  }

  /** `d.get(k)`. */
  function Lookup<K(==), V>(d: Dict<K, V>, k: K): (r: Option<V>)
    ensures r.Some? <==> HasKey(d, k)
    ensures r.Some? ==> r.value == Get(d, k, r.value)
  {
    var i := Find(d, k);
    if i >= 0 then Some(d[i].1) else None
  }

  /** `d[k] = v`. */
  function Put<K(==), V>(d: Dict<K, V>, k: K, v: V): Dict<K, V> {
    var i := Find(d, k);
    if i >= 0 then d[i := (k, v)] else d + [(k, v)]
  }

  predicate DistinctKeys<K(==), V>(d: Dict<K, V>) {
    forall i, j :: 0 <= i < j < |d| ==> d[i].0 != d[j].0
  }

  /** Two tables with the same keys at the same positions find every key at the same place. */
  lemma FindSameKeys<K, V>(d: Dict<K, V>, e: Dict<K, V>, k: K)
    requires |d| == |e|
    requires forall j :: 0 <= j < |d| ==> d[j].0 == e[j].0
    ensures Find(d, k) == Find(e, k)
  {
    var i, j := Find(d, k), Find(e, k);
    if i >= 0 { assert e[i].0 == k; }
    if j >= 0 { assert d[j].0 == k; }
  }

  lemma FindAppend<K, V>(d: Dict<K, V>, k: K, v: V, k': K)
    requires Find(d, k) == -1
    ensures Find(d + [(k, v)], k') == if Find(d, k') >= 0 then Find(d, k') else if k' == k then |d| else -1
  {
    var e := d + [(k, v)];
    var i := Find(d, k');
    var j := Find(e, k');
    if i >= 0 { assert e[i].0 == k'; }
    if 0 <= j < |d| { assert d[j].0 == k'; }
    if k' == k { assert e[|d|].0 == k'; }
  }

  /** After `d[k] = v`, `k` reads `v` and every other key reads what it did
      before. */
  lemma GetPut<K, V>(d: Dict<K, V>, k: K, v: V, k': K, dflt: V)
    ensures Get(Put(d, k, v), k', dflt) == if k' == k then v else Get(d, k', dflt)
    ensures HasKey(Put(d, k, v), k') <==> k' == k || HasKey(d, k')
  {
    var i := Find(d, k);
    if i >= 0 {
      FindSameKeys(d, d[i := (k, v)], k');
    } else {
      FindAppend(d, k, v, k');
    }
  }

  /** `d[k] = v` adds no entry other than `(k, v)`. */
  lemma PutEntries<K, V>(d: Dict<K, V>, k: K, v: V)
    ensures forall j :: 0 <= j < |Put(d, k, v)| ==> Put(d, k, v)[j] == (k, v) || Put(d, k, v)[j] in d
  {
    var i := Find(d, k);
    if i >= 0 {
      forall j | 0 <= j < |Put(d, k, v)| && j != i
        ensures Put(d, k, v)[j] in d
      {
        assert Put(d, k, v)[j] == d[j];
      }
    } else {
      forall j | 0 <= j < |d|
        ensures Put(d, k, v)[j] in d
      {
        assert Put(d, k, v)[j] == d[j];
      }
    }
  }

  lemma PutDistinct<K, V>(d: Dict<K, V>, k: K, v: V)
    requires DistinctKeys(d)
    ensures DistinctKeys(Put(d, k, v))
  {
  }

  /** `del d[k]` for a key that is present. */
  function Remove<K(==), V>(d: Dict<K, V>, k: K): (r: Dict<K, V>)
    requires HasKey(d, k)
    ensures |r| == |d| - 1
  {
    var i := Find(d, k);
    d[..i] + d[i + 1..]
  }

  /** In a table with distinct keys, `del d[k]` drops `k` and keeps every
      other key with its value and its place in the order. */
  lemma GetRemove<K, V>(d: Dict<K, V>, k: K, k': K, dflt: V)
    requires DistinctKeys(d) && HasKey(d, k)
    ensures DistinctKeys(Remove(d, k))
    ensures HasKey(Remove(d, k), k') <==> k' != k && HasKey(d, k')
    ensures k' != k ==> Get(Remove(d, k), k', dflt) == Get(d, k', dflt)
  {
    var i := Find(d, k);
    var r := Remove(d, k);
    assert forall m :: 0 <= m < |r| ==> r[m] == if m < i then d[m] else d[m + 1];
    var j := Find(d, k');
    var jr := Find(r, k');
    if k' == k {
      assert jr == -1;
    } else if j >= 0 {
      var expected := if j < i then j else j - 1;
      assert r[expected].0 == k';
      assert jr == expected;
    } else {
      assert jr == -1;
    }
  }

  /** `d[k] = d.get(k, 0) + 1`, the loop step of every count table. */
  function Increment<K(==)>(d: Dict<K, int>, k: K): Dict<K, int> {
    Put(d, k, Get(d, k, 0) + 1)
  }

  /** Increments the count of each element of `s`, in order. */
  function IncrementAll<K(==)>(d: Dict<K, int>, s: seq<K>): Dict<K, int> {
    if s == [] then d
    else Increment(IncrementAll(d, s[..|s| - 1]), s[|s| - 1])
  }

  /** The count table a loop `for x in s: d[x] = d.get(x, 0) + 1` builds from `{}`. */
  function CountsOf<K(==)>(s: seq<K>): Dict<K, int> {
    IncrementAll([], s)
  }

  /** One loop step of a count table over `s`. */
  lemma IncrementAllStep<K>(d: Dict<K, int>, s: seq<K>, j: nat)
    requires j < |s|
    ensures IncrementAll(d, s[..j + 1]) == Increment(IncrementAll(d, s[..j]), s[j])
  {
    assert s[..j + 1][..j] == s[..j];
  }

  lemma {:induction false} IncrementAllAppend<K>(d: Dict<K, int>, s: seq<K>, t: seq<K>)
    ensures IncrementAll(d, s + t) == IncrementAll(IncrementAll(d, s), t)
    decreases |t|
  {
    if t == [] {
      assert s + t == s;
    } else {
      assert (s + t)[..|s + t| - 1] == s + t[..|t| - 1];
      IncrementAllAppend(d, s, t[..|t| - 1]);
    }
  }

  /** Each key of a count table holds the number of times it was counted. */
  lemma GetIncrementAll<K>(d: Dict<K, int>, s: seq<K>, k: K)
    ensures Get(IncrementAll(d, s), k, 0) == Get(d, k, 0) + Occurrences(s, k)
    ensures HasKey(IncrementAll(d, s), k) <==> HasKey(d, k) || k in s
  {
    CountIncrementAll(d, s, k);
    KeysIncrementAll(d, s, k);
  }

  lemma {:induction false} CountIncrementAll<K>(d: Dict<K, int>, s: seq<K>, k: K)
    ensures Get(IncrementAll(d, s), k, 0) == Get(d, k, 0) + Occurrences(s, k)
    decreases |s|
  {
    if s != [] {
      var s' := s[..|s| - 1];
      var x := s[|s| - 1];
      var d' := IncrementAll(d, s');
      CountIncrementAll(d, s', k);
      GetPut(d', x, Get(d', x, 0) + 1, k, 0);
      assert IncrementAll(d, s) == Put(d', x, Get(d', x, 0) + 1);
      assert Occurrences(s, k) == Occurrences(s', k) + (if x == k then 1 else 0);
    }
  }

  lemma {:induction false} KeysIncrementAll<K>(d: Dict<K, int>, s: seq<K>, k: K)
    ensures HasKey(IncrementAll(d, s), k) <==> HasKey(d, k) || k in s
    decreases |s|
  {
    if s != [] {
      var s' := s[..|s| - 1];
      var x := s[|s| - 1];
      var d' := IncrementAll(d, s');
      KeysIncrementAll(d, s', k);
      GetPut(d', x, Get(d', x, 0) + 1, k, 0);
      assert HasKey(IncrementAll(d, s), k) <==> k == x || HasKey(d', k);
      assert s == s' + [x];
    }
  }

  lemma GetCountsOf<K>(s: seq<K>, k: K)
    ensures Get(CountsOf(s), k, 0) == Occurrences(s, k)
    ensures HasKey(CountsOf(s), k) <==> k in s
  {
    GetIncrementAll([], s, k);
  }

  lemma {:induction false} IncrementAllDistinct<K>(d: Dict<K, int>, s: seq<K>)
    requires DistinctKeys(d)
    ensures DistinctKeys(IncrementAll(d, s))
    decreases |s|
  {
    if s != [] {
      IncrementAllDistinct(d, s[..|s| - 1]);
      PutDistinct(IncrementAll(d, s[..|s| - 1]), s[|s| - 1], Get(IncrementAll(d, s[..|s| - 1]), s[|s| - 1], 0) + 1);
    }
  }

  /** `sum(d.values())`. */
  function SumValues<K>(d: Dict<K, int>): int {
    if d == [] then 0 else SumValues(d[..|d| - 1]) + d[|d| - 1].1
  }

  lemma {:induction false} SumValuesUpdate<K>(d: Dict<K, int>, i: nat, e: (K, int))
    requires i < |d|
    ensures SumValues(d[i := e]) == SumValues(d) - d[i].1 + e.1
    decreases |d|
  {
    var n := |d| - 1;
    if i < n {
      assert d[i := e][..n] == d[..n][i := e];
      SumValuesUpdate(d[..n], i, e);
    } else {
      assert d[i := e][..n] == d[..n];
    }
  }

  lemma {:induction false} SumValuesIncrementAll<K>(d: Dict<K, int>, s: seq<K>)
    ensures SumValues(IncrementAll(d, s)) == SumValues(d) + |s|
    decreases |s|
  {
    if s != [] {
      var s' := s[..|s| - 1];
      var k := s[|s| - 1];
      var d' := IncrementAll(d, s');
      SumValuesIncrementAll(d, s');
      var i := Find(d', k);
      if i >= 0 {
        SumValuesUpdate(d', i, (k, Get(d', k, 0) + 1));
      } else {
        assert (d' + [(k, 1)])[..|d'|] == d';
      }
    }
  }

  /** A count table's values add up to the number of elements counted. */
  lemma SumValuesCountsOf<K>(s: seq<K>)
    ensures SumValues(CountsOf(s)) == |s|
  {
    SumValuesIncrementAll([], s);
  }

  /** Every count in a table built from non-negative counts is non-negative. */
  lemma {:induction false} IncrementAllNonNegative<K>(d: Dict<K, int>, s: seq<K>)
    requires forall j :: 0 <= j < |d| ==> d[j].1 >= 0
    ensures forall j :: 0 <= j < |IncrementAll(d, s)| ==> IncrementAll(d, s)[j].1 >= 0
    decreases |s|
  {
    if s != [] {
      IncrementAllNonNegative(d, s[..|s| - 1]);
    }
  }

  /** The position `max(d.keys(), key=lambda k: d[k])` picks: the first key,
      in insertion order, whose count is maximal. */
  function MaxCountIndex<K>(d: Dict<K, int>): (i: nat)
    requires |d| > 0
    ensures i < |d|
    ensures forall j :: 0 <= j < |d| ==> d[j].1 <= d[i].1
    ensures forall j :: 0 <= j < i ==> d[j].1 < d[i].1
  {
    ArgMax(d, (e: (K, int)) => e.1 as real)
  }

  /** `max(d.keys(), key=lambda k: d[k])`. */
  function FirstMaxKey<K>(d: Dict<K, int>): K
    requires |d| > 0
  {
    d[MaxCountIndex(d)].0
  }
}
