/**
 * Weighted tallies as the analyzer keeps them in a `collections.Counter`:
 * keys in first-insertion order, each key once, weights added up. Both the
 * element tally and the ten-god tally are built this way.
 */
module Tally {
  import opened Ganzhi
  import opened Float64

  /** Where a counted item sits: pillar 0..3 is year, month, day, hour. */
  datatype Label =
    | StemAt(pillar: nat, stem: Stem)
    | BranchAt(pillar: nat, branch: Branch)
    | HiddenAt(pillar: nat, stem: Stem)

  /** One contribution to a tally: the key it counts for, its weight and where it came from. */
  datatype Item<K> = Item(key: K, weight: int, at: Label)

  /** A Counter: (key, count) pairs in first-insertion order. */
  type Counter<K> = seq<(K, int)>

  /** `k in counter`. */
  predicate HasKey<K(==)>(c: Counter<K>, k: K) {
    |c| > 0 && (c[0].0 == k || HasKey(c[1..], k))
  }

  /** No key is listed twice. */
  predicate DistinctKeys<K(==)>(c: Counter<K>) {
    |c| == 0 || (!HasKey(c[1..], c[0].0) && DistinctKeys(c[1..]))
  }

  /** `counter.get(k, 0)`. */
  function Get<K(==,!new)>(c: Counter<K>, k: K): int {
    if |c| == 0 then 0 else if c[0].0 == k then c[0].1 else Get(c[1..], k)
  }

  /** `sum(counter.values())`. */
  function Total<K>(c: Counter<K>): int {
    if |c| == 0 then 0 else c[0].1 + Total(c[1..])
  }

  /** `counter[k] += w`: an existing key keeps its place, a new key goes last. */
  function Bump<K(==,!new)>(c: Counter<K>, k: K, w: int): (c': Counter<K>)
    ensures forall x :: Get(c', x) == Get(c, x) + (if x == k then w else 0)
    ensures forall x :: HasKey(c', x) <==> HasKey(c, x) || x == k
    ensures DistinctKeys(c) ==> DistinctKeys(c')
    ensures Total(c') == Total(c) + w
  {
    if |c| == 0 then [(k, w)]
    else if c[0].0 == k then
      var r := [(k, c[0].1 + w)] + c[1..];
      assert r[1..] == c[1..];
      r
    else
      var r := [c[0]] + Bump(c[1..], k, w);
      assert r[1..] == Bump(c[1..], k, w);
      r
  }

  /** Sum of the weights of the items counted for k. */
  function WeightOf<K(==,!new)>(items: seq<Item<K>>, k: K): int {
    if |items| == 0 then 0
    else WeightOf(items[..|items| - 1], k) + (if items[|items| - 1].key == k then items[|items| - 1].weight else 0)
  }

  /** Sum of all item weights. */
  function TotalWeight<K>(items: seq<Item<K>>): int {
    if |items| == 0 then 0 else TotalWeight(items[..|items| - 1]) + items[|items| - 1].weight
  }

  /** The labels of the items counted for k, in scan order. */
  function PositionsOf<K(==,!new)>(items: seq<Item<K>>, k: K): seq<Label> {
    if |items| == 0 then []
    else PositionsOf(items[..|items| - 1], k) + (if items[|items| - 1].key == k then [items[|items| - 1].at] else [])
  }

  /** Is some item counted for k. */
  predicate Mentions<K(==)>(items: seq<Item<K>>, k: K) {
    |items| > 0 && (items[|items| - 1].key == k || Mentions(items[..|items| - 1], k))
  }

  /** An item key never seen has no positions. */
  lemma PositionsOfUnmentioned<K(!new)>(items: seq<Item<K>>, k: K)
    requires !Mentions(items, k)
    ensures PositionsOf(items, k) == []
  {
    if |items| > 0 {
      PositionsOfUnmentioned(items[..|items| - 1], k);
    }
  }

  predicate PositiveWeights<K>(items: seq<Item<K>>) {
    forall i :: 0 <= i < |items| ==> items[i].weight > 0
  }

  lemma PositiveWeightsAppend<K>(a: seq<Item<K>>, b: seq<Item<K>>)
    requires PositiveWeights(a) && PositiveWeights(b)
    ensures PositiveWeights(a + b)
  {
    forall i | 0 <= i < |a + b| ensures (a + b)[i].weight > 0 {
      if i >= |a| { assert (a + b)[i] == b[i - |a|]; }
    }
  }

  lemma WeightNonNegative<K(!new)>(items: seq<Item<K>>, k: K)
    requires PositiveWeights(items)
    ensures WeightOf(items, k) >= 0
  {
    if |items| > 0 {
      WeightNonNegative(items[..|items| - 1], k);
    }
  }

  /** The Counter a scan over `items` leaves behind. */
  function TallyOf<K(==,!new)>(items: seq<Item<K>>): (c: Counter<K>)
    ensures DistinctKeys(c)
    ensures forall k :: Get(c, k) == WeightOf(items, k)
    ensures forall k :: HasKey(c, k) <==> Mentions(items, k)
    ensures Total(c) == TotalWeight(items)
  {
    if |items| == 0 then []
    else
      var init := items[..|items| - 1];
      var last := items[|items| - 1];
      Bump(TallyOf(init), last.key, last.weight)
  }

  /** Scanning one more item bumps the counter by it. */
  lemma TallyOfSnoc<K(!new)>(items: seq<Item<K>>, x: Item<K>)
    ensures TallyOf(items + [x]) == Bump(TallyOf(items), x.key, x.weight)
    ensures forall k :: PositionsOf(items + [x], k) == PositionsOf(items, k) + (if x.key == k then [x.at] else [])
  {
    assert (items + [x])[..|items|] == items;
  }

  lemma TotalWeightAppend<K>(a: seq<Item<K>>, b: seq<Item<K>>)
    ensures TotalWeight(a + b) == TotalWeight(a) + TotalWeight(b)
  {
    if |b| > 0 {
      assert (a + b)[..|a + b| - 1] == a + b[..|b| - 1];
      TotalWeightAppend(a, b[..|b| - 1]);
    } else {
      assert a + b == a;
    }
  }

  lemma WeightOfAppend<K(!new)>(a: seq<Item<K>>, b: seq<Item<K>>, k: K)
    ensures WeightOf(a + b, k) == WeightOf(a, k) + WeightOf(b, k)
  {
    if |b| > 0 {
      assert (a + b)[..|a + b| - 1] == a + b[..|b| - 1];
      WeightOfAppend(a, b[..|b| - 1], k);
    } else {
      assert a + b == a;
    }
  }

  // ---------------------------------------------------------------------------
  // Counters of doubles: every `+=` rounds
  // ---------------------------------------------------------------------------

  /** `counter[k] += w` on doubles: the key's count becomes the rounded sum. */
  function FBump<K(==,!new)>(c: Counter<K>, k: K, w: int): (c': Counter<K>)
    ensures forall x :: Get(c', x) == (if x == k then Add(Get(c, k), w) else Get(c, x))
    ensures forall x :: HasKey(c', x) <==> HasKey(c, x) || x == k
    ensures DistinctKeys(c) ==> DistinctKeys(c')
    ensures Total(c') == Total(c) + (Add(Get(c, k), w) - Get(c, k))
    ensures |c'| > 0 && (|c| > 0 ==> c'[0].0 == c[0].0)
  {
    if |c| == 0 then [(k, Add(0, w))]
    else if c[0].0 == k then
      var r := [(k, Add(c[0].1, w))] + c[1..];
      assert r[1..] == c[1..];
      r
    else
      var r := [c[0]] + FBump(c[1..], k, w);
      assert r[1..] == FBump(c[1..], k, w);
      r
  }

  /** `counter[it.key] += it.weight` for each item in turn. */
  function FBumpAll<K(==,!new)>(c: Counter<K>, items: seq<Item<K>>): Counter<K> {
    if |items| == 0 then c
    else FBump(FBumpAll(c, items[..|items| - 1]), items[|items| - 1].key, items[|items| - 1].weight)
  }

  /** The double the `+=` scan leaves for key k: the item weights for k added in order, each sum rounded. */
  function FWeightOf<K(==,!new)>(items: seq<Item<K>>, k: K): int {
    if |items| == 0 then 0
    else
      var before := FWeightOf(items[..|items| - 1], k);
      if items[|items| - 1].key == k then Add(before, items[|items| - 1].weight) else before
  }

  /** The double-valued Counter a scan over `items` leaves behind. */
  function FTallyOf<K(==,!new)>(items: seq<Item<K>>): (c: Counter<K>)
    ensures DistinctKeys(c)
    ensures forall k :: Get(c, k) == FWeightOf(items, k)
    ensures forall k :: HasKey(c, k) <==> Mentions(items, k)
    ensures |items| > 0 ==> |c| > 0 && c[0].0 == items[0].key
  {
    if |items| == 0 then []
    else
      var init := items[..|items| - 1];
      var last := items[|items| - 1];
      assert |init| > 0 ==> init[0] == items[0];
      FBump(FTallyOf(init), last.key, last.weight)
  }

  /** The weights of the items counted for k, in scan order. */
  function WeightsFor<K(==,!new)>(items: seq<Item<K>>, k: K): seq<int> {
    if |items| == 0 then []
    else WeightsFor(items[..|items| - 1], k) + (if items[|items| - 1].key == k then [items[|items| - 1].weight] else [])
  }

  /** The exact sum of ws. */
  function Sum(ws: seq<int>): int {
    if |ws| == 0 then 0 else Sum(ws[..|ws| - 1]) + ws[|ws| - 1]
  }

  /** A key's exact tally is the exact sum of its own weights. */
  lemma {:induction false} WeightOfIsSum<K(!new)>(items: seq<Item<K>>, k: K)
    ensures WeightOf(items, k) == Sum(WeightsFor(items, k))
  {
    if |items| > 0 {
      var init := items[..|items| - 1];
      var last := items[|items| - 1];
      WeightOfIsSum(init, k);
      if last.key == k {
        var ws := WeightsFor(items, k);
        assert ws == WeightsFor(init, k) + [last.weight];
        assert ws[..|ws| - 1] == WeightsFor(init, k);
      } else {
        assert WeightsFor(items, k) == WeightsFor(init, k);
      }
    }
  }

  lemma SumSix(a: int, b: int, c: int, d: int, e: int, f: int)
    ensures Sum([a, b, c, d, e, f]) == a + b + c + d + e + f
  {
    assert [a, b, c, d, e, f][..5] == [a, b, c, d, e] && [a, b, c, d, e][..4] == [a, b, c, d];
    assert [a, b, c, d][..3] == [a, b, c] && [a, b, c][..2] == [a, b];
    assert [a, b][..1] == [a] && [a][..0] == [];
    assert Sum([a]) == a;
    assert Sum([a, b]) == a + b;
    assert Sum([a, b, c]) == a + b + c;
    assert Sum([a, b, c, d]) == a + b + c + d;
  }

  /** A key's double depends only on its own weights and their order. */
  lemma {:induction false} FWeightOfIsFSum<K(!new)>(items: seq<Item<K>>, k: K)
    ensures FWeightOf(items, k) == FSum(WeightsFor(items, k))
  {
    if |items| > 0 {
      var init := items[..|items| - 1];
      var last := items[|items| - 1];
      FWeightOfIsFSum(init, k);
      if last.key == k {
        var ws := WeightsFor(items, k);
        assert ws == WeightsFor(init, k) + [last.weight];
        assert ws[..|ws| - 1] == WeightsFor(init, k);
        assert FSum(ws) == Add(FSum(WeightsFor(init, k)), last.weight);
        assert FWeightOf(items, k) == Add(FWeightOf(init, k), last.weight);
      } else {
        assert WeightsFor(items, k) == WeightsFor(init, k);
        assert FWeightOf(items, k) == FWeightOf(init, k);
      }
    }
  }

  lemma WeightsForAppend<K(!new)>(a: seq<Item<K>>, b: seq<Item<K>>, k: K)
    ensures WeightsFor(a + b, k) == WeightsFor(a, k) + WeightsFor(b, k)
  {
    if |b| > 0 {
      assert (a + b)[..|a + b| - 1] == a + b[..|b| - 1];
      WeightsForAppend(a, b[..|b| - 1], k);
    } else {
      assert a + b == a;
    }
  }

  /** Scanning one more item bumps the double-valued counter by it. */
  lemma FTallyOfSnoc<K(!new)>(items: seq<Item<K>>, x: Item<K>)
    ensures FTallyOf(items + [x]) == FBump(FTallyOf(items), x.key, x.weight)
  {
    assert (items + [x])[..|items|] == items;
  }

  /** With distinct keys, an entry's count is what `Get` reads for its key. */
  lemma {:induction false} GetEntry<K(!new)>(c: Counter<K>, i: nat)
    requires DistinctKeys(c) && i < |c|
    ensures Get(c, c[i].0) == c[i].1
  {
    if i > 0 {
      GetEntry(c[1..], i - 1);
      assert c[1..][i - 1] == c[i];
      HasKeyEntry(c[1..], i - 1);
    }
  }

  lemma {:induction false} HasKeyEntry<K>(c: Counter<K>, i: nat)
    requires i < |c|
    ensures HasKey(c, c[i].0)
  {
    if i > 0 {
      HasKeyEntry(c[1..], i - 1);
      assert c[1..][i - 1] == c[i];
    }
  }

  /** A key with a nonzero count is in the Counter. */
  lemma {:induction false} GetNonZeroHasKey<K(!new)>(c: Counter<K>, k: K)
    requires Get(c, k) != 0
    ensures HasKey(c, k)
  {
    if c[0].0 != k {
      GetNonZeroHasKey(c[1..], k);
    }
  }

  lemma {:induction false} HasKeyIndex<K>(c: Counter<K>, k: K)
    requires HasKey(c, k)
    ensures exists j :: 0 <= j < |c| && c[j].0 == k
  {
    if c[0].0 != k {
      HasKeyIndex(c[1..], k);
      var j :| 0 <= j < |c[1..]| && c[1..][j].0 == k;
      assert c[j + 1].0 == k;
    }
  }

  /** Index of the first entry with the largest count (Python's `max` keeps the first of equals). */
  function ArgMax<K>(c: Counter<K>): (i: nat)
    requires |c| > 0
    ensures i < |c|
    ensures forall j :: 0 <= j < |c| ==> c[j].1 <= c[i].1
    ensures forall j :: 0 <= j < i ==> c[j].1 < c[i].1
  {
    if |c| == 1 then 0
    else
      var i := ArgMax(c[..|c| - 1]);
      if c[|c| - 1].1 > c[i].1 then |c| - 1 else i
  }

  /** Index of the first entry with the smallest count. */
  function ArgMin<K>(c: Counter<K>): (i: nat)
    requires |c| > 0
    ensures i < |c|
    ensures forall j :: 0 <= j < |c| ==> c[i].1 <= c[j].1
    ensures forall j :: 0 <= j < i ==> c[i].1 < c[j].1
  {
    if |c| == 1 then 0
    else
      var i := ArgMin(c[..|c| - 1]);
      if c[|c| - 1].1 < c[i].1 then |c| - 1 else i
  }
}
