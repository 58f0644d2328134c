/**
 * The five-phase side of the rule engine: the weighted element tally of a
 * chart, the "missing" rule, the day master's strength score (旺衰) and the
 * favourable / unfavourable element roles (用神, 喜神, 忌神, 仇神) derived
 * from it.
 *
 * The tally holds doubles as the source's `Counter` does: a stem or a branch
 * adds 1.0 and a hidden stem the double nearest 0.3, each `+=` rounded
 * (module Float64). The exact sums of those weights, WeightOf and
 * TotalWeight, are the reference the rounded counts are measured against.
 */
module Wuxing {
  import opened Wrappers
  import opened Ganzhi
  import opened Tally
  import opened Float64

  const StemWeight := One
  const BranchWeight := One
  const HiddenWeight := PointThree

  // ---------------------------------------------------------------------------
  // The items a chart contributes to the element tally, in scan order
  // ---------------------------------------------------------------------------

  function HiddenItems(p: nat, hs: seq<Stem>): seq<Item<Element>> {
    if |hs| == 0 then []
    else HiddenItems(p, hs[..|hs| - 1]) + [Item(StemElement(hs[|hs| - 1]), HiddenWeight, HiddenAt(p, hs[|hs| - 1]))]
  }

  /** Pillar p adds its stem, its branch, then each hidden stem of its branch. */
  function PillarItems(p: nat, pl: Pillar): seq<Item<Element>> {
    [Item(StemElement(pl.stem), StemWeight, StemAt(p, pl.stem)),
     Item(BranchElement(pl.branch), BranchWeight, BranchAt(p, pl.branch))]
    + HiddenItems(p, HiddenStems(pl.branch))
  }

  /** The items of the pillars ps, numbered from 0. */
  function ElementItems(ps: seq<Pillar>): seq<Item<Element>> {
    if |ps| == 0 then []
    else ElementItems(ps[..|ps| - 1]) + PillarItems(|ps| - 1, ps[|ps| - 1])
  }

  /** The number of hidden stems under the branches of ps. */
  function HiddenCount(ps: seq<Pillar>): nat {
    if |ps| == 0 then 0 else HiddenCount(ps[..|ps| - 1]) + |HiddenStems(ps[|ps| - 1].branch)|
  }

  predicate UnitWeights(items: seq<Item<Element>>) {
    forall i :: 0 <= i < |items| ==> items[i].weight == HiddenWeight || items[i].weight == StemWeight
  }

  lemma HiddenItemsShape(p: nat, hs: seq<Stem>)
    ensures |HiddenItems(p, hs)| == |hs|
    ensures TotalWeight(HiddenItems(p, hs)) == HiddenWeight * |hs|
    ensures UnitWeights(HiddenItems(p, hs))
  {
    if |hs| > 0 {
      HiddenItemsShape(p, hs[..|hs| - 1]);
      var last := [Item(StemElement(hs[|hs| - 1]), HiddenWeight, HiddenAt(p, hs[|hs| - 1]))];
      TotalWeightAppend(HiddenItems(p, hs[..|hs| - 1]), last);
      assert TotalWeight(last) == HiddenWeight by { assert last[..0] == []; }
    }
  }

  lemma UnitWeightsAppend(a: seq<Item<Element>>, b: seq<Item<Element>>)
    requires UnitWeights(a) && UnitWeights(b)
    ensures UnitWeights(a + b)
  {
    forall i | 0 <= i < |a + b| ensures (a + b)[i].weight == HiddenWeight || (a + b)[i].weight == StemWeight {
      if i >= |a| { assert (a + b)[i] == b[i - |a|]; }
    }
  }

  lemma PillarTotal(p: nat, pl: Pillar)
    ensures TotalWeight(PillarItems(p, pl)) == 2 * One + HiddenWeight * |HiddenStems(pl.branch)|
    ensures |PillarItems(p, pl)| == 2 + |HiddenStems(pl.branch)|
    ensures UnitWeights(PillarItems(p, pl))
  {
    HiddenItemsShape(p, HiddenStems(pl.branch));
    var head := [Item(StemElement(pl.stem), StemWeight, StemAt(p, pl.stem)),
                 Item(BranchElement(pl.branch), BranchWeight, BranchAt(p, pl.branch))];
    assert TotalWeight(head) == 2 * One by {
      assert head[..|head| - 1] == [head[0]];
      assert TotalWeight([head[0]]) == StemWeight by { assert [head[0]][..0] == []; }
    }
    TotalWeightAppend(head, HiddenItems(p, HiddenStems(pl.branch)));
    UnitWeightsAppend(head, HiddenItems(p, HiddenStems(pl.branch)));
  }

  /**
   * The exact total is 2.0 per pillar plus the double 0.3 per hidden stem,
   * over one item per stem, per branch and per hidden stem.
   */
  lemma {:induction false} ElementTotal(ps: seq<Pillar>)
    ensures TotalWeight(ElementItems(ps)) == 2 * One * |ps| + HiddenWeight * HiddenCount(ps)
    ensures |ElementItems(ps)| == 2 * |ps| + HiddenCount(ps)
    ensures UnitWeights(ElementItems(ps))
  {
    if |ps| > 0 {
      var init := ps[..|ps| - 1];
      var pl := ps[|ps| - 1];
      ElementTotal(init);
      PillarTotal(|ps| - 1, pl);
      TotalWeightAppend(ElementItems(init), PillarItems(|ps| - 1, pl));
      UnitWeightsAppend(ElementItems(init), PillarItems(|ps| - 1, pl));
    }
  }

  lemma HiddenCountBounds(ps: seq<Pillar>)
    ensures |ps| <= HiddenCount(ps) <= 3 * |ps|
  {
    if |ps| > 0 {
      HiddenCountBounds(ps[..|ps| - 1]);
    }
  }

  /** The items of the four pillars of a chart. */
  function ChartItems(c: Chart): seq<Item<Element>> {
    ElementItems(c.Pillars())
  }

  /** With one to three hidden stems per branch the exact total lies in 8 + 4·0.3 ..= 8 + 12·0.3, over 12 to 20 items. */
  lemma ChartTotalBounds(c: Chart)
    ensures 8 * One + 4 * HiddenWeight <= TotalWeight(ChartItems(c)) <= 8 * One + 12 * HiddenWeight
    ensures TotalWeight(ChartItems(c)) == 8 * One + HiddenWeight * HiddenCount(c.Pillars())
    ensures 12 <= |ChartItems(c)| <= 20
  {
    ElementTotal(c.Pillars());
    HiddenCountBounds(c.Pillars());
  }

  // ---------------------------------------------------------------------------
  // analyze_wuxing: the tally, the extremes and the missing elements
  // ---------------------------------------------------------------------------

  /** Element positions, one list per element, all five keys present. */
  type Positions = map<Element, seq<Label>>

  predicate PositionsMatch(positions: Positions, scanned: seq<Item<Element>>) {
    forall e: Element :: e in positions && positions[e] == PositionsOf(scanned, e)
  }

  /** Counts one item into the counter and the position lists. */
  method Record(counter: Counter<Element>, positions: Positions, ghost scanned: seq<Item<Element>>, it: Item<Element>)
    returns (counter': Counter<Element>, positions': Positions)
    requires counter == FTallyOf(scanned)
    requires PositionsMatch(positions, scanned)
    ensures counter' == FTallyOf(scanned + [it]) == FBump(counter, it.key, it.weight)
    ensures PositionsMatch(positions', scanned + [it])
  {
    FTallyOfSnoc(scanned, it);
    TallyOfSnoc(scanned, it);
    counter' := FBump(counter, it.key, it.weight);
    positions' := positions[it.key := positions[it.key] + [it.at]];
  }

  /** Counts one pillar: its stem, its branch, then each hidden stem of its branch. */
  method ScanPillar(counter: Counter<Element>, positions: Positions, ghost scanned: seq<Item<Element>>, i: nat, pl: Pillar)
    returns (counter': Counter<Element>, positions': Positions)
    requires counter == FTallyOf(scanned)
    requires PositionsMatch(positions, scanned)
    ensures counter' == FTallyOf(scanned + PillarItems(i, pl))
    ensures PositionsMatch(positions', scanned + PillarItems(i, pl))
  {
    counter', positions' := RecordAll(counter, positions, scanned, PillarItems(i, pl));
  }

  /** Counts the given items, in order. */
  method RecordAll(counter: Counter<Element>, positions: Positions, ghost scanned: seq<Item<Element>>, items: seq<Item<Element>>)
    returns (counter': Counter<Element>, positions': Positions)
    requires counter == FTallyOf(scanned)
    requires PositionsMatch(positions, scanned)
    ensures counter' == FTallyOf(scanned + items)
    ensures counter' == FBumpAll(counter, items)
    ensures PositionsMatch(positions', scanned + items)
  {
    counter', positions' := counter, positions;
    assert scanned + items[..0] == scanned;
    for j := 0 to |items|
      invariant counter' == FTallyOf(scanned + items[..j])
      invariant counter' == FBumpAll(counter, items[..j])
      invariant PositionsMatch(positions', scanned + items[..j])
    {
      PrefixStep(scanned, items, j);
      counter', positions' := Record(counter', positions', scanned + items[..j], items[j]);
    }
    assert items[..|items|] == items;
  }

  lemma PrefixStep(scanned: seq<Item<Element>>, items: seq<Item<Element>>, j: nat)
    requires j < |items|
    ensures scanned + items[..j + 1] == scanned + items[..j] + [items[j]]
    ensures items[..j + 1][..j] == items[..j] && items[..j + 1][j] == items[j]
  {
    assert items[..j + 1] == items[..j] + [items[j]];
  }

  /** The scan of analyze_wuxing over the pillars in year, month, day, hour order. */
  method ScanElements(c: Chart) returns (counter: Counter<Element>, positions: Positions)
    ensures counter == FTallyOf(ChartItems(c))
    ensures PositionsMatch(positions, ChartItems(c))
  {
    var ps := c.Pillars();
    counter := [];
    positions := map[Metal := [], Wood := [], Water := [], Fire := [], Earth := []];
    ghost var scanned: seq<Item<Element>> := [];
    forall e: Element ensures e in positions && positions[e] == PositionsOf(scanned, e) {
      match e
      case Metal => case Wood => case Water => case Fire => case Earth =>
    }
    for i := 0 to 4
      invariant scanned == ElementItems(ps[..i])
      invariant counter == FTallyOf(scanned)
      invariant PositionsMatch(positions, scanned)
    {
      assert ElementItems(ps[..i + 1]) == ElementItems(ps[..i]) + PillarItems(i, ps[i]) by {
        assert ps[..i + 1][..i] == ps[..i];
      }
      counter, positions := ScanPillar(counter, positions, scanned, i, ps[i]);
      scanned := scanned + PillarItems(i, ps[i]);
    }
    assert ps[..4] == ps;
  }

  /** `count == 0 or count / total < 0.05`. */
  predicate IsMissing(c: Counter<Element>, e: Element) {
    Get(c, e) == 0 || (Total(c) > 0 && 20 * Get(c, e) < Total(c))
  }

  /** Position of an element in the order 金木水火土. */
  function Rank(e: Element): nat {
    match e
    case Metal => 0
    case Wood => 1
    case Water => 2
    case Fire => 3
    case Earth => 4
  }

  function MissingAmong(c: Counter<Element>, es: seq<Element>): seq<Element> {
    if |es| == 0 then []
    else (if IsMissing(c, es[0]) then [es[0]] else []) + MissingAmong(c, es[1..])
  }

  lemma MissingAmongSpec(c: Counter<Element>, es: seq<Element>)
    ensures forall e :: e in MissingAmong(c, es) <==> e in es && IsMissing(c, e)
    ensures (forall i, j :: 0 <= i < j < |es| ==> Rank(es[i]) < Rank(es[j]))
            ==> (forall i, j :: 0 <= i < j < |MissingAmong(c, es)| ==> Rank(MissingAmong(c, es)[i]) < Rank(MissingAmong(c, es)[j]))
  {
    if |es| > 0 {
      MissingAmongSpec(c, es[1..]);
      var rest := MissingAmong(c, es[1..]);
      if (forall i, j :: 0 <= i < j < |es| ==> Rank(es[i]) < Rank(es[j])) && IsMissing(c, es[0]) {
        forall j | 0 <= j < |rest| ensures Rank(es[0]) < Rank(rest[j]) {
          assert rest[j] in es[1..];
          var k :| 0 <= k < |es[1..]| && es[1..][k] == rest[j];
          assert es[k + 1] == rest[j];
        }
      }
    }
  }

  lemma AllElementsListed()
    ensures forall e :: e in Elements
    ensures forall i, j :: 0 <= i < j < |Elements| ==> Rank(Elements[i]) < Rank(Elements[j])
  {
    forall e ensures e in Elements {
      match e
      case Metal => case Wood => case Water => case Fire => case Earth =>
    }
  }

  /** The missing elements: those absent or under 5% of the total, in the order 金木水火土. */
  function Missing(c: Counter<Element>): (r: seq<Element>)
    ensures forall e :: e in r <==> IsMissing(c, e)
    ensures forall i, j :: 0 <= i < j < |r| ==> Rank(r[i]) < Rank(r[j])
  {
    MissingAmongSpec(c, Elements);
    AllElementsListed();
    MissingAmong(c, Elements)
  }

  /** `max(counter.items(), key=count)`: the first key with the largest count, or none. */
  function Most<K>(c: Counter<K>): (r: Option<K>)
    ensures r.None? <==> |c| == 0
    ensures r.Some? ==> exists i :: 0 <= i < |c| && c[i].0 == r.value
                                && (forall j :: 0 <= j < |c| ==> c[j].1 <= c[i].1)
                                && (forall j :: 0 <= j < i ==> c[j].1 < c[i].1)
  {
    if |c| == 0 then None else Some(c[ArgMax(c)].0)
  }

  /** `min(counter.items(), key=count)`: the first key with the smallest count, or none. */
  function Least<K>(c: Counter<K>): (r: Option<K>)
    ensures r.None? <==> |c| == 0
    ensures r.Some? ==> exists i :: 0 <= i < |c| && c[i].0 == r.value
                                && (forall j :: 0 <= j < |c| ==> c[i].1 <= c[j].1)
                                && (forall j :: 0 <= j < i ==> c[i].1 < c[j].1)
  {
    if |c| == 0 then None else Some(c[ArgMin(c)].0)
  }

  /** Every element's exact tally is 0, 0.3 or at least 0.6: sums of 1s and 0.3s skip 0.1 .. 0.2 and 0.4 .. 0.5. */
  lemma {:induction false} WeightGap(items: seq<Item<Element>>, e: Element)
    requires UnitWeights(items)
    ensures var w := WeightOf(items, e); w == 0 || w == HiddenWeight || w >= 2 * HiddenWeight
  {
    if |items| > 0 {
      WeightGap(items[..|items| - 1], e);
    }
  }

  lemma UnitWeightsPositive(items: seq<Item<Element>>)
    requires UnitWeights(items)
    ensures PositiveWeights(items)
  {
  }

  /** A key's exact weight is part of the exact total. */
  lemma {:induction false} WeightAtMostTotal(items: seq<Item<Element>>, e: Element)
    requires PositiveWeights(items)
    ensures 0 <= WeightOf(items, e) <= TotalWeight(items)
  {
    if |items| > 0 {
      WeightAtMostTotal(items[..|items| - 1], e);
    }
  }

  /**
   * Rounding each `+=` keeps an element's double within 16 units (2^-50) per
   * item of its exact weight, while the sums stay below 15.0.
   */
  lemma {:induction false} FloatWeightNear(items: seq<Item<Element>>, e: Element)
    requires PositiveWeights(items)
    requires TotalWeight(items) + 16 * |items| < 15 * One
    ensures FWeightOf(items, e) - WeightOf(items, e) <= 16 * |items|
    ensures WeightOf(items, e) - FWeightOf(items, e) <= 16 * |items|
  {
    if |items| > 0 {
      var init := items[..|items| - 1];
      var last := items[|items| - 1];
      assert PositiveWeights(init) by {
        forall i | 0 <= i < |init| ensures init[i].weight > 0 { assert init[i] == items[i]; }
      }
      FloatWeightNear(init, e);
      if last.key == e {
        WeightAtMostTotal(init, e);
        AddNear(FWeightOf(init, e), last.weight);
      }
    }
  }

  /** The same bound for the counter's total: 16 units per item. */
  lemma {:induction false} FloatTotalNear(items: seq<Item<Element>>)
    requires PositiveWeights(items)
    requires TotalWeight(items) + 16 * |items| < 15 * One
    ensures Total(FTallyOf(items)) - TotalWeight(items) <= 16 * |items|
    ensures TotalWeight(items) - Total(FTallyOf(items)) <= 16 * |items|
  {
    if |items| > 0 {
      var init := items[..|items| - 1];
      var last := items[|items| - 1];
      assert PositiveWeights(init) by {
        forall i | 0 <= i < |init| ensures init[i].weight > 0 { assert init[i] == items[i]; }
      }
      FloatTotalNear(init);
      FloatWeightNear(init, last.key);
      WeightAtMostTotal(init, last.key);
      AddNear(FWeightOf(init, last.key), last.weight);
    }
  }

  /** A chart's element doubles and their total are within 320 units (about 1.8e-14) of the exact sums. */
  lemma ChartTallyNear(c: Chart, e: Element)
    ensures Get(FTallyOf(ChartItems(c)), e) - WeightOf(ChartItems(c), e) <= 320
    ensures WeightOf(ChartItems(c), e) - Get(FTallyOf(ChartItems(c)), e) <= 320
    ensures Total(FTallyOf(ChartItems(c))) - TotalWeight(ChartItems(c)) <= 320
    ensures TotalWeight(ChartItems(c)) - Total(FTallyOf(ChartItems(c))) <= 320
  {
    ChartTotalBounds(c);
    ElementTotal(c.Pillars());
    UnitWeightsPositive(ChartItems(c));
    FloatWeightNear(ChartItems(c), e);
    FloatTotalNear(ChartItems(c));
  }

  /**
   * 庚申 庚寅 癸巳 丁巳: 金 and 火 both weigh exactly 3.9, but 金's additions
   * 1+1+0.3+1+0.3+0.3 round to 3.8999999999999995 while 火's 0.3+1+0.3+1+1+0.3
   * give 3.9, so `max` picks 火 although 金 comes first in the Counter.
   */
  lemma FloatTieBreak()
    ensures var c := Chart(Pillar(6, 8), Pillar(6, 2), Pillar(9, 5), Pillar(3, 5));
      && WeightOf(ChartItems(c), Metal) == WeightOf(ChartItems(c), Fire)
      && Get(FTallyOf(ChartItems(c)), Metal) < Get(FTallyOf(ChartItems(c)), Fire)
      && FTallyOf(ChartItems(c))[0].0 == Metal
      && Most(FTallyOf(ChartItems(c))) == Some(Fire)
  {
    var c := Chart(Pillar(6, 8), Pillar(6, 2), Pillar(9, 5), Pillar(3, 5));
    TieExact(c);
    TieTally(c);
    TieMost(c);
    TieChartItems(c);
    assert ChartItems(c)[0].key == Metal;
  }

  /** Exactly, 金 and 火 both collect 3·1 + 3·0.3. */
  lemma TieExact(c: Chart)
    requires c == Chart(Pillar(6, 8), Pillar(6, 2), Pillar(9, 5), Pillar(3, 5))
    ensures WeightOf(ChartItems(c), Metal) == WeightOf(ChartItems(c), Fire)
  {
    TieMetalWeights(c);
    TieFireWeights(c);
    WeightOfIsSum(ChartItems(c), Metal);
    WeightOfIsSum(ChartItems(c), Fire);
    SumSix(One, One, PointThree, One, PointThree, PointThree);
    SumSix(PointThree, One, PointThree, One, One, PointThree);
  }

  /** With 火's double strictly the largest, `max` returns 火 wherever it sits in the Counter. */
  lemma TieMost(c: Chart)
    requires c == Chart(Pillar(6, 8), Pillar(6, 2), Pillar(9, 5), Pillar(3, 5))
    ensures Most(FTallyOf(ChartItems(c))) == Some(Fire)
  {
    var t := FTallyOf(ChartItems(c));
    TieTally(c);
    forall x | x != Fire ensures Get(t, x) < Get(t, Fire) {
      match x
      case Metal => case Wood => case Water => case Earth =>
    }
    MostOfStrictMax(t, Fire);
  }

  /** A key whose count beats every other key's is what `max` returns. */
  lemma MostOfStrictMax(t: Counter<Element>, k: Element)
    requires DistinctKeys(t) && Get(t, k) != 0
    requires forall x :: x != k ==> Get(t, x) < Get(t, k)
    ensures Most(t) == Some(k)
  {
    GetNonZeroHasKey(t, k);
    HasKeyIndex(t, k);
    var j :| 0 <= j < |t| && t[j].0 == k;
    GetEntry(t, j);
    var i := ArgMax(t);
    GetEntry(t, i);
  }

  /** The double tallies of the tie chart, element by element. */
  lemma TieTally(c: Chart)
    requires c == Chart(Pillar(6, 8), Pillar(6, 2), Pillar(9, 5), Pillar(3, 5))
    ensures var t := FTallyOf(ChartItems(c));
      && Get(t, Metal) == 70256154186979728 && Get(t, Fire) == 70256154186979736
      && Get(t, Water) == 23418718062326580 && Get(t, Earth) == 21617278211378380
      && Get(t, Wood) == 23418718062326580
  {
    var items := ChartItems(c);
    FWeightOfIsFSum(items, Metal);
    FWeightOfIsFSum(items, Fire);
    FWeightOfIsFSum(items, Water);
    FWeightOfIsFSum(items, Earth);
    FWeightOfIsFSum(items, Wood);
    TieMetalWeights(c);
    TieFireWeights(c);
    TieWaterWeights(c);
    TieEarthWeights(c);
    TieWoodWeights(c);
    MetalTieSum();
    FireTieSum();
    WaterTieSum();
    EarthTieSum();
    WoodTieSum();
  }

  /** The weights 金 collects in the tie chart, in scan order. */
  lemma TieMetalWeights(c: Chart)
    requires c == Chart(Pillar(6, 8), Pillar(6, 2), Pillar(9, 5), Pillar(3, 5))
    ensures WeightsFor(ChartItems(c), Metal) == [One, One, PointThree, One, PointThree, PointThree]
  {
    assert [One, One, PointThree] + [One] + [PointThree] + [PointThree] == [One, One, PointThree, One, PointThree, PointThree];
    TieChartItems(c);
    WeightsForFour(PillarItems(0, c.year), PillarItems(1, c.month), PillarItems(2, c.day), PillarItems(3, c.hour), Metal);
    TieYearWeights(c, Metal);
    TieMonthWeights(c, Metal);
    TieDayWeights(c, Metal);
    TieHourWeights(c, Metal);
  }

  /** The weights 火 collects in the tie chart, in scan order. */
  lemma TieFireWeights(c: Chart)
    requires c == Chart(Pillar(6, 8), Pillar(6, 2), Pillar(9, 5), Pillar(3, 5))
    ensures WeightsFor(ChartItems(c), Fire) == [PointThree, One, PointThree, One, One, PointThree]
  {
    assert [] + [PointThree] + [One, PointThree] + [One, One, PointThree] == [PointThree, One, PointThree, One, One, PointThree];
    TieChartItems(c);
    WeightsForFour(PillarItems(0, c.year), PillarItems(1, c.month), PillarItems(2, c.day), PillarItems(3, c.hour), Fire);
    TieYearWeights(c, Fire);
    TieMonthWeights(c, Fire);
    TieDayWeights(c, Fire);
    TieHourWeights(c, Fire);
  }

  /** The weights 水 collects in the tie chart, in scan order. */
  lemma TieWaterWeights(c: Chart)
    requires c == Chart(Pillar(6, 8), Pillar(6, 2), Pillar(9, 5), Pillar(3, 5))
    ensures WeightsFor(ChartItems(c), Water) == [PointThree, One]
  {
    assert [PointThree] + [] + [One] + [] == [PointThree, One];
    TieChartItems(c);
    WeightsForFour(PillarItems(0, c.year), PillarItems(1, c.month), PillarItems(2, c.day), PillarItems(3, c.hour), Water);
    TieYearWeights(c, Water);
    TieMonthWeights(c, Water);
    TieDayWeights(c, Water);
    TieHourWeights(c, Water);
  }

  /** The weights 土 collects in the tie chart, in scan order. */
  lemma TieEarthWeights(c: Chart)
    requires c == Chart(Pillar(6, 8), Pillar(6, 2), Pillar(9, 5), Pillar(3, 5))
    ensures WeightsFor(ChartItems(c), Earth) == [PointThree, PointThree, PointThree, PointThree]
  {
    assert [PointThree] + [PointThree] + [PointThree] + [PointThree] == [PointThree, PointThree, PointThree, PointThree];
    TieChartItems(c);
    WeightsForFour(PillarItems(0, c.year), PillarItems(1, c.month), PillarItems(2, c.day), PillarItems(3, c.hour), Earth);
    TieYearWeights(c, Earth);
    TieMonthWeights(c, Earth);
    TieDayWeights(c, Earth);
    TieHourWeights(c, Earth);
  }

  /** The weights 木 collects in the tie chart, in scan order. */
  lemma TieWoodWeights(c: Chart)
    requires c == Chart(Pillar(6, 8), Pillar(6, 2), Pillar(9, 5), Pillar(3, 5))
    ensures WeightsFor(ChartItems(c), Wood) == [One, PointThree]
  {
    assert [] + [One, PointThree] + [] + [] == [One, PointThree];
    TieChartItems(c);
    WeightsForFour(PillarItems(0, c.year), PillarItems(1, c.month), PillarItems(2, c.day), PillarItems(3, c.hour), Wood);
    TieYearWeights(c, Wood);
    TieMonthWeights(c, Wood);
    TieDayWeights(c, Wood);
    TieHourWeights(c, Wood);
  }

  /** 庚申: 金 stem and branch, hidden 庚 壬 戊. */
  lemma TieYearWeights(c: Chart, e: Element)
    requires c == Chart(Pillar(6, 8), Pillar(6, 2), Pillar(9, 5), Pillar(3, 5))
    ensures WeightsFor(PillarItems(0, c.year), e) == (if e == Metal then [One, One, PointThree] else if e == Water || e == Earth then [PointThree] else [])
  {
    assert HiddenStems(8) == [6, 8, 4];
    PillarWeights(0, c.year, e);
  }

  /** 庚寅: 金 stem, 木 branch, hidden 甲 丙 戊. */
  lemma TieMonthWeights(c: Chart, e: Element)
    requires c == Chart(Pillar(6, 8), Pillar(6, 2), Pillar(9, 5), Pillar(3, 5))
    ensures WeightsFor(PillarItems(1, c.month), e) == (if e == Metal then [One] else if e == Wood then [One, PointThree] else if e == Fire || e == Earth then [PointThree] else [])
  {
    assert HiddenStems(2) == [0, 2, 4];
    PillarWeights(1, c.month, e);
  }

  /** 癸巳: 水 stem, 火 branch, hidden 丙 戊 庚. */
  lemma TieDayWeights(c: Chart, e: Element)
    requires c == Chart(Pillar(6, 8), Pillar(6, 2), Pillar(9, 5), Pillar(3, 5))
    ensures WeightsFor(PillarItems(2, c.day), e) == (if e == Water then [One] else if e == Fire then [One, PointThree] else if e == Earth || e == Metal then [PointThree] else [])
  {
    assert HiddenStems(5) == [2, 4, 6];
    PillarWeights(2, c.day, e);
  }

  /** 丁巳: 火 stem and branch, hidden 丙 戊 庚. */
  lemma TieHourWeights(c: Chart, e: Element)
    requires c == Chart(Pillar(6, 8), Pillar(6, 2), Pillar(9, 5), Pillar(3, 5))
    ensures WeightsFor(PillarItems(3, c.hour), e) == (if e == Fire then [One, One, PointThree] else if e == Earth || e == Metal then [PointThree] else [])
  {
    assert HiddenStems(5) == [2, 4, 6];
    PillarWeights(3, c.hour, e);
  }

  lemma TieChartItems(c: Chart)
    ensures ChartItems(c) == PillarItems(0, c.year) + PillarItems(1, c.month) + PillarItems(2, c.day) + PillarItems(3, c.hour)
  {
    var ps := c.Pillars();
    assert ps[..3] == [c.year, c.month, c.day] && ps[..3][..2] == [c.year, c.month];
    assert ps[..3][..2][..1] == [c.year] && ps[..3][..2][..1][..0] == [];
    assert ElementItems([c.year]) == PillarItems(0, c.year);
    assert ElementItems([c.year, c.month]) == PillarItems(0, c.year) + PillarItems(1, c.month);
    assert ElementItems([c.year, c.month, c.day]) == PillarItems(0, c.year) + PillarItems(1, c.month) + PillarItems(2, c.day);
  }

  lemma WeightsForFour(p0: seq<Item<Element>>, p1: seq<Item<Element>>, p2: seq<Item<Element>>, p3: seq<Item<Element>>, e: Element)
    ensures WeightsFor(p0 + p1 + p2 + p3, e) == WeightsFor(p0, e) + WeightsFor(p1, e) + WeightsFor(p2, e) + WeightsFor(p3, e)
  {
    WeightsForAppend(p0, p1, e);
    WeightsForAppend(p0 + p1, p2, e);
    WeightsForAppend(p0 + p1 + p2, p3, e);
  }

  /** A pillar whose branch hides three stems contributes five items. */
  lemma PillarWeights(i: nat, pl: Pillar, e: Element)
    requires |HiddenStems(pl.branch)| == 3
    ensures var hs := HiddenStems(pl.branch);
      WeightsFor(PillarItems(i, pl), e)
        == (if StemElement(pl.stem) == e then [One] else [])
         + (if BranchElement(pl.branch) == e then [One] else [])
         + (if StemElement(hs[0]) == e then [PointThree] else [])
         + (if StemElement(hs[1]) == e then [PointThree] else [])
         + (if StemElement(hs[2]) == e then [PointThree] else [])
  {
    var hs := HiddenStems(pl.branch);
    var items := PillarItems(i, pl);
    assert hs[..2] == [hs[0], hs[1]] && hs[..2][..1] == [hs[0]] && hs[..2][..1][..0] == [];
    assert hs[..|hs| - 1] == hs[..2];
    assert HiddenItems(i, hs[..1]) == [Item(StemElement(hs[0]), HiddenWeight, HiddenAt(i, hs[0]))];
    assert HiddenItems(i, hs[..2]) == HiddenItems(i, hs[..1]) + [Item(StemElement(hs[1]), HiddenWeight, HiddenAt(i, hs[1]))];
    assert |items| == 5;
    assert items[..4][..3] == items[..3] && items[..3][..2] == items[..2] && items[..2][..1] == items[..1];
    assert items[..1][..0] == [];
    assert WeightsFor(items[..1], e) == (if items[0].key == e then [items[0].weight] else []);
    assert WeightsFor(items[..2], e) == WeightsFor(items[..1], e) + (if items[1].key == e then [items[1].weight] else []);
    assert WeightsFor(items[..3], e) == WeightsFor(items[..2], e) + (if items[2].key == e then [items[2].weight] else []);
    assert WeightsFor(items[..4], e) == WeightsFor(items[..3], e) + (if items[3].key == e then [items[3].weight] else []);
    assert WeightsFor(items, e) == WeightsFor(items[..4], e) + (if items[4].key == e then [items[4].weight] else []);
  }

  /**
   * Under the 5% rule an element of a chart is missing exactly when no stem
   * and no branch has it and at most one hidden stem does.
   */
  lemma MissingIffAtMostOneHidden(c: Chart, e: Element)
    ensures e in Missing(FTallyOf(ChartItems(c))) <==> WeightOf(ChartItems(c), e) <= HiddenWeight
  {
    ChartTotalBounds(c);
    ElementTotal(c.Pillars());
    WeightGap(ChartItems(c), e);
    ChartTallyNear(c, e);
  }

  /**
   * The share count / total is below 4% for a missing element and above 5.1%
   * otherwise, far from the 5% threshold compared with the rounding of a
   * double division.
   */
  lemma MissingMargin(c: Chart, e: Element)
    ensures var dist := FTallyOf(ChartItems(c));
      && (e in Missing(dist) ==> 100 * Get(dist, e) < 4 * Total(dist))
      && (e !in Missing(dist) ==> 1000 * Get(dist, e) > 51 * Total(dist))
  {
    ChartTotalBounds(c);
    ElementTotal(c.Pillars());
    WeightGap(ChartItems(c), e);
    ChartTallyNear(c, e);
    MissingIffAtMostOneHidden(c, e);
  }

  // ---------------------------------------------------------------------------
  // _judge_wangshuai: the strength score
  // ---------------------------------------------------------------------------

  datatype Level = VeryStrong | FairlyStrong | Neutral | FairlyWeak | VeryWeak
  datatype Status = Strong | Balanced | Weak

  datatype Wangshuai = Wangshuai(value: int, level: Level, status: Status, deling: bool, dedi: bool, deshi: nat)

  /** 得令: the day master shares the month branch's element. */
  predicate Deling(c: Chart) {
    StemElement(c.DayMaster()) == BranchElement(c.month.branch)
  }

  /** A pillar roots element r: its branch, or one of its hidden stems, has element r. */
  predicate Rooted(pl: Pillar, r: Element) {
    BranchElement(pl.branch) == r
    || exists j :: 0 <= j < |HiddenStems(pl.branch)| && StemElement(HiddenStems(pl.branch)[j]) == r
  }

  /** 得地: some pillar roots the day master. */
  predicate Dedi(c: Chart) {
    exists i :: 0 <= i < 4 && Rooted(c.Pillars()[i], StemElement(c.DayMaster()))
  }

  /** One unit for a stem and one for a branch sharing element r. */
  function Support(pl: Pillar, r: Element): nat {
    (if StemElement(pl.stem) == r then 1 else 0) + (if BranchElement(pl.branch) == r then 1 else 0)
  }

  function SupportSum(ps: seq<Pillar>, r: Element): nat {
    if |ps| == 0 then 0 else SupportSum(ps[..|ps| - 1], r) + Support(ps[|ps| - 1], r)
  }

  /** The year, month and hour pillars: every pillar but the day master's own. */
  function Others(c: Chart): seq<Pillar> {
    [c.year, c.month, c.hour]
  }

  /** 得势: support from the other three pillars. */
  function Deshi(c: Chart): nat {
    SupportSum(Others(c), StemElement(c.DayMaster()))
  }

  /** The bands of the score: ≥80 太旺, ≥65 偏旺 (both 身旺), ≥50 中和, ≥35 偏弱, else 太弱 (both 身弱). */
  function Band(v: int): (b: (Level, Status))
    ensures b.1 == Strong <==> v >= 65
    ensures b.1 == Weak <==> v < 50
    ensures b.0 == VeryStrong <==> v >= 80
    ensures b.0 == FairlyStrong <==> 65 <= v < 80
    ensures b.0 == Neutral <==> 50 <= v < 65
    ensures b.0 == FairlyWeak <==> 35 <= v < 50
    ensures b.0 == VeryWeak <==> v < 35
    ensures b.1 == Balanced <==> b.0 == Neutral
  {
    if v >= 80 then (VeryStrong, Strong)
    else if v >= 65 then (FairlyStrong, Strong)
    else if v >= 50 then (Neutral, Balanced)
    else if v >= 35 then (FairlyWeak, Weak)
    else (VeryWeak, Weak)
  }

  /** The score 50 + 20·得令 + 15·得地 + 5·得势 and its band. */
  function StrengthOf(c: Chart): Wangshuai {
    var v := 50 + (if Deling(c) then 20 else 0) + (if Dedi(c) then 15 else 0) + 5 * Deshi(c);
    var b := Band(v);
    Wangshuai(v, b.0, b.1, Deling(c), Dedi(c), Deshi(c))
  }

  /** The scan of _judge_wangshuai, with its early exits. */
  method JudgeWangshuai(c: Chart) returns (w: Wangshuai)
    ensures w == StrengthOf(c)
  {
    var ps := c.Pillars();
    var r := StemElement(c.DayMaster());
    var deling := r == BranchElement(c.month.branch);

    var dedi := false;
    var i := 0;
    while i < 4
      invariant 0 <= i <= 4
      invariant dedi ==> Dedi(c)
      invariant !dedi ==> forall k :: 0 <= k < i ==> !Rooted(ps[k], r)
    {
      var pl := ps[i];
      if BranchElement(pl.branch) == r {
        assert Rooted(ps[i], r);
        dedi := true;
        break;
      }
      dedi := HasHiddenOf(HiddenStems(pl.branch), r);
      if dedi {
        assert Rooted(ps[i], r);
        break;
      }
      i := i + 1;
    }

    var deshi := CountSupport(Others(c), r);
    var value := 50;
    if deling {
      value := value + 20;
    }
    if dedi {
      value := value + 15;
    }
    value := value + deshi * 5;
    var band := Band(value);
    w := Wangshuai(value, band.0, band.1, deling, dedi, deshi);
  }

  /** The inner loop of the 得地 scan: does a hidden stem carry element r? */
  method HasHiddenOf(hs: seq<Stem>, r: Element) returns (found: bool)
    ensures found <==> exists j :: 0 <= j < |hs| && StemElement(hs[j]) == r
  {
    found := false;
    var j := 0;
    while j < |hs|
      invariant 0 <= j <= |hs|
      invariant forall m :: 0 <= m < j ==> StemElement(hs[m]) != r
    {
      if StemElement(hs[j]) == r {
        found := true;
        break;
      }
      j := j + 1;
    }
  }

  /** The 得势 count over the given pillars. */
  method CountSupport(ps: seq<Pillar>, r: Element) returns (deshi: nat)
    ensures deshi == SupportSum(ps, r)
  {
    deshi := 0;
    for k := 0 to |ps|
      invariant deshi == SupportSum(ps[..k], r)
    {
      assert ps[..k + 1][..k] == ps[..k];
      if StemElement(ps[k].stem) == r {
        deshi := deshi + 1;
      }
      if BranchElement(ps[k].branch) == r {
        deshi := deshi + 1;
      }
    }
    assert ps[..|ps|] == ps;
  }

  /** 得令 implies 得地: the month pillar itself roots the day master. */
  lemma DelingImpliesDedi(c: Chart)
    requires Deling(c)
    ensures Dedi(c)
  {
    assert Rooted(c.Pillars()[1], StemElement(c.DayMaster()));
  }

  lemma SupportSumBound(ps: seq<Pillar>, r: Element)
    ensures SupportSum(ps, r) <= 2 * |ps|
  {
    if |ps| > 0 {
      SupportSumBound(ps[..|ps| - 1], r);
    }
  }

  /**
   * The score lies in 50 ..= 115 (not 0 ..= 100 as its comment says), so the
   * status is never 身弱 and never below the special-pattern threshold 30.
   */
  lemma StrengthRange(c: Chart)
    ensures StrengthOf(c).deshi <= 6
    ensures 50 <= StrengthOf(c).value <= 115
    ensures StrengthOf(c).status != Weak
    ensures StrengthOf(c).level !in {FairlyWeak, VeryWeak}
  {
    SupportSumBound(Others(c), StemElement(c.DayMaster()));
  }

  // ---------------------------------------------------------------------------
  // _judge_yongshen: element roles
  // ---------------------------------------------------------------------------

  /** The keys of WUXING_SHENG and WUXING_KE in their declared order. */
  const ShengKeys: seq<Element> := [Wood, Fire, Earth, Metal, Water]
  const KeKeys: seq<Element> := [Wood, Earth, Water, Fire, Metal]

  /** `[k for k in keys if f(k) == x]` for f = Sheng or Ke. */
  function PreimagesUnder(keys: seq<Element>, useKe: bool, x: Element): seq<Element> {
    if |keys| == 0 then []
    else (if (if useKe then Ke(keys[0]) else Sheng(keys[0])) == x then [keys[0]] else [])
         + PreimagesUnder(keys[1..], useKe, x)
  }

  /** 用神, 喜神, 忌神 and 仇神. */
  datatype Favour = Favour(yongshen: seq<Element>, xishen: seq<Element>, jishen: seq<Element>, choushen: seq<Element>)

  /**
   * `list(set(xs))` on the lists the source passes it, which repeat a single
   * element: the order of a larger set would be unspecified.
   */
  function Dedup(xs: seq<Element>): (r: seq<Element>)
    ensures forall x :: x in r <==> x in xs
    ensures forall i, j :: 0 <= i < j < |r| ==> r[i] != r[j]
  {
    if |xs| == 0 then []
    else if xs[0] in xs[1..] then Dedup(xs[1..])
    else [xs[0]] + Dedup(xs[1..])
  }

  /** The preimage lists the source builds each hold exactly one element. */
  lemma PreimagesAreSingletons(r: Element)
    ensures PreimagesUnder(ShengKeys, false, r) == [Gen(r)]
    ensures PreimagesUnder(KeKeys, true, Ke(r)) == [r]
    ensures PreimagesUnder(ShengKeys, false, Sheng(r)) == [r]
  {
    ShengPreimage(r);
    ShengPreimage(Sheng(r));
    KePreimage(r);
  }

  lemma ShengPreimage(x: Element)
    ensures PreimagesUnder(ShengKeys, false, x) == [Gen(x)]
  {
    match x
    case Metal =>
    case Wood =>
    case Water =>
    case Fire =>
    case Earth =>
  }

  lemma KePreimage(x: Element)
    ensures PreimagesUnder(KeKeys, true, Ke(x)) == [x]
  {
    match x
    case Metal =>
    case Wood =>
    case Water =>
    case Fire =>
    case Earth =>
  }

  /** 身旺: yongshen is the element r controls, choushen the generators of r. */
  function StrongFavour(r: Element): (f: Favour)
    ensures f == Favour([Ke(r)], [Sheng(r)], [r], [Gen(r)])
  {
    PreimagesAreSingletons(r);
    Favour([Ke(r)], [Sheng(r)], [r], PreimagesUnder(ShengKeys, false, r))
  }

  /** 身弱: choushen gathers the generators of both jishen elements. */
  function WeakFavour(r: Element): (f: Favour)
    ensures f == Favour([Gen(r), r], [Gen(r)], [Ke(r), Sheng(r)], [r])
  {
    PreimagesAreSingletons(r);
    var shengWo := PreimagesUnder(ShengKeys, false, r)[0];
    var choushen := Dedup(PreimagesUnder(KeKeys, true, Ke(r)) + PreimagesUnder(ShengKeys, false, Sheng(r)));
    DedupRepeated(r);
    Favour([shengWo, r], [shengWo], [Ke(r), Sheng(r)], choushen)
  }

  lemma DedupRepeated(r: Element)
    ensures Dedup([r] + [r]) == [r]
  {
    var xs := [r] + [r];
    assert xs[0] == r && xs[1..] == [r];
    assert [r][1..] == [];
    assert Dedup([r]) == [r] + Dedup([]);
    assert Dedup(xs) == Dedup([r]);
  }

  /**
   * The roles for day-master element r. 身旺 takes the element r controls as
   * yongshen and the element generating r as choushen; 身弱's choushen, built
   * from the preimages of both jishen elements, collapses to r itself.
   */
  function JudgeYongshen(status: Status, r: Element): (f: Favour)
    ensures status == Balanced ==> f == Favour([], [], [], [])
    ensures status == Strong ==> f == Favour([Ke(r)], [Sheng(r)], [r], [Gen(r)])
    ensures status == Weak ==> f == Favour([Gen(r), r], [Gen(r)], [Ke(r), Sheng(r)], [r])
  {
    match status
    case Strong => StrongFavour(r)
    case Weak => WeakFavour(r)
    case Balanced => Favour([], [], [], [])
  }

  /**
   * For a strong day master the four roles are four different elements, and
   * the fifth, the one that controls r (its 官杀), has no role at all.
   */
  lemma StrongRolesDistinct(r: Element)
    ensures var f := JudgeYongshen(Strong, r);
      f.yongshen + f.xishen + f.jishen + f.choushen == [Ke(r), Sheng(r), r, Gen(r)]
    ensures Ke(r) != Sheng(r) && Ke(r) != r && Ke(r) != Gen(r)
    ensures Sheng(r) != r && Sheng(r) != Gen(r) && r != Gen(r)
    ensures forall x :: Ke(x) == r ==> x != Ke(r) && x != Sheng(r) && x != r && x != Gen(r)
  {
    var f := JudgeYongshen(Strong, r);
    assert f == Favour([Ke(r)], [Sheng(r)], [r], [Gen(r)]);
    FourRoleElements(r);
    forall x | Ke(x) == r
      ensures x != Ke(r) && x != Sheng(r) && x != r && x != Gen(r)
    {
      ControllerHasNoRole(x);
    }
  }

  /** r, what it generates, what it controls and what generates it are four different elements. */
  lemma FourRoleElements(r: Element)
    ensures Ke(r) != Sheng(r) && Ke(r) != r && Ke(r) != Gen(r)
    ensures Sheng(r) != r && Sheng(r) != Gen(r) && r != Gen(r)
  {
    match r
    case Metal =>
    case Wood =>
    case Water =>
    case Fire =>
    case Earth =>
  }

  lemma ControllerHasNoRole(x: Element)
    ensures x != Ke(Ke(x)) && x != Sheng(Ke(x)) && x != Ke(x) && x != Gen(Ke(x))
  {
  }

  /** For a weak day master its own element is both a yongshen and the choushen. */
  lemma WeakRolesOverlap(r: Element)
    ensures var f := JudgeYongshen(Weak, r); r in f.yongshen && f.choushen == [r]
  {
  }

  // ---------------------------------------------------------------------------
  // The whole of analyze_wuxing
  // ---------------------------------------------------------------------------

  datatype WuxingAnalysis = WuxingAnalysis(
    distribution: Counter<Element>,
    positions: Positions,
    most: Option<Element>,
    least: Option<Element>,
    missing: seq<Element>,
    strength: Wangshuai,
    favour: Favour)

  method AnalyzeWuxing(c: Chart) returns (a: WuxingAnalysis)
    ensures a.distribution == FTallyOf(ChartItems(c))
    ensures forall e :: Get(a.distribution, e) == FWeightOf(ChartItems(c), e)
    ensures forall e :: Get(a.distribution, e) - WeightOf(ChartItems(c), e) <= 320
                     && WeightOf(ChartItems(c), e) - Get(a.distribution, e) <= 320
    ensures PositionsMatch(a.positions, ChartItems(c))
    ensures a.most.Some? && a.least.Some?
    ensures a.most == Most(a.distribution) && a.least == Least(a.distribution)
    ensures forall e :: e in a.missing <==> WeightOf(ChartItems(c), e) <= HiddenWeight
    ensures forall i, j :: 0 <= i < j < |a.missing| ==> Rank(a.missing[i]) < Rank(a.missing[j])
    ensures a.strength == StrengthOf(c) && a.strength.status != Weak
    ensures a.favour == JudgeYongshen(a.strength.status, StemElement(c.DayMaster()))
  {
    var counter, positions := ScanElements(c);
    NonEmptyTally(c);
    forall e ensures e in Missing(counter) <==> WeightOf(ChartItems(c), e) <= HiddenWeight {
      MissingIffAtMostOneHidden(c, e);
    }
    forall e ensures Get(counter, e) - WeightOf(ChartItems(c), e) <= 320
                  && WeightOf(ChartItems(c), e) - Get(counter, e) <= 320 {
      ChartTallyNear(c, e);
    }
    var strength := JudgeWangshuai(c);
    StrengthRange(c);
    a := WuxingAnalysis(counter, positions, Most(counter), Least(counter), Missing(counter),
                        strength, JudgeYongshen(strength.status, StemElement(c.DayMaster())));
  }

  /** A chart's tally is never empty. */
  lemma NonEmptyTally(c: Chart)
    ensures |FTallyOf(ChartItems(c))| > 0
  {
    var items := ChartItems(c);
    ChartTotalBounds(c);
    assert Mentions(items, items[|items| - 1].key);
    assert HasKey(FTallyOf(items), items[|items| - 1].key);
  }

  // ---------------------------------------------------------------------------
  // analyze_health
  // ---------------------------------------------------------------------------

  datatype Organ = Kidney | Liver

  /** 水 missing puts the kidneys (肾脏) at risk, then 木 missing the liver (肝胆). */
  function HealthRisks(missing: seq<Element>): (risks: seq<Organ>)
    ensures Kidney in risks <==> Water in missing
    ensures Liver in risks <==> Wood in missing
    ensures |risks| <= 2 && (|risks| == 2 ==> risks == [Kidney, Liver])
  {
    (if Water in missing then [Kidney] else []) + (if Wood in missing then [Liver] else [])
  }
}
