/**
 * The ten gods (十神): how each stem of a chart relates to the day master,
 * their weighted distribution, the two flagged combinations, the pattern
 * (格局) read from the month stem, and the wealth, marriage and career
 * readings derived from the distribution.
 *
 * Distribution weights are kept in halves: a stem counts 2, a branch's main
 * hidden stem 1.
 */
module Shishen {
  import opened Wrappers
  import opened Ganzhi
  import opened Tally
  import opened Wuxing

  /**
   * 比肩 劫财 食神 伤官 七杀 正官 偏财 正财 偏印 正印, and 未知 for an element
   * in none of the five relations.
   */
  datatype TenGod =
    | BiJian | JieCai | ShiShen | ShangGuan | QiSha | ZhengGuan
    | PianCai | ZhengCai | PianYin | ZhengYin | Unknown

  /** The first label of each pair is the one taken at equal polarity. */
  predicate IsSamePolarityGod(g: TenGod) {
    g in {BiJian, ShiShen, QiSha, PianCai, PianYin}
  }

  /**
   * `_get_shishen`: the ten god of a stem with element wx against day master
   * dm. The relations are tried in the source's order: same element, the one
   * dm generates, the one dm controls (labelled 七杀/正官 as the source does),
   * one that controls dm (labelled 偏财/正财), one that generates dm.
   */
  function GetShishen(dm: Stem, stem: Stem, wx: Element): (g: TenGod)
    ensures g != Unknown
    ensures g in {BiJian, JieCai} <==> wx == StemElement(dm)
    ensures g in {ShiShen, ShangGuan} <==> wx == Sheng(StemElement(dm))
    ensures g in {QiSha, ZhengGuan} <==> wx == Ke(StemElement(dm))
    ensures g in {PianCai, ZhengCai} <==> Ke(wx) == StemElement(dm)
    ensures g in {PianYin, ZhengYin} <==> Sheng(wx) == StemElement(dm)
    ensures IsSamePolarityGod(g) <==> StemPolarity(stem) == StemPolarity(dm)
  {
    var r := StemElement(dm);
    var same := StemPolarity(stem) == StemPolarity(dm);
    ExactlyOneRelation(r, wx);
    if wx == r then (if same then BiJian else JieCai)
    else if wx == Sheng(r) then (if same then ShiShen else ShangGuan)
    else if wx == Ke(r) then (if same then QiSha else ZhengGuan)
    else if Ke(wx) == r then (if same then PianCai else ZhengCai)
    else if Sheng(wx) == r then (if same then PianYin else ZhengYin)
    else Unknown
  }

  /** The ten god of a stem, read with the stem's own element, as every caller does. */
  function GodOf(dm: Stem, s: Stem): TenGod {
    GetShishen(dm, s, StemElement(s))
  }

  /** The day master is its own 比肩. */
  lemma DayMasterIsBiJian(dm: Stem)
    ensures GodOf(dm, dm) == BiJian
  {
  }

  // ---------------------------------------------------------------------------
  // analyze_shishen: the distribution
  // ---------------------------------------------------------------------------

  /** Pillar p adds its stem (weight 1) and its branch's main hidden stem (weight 0.5). */
  function PillarGods(dm: Stem, p: nat, pl: Pillar): seq<Item<TenGod>> {
    [Item(GodOf(dm, pl.stem), 2, StemAt(p, pl.stem)),
     Item(GodOf(dm, HiddenStems(pl.branch)[0]), 1, BranchAt(p, pl.branch))]
  }

  function GodItems(dm: Stem, ps: seq<Pillar>): seq<Item<TenGod>> {
    if |ps| == 0 then []
    else GodItems(dm, ps[..|ps| - 1]) + PillarGods(dm, |ps| - 1, ps[|ps| - 1])
  }

  function ChartGods(c: Chart): seq<Item<TenGod>> {
    GodItems(c.DayMaster(), c.Pillars())
  }

  /** Ten-god positions, keyed only by the gods that occur. */
  type GodPositions = map<TenGod, seq<Label>>

  predicate GodPositionsMatch(positions: GodPositions, scanned: seq<Item<TenGod>>) {
    forall g: TenGod :: (g in positions <==> Mentions(scanned, g))
                        && (g in positions ==> positions[g] == PositionsOf(scanned, g))
  }

  lemma MentionsSnoc(items: seq<Item<TenGod>>, x: Item<TenGod>, g: TenGod)
    ensures Mentions(items + [x], g) <==> Mentions(items, g) || x.key == g
  {
    assert (items + [x])[..|items|] == items;
  }

  /** Counts one ten god, opening its position list on first sight. */
  method RecordGod(counter: Counter<TenGod>, positions: GodPositions, ghost scanned: seq<Item<TenGod>>, it: Item<TenGod>)
    returns (counter': Counter<TenGod>, positions': GodPositions)
    requires counter == TallyOf(scanned)
    requires GodPositionsMatch(positions, scanned)
    ensures counter' == TallyOf(scanned + [it])
    ensures GodPositionsMatch(positions', scanned + [it])
  {
    TallyOfSnoc(scanned, it);
    forall g ensures Mentions(scanned + [it], g) <==> Mentions(scanned, g) || it.key == g {
      MentionsSnoc(scanned, it, g);
    }
    if it.key !in positions {
      PositionsOfUnmentioned(scanned, it.key);
    }
    counter' := Bump(counter, it.key, it.weight);
    var list := if it.key in positions then positions[it.key] else [];
    positions' := positions[it.key := list + [it.at]];
  }

  method ScanGods(c: Chart) returns (counter: Counter<TenGod>, positions: GodPositions)
    ensures counter == TallyOf(ChartGods(c))
    ensures GodPositionsMatch(positions, ChartGods(c))
  {
    var ps := c.Pillars();
    var dm := c.DayMaster();
    counter := [];
    positions := map[];
    ghost var scanned: seq<Item<TenGod>> := [];
    for i := 0 to 4
      invariant scanned == GodItems(dm, ps[..i])
      invariant counter == TallyOf(scanned)
      invariant GodPositionsMatch(positions, scanned)
    {
      assert GodItems(dm, ps[..i + 1]) == GodItems(dm, ps[..i]) + PillarGods(dm, i, ps[i]) by {
        assert ps[..i + 1][..i] == ps[..i];
      }
      counter, positions := ScanPillarGods(counter, positions, scanned, dm, i, ps[i]);
      scanned := scanned + PillarGods(dm, i, ps[i]);
    }
    assert ps[..4] == ps;
  }

  /** One pillar of the scan: its stem, then its branch's main hidden stem. */
  method ScanPillarGods(counter: Counter<TenGod>, positions: GodPositions, ghost scanned: seq<Item<TenGod>>,
                        dm: Stem, i: nat, pl: Pillar)
    returns (counter': Counter<TenGod>, positions': GodPositions)
    requires counter == TallyOf(scanned)
    requires GodPositionsMatch(positions, scanned)
    ensures counter' == TallyOf(scanned + PillarGods(dm, i, pl))
    ensures GodPositionsMatch(positions', scanned + PillarGods(dm, i, pl))
  {
    var stemItem := Item(GodOf(dm, pl.stem), 2, StemAt(i, pl.stem));
    counter', positions' := RecordGod(counter, positions, scanned, stemItem);
    var hs := HiddenStems(pl.branch);
    var mainItem := Item(GodOf(dm, hs[0]), 1, BranchAt(i, pl.branch));
    counter', positions' := RecordGod(counter', positions', scanned + [stemItem], mainItem);
    assert scanned + [stemItem] + [mainItem] == scanned + PillarGods(dm, i, pl);
  }

  lemma {:induction false} GodItemsTotal(dm: Stem, ps: seq<Pillar>)
    ensures TotalWeight(GodItems(dm, ps)) == 3 * |ps|
  {
    if |ps| > 0 {
      GodItemsTotal(dm, ps[..|ps| - 1]);
      var pg := PillarGods(dm, |ps| - 1, ps[|ps| - 1]);
      assert TotalWeight(pg) == 3 by {
        assert pg[..|pg| - 1] == [pg[0]];
        assert TotalWeight([pg[0]]) == 2 by { assert [pg[0]][..0] == []; }
      }
      TotalWeightAppend(GodItems(dm, ps[..|ps| - 1]), pg);
    }
  }

  /** The distribution always sums to 6 (12 halves), and the day stem alone gives 比肩 a full unit. */
  lemma DistributionTotal(c: Chart)
    ensures Total(TallyOf(ChartGods(c))) == 12
    ensures Get(TallyOf(ChartGods(c)), BiJian) >= 2
  {
    GodItemsTotal(c.DayMaster(), c.Pillars());
    var ps := c.Pillars();
    var dm := c.DayMaster();
    assert ps[..4][..3] == ps[..3];
    assert ps[..3][..2] == ps[..2];
    assert ps[..2][..1] == ps[..1];
    assert ps[..1][..0] == [];
    assert ps[..4] == ps;
    var a := GodItems(dm, ps[..2]);
    var b := PillarGods(dm, 2, ps[2]);
    var d := PillarGods(dm, 3, ps[3]);
    assert ChartGods(c) == a + b + d;
    WeightOfAppend(a + b, d, BiJian);
    WeightOfAppend(a, b, BiJian);
    GodItemsPositive(dm, ps[..2]);
    WeightNonNegative(a, BiJian);
    WeightNonNegative(d, BiJian);
    assert b[0].key == BiJian;
    assert WeightOf(b, BiJian) >= 2 by {
      assert b[..|b| - 1] == [b[0]];
      assert WeightOf([b[0]], BiJian) == 2 by { assert [b[0]][..0] == []; }
    }
  }

  lemma {:induction false} GodItemsPositive(dm: Stem, ps: seq<Pillar>)
    ensures PositiveWeights(GodItems(dm, ps))
  {
    if |ps| > 0 {
      GodItemsPositive(dm, ps[..|ps| - 1]);
      PositiveWeightsAppend(GodItems(dm, ps[..|ps| - 1]), PillarGods(dm, |ps| - 1, ps[|ps| - 1]));
    }
  }

  /** 官杀混杂 (inauspicious) and 食伤泄秀 (auspicious). */
  datatype Combination = GuanShaHunZa | ShiShangXieXiu

  /** `_analyze_shishen_combinations`: each flag needs both of its gods present, in this order. */
  function Combinations(dist: Counter<TenGod>): (r: seq<Combination>)
    ensures GuanShaHunZa in r <==> Get(dist, ZhengGuan) > 0 && Get(dist, QiSha) > 0
    ensures ShiShangXieXiu in r <==> Get(dist, ShiShen) > 0 && Get(dist, ShangGuan) > 0
    ensures |r| <= 2 && (|r| == 2 ==> r == [GuanShaHunZa, ShiShangXieXiu])
  {
    (if Get(dist, ZhengGuan) > 0 && Get(dist, QiSha) > 0 then [GuanShaHunZa] else [])
    + (if Get(dist, ShiShen) > 0 && Get(dist, ShangGuan) > 0 then [ShiShangXieXiu] else [])
  }

  datatype ShishenAnalysis = ShishenAnalysis(
    distribution: Counter<TenGod>,
    positions: GodPositions,
    combinations: seq<Combination>)

  method AnalyzeShishen(c: Chart) returns (a: ShishenAnalysis)
    ensures forall g :: Get(a.distribution, g) == WeightOf(ChartGods(c), g)
    ensures Total(a.distribution) == 12
    ensures !HasKey(a.distribution, Unknown)
    ensures GodPositionsMatch(a.positions, ChartGods(c))
    ensures a.combinations == Combinations(a.distribution)
  {
    var counter, positions := ScanGods(c);
    DistributionTotal(c);
    NoUnknownGod(c.DayMaster(), c.Pillars());
    a := ShishenAnalysis(counter, positions, Combinations(counter));
  }

  lemma {:induction false} NoUnknownGod(dm: Stem, ps: seq<Pillar>)
    ensures !Mentions(GodItems(dm, ps), Unknown)
  {
    if |ps| > 0 {
      NoUnknownGod(dm, ps[..|ps| - 1]);
      var pg := PillarGods(dm, |ps| - 1, ps[|ps| - 1]);
      var items := GodItems(dm, ps[..|ps| - 1]) + pg;
      MentionsSnoc(GodItems(dm, ps[..|ps| - 1]) + [pg[0]], pg[1], Unknown);
      MentionsSnoc(GodItems(dm, ps[..|ps| - 1]), pg[0], Unknown);
      assert items == GodItems(dm, ps[..|ps| - 1]) + [pg[0]] + [pg[1]];
    }
  }

  // ---------------------------------------------------------------------------
  // analyze_geju: the pattern
  // ---------------------------------------------------------------------------

  datatype GejuType =
    | ZhengGuanGe | QiShaGe | ZhengCaiGe | PianCaiGe | ZhengYinGe | PianYinGe
    | ShiShenGe | ShangGuanGe | Ordinary      // 普通格局
    | CongGeGe | QuZhiGe                      // 从革格, 曲直格
  datatype GejuCategory = Regular | Dominant   // 正格, 专旺格
  datatype GejuLevel = High | MidHigh | Medium // 高, 中高, 中等

  datatype Geju = Geju(kind: GejuType, category: GejuCategory, level: GejuLevel)

  /** `geju_map.get(god, "普通格局")`. */
  function GejuOfGod(g: TenGod): (t: GejuType)
    ensures t == Ordinary <==> g in {BiJian, JieCai, Unknown}
  {
    match g
    case ZhengGuan => ZhengGuanGe
    case QiSha => QiShaGe
    case ZhengCai => ZhengCaiGe
    case PianCai => PianCaiGe
    case ZhengYin => ZhengYinGe
    case PianYin => PianYinGe
    case ShiShen => ShiShenGe
    case ShangGuan => ShangGuanGe
    case _ => Ordinary
  }

  /** `_judge_normal_geju`: the pattern named after the month stem's ten god. */
  function NormalGeju(c: Chart): (g: Geju)
    ensures g.category == Regular && g.level == Medium
    ensures var me, r := StemElement(c.month.stem), StemElement(c.DayMaster());
      var same := StemPolarity(c.month.stem) == StemPolarity(c.DayMaster());
      && (g.kind == Ordinary <==> me == r)
      && (g.kind == ShiShenGe <==> me == Sheng(r) && same)
      && (g.kind == ShangGuanGe <==> me == Sheng(r) && !same)
      && (g.kind == QiShaGe <==> me == Ke(r) && same)
      && (g.kind == ZhengGuanGe <==> me == Ke(r) && !same)
      && (g.kind == PianCaiGe <==> Ke(me) == r && same)
      && (g.kind == ZhengCaiGe <==> Ke(me) == r && !same)
      && (g.kind == PianYinGe <==> Sheng(me) == r && same)
      && (g.kind == ZhengYinGe <==> Sheng(me) == r && !same)
  {
    Geju(GejuOfGod(GodOf(c.DayMaster(), c.month.stem)), Regular, Medium)
  }

  /**
   * `_judge_special_geju`: only a score below 30 with one element above 70%
   * of the tally, and then only for 金 or 木.
   */
  function SpecialGeju(c: Chart): Option<Geju> {
    var strength := StrengthOf(c);
    if strength.value < 30 then
      var dist := FTallyOf(ChartItems(c));
      var most := Most(dist);
      if most.Some? && 10 * Get(dist, most.value) > 7 * Total(dist) then
        if most.value == Metal then Some(Geju(CongGeGe, Dominant, MidHigh))
        else if most.value == Wood then Some(Geju(QuZhiGe, Dominant, High))
        else None
      else None
    else None
  }

  /** The special-pattern branch is dead: the strength score never drops below 50. */
  lemma NoSpecialGeju(c: Chart)
    ensures SpecialGeju(c) == None
  {
    StrengthRange(c);
  }

  function AnalyzeGeju(c: Chart): (g: Geju)
    ensures g == NormalGeju(c)
  {
    match SpecialGeju(c)
    case Some(g) => NoSpecialGeju(c); assert false; g
    case None => NormalGeju(c)
  }

  // ---------------------------------------------------------------------------
  // analyze_wealth, analyze_marriage, analyze_career
  // ---------------------------------------------------------------------------

  datatype Prospect = Average | AboveAverage | Good   // 中等, 中等偏上, 较好
  datatype WealthSource = Salary | OtherSource        // 正财(工资), 其他

  /** 正财 present gives 中等偏上, else 偏财 present gives 较好, else 中等. */
  function WealthOf(dist: Counter<TenGod>): (w: (Prospect, WealthSource))
    ensures w.0 == AboveAverage <==> Get(dist, ZhengCai) > 0
    ensures w.0 == Good <==> Get(dist, ZhengCai) <= 0 && Get(dist, PianCai) > 0
    ensures w.1 == Salary <==> w.0 == AboveAverage
  {
    var level := if Get(dist, ZhengCai) > 0 then AboveAverage
                 else if Get(dist, PianCai) > 0 then Good
                 else Average;
    (level, if Get(dist, ZhengCai) > 0 then Salary else OtherSource)
  }

  /** 正财 present gives 中等偏上, otherwise 中等. */
  function MarriageOf(dist: Counter<TenGod>): (m: Prospect)
    ensures m != Good
    ensures m == AboveAverage <==> Get(dist, ZhengCai) > 0
  {
    if Get(dist, ZhengCai) > 0 then AboveAverage else Average
  }

  /** Career fields the source appends after the pattern's own list. */
  const Government := "政府机关/公职"
  const Enforcement := "军警/执法"
  const Finance := "金融/会计"
  const Teaching := "教师/培训"

  /** The order in which the earned fields are considered. */
  const CareerOrder: seq<string> := [Government, Enforcement, Finance, Teaching]

  /** The field lists added for each ten god, with the condition that adds them. */
  predicate Earns(dist: Counter<TenGod>, field: string) {
    (field == Government && Get(dist, ZhengGuan) > 0)
    || (field == Enforcement && Get(dist, QiSha) > 0)
    || (field == Finance && Get(dist, ZhengCai) > 0)
    || (field == Teaching && (Get(dist, ShiShen) > 0 || Get(dist, ShangGuan) > 0))
  }

  /** The fields of `order`, in that order, that are earned and not in base. */
  function ExtraFields(dist: Counter<TenGod>, base: seq<string>, order: seq<string>): (extra: seq<string>)
    ensures |extra| <= |order|
    ensures forall x :: x in extra <==> x in order && Earns(dist, x) && x !in base
  {
    if |order| == 0 then []
    else
      var last := order[|order| - 1];
      ExtraFields(dist, base, order[..|order| - 1])
      + (if Earns(dist, last) && last !in base then [last] else [])
  }

  /** Drawn from a list without repeats, the extra fields have none either. */
  lemma {:induction false} ExtraFieldsDistinct(dist: Counter<TenGod>, base: seq<string>, order: seq<string>)
    requires forall i, j :: 0 <= i < j < |order| ==> order[i] != order[j]
    ensures var extra := ExtraFields(dist, base, order);
      forall i, j :: 0 <= i < j < |extra| ==> extra[i] != extra[j]
  {
    if |order| > 0 {
      var init := order[..|order| - 1];
      assert forall i :: 0 <= i < |init| ==> init[i] == order[i];
      ExtraFieldsDistinct(dist, base, init);
      assert order[|order| - 1] !in init;
      assert order[|order| - 1] !in ExtraFields(dist, base, init);
    }
  }

  /** The four fields are distinct, and each is earned by its own ten gods. */
  lemma CareerOrderFacts(dist: Counter<TenGod>)
    ensures |CareerOrder| == 4
    ensures forall i, j :: 0 <= i < j < 4 ==> CareerOrder[i] != CareerOrder[j]
    ensures Earns(dist, CareerOrder[0]) <==> Get(dist, ZhengGuan) > 0
    ensures Earns(dist, CareerOrder[1]) <==> Get(dist, QiSha) > 0
    ensures Earns(dist, CareerOrder[2]) <==> Get(dist, ZhengCai) > 0
    ensures Earns(dist, CareerOrder[3]) <==> Get(dist, ShiShen) > 0 || Get(dist, ShangGuan) > 0
  {
    assert Government[0] != Enforcement[0] && Government[0] != Finance[0] && Government[0] != Teaching[0];
    assert Enforcement[0] != Finance[0] && Enforcement[0] != Teaching[0] && Finance[0] != Teaching[0];
  }

  /** One AddField step extends the extra fields by the next field of CareerOrder. */
  lemma CareerStep(dist: Counter<TenGod>, base: seq<string>, fields: seq<string>, k: nat, earned: bool, fields': seq<string>)
    requires k < 4
    requires earned <==> Earns(dist, CareerOrder[k])
    requires forall i, j :: 0 <= i < j < 4 ==> CareerOrder[i] != CareerOrder[j]
    requires fields == base + ExtraFields(dist, base, CareerOrder[..k])
    requires fields' == if earned && CareerOrder[k] !in fields then fields + [CareerOrder[k]] else fields
    ensures fields' == base + ExtraFields(dist, base, CareerOrder[..k + 1])
    ensures k == 3 ==> fields' == base + ExtraFields(dist, base, CareerOrder)
  {
    assert CareerOrder[..4] == CareerOrder;
    assert CareerOrder[..k + 1][..k] == CareerOrder[..k];
    assert CareerOrder[k] !in CareerOrder[..k];
    assert CareerOrder[k] in fields <==> CareerOrder[k] in base;
  }

  /** What the appended list amounts to: base, then the earned fields it lacks, each once. */
  lemma CareerFieldsFacts(dist: Counter<TenGod>, base: seq<string>)
    ensures var fields := base + ExtraFields(dist, base, CareerOrder);
      && |base| <= |fields| <= |base| + 4
      && fields[..|base|] == base
      && (forall x :: x in fields <==> x in base || Earns(dist, x))
      && (forall i :: |base| <= i < |fields| ==> fields[i] !in base)
      && (forall i, j :: |base| <= i < j < |fields| ==> fields[i] != fields[j])
  {
    CareerOrderFacts(dist);
    ExtraFieldsDistinct(dist, base, CareerOrder);
    var extra := ExtraFields(dist, base, CareerOrder);
    var fields := base + extra;
    forall x | Earns(dist, x) ensures x in CareerOrder {
      assert x == CareerOrder[0] || x == CareerOrder[1] || x == CareerOrder[2] || x == CareerOrder[3];
    }
    forall i | |base| <= i < |fields| ensures fields[i] !in base {
      assert fields[i] == extra[i - |base|];
    }
    forall i, j | |base| <= i < j < |fields| ensures fields[i] != fields[j] {
      assert fields[i] == extra[i - |base|] && fields[j] == extra[j - |base|];
    }
  }

  /**
   * `analyze_career`: start from the pattern's suitable list in the
   * geju_career table (a parameter here) and append, in the order 政府机关,
   * 军警/执法, 金融/会计, 教师/培训, each earned field that is not listed yet.
   */
  method AnalyzeCareer(careerTable: map<GejuType, seq<string>>, geju: GejuType, dist: Counter<TenGod>)
    returns (fields: seq<string>)
    ensures var base := if geju in careerTable then careerTable[geju] else [];
      fields == base + ExtraFields(dist, base, CareerOrder)
    ensures var base := if geju in careerTable then careerTable[geju] else [];
      && |base| <= |fields| <= |base| + 4
      && fields[..|base|] == base
      && (forall x :: x in fields <==> x in base || Earns(dist, x))
      && (forall i :: |base| <= i < |fields| ==> fields[i] !in base)
      && (forall i, j :: |base| <= i < j < |fields| ==> fields[i] != fields[j])
  {
    var base := if geju in careerTable then careerTable[geju] else [];
    fields := AppendEarned(base, dist);
    CareerFieldsFacts(dist, base);
  }

  /** The four checks of analyze_career, in source order, on top of base. */
  method AppendEarned(base: seq<string>, dist: Counter<TenGod>) returns (fields: seq<string>)
    ensures fields == base + ExtraFields(dist, base, CareerOrder)
  {
    fields := base;
    assert fields == base + ExtraFields(dist, base, CareerOrder[..0]);
    fields := AddField(fields, base, dist, 0);  // 正官 → 政府机关/公职
    fields := AddField(fields, base, dist, 1);  // 七杀 → 军警/执法
    fields := AddField(fields, base, dist, 2);  // 正财 → 金融/会计
    fields := AddField(fields, base, dist, 3);  // 食神 or 伤官 → 教师/培训
  }

  /** Appends the k-th field of CareerOrder when it is earned and not listed yet. */
  method AddField(fields: seq<string>, base: seq<string>, dist: Counter<TenGod>, k: nat) returns (fields': seq<string>)
    requires k < 4
    requires fields == base + ExtraFields(dist, base, CareerOrder[..k])
    ensures forall x :: x in fields' <==> x in fields || (Earns(dist, CareerOrder[k]) && x == CareerOrder[k])
    ensures fields' == base + ExtraFields(dist, base, CareerOrder[..k + 1])
    ensures k == 3 ==> fields' == base + ExtraFields(dist, base, CareerOrder)
  {
    var field := CareerOrder[k];
    fields' := fields;
    if Earns(dist, field) && field !in fields {
      fields' := fields + [field];
    }
    CareerOrderFacts(dist);
    CareerStep(dist, base, fields, k, Earns(dist, field), fields');
  }

}
