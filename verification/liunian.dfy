/**
 * Annual cycles (流年): the five-tier reading of how a year's element bears
 * on a reference element, its inversion for the unfavourable element, the
 * six-clash (六冲) scan of the chart's branches, the weighted verdict, and
 * the ten-year run of readings from the birth year.
 *
 * A year's pillar comes from the calendar library; it is an input here.
 * Scores are kept in tenths: 0.6·y + 0.4·j is 6·y + 4·j.
 */
module Liunian {
  import opened Wrappers
  import opened Ganzhi
  import opened Wuxing

  // ---------------------------------------------------------------------------
  // analyze_liunian_yongshen
  // ---------------------------------------------------------------------------

  /** 流年生, 流年克, 流年助, 流年泄, 无特殊关系; the last two for the inverted reading. */
  datatype Relation = Generates | Controls | Helps | Drains | NoRelation | GeneratesJishen | ControlsJishen

  /** 大吉, 大凶, 吉, 小凶, 平, 凶. */
  datatype Jixi = DaJi | DaXiong | Ji | XiaoXiong | Ping | Xiong

  /** One reading: the relation, its fortune label and its degree (1 worst .. 5 best). */
  datatype Reading = Reading(relation: Relation, jixi: Jixi, degree: int)

  /** The reading used when there is no reference element. */
  const Neutral := Reading(NoRelation, Ping, 3)

  /**
   * How the year's element y bears on the reference element ref, tried in the
   * source's order: y generates ref, y controls ref, same element, ref
   * generates y, anything else.
   */
  function RelationReading(y: Element, ref: Element): (r: Reading)
    ensures r == Reading(Generates, DaJi, 5) <==> Sheng(y) == ref
    ensures r == Reading(Controls, DaXiong, 1) <==> Ke(y) == ref
    ensures r == Reading(Helps, Ji, 4) <==> y == ref
    ensures r == Reading(Drains, XiaoXiong, 2) <==> Sheng(ref) == y
    ensures r == Reading(NoRelation, Ping, 3) <==> Ke(ref) == y
    ensures r.degree == 5 <==> Sheng(y) == ref
    ensures r.degree == 1 <==> Ke(y) == ref
    ensures r.degree == 4 <==> y == ref
    ensures r.degree == 2 <==> Sheng(ref) == y
    ensures r.degree == 3 <==> Ke(ref) == y
  {
    ExactlyOneRelation(ref, y);
    if Sheng(y) == ref then Reading(Generates, DaJi, 5)
    else if Ke(y) == ref then Reading(Controls, DaXiong, 1)
    else if y == ref then Reading(Helps, Ji, 4)
    else if Sheng(ref) == y then Reading(Drains, XiaoXiong, 2)
    else Neutral
  }

  /** The reading against the first element of a list, or the neutral one for an empty list. */
  function FirstReading(y: Element, refs: seq<Element>): Reading {
    if |refs| > 0 then RelationReading(y, refs[0]) else Neutral
  }

  /** 忌神 relations are read the other way round: 大吉 becomes 凶 (2), 大凶 becomes 吉 (4). */
  function Invert(r: Reading): (inv: Reading)
    ensures r.jixi == DaJi ==> inv.relation == GeneratesJishen && inv.jixi == Xiong && inv.degree == 2
    ensures r.jixi == DaXiong ==> inv.relation == ControlsJishen && inv.jixi == Ji && inv.degree == 4
    ensures r.jixi != DaJi && r.jixi != DaXiong ==> inv == r
  {
    if r.jixi == DaJi then Reading(GeneratesJishen, Xiong, 2)
    else if r.jixi == DaXiong then Reading(ControlsJishen, Ji, 4)
    else r
  }

  /**
   * The unfavourable-element reading never reaches the extremes: its degree
   * is 2, 3 or 4, and exactly 3 for an empty list.
   */
  lemma InvertedDegree(y: Element, jishen: seq<Element>)
    ensures Invert(FirstReading(y, jishen)).degree in {2, 3, 4}
    ensures |jishen| == 0 ==> Invert(FirstReading(y, jishen)).degree == 3
  {
    if |jishen| > 0 {
      ExactlyOneRelation(jishen[0], y);
    }
  }

  // ---------------------------------------------------------------------------
  // Six clashes and check_chong
  // ---------------------------------------------------------------------------

  /** 子午 丑未 寅申 卯酉 辰戌 巳亥. */
  function Chong(b: Branch): Branch {
    [6, 7, 8, 9, 10, 11, 0, 1, 2, 3, 4, 5][b]
  }

  /**
   * The clash table pairs each branch with the one half a turn away, so it
   * is an involution without fixed points.
   */
  lemma ChongIsHalfTurn(b: Branch)
    ensures Chong(b) == (b + 6) % 12
    ensures Chong(Chong(b)) == b
    ensures Chong(b) != b
  {
  }

  /** 最高 at the day pillar, 高 at the month pillar, 中 elsewhere. */
  datatype Importance = Highest | High | Medium

  function ImportanceAt(i: nat): Importance {
    if i == 2 then Highest else if i == 1 then High else Medium
  }

  /** One clash: the pillar position (0 year .. 3 hour), the chart's branch, its importance. */
  datatype Hit = Hit(position: nat, branch: Branch, importance: Importance)

  /** The clashes check_chong reports: the positions whose branch clashes with the year's branch, in order. */
  function ClashHits(branches: seq<Branch>, yearBranch: Branch): (hits: seq<Hit>)
    ensures forall k :: 0 <= k < |hits| ==>
      && hits[k].position < |branches|
      && hits[k].branch == branches[hits[k].position]
      && Chong(hits[k].branch) == yearBranch
      && hits[k].importance == ImportanceAt(hits[k].position)
    ensures forall k, l :: 0 <= k < l < |hits| ==> hits[k].position < hits[l].position
  {
    if |branches| == 0 then []
    else
      var n := |branches| - 1;
      var before := ClashHits(branches[..n], yearBranch);
      assert forall p :: 0 <= p < n ==> branches[..n][p] == branches[p];
      if Chong(branches[n]) == yearBranch then before + [Hit(n, branches[n], ImportanceAt(n))]
      else before
  }

  /** Every clashing position is reported, as the Hit check_chong builds for it. */
  lemma {:induction false} ClashHitsComplete(branches: seq<Branch>, yearBranch: Branch)
    ensures forall p :: 0 <= p < |branches| && Chong(branches[p]) == yearBranch ==>
      Hit(p, branches[p], ImportanceAt(p)) in ClashHits(branches, yearBranch)
  {
    if |branches| > 0 {
      var n := |branches| - 1;
      ClashHitsComplete(branches[..n], yearBranch);
      assert forall p :: 0 <= p < n ==> branches[..n][p] == branches[p];
    }
  }

  /** The list is empty exactly when no position clashes. */
  lemma ClashHitsEmpty(branches: seq<Branch>, yearBranch: Branch)
    ensures |ClashHits(branches, yearBranch)| == 0 <==> forall p :: 0 <= p < |branches| ==> Chong(branches[p]) != yearBranch
  {
    ClashHitsComplete(branches, yearBranch);
    var hits := ClashHits(branches, yearBranch);
    if |hits| > 0 {
      assert Chong(branches[hits[0].position]) == yearBranch;
    }
  }

  /** check_chong: every position whose branch clashes with the year's branch, in order. */
  method CheckChong(branches: seq<Branch>, yearBranch: Branch) returns (hits: seq<Hit>)
    ensures hits == ClashHits(branches, yearBranch)
    ensures forall p :: 0 <= p < |branches| && Chong(branches[p]) == yearBranch ==>
      Hit(p, branches[p], ImportanceAt(p)) in hits
  {
    ClashHitsComplete(branches, yearBranch);
    hits := [];
    for i := 0 to |branches|
      invariant hits == ClashHits(branches[..i], yearBranch)
    {
      assert branches[..i + 1][..i] == branches[..i];
      if Chong(branches[i]) == yearBranch {
        var importance := if i == 2 then Highest else if i == 1 then High else Medium;
        hits := hits + [Hit(i, branches[i], importance)];
      }
    }
    assert branches[..|branches|] == branches;
  }

  /** A position clashes exactly when its branch is the year branch's partner. */
  lemma ClashPartner(b: Branch, yearBranch: Branch)
    ensures Chong(b) == yearBranch <==> b == Chong(yearBranch)
  {
    ChongIsHalfTurn(b);
    ChongIsHalfTurn(yearBranch);
  }

  /** An entry of chong_analysis: a clash, or the single "no clash" marker. */
  datatype ChongEntry =
    | Clash(hit: Hit)
    | NoChong(yearBranch: Branch, chartBranches: seq<Branch>)

  /** The clash list, with the marker standing in for an empty one. */
  function ChongEntries(hits: seq<Hit>, yearBranch: Branch, branches: seq<Branch>): (es: seq<ChongEntry>)
    ensures |es| >= 1
    ensures |hits| > 0 ==> |es| == |hits| && forall k :: 0 <= k < |es| ==> es[k] == Clash(hits[k])
    ensures |hits| == 0 ==> es == [NoChong(yearBranch, branches)]
  {
    if |hits| == 0 then [NoChong(yearBranch, branches)]
    else seq(|hits|, k requires 0 <= k < |hits| => Clash(hits[k]))
  }

  // ---------------------------------------------------------------------------
  // analyze_liunian
  // ---------------------------------------------------------------------------

  /** 吉, 平, 凶. */
  datatype Overall = Good | Fair | Bad

  /** The weighted score 0.6·y + 0.4·j, in tenths. */
  function ScoreTenths(y: int, j: int): int {
    6 * y + 4 * j
  }

  /** 吉 from 4.0, 平 from 3.0, 凶 below. */
  function OverallOf(tenths: int): Overall {
    if tenths >= 40 then Good else if tenths >= 30 then Fair else Bad
  }

  /**
   * With the favourable degree y in 1..5 and the inverted unfavourable degree
   * j in 2..4, a year is 吉 only when y is 5 with j at least 3, or y and j
   * are both 4; it is 凶 exactly when y is at most 2, or y is 3 and j is 2.
   */
  lemma VerdictTable(y: int, j: int)
    requires 1 <= y <= 5 && 2 <= j <= 4
    ensures OverallOf(ScoreTenths(y, j)) == Good <==> (y == 5 && j >= 3) || (y == 4 && j == 4)
    ensures OverallOf(ScoreTenths(y, j)) == Bad <==> y <= 2 || (y == 3 && j == 2)
  {
  }

  /** What analyze_liunian returns for one year. */
  datatype YearReading = YearReading(
    year: int, pillar: Pillar,
    yongshen: Reading, jishen: Reading,
    chong: seq<ChongEntry>, scoreTenths: int, overall: Overall)

  /** The year's element is its stem's element. */
  function YearElement(p: Pillar): Element {
    StemElement(p.stem)
  }

  /** analyze_liunian for one year, given that year's pillar. */
  method AnalyzeLiunian(year: int, pillar: Pillar, c: Chart, yongshen: seq<Element>, jishen: seq<Element>)
    returns (r: YearReading)
    ensures r.year == year && r.pillar == pillar
    ensures r.yongshen == FirstReading(YearElement(pillar), yongshen)
    ensures r.jishen == Invert(FirstReading(YearElement(pillar), jishen))
    ensures r.chong == ChongEntries(ClashHits(c.Branches(), pillar.branch), pillar.branch, c.Branches())
    ensures |r.chong| >= 1
    ensures forall k :: 0 <= k < |r.chong| && r.chong[k].Clash? ==>
      r.chong[k].hit.position < 4 && r.chong[k].hit.branch == c.Branches()[r.chong[k].hit.position] && Chong(r.chong[k].hit.branch) == pillar.branch
    ensures forall p :: 0 <= p < 4 && Chong(c.Branches()[p]) == pillar.branch ==>
      exists k :: 0 <= k < |r.chong| && r.chong[k] == Clash(Hit(p, c.Branches()[p], ImportanceAt(p)))
    ensures r.chong[0].NoChong? <==> forall p :: 0 <= p < 4 ==> Chong(c.Branches()[p]) != pillar.branch
    ensures r.scoreTenths == ScoreTenths(r.yongshen.degree, r.jishen.degree)
    ensures r.overall == OverallOf(r.scoreTenths)
  {
    var wx := YearElement(pillar);
    var ys := FirstReading(wx, yongshen);
    var js := Invert(FirstReading(wx, jishen));
    var hits := CheckChong(c.Branches(), pillar.branch);
    ClashHitsComplete(c.Branches(), pillar.branch);
    ClashHitsEmpty(c.Branches(), pillar.branch);
    var entries := ChongEntries(hits, pillar.branch, c.Branches());
    var score := 6 * ys.degree + 4 * js.degree;
    var overall := if score >= 40 then Good else if score >= 30 then Fair else Bad;
    r := YearReading(year, pillar, ys, js, entries, score, overall);
  }

  /** A balanced day master has no favourable or unfavourable element: every year is 平 at 3.0. */
  lemma BalancedYearsAreFair(pillar: Pillar, r: Element)
    ensures var f := JudgeYongshen(Balanced, r);
      var t := ScoreTenths(FirstReading(YearElement(pillar), f.yongshen).degree,
                           Invert(FirstReading(YearElement(pillar), f.jishen)).degree);
      t == 30 && OverallOf(t) == Fair
  {
  }

  /**
   * For a strong day master the favourable element is the one it controls
   * and the unfavourable one is its own: a year of the day master's own
   * element reads 流年克用神 (大凶, 1) against the first and, left uninverted,
   * 流年助用神 (吉, 4) against the second, and is 凶 overall.
   */
  lemma StrongOwnElementYear(pillar: Pillar, r: Element)
    requires YearElement(pillar) == r
    ensures var f := JudgeYongshen(Strong, r);
      var y := FirstReading(YearElement(pillar), f.yongshen);
      var j := Invert(FirstReading(YearElement(pillar), f.jishen));
      && y == Reading(Controls, DaXiong, 1) && j == Reading(Helps, Ji, 4)
      && OverallOf(ScoreTenths(y.degree, j.degree)) == Bad
  {
  }

  /**
   * analyze_liunian of the analyzer: ten years from the birth year, in order,
   * with the first as the current year and the second as the next.
   */
  method AnalyzeDecade(birthYear: int, pillarOf: int -> Pillar, c: Chart, favour: Favour)
    returns (years: seq<YearReading>, current: Option<YearReading>, next: Option<YearReading>)
    ensures |years| == 10
    ensures current == Some(years[0]) && next == Some(years[1])
    ensures forall k :: 0 <= k < 10 ==>
      && years[k].year == birthYear + k
      && years[k].pillar == pillarOf(birthYear + k)
      && years[k].yongshen == FirstReading(YearElement(pillarOf(birthYear + k)), favour.yongshen)
      && years[k].jishen == Invert(FirstReading(YearElement(pillarOf(birthYear + k)), favour.jishen))
      && years[k].chong == ChongEntries(ClashHits(c.Branches(), pillarOf(birthYear + k).branch), pillarOf(birthYear + k).branch, c.Branches())
      && years[k].scoreTenths == ScoreTenths(years[k].yongshen.degree, years[k].jishen.degree)
      && years[k].overall == OverallOf(years[k].scoreTenths)
  {
    years := [];
    for year := birthYear to birthYear + 10
      invariant |years| == year - birthYear
      invariant forall k :: 0 <= k < |years| ==>
        && years[k].year == birthYear + k
        && years[k].pillar == pillarOf(birthYear + k)
        && years[k].yongshen == FirstReading(YearElement(pillarOf(birthYear + k)), favour.yongshen)
        && years[k].jishen == Invert(FirstReading(YearElement(pillarOf(birthYear + k)), favour.jishen))
        && years[k].chong == ChongEntries(ClashHits(c.Branches(), pillarOf(birthYear + k).branch), pillarOf(birthYear + k).branch, c.Branches())
        && years[k].scoreTenths == ScoreTenths(years[k].yongshen.degree, years[k].jishen.degree)
        && years[k].overall == OverallOf(years[k].scoreTenths)
    {
      var r := AnalyzeLiunian(year, pillarOf(year), c, favour.yongshen, favour.jishen);
      years := years + [r];
    }
    current := if |years| > 0 then Some(years[0]) else None;
    next := if |years| > 1 then Some(years[1]) else None;
  }
}
