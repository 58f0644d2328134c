/**
 * Personality reading (性格分析): trait sets drawn from the ten-god
 * distribution, and a score on each of ten dimensions taken from the first
 * scoring rule whose condition holds.
 *
 * Scores are kept in halves: a rule with range [lo, hi] scores (lo + hi) / 2,
 * stored as lo + hi; the default 5.0 is 10.
 */
module Personality {
  import opened Ganzhi
  import opened Tally
  import opened Wuxing
  import opened Shishen

  // ---------------------------------------------------------------------------
  // Labels as the source spells them
  // ---------------------------------------------------------------------------

  /** The one-character name of an element (金 木 水 火 土). */
  function ElementName(e: Element): (s: string)
    ensures |s| == 1
  {
    match e
    case Metal => "金"
    case Wood => "木"
    case Water => "水"
    case Fire => "火"
    case Earth => "土"
  }

  /** The two-character label of a ten god. */
  function GodLabel(g: TenGod): (s: string)
    ensures |s| == 2
  {
    match g
    case BiJian => "比肩"
    case JieCai => "劫财"
    case ShiShen => "食神"
    case ShangGuan => "伤官"
    case QiSha => "七杀"
    case ZhengGuan => "正官"
    case PianCai => "偏财"
    case ZhengCai => "正财"
    case PianYin => "偏印"
    case ZhengYin => "正印"
    case Unknown => "未知"
  }

  /** Python's `sub in s` on strings. */
  predicate Contains(s: string, sub: string)
    decreases |s|
  {
    sub <= s || (|s| > 0 && Contains(s[1..], sub))
  }

  // ---------------------------------------------------------------------------
  // _evaluate_personality_condition
  // ---------------------------------------------------------------------------

  /** What a condition is evaluated against. */
  datatype Inputs = Inputs(dist: Counter<TenGod>, yongshen: seq<Element>, status: Status)

  /**
   * `any(ys in [labels] for ys in yongshen)`: some entry of the favourable
   * list, which holds element names, is spelled like one of the given gods.
   */
  predicate NamesGod(yongshen: seq<Element>, gods: seq<TenGod>) {
    exists e, g :: e in yongshen && g in gods && ElementName(e) == GodLabel(g)
  }

  /** A pair of gods is strong when its weight reaches 1 + 1 (4 in halves). */
  predicate PairStrong(dist: Counter<TenGod>, a: TenGod, b: TenGod) {
    Get(dist, a) + Get(dist, b) >= 4
  }

  /** The substring tests in the source's order; the first that matches decides. */
  predicate EvaluateCondition(cond: string, inp: Inputs) {
    if Contains(cond, "官杀旺且为用神") then
      PairStrong(inp.dist, ZhengGuan, QiSha) && NamesGod(inp.yongshen, [ZhengGuan, QiSha])
    else if Contains(cond, "比劫旺且为用神") then
      PairStrong(inp.dist, BiJian, JieCai) && NamesGod(inp.yongshen, [BiJian, JieCai])
    else if Contains(cond, "食伤旺且为用神") then
      PairStrong(inp.dist, ShiShen, ShangGuan) && NamesGod(inp.yongshen, [ShiShen, ShangGuan])
    else if Contains(cond, "印星旺且为用神") then
      PairStrong(inp.dist, ZhengYin, PianYin) && NamesGod(inp.yongshen, [ZhengYin, PianYin])
    else if Contains(cond, "财星旺且为用神") then
      PairStrong(inp.dist, ZhengCai, PianCai) && NamesGod(inp.yongshen, [ZhengCai, PianCai])
    else if Contains(cond, "身弱") then
      inp.status == Weak
    else if Contains(cond, "身旺") || Contains(cond, "身强") then
      inp.status == Strong
    else
      false
  }

  /** No element name is spelled like a ten-god label. */
  lemma NoElementNamesAGod(yongshen: seq<Element>, gods: seq<TenGod>)
    ensures !NamesGod(yongshen, gods)
  {
    forall e, g | e in yongshen && g in gods
      ensures ElementName(e) != GodLabel(g)
    {
      assert |ElementName(e)| != |GodLabel(g)|;
    }
  }

  /**
   * The favourable list holds element names, so the five "旺且为用神"
   * conditions never hold: a condition holds only through the day master's
   * strength, 身弱 for a weak one and 身旺/身强 for a strong one.
   */
  lemma ConditionNeedsStrength(cond: string, inp: Inputs)
    ensures EvaluateCondition(cond, inp) ==>
      (Contains(cond, "身弱") && inp.status == Weak)
      || ((Contains(cond, "身旺") || Contains(cond, "身强")) && inp.status == Strong)
    ensures Contains(cond, "官杀旺且为用神") ==> !EvaluateCondition(cond, inp)
  {
    NoElementNamesAGod(inp.yongshen, [ZhengGuan, QiSha]);
    NoElementNamesAGod(inp.yongshen, [BiJian, JieCai]);
    NoElementNamesAGod(inp.yongshen, [ShiShen, ShangGuan]);
    NoElementNamesAGod(inp.yongshen, [ZhengYin, PianYin]);
    NoElementNamesAGod(inp.yongshen, [ZhengCai, PianCai]);
  }

  // ---------------------------------------------------------------------------
  // _calculate_personality_scores
  // ---------------------------------------------------------------------------

  /** One row of a dimension's scoring table. */
  datatype ScoringRule = ScoringRule(condition: string, lo: nat, hi: nat)

  /** The default score 5.0, in halves. */
  const DefaultHalves := 10

  /** The ten dimensions, in the order the source scores them. */
  const Dimensions: seq<string> :=
    ["外向性", "责任感", "情绪稳定性", "开放性", "宜人性",
     "执行力", "领导力", "创造力", "社交能力", "学习能力"]

  /** The score the first rule whose condition holds gives, or the default. */
  function FirstMatchHalves(rules: seq<ScoringRule>, inp: Inputs): nat {
    if |rules| == 0 then DefaultHalves
    else if EvaluateCondition(rules[0].condition, inp) then rules[0].lo + rules[0].hi
    else FirstMatchHalves(rules[1..], inp)
  }

  /** Rule k holds and no earlier rule does. */
  predicate FirstHolding(rules: seq<ScoringRule>, inp: Inputs, k: int) {
    0 <= k < |rules| && EvaluateCondition(rules[k].condition, inp)
    && forall j :: 0 <= j < k ==> !EvaluateCondition(rules[j].condition, inp)
  }

  /**
   * FirstMatchHalves is the range of the earliest rule that holds, and the
   * default exactly when none does.
   */
  lemma {:induction false} FirstMatchSpec(rules: seq<ScoringRule>, inp: Inputs)
    ensures (forall k :: 0 <= k < |rules| ==> !EvaluateCondition(rules[k].condition, inp))
      ==> FirstMatchHalves(rules, inp) == DefaultHalves
    ensures forall k :: FirstHolding(rules, inp, k) ==> FirstMatchHalves(rules, inp) == rules[k].lo + rules[k].hi
  {
    if |rules| > 0 {
      FirstMatchSpec(rules[1..], inp);
      forall k | FirstHolding(rules, inp, k)
        ensures FirstMatchHalves(rules, inp) == rules[k].lo + rules[k].hi
      {
        if k > 0 {
          assert !EvaluateCondition(rules[0].condition, inp);
          assert FirstHolding(rules[1..], inp, k - 1) by {
            assert rules[1..][k - 1] == rules[k];
            forall j | 0 <= j < k - 1
              ensures !EvaluateCondition(rules[1..][j].condition, inp)
            {
              assert rules[1..][j] == rules[j + 1];
            }
          }
        }
      }
      if forall k :: 0 <= k < |rules| ==> !EvaluateCondition(rules[k].condition, inp) {
        forall j | 0 <= j < |rules| - 1
          ensures !EvaluateCondition(rules[1..][j].condition, inp)
        {
          assert rules[1..][j] == rules[j + 1];
        }
      }
    }
  }

  /** The rule loop of one dimension: stop at the first condition that holds. */
  method ScoreDimension(rules: seq<ScoringRule>, inp: Inputs) returns (halves: nat)
    ensures halves == FirstMatchHalves(rules, inp)
  {
    halves := DefaultHalves;
    var i := 0;
    while i < |rules|
      invariant 0 <= i <= |rules|
      invariant FirstMatchHalves(rules, inp) == FirstMatchHalves(rules[i..], inp)
      invariant halves == DefaultHalves
    {
      assert rules[i..][1..] == rules[i + 1..];
      if EvaluateCondition(rules[i].condition, inp) {
        halves := rules[i].lo + rules[i].hi;
        return;
      }
      i := i + 1;
    }
  }

  /** 非常突出, 突出, 良好, 中等, 较弱. */
  datatype ScoreLevel = Outstanding | Prominent | Sound | Moderate | Low

  /** The ordinal of a level, Low = 0 up to Outstanding = 4. */
  function LevelRank(l: ScoreLevel): nat {
    match l
    case Low => 0
    case Moderate => 1
    case Sound => 2
    case Prominent => 3
    case Outstanding => 4
  }

  /** `_get_score_level`, on a score in halves: thresholds 8, 7, 6 and 4. */
  function LevelOf(halves: int): (l: ScoreLevel)
    ensures l == Outstanding <==> halves >= 16
    ensures l == Prominent <==> 14 <= halves < 16
    ensures l == Sound <==> 12 <= halves < 14
    ensures l == Moderate <==> 8 <= halves < 12
    ensures l == Low <==> halves < 8
  {
    if halves >= 16 then Outstanding
    else if halves >= 14 then Prominent
    else if halves >= 12 then Sound
    else if halves >= 8 then Moderate
    else Low
  }

  /** A higher score never gets a lower level, and the default score is 中等. */
  lemma LevelMonotone(a: int, b: int)
    requires a <= b
    ensures LevelRank(LevelOf(a)) <= LevelRank(LevelOf(b))
    ensures LevelOf(DefaultHalves) == Moderate
  {
  }

  /** One dimension's result. */
  datatype DimensionScore = DimensionScore(dimension: string, halves: nat, level: ScoreLevel)

  /** The rules of a dimension; a dimension the table lacks has none. */
  function RulesFor(table: map<string, seq<ScoringRule>>, dim: string): seq<ScoringRule> {
    if dim in table then table[dim] else []
  }

  /** Scores every dimension in order from the table of scoring rules. */
  method CalculateScores(table: map<string, seq<ScoringRule>>, inp: Inputs) returns (scores: seq<DimensionScore>)
    ensures |scores| == |Dimensions|
    ensures forall i :: 0 <= i < |scores| ==>
      var h := FirstMatchHalves(RulesFor(table, Dimensions[i]), inp);
      scores[i] == DimensionScore(Dimensions[i], h, LevelOf(h))
  {
    scores := [];
    var i := 0;
    while i < |Dimensions|
      invariant 0 <= i <= |Dimensions|
      invariant |scores| == i
      invariant forall k :: 0 <= k < i ==>
        var h := FirstMatchHalves(RulesFor(table, Dimensions[k]), inp);
        scores[k] == DimensionScore(Dimensions[k], h, LevelOf(h))
    {
      var h := ScoreDimension(RulesFor(table, Dimensions[i]), inp);
      scores := scores + [DimensionScore(Dimensions[i], h, LevelOf(h))];
      i := i + 1;
    }
  }

  /** A balanced (中和) day master meets no condition: every score is 5.0, level 中等. */
  lemma {:induction false} BalancedScoresDefault(rules: seq<ScoringRule>, inp: Inputs)
    requires inp.status == Balanced
    ensures FirstMatchHalves(rules, inp) == DefaultHalves
    ensures LevelOf(FirstMatchHalves(rules, inp)) == Moderate
  {
    forall k | 0 <= k < |rules|
      ensures !EvaluateCondition(rules[k].condition, inp)
    {
      ConditionNeedsStrength(rules[k].condition, inp);
    }
    FirstMatchSpec(rules, inp);
  }

  // ---------------------------------------------------------------------------
  // analyze_personality: trait sets
  // ---------------------------------------------------------------------------

  /** A ten god's traits: positive (正面) and negative (负面). */
  datatype TraitEntry = TraitEntry(positive: seq<string>, negative: seq<string>)

  /** core_traits, strengths and weaknesses, as sets. */
  datatype Traits = Traits(core: set<string>, strengths: set<string>, weaknesses: set<string>)

  /** The first two entries of a list, or all of a shorter one (Python's `[:2]`). */
  function FirstTwo(xs: seq<string>): (r: seq<string>)
    ensures |r| <= 2 && r <= xs
  {
    if |xs| <= 2 then xs else xs[..2]
  }

  /** Whether the god of distribution entry i is present and has a table entry. */
  predicate Present(dist: Counter<TenGod>, table: map<TenGod, TraitEntry>, i: int)
    requires 0 <= i < |dist|
  {
    dist[i].1 > 0 && dist[i].0 in table
  }

  /** The traits pick chooses from the entry of every present god. */
  function Gather(dist: Counter<TenGod>, table: map<TenGod, TraitEntry>, pick: TraitEntry -> seq<string>): (r: set<string>)
    ensures forall s :: s in r <==>
      exists i :: 0 <= i < |dist| && Present(dist, table, i) && s in pick(table[dist[i].0])
  {
    if |dist| == 0 then {}
    else
      var rest := Gather(dist[1..], table, pick);
      assert forall i :: 1 <= i < |dist| ==> dist[1..][i - 1] == dist[i];
      assert forall i :: 0 <= i < |dist| - 1 ==> dist[1..][i] == dist[i + 1];
      if Present(dist, table, 0) then rest + (set s | s in pick(table[dist[0].0])) else rest
  }

  /**
   * The traits of every god with a positive count and a table entry: all its
   * positive traits, its first two positive ones as strengths and its first
   * two negative ones as weaknesses.
   */
  function TraitsOf(dist: Counter<TenGod>, table: map<TenGod, TraitEntry>): (t: Traits)
    ensures forall s :: s in t.core <==>
      exists i :: 0 <= i < |dist| && Present(dist, table, i) && s in table[dist[i].0].positive
    ensures forall s :: s in t.strengths <==>
      exists i :: 0 <= i < |dist| && Present(dist, table, i) && s in FirstTwo(table[dist[i].0].positive)
    ensures forall s :: s in t.weaknesses <==>
      exists i :: 0 <= i < |dist| && Present(dist, table, i) && s in FirstTwo(table[dist[i].0].negative)
    ensures t.strengths <= t.core
  {
    var core := Gather(dist, table, (e: TraitEntry) => e.positive);
    var strengths := Gather(dist, table, (e: TraitEntry) => FirstTwo(e.positive));
    var weaknesses := Gather(dist, table, (e: TraitEntry) => FirstTwo(e.negative));
    assert strengths <= core by {
      forall s | s in strengths ensures s in core {
        var i :| 0 <= i < |dist| && Present(dist, table, i) && s in FirstTwo(table[dist[i].0].positive);
        assert s in table[dist[i].0].positive;
      }
    }
    Traits(core, strengths, weaknesses)
  }

  /** What analyze_personality returns. */
  datatype PersonalityAnalysis = PersonalityAnalysis(traits: Traits, scores: seq<DimensionScore>, dist: Counter<TenGod>)

  /** analyze_personality, from the analyses it reads and the two rule tables. */
  method AnalyzePersonality(dist: Counter<TenGod>, favour: Favour, status: Status,
                            traitTable: map<TenGod, TraitEntry>,
                            scoringTable: map<string, seq<ScoringRule>>)
    returns (a: PersonalityAnalysis)
    ensures a.traits == TraitsOf(dist, traitTable)
    ensures a.dist == dist
    ensures |a.scores| == |Dimensions|
    ensures forall i :: 0 <= i < |a.scores| ==>
      var h := FirstMatchHalves(RulesFor(scoringTable, Dimensions[i]), Inputs(dist, favour.yongshen, status));
      a.scores[i] == DimensionScore(Dimensions[i], h, LevelOf(h))
  {
    var scores := CalculateScores(scoringTable, Inputs(dist, favour.yongshen, status));
    a := PersonalityAnalysis(TraitsOf(dist, traitTable), scores, dist);
  }
}
