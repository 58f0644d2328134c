# Bazi engine — a Dafny model

This project models the computational core of a Four Pillars (八字) fortune
engine written in Python:

- the calendar calculator that turns a birth moment into four pillars
  (year, month, day, hour), each a heavenly stem (天干) paired with an earthly
  branch (地支);
- the analyzer that reads a chart:
  - the five-element (五行) tally, the missing elements and the extremes;
  - the day master's strength (旺衰) and the favourable and unfavourable
    elements (用神, 喜神, 忌神, 仇神);
  - the ten gods (十神), their combinations and the pattern (格局);
  - the personality, career, wealth, marriage and health readings;
  - the spirit markers (神煞);
- the decade-cycle (大运) calculator;
- the annual-cycle (流年) analyzer.

Stems are the integers 0..9 (甲..癸) and branches 0..11 (子..亥). The
five elements are a datatype. A pillar pairs a stem with a branch.
`Ganzhi.CyclePillar(k)` is the k-th term of the 60-term cycle, counted
from 甲子.

Weights that the source keeps as floats are modelled as follows:

- The element tally is kept as binary64 doubles (module `Float64`). A value
  v is the integer v·2^54, so every double in the tally's range is a whole
  number of units. A stem or a branch adds 1.0, a hidden stem adds the
  double nearest 0.3, and each `+=` rounds to nearest, ties to even.
- The exact sums of the same weights (`Tally.TallyOf`, `Tally.WeightOf`)
  are the reference the doubles are measured against. A chart's doubles
  stay within 2^-50 per item of them (`Wuxing.ChartTallyNear`).
- Ten-god tallies are in halves: a stem counts 2, a branch's main hidden
  stem 1. Sums of 1.0 and 0.5 up to 6 are exact as doubles.
- Personality scores are in halves.
- Annual verdict scores are in tenths.

Python's `Counter` is an insertion-ordered list of (key, weight) pairs.
`max` and `min` return the first key with the extreme count
(`Tally.ArgMax`, `Tally.ArgMin`). The counts are the rounded doubles, so
two elements with the same exact weight need not tie. The counter is
proved equal to a fold of rounded additions over the chart's weighted
items (`Tally.FTallyOf`).

Results the model proves about the source as written:

- **The strength score never drops below 50.** `_judge_wangshuai` starts at
  50 and only adds, so:
  - the status is never 身弱;
  - the special-pattern branch of `analyze_geju` (score below 30) is dead
    (`Shishen.NoSpecialGeju`).
- **The element tally skips values.** Every element's tally is 0, 0.3 or at
  least 0.6, and the 5% "missing" threshold on a total of 9.2..11.6 falls in
  a gap. An element is therefore missing exactly when only a single hidden
  stem carries it, or nothing does (`Wuxing.MissingIffAtMostOneHidden`).
- **Floating-point rounding decides the strongest element.** In the chart
  庚申 庚寅 癸巳 丁巳, 金 and 火 both weigh exactly 3·1 + 3·0.3. 金's
  additions 1+1+0.3+1+0.3+0.3 end at 3.8999999999999995, but 火's
  0.3+1+0.3+1+1+0.3 end at 3.9. So `max` returns 火, although 金 comes
  first in the Counter (`Wuxing.FloatTieBreak`).
- **The 旺且为用神 personality conditions never hold.** The favourable list
  holds element names, and the condition evaluator compares them with
  ten-god labels. Only the 身弱/身旺/身强 conditions can hold, so a balanced
  chart scores the default 5.0 on every dimension
  (`Personality.ConditionNeedsStrength`, `Personality.BalancedScoresDefault`).

Where the code and its documentation disagree, the model follows the code:

- The hour branch is `hour % 12` (`shi_dizhi_map`), not two-hour windows.
- The month stem is the five-tiger table entry plus the month branch's
  index, counted from 子 = 0. The table holds the stem the rule gives to
  the 寅 month, and 寅 has index 2. Months 寅 through 亥 (1 to 10) therefore
  come out two stems late: in a 甲 year the first month is 戊寅, not the
  rule's 丙寅. The 子 and 丑 months (11 and 12) sit ten and eleven months
  after 寅, so they agree with the rule (`Calendar.TigerMonthTwoStemsLate`).
- For a strong day master, 用神 is the element the day master controls
  (`WUXING_KE[r]`). The ten-god labels 七杀/正官 go to that element, and
  偏财/正财 to the element that controls the day master, exactly as
  `_get_shishen` assigns them.
- The weak-day-master 仇神 list collapses to the day master's own element.
- The day pillar counts from 1900-01-01 as 甲子, the anchor the code uses.

## Model

| member | source | states |
|---|---|---|
| Ganzhi.HiddenStems | bazi_agent/calendar.py:49-62 | every branch has one to three hidden stems, and the first has the branch's own element |
| Ganzhi.Ke | bazi_agent/analyzer.py:35-41 | the element an element controls is the one two steps along the generation cycle |
| Ganzhi.Gen | bazi_agent/analyzer.py:35-37 | the generating element is the unique preimage under generation |
| Ganzhi.ShengIsFiveCycle | bazi_agent/analyzer.py:35-37 | generation is a single five-cycle |
| Ganzhi.ExactlyOneRelation | bazi_agent/analyzer.py:301-333 | any two elements stand in exactly one of the five relations, so the ten-god chain never reaches its fallback |
| Ganzhi.CycleIndex | bazi_agent/calendar.py:18-21 | every equal-parity stem/branch pair is a term of the 60-cycle, and CyclePillar inverts the index |
| Ganzhi.CyclePeriodic | bazi_agent/calendar.py:18-21 | the stem/branch cycle has period 60 |
| Calendar.DaysInMonth | bazi_agent/calendar.py:126-131 | Gregorian month lengths are 28..31 |
| Calendar.NextDateIsNextDay | bazi_agent/calendar.py:284-308 | the day number the day pillar counts grows by one from each calendar day to the next, across month and year ends |
| Calendar.YearPillar | bazi_agent/calendar.py:216-242 | the year pillar is the 60-cycle term of year − 1864 (1900 is 庚子) |
| Calendar.MonthBranch | bazi_agent/calendar.py:244-282 | month m has branch (m + 1) mod 12 (正月 is 寅), with 寅 for an unlisted month |
| Calendar.TigerBase | bazi_agent/calendar.py:265-270 | the table entry for a year stem is (2·(stem mod 5) + 2) mod 10: 丙, 戊, 庚, 壬, 甲 for 甲/己 .. 戊/癸 |
| Calendar.MonthStem | bazi_agent/calendar.py:257-272 | the month stem is (table entry + month branch index) mod 10, counted from 子 = 0, and has the branch's parity |
| Calendar.TigerMonthTwoStemsLate | bazi_agent/calendar.py:265-272 | the 寅 month gets the table stem plus two, never the table stem itself, while 子 and 丑 get the table stem and the next; 1984 (a 甲 year) month 1 is 戊寅 |
| Calendar.MonthPillar | bazi_agent/calendar.py:244-282 | the month pillar is a valid 60-cycle term with the table's branch |
| Calendar.FiveTigerPeriod | bazi_agent/calendar.py:244-282 | year stems five apart give the same month stems |
| Calendar.MonthPillarRepeatsEveryFiveYears | bazi_agent/calendar.py:244-282 | the month pillars repeat every five years |
| Calendar.DayPillar | bazi_agent/calendar.py:284-308 | the day pillar is the 60-cycle term of the day's distance from 1900-01-01 |
| Calendar.DayPillarAnchor | bazi_agent/calendar.py:284-308 | 1900-01-01 is 甲子 |
| Calendar.DayPillarAdvances | bazi_agent/calendar.py:284-308 | consecutive days have consecutive day pillars |
| Calendar.HourBranch | bazi_agent/calendar.py:315-323 | hours 0..22 map to hour mod 12, and anything else to 子 |
| Calendar.RatBase | bazi_agent/calendar.py:328-332 | the five-rat table is 2·(day stem mod 5) |
| Calendar.HourStem | bazi_agent/calendar.py:326-334 | the hour stem has the branch's parity and follows the five-rat rule |
| Calendar.HourPillar | bazi_agent/calendar.py:310-344 | the hour pillar is a valid 60-cycle term with the table's branch |
| Calendar.FiveRatPeriod | bazi_agent/calendar.py:328-332 | day stems five apart give the same hour stems |
| Calendar.ChartOf | bazi_agent/calendar.py:184-214 | the chart's year and day pillars are the cycle terms above, and its month and hour pillars are valid terms with the tables' branches |
| Calendar.CorrectedClockInDay | bazi_agent/calendar.py:168-182 | after the longitude shift of 4 minutes per degree and one wrap, the clock time lies in the day when the shift is under a day |
| Calendar.ResolveCoordinates | bazi_agent/calendar.py:109-119 | non-zero given coordinates are kept; with a coordinate missing and a province or city named, a known location replaces both; otherwise each coordinate falls back on its own to 120.0 / 39.9 when missing or zero; a zero from the table falls back too; the result is never zero |
| Calendar.CalendarCalc.constructor | bazi_agent/calendar.py:101-124 | fields are stored, and the clock is corrected exactly when true solar time is requested |
| Calendar.CalendarCalc.CorrectSolarTime | bazi_agent/calendar.py:168-182 | the hour and minute become the shifted, wrapped clock time; nothing else changes |
| Calendar.CalendarCalc.Create | bazi_agent/calendar.py:82-134 | construction succeeds exactly for a valid date and time; the date, the resolved coordinates and the flag are stored; the clock is kept, or with true solar time becomes hour·60 + minute + 4·(longitude − 120) minutes wrapped once into the day |
| Calendar.CalendarCalc.GetBazi | bazi_agent/calendar.py:184-214 | the year pillar is cycle term year − 1864, the month pillar has branch (month + 1) mod 12 and stem (2·((year − 1864) mod 5) + 2 + branch) mod 10, the day pillar is the cycle term of the day number, the hour pillar has branch hour mod 12 (子 past 22) and stem (2·(day number mod 5) + branch) mod 10 |
| Calendar.CalendarCalc.GetSeasonInfo | bazi_agent/calendar.py:409-436 | the season is winter, spring, summer, autumn by (month / 3) mod 4, winter for an unknown month; the term is the sectional term opening the month (春分 for April, 立春 for an unknown month) followed by 后; the month order is the month's branch and its element |
| Calendar.CalendarCalc.GetConstellation | bazi_agent/calendar.py:375-407 | one of twelve signs: for a valid month and day the number of sign start dates already passed mod 12, and the last sign for an unknown month |
| Calendar.Constellation | bazi_agent/calendar.py:375-407 | one of twelve signs, the last one for an unknown month |
| Calendar.ConstellationByStartDays | bazi_agent/calendar.py:375-407 | the sign is the number of sign start dates already passed, mod 12 |
| Calendar.SeasonOf | bazi_agent/calendar.py:409-425 | months 12, 1, 2 are winter, then spring, summer and autumn by quarter; an unknown month is winter |
| Calendar.JieqiFollowsSectionalTerms | bazi_agent/calendar.py:427-436 | each month names the sectional term that opens it, except April |
| Calendar.SeasonInfoOf | bazi_agent/calendar.py:409-436 | the season by quarter, the opening sectional term with 后 (April and unknown months as above), and the month order as the month's branch with that branch's element |
| Tally.Bump | bazi_agent/analyzer.py:103-126 | one counter update adds the weight to one key only, keeps keys distinct, and raises the total by the weight |
| Tally.TallyOf | bazi_agent/analyzer.py:103-128 | the counter built from the items has distinct keys, each key's items' total weight, exactly the mentioned keys, and the items' total |
| Tally.TallyOfSnoc | bazi_agent/analyzer.py:103-126 | adding one item is one counter update and appends one position to its key |
| Tally.FBump | bazi_agent/analyzer.py:113-125 | one `+=` on doubles: the key's count becomes the rounded sum, other keys keep theirs, the keys stay distinct and the first key stays first |
| Tally.FTallyOf | bazi_agent/analyzer.py:103-126 | the double-valued counter of the scan has distinct keys, exactly the mentioned keys, each key's rounded running sum, and the first item's key first |
| Tally.FWeightOfIsFSum | bazi_agent/analyzer.py:109-126 | a key's double is its own weights added in scan order with rounding, whatever the other keys do |
| Tally.ArgMax | bazi_agent/analyzer.py:133 | the first key of maximal weight |
| Tally.ArgMin | bazi_agent/analyzer.py:134 | the first key of minimal weight |
| Wuxing.ElementTotal | bazi_agent/analyzer.py:109-128 | the element total is 2 per pillar plus 0.3 per hidden stem |
| Float64.Round | bazi_agent/analyzer.py:113-125 | rounding to nearest moves a value by at most half the spacing of doubles at it |
| Float64.AddNear | bazi_agent/analyzer.py:113-125 | below 16.0 a double addition is off from the exact sum by at most 2^-50 |
| Float64.MetalTieSum | bazi_agent/analyzer.py:109-126 | 1 + 1 + 0.3 + 1 + 0.3 + 0.3 on doubles is 3.8999999999999995 |
| Float64.FireTieSum | bazi_agent/analyzer.py:109-126 | 0.3 + 1 + 0.3 + 1 + 1 + 0.3 on doubles is 3.9 |
| Wuxing.ChartTotalBounds | bazi_agent/analyzer.py:128 | a chart's element total is 8 + 0.3·H, between 9.2 and 11.6 |
| Wuxing.Record | bazi_agent/analyzer.py:113-126 | one item bumps the counter by its weight with rounding and appends its label to its element's positions |
| Wuxing.RecordAll | bazi_agent/analyzer.py:109-126 | the counter after the items is the rounded fold of their weights, and the positions follow |
| Wuxing.ChartTallyNear | bazi_agent/analyzer.py:103-128 | each element's double and the total are within 320 units (about 1.8e-14) of the exact sums |
| Wuxing.FloatTieBreak | bazi_agent/analyzer.py:103-133 | in 庚申 庚寅 癸巳 丁巳, 金 and 火 weigh the same exactly, 金's double is smaller, 金 is the first key, and `max` returns 火 |
| Wuxing.ScanElements | bazi_agent/analyzer.py:103-126 | the loop's counter is the double-valued tally of the chart's weighted items, and each element's positions are its items' labels in order |
| Wuxing.Missing | bazi_agent/analyzer.py:136-141 | the missing list holds exactly the elements with zero weight or under 5% of the total, in 金木水火土 order |
| Wuxing.Most | bazi_agent/analyzer.py:133 | absent exactly for an empty counter; otherwise the first key whose count no other count exceeds |
| Wuxing.Least | bazi_agent/analyzer.py:134 | absent exactly for an empty counter; otherwise the first key whose count no other count undercuts |
| Wuxing.NonEmptyTally | bazi_agent/analyzer.py:133-134 | a chart's counter is never empty, so the 无 fallback of max and min is never taken |
| Wuxing.WeightGap | bazi_agent/analyzer.py:109-126 | an element's tally is 0, 0.3 or at least 0.6 |
| Wuxing.MissingIffAtMostOneHidden | bazi_agent/analyzer.py:136-141 | an element is missing exactly when its exact tally is at most one hidden stem's 0.3 |
| Wuxing.MissingMargin | bazi_agent/analyzer.py:136-141 | a missing element's share is below 4% and any other element's above 5.1%, far from the 5% threshold |
| Wuxing.Band | bazi_agent/analyzer.py:202-217 | 太旺 from 80, 偏旺 65..79, 中和 50..64, 偏弱 35..49, 太弱 below 35; 身旺 exactly from 65, 身弱 exactly below 50, and 平衡 exactly at 中和 |
| Wuxing.JudgeWangshuai | bazi_agent/analyzer.py:165-226 | the loops with early exit compute the strength record of the chart |
| Wuxing.DelingImpliesDedi | bazi_agent/analyzer.py:168-182 | a day master in season is always rooted, since the month branch carries the month element |
| Wuxing.StrengthRange | bazi_agent/analyzer.py:184-217 | the support count is at most 6 and the score lies in 50..115, so the status is never 身弱 |
| Wuxing.Dedup | bazi_agent/analyzer.py:254 | duplicates are removed and membership is kept |
| Wuxing.JudgeYongshen | bazi_agent/analyzer.py:228-267 | the four lists for each status, in terms of the day master's element |
| Wuxing.StrongRolesDistinct | bazi_agent/analyzer.py:233-239 | for a strong day master the four roles are four different elements, and the controller of the day master is in none |
| Wuxing.WeakRolesOverlap | bazi_agent/analyzer.py:240-254 | for a weak day master the day master's own element is both 用神 and the only 仇神 |
| Wuxing.AnalyzeWuxing | bazi_agent/analyzer.py:100-163 | the distribution is the double-valued tally, within 320 units of the exact one; positions; max and min are present and are the first extreme keys; the missing elements are those with exact tally at most 0.3, in 金木水火土 order; the strength is never 身弱; the favour lists follow from the status |
| Wuxing.HealthRisks | bazi_agent/analyzer.py:606-621 | the kidney is at risk iff water is missing, the liver iff wood is, in that order |
| Shishen.GetShishen | bazi_agent/analyzer.py:301-333 | each pair of labels matches exactly one element relation, the first label of a pair is taken at equal polarity, and 未知 never occurs |
| Shishen.DayMasterIsBiJian | bazi_agent/analyzer.py:301-307 | the day master is its own 比肩 |
| Shishen.ScanGods | bazi_agent/analyzer.py:269-293 | the loop's counter is the tally of each stem (1) and main hidden stem (0.5), with positions in order |
| Shishen.DistributionTotal | bazi_agent/analyzer.py:269-293 | the ten-god weights sum to 6, and 比肩 weighs at least 1 |
| Shishen.NoUnknownGod | bazi_agent/analyzer.py:269-293 | no stem is classified 未知 |
| Shishen.Combinations | bazi_agent/analyzer.py:335-355 | 官杀混杂 iff both 正官 and 七杀 occur, 食伤泄秀 iff both 食神 and 伤官 occur, in that order |
| Shishen.AnalyzeShishen | bazi_agent/analyzer.py:269-299 | the distribution, positions and combinations above, with total 6 and no 未知 |
| Shishen.GejuOfGod | bazi_agent/analyzer.py:409-420 | only 比肩, 劫财 and 未知 give 普通格局 |
| Shishen.NormalGeju | bazi_agent/analyzer.py:402-427 | always 正格 at 中等; 普通格局 exactly when the month stem shares the day master's element, and each named pattern exactly for its element relation and polarity (食神格 for the element the day master generates at equal polarity, 伤官格 at opposite, and so on for 杀, 官, 财 and 印) |
| Shishen.NoSpecialGeju | bazi_agent/analyzer.py:368-400 | the special-pattern branch never fires |
| Shishen.AnalyzeGeju | bazi_agent/analyzer.py:357-366 | the pattern is always the normal one |
| Shishen.WealthOf | bazi_agent/analyzer.py:574-589 | 中等偏上 iff 正财 occurs, else 较好 iff 偏财 occurs; the source is 工资 iff 正财 occurs |
| Shishen.MarriageOf | bazi_agent/analyzer.py:591-604 | 中等偏上 iff 正财 occurs, otherwise 中等 |
| Shishen.AnalyzeCareer | bazi_agent/analyzer.py:539-572 | the pattern's list, then 政府机关/公职, 军警/执法, 金融/会计, 教师/培训 in that order, each only when earned and not already listed; hence the fields are the union, the appended fields are distinct and new |
| Shishen.ExtraFields | bazi_agent/analyzer.py:555-566 | the fields of a given order that are earned and not in the base list, at most one per listed field |
| Shishen.ExtraFieldsDistinct | bazi_agent/analyzer.py:555-566 | drawn from a list without repeats, the appended fields have none |
| Shishen.CareerOrderFacts | bazi_agent/analyzer.py:555-566 | the four fields are distinct, and each is earned exactly by its own ten gods (正官; 七杀; 正财; 食神 or 伤官) |
| Shishen.CareerFieldsFacts | bazi_agent/analyzer.py:546-566 | the base list followed by the extra fields keeps the base as prefix, adds at most four, and holds exactly the base and the earned fields |
| Shishen.AppendEarned | bazi_agent/analyzer.py:554-566 | the four checks in source order leave the base followed by the extra fields |
| Shishen.AddField | bazi_agent/analyzer.py:555-566 | one check appends its field exactly when earned and missing, extending the extra fields by one step of the order |
| Personality.ConditionNeedsStrength | bazi_agent/analyzer.py:500-524 | a condition holds only as 身弱 with a weak day master or 身旺/身强 with a strong one; 官杀旺且为用神 never holds |
| Personality.FirstMatchSpec | bazi_agent/analyzer.py:484-493 | the dimension score is the range midpoint of the first rule that holds, and 5.0 when none does |
| Personality.ScoreDimension | bazi_agent/analyzer.py:484-493 | the rule loop with early exit computes that first-match score |
| Personality.LevelOf | bazi_agent/analyzer.py:526-537 | 非常突出 exactly from 8, 突出 from 7 up to 8, 良好 from 6 up to 7, 中等 from 4 up to 6, 较弱 below 4 |
| Personality.LevelMonotone | bazi_agent/analyzer.py:526-537 | a higher score never gets a lower level, and 5.0 is 中等 |
| Personality.CalculateScores | bazi_agent/analyzer.py:467-498 | all ten dimensions in order, each with its first-match score and level |
| Personality.BalancedScoresDefault | bazi_agent/analyzer.py:467-524 | a balanced day master scores 5.0 (中等) on every dimension |
| Personality.TraitsOf | bazi_agent/analyzer.py:444-462 | the traits, strengths and weaknesses are exactly those of the present gods with table entries, taking the first two for strengths and weaknesses |
| Personality.AnalyzePersonality | bazi_agent/analyzer.py:429-465 | the trait sets and all ten dimension scores |
| Shensha.JieshaBranch | bazi_agent/analyzer.py:771-778 | 劫煞 depends only on the year branch's triad: 亥, 寅, 巳 or 申 |
| Shensha.ZaishaBranch | bazi_agent/analyzer.py:795-802 | 灾煞 depends only on the year branch's triad: 子, 卯, 午 or 酉 |
| Shensha.SeasonalMarkers | bazi_agent/analyzer.py:795-832 | 灾煞 is the branch after 劫煞; 孤辰 and 寡宿 are the season's first branch plus 3 and minus 1 |
| Shensha.FirstDetail | bazi_agent/analyzer.py:758-769 | a marker scan records at most one detail; one exactly when some pillar matches, at the first matching pillar with that pillar's branch |
| Shensha.ScanFirst | bazi_agent/analyzer.py:758-769 | the loop with break finds the first matching pillar |
| Shensha.FirstHitUnique | bazi_agent/analyzer.py:758-769 | the first match is unique: any index meeting its description is it |
| Shensha.TaohuaDetails | bazi_agent/analyzer.py:925-953 | 桃花 is recorded at most once, exactly when the year branch's or the day branch's entry matches some pillar; at the first pillar matching the year's entry when that one matches, otherwise at the first matching the day's |
| Shensha.TaohuaBy | bazi_agent/analyzer.py:925-953 | one lookup records a detail exactly when the key has an entry that matches some pillar, at the first such pillar |
| Shensha.TianyiDetails | bazi_agent/analyzer.py:862-877 | 天乙贵人 is recorded at most once, exactly when the day stem's entry matches some pillar, at the first such pillar |
| Shensha.WenchangDetails | bazi_agent/analyzer.py:878-893 | 文昌贵人 is recorded at most once, exactly when the day stem's branch occurs in the chart, at its first pillar with that branch |
| Shensha.LovePresence | bazi_agent/analyzer.py:895-919 | 红鸾 (天喜) is recorded exactly when the year branch's entry names one of the month, day and hour branches, and every record carries that branch |
| Shensha.GuirenDetails | bazi_agent/analyzer.py:862-919 | only 天乙贵人, 文昌贵人, 红鸾 and 天喜 come from these scans (which ones: Shensha.JishenPresence) |
| Shensha.AnalyzeShensha | bazi_agent/analyzer.py:738-960 | the scans in order produce the markers and details of the chart |
| Shensha.XiongshaAtFirstMatch | bazi_agent/analyzer.py:748-860 | each inauspicious marker appears at most once, at its first matching pillar, and the name list matches the details |
| Shensha.XiongshaPresence | bazi_agent/analyzer.py:748-860 | 羊刃, 劫煞, 灾煞, 孤辰 and 寡宿 are each listed exactly when the marker's table branch occurs among the four branches |
| Shensha.XiongshaBranches | bazi_agent/analyzer.py:748-860 | each inauspicious detail carries its marker's table branch |
| Shensha.JishenShape | bazi_agent/analyzer.py:862-952 | 天乙贵人, 文昌贵人 and 桃花 are each recorded at most once |
| Shensha.JishenPresence | bazi_agent/analyzer.py:862-953 | each auspicious marker is in the set exactly when its rule entry exists and matches: 天乙贵人 and 文昌贵人 by the day stem, 红鸾 and 天喜 by the year branch at the later pillars, 桃花 by the year branch or else the day branch |
| Shensha.LoveNeverAtYear | bazi_agent/analyzer.py:895-919 | 红鸾 and 天喜 are only recorded at the month, day and hour pillars |
| Dayun.DirectionRule | bazi_agent/dayun.py:59-65 | forward iff the year stem's polarity is yang exactly when the gender is male |
| Dayun.ScanJieSpec | bazi_agent/dayun.py:127-183 | the search finds nothing iff no listed term lies on the searched side, and otherwise the nearest term strictly on that side, the earliest listed on ties |
| Dayun.FindNearestJie | bazi_agent/dayun.py:127-183 | the loop computes that search, forward for the next term and backward for the previous one |
| Dayun.RoundDays | bazi_agent/dayun.py:84-90 | the day count is the distance rounded to the nearest day, half a day rounding up |
| Dayun.QiyunOf | bazi_agent/dayun.py:92-95 | 3·years + months/4 equals the days, with months 0, 4 or 8 |
| Dayun.QiyunSpec | bazi_agent/dayun.py:81-105 | with no term, the start age is 1 with 0 months; otherwise it is the rounded day distance converted as above |
| Dayun.ArrangeDayun | bazi_agent/dayun.py:185-223 | ten decades, each the month pillar moved i + 1 steps in the direction, with ages start + 10i .. +9 |
| Dayun.StepsWalkTheCycle | bazi_agent/dayun.py:195-221 | each decade is the next 60-cycle term in the chosen direction, and starts the age and year after the previous one ends |
| Dayun.CalculateDayun | bazi_agent/dayun.py:30-121 | the direction, start age, months and start moment from the nearest term, and the ten decades |
| Dayun.EvaluateDayun | bazi_agent/analyzer.py:721-736 | 吉 iff the stem or branch element is favourable; otherwise 凶 iff one is unfavourable |
| Dayun.DayunVerdicts | bazi_agent/analyzer.py:721-736 | every decade is 平 for a balanced day master, and a decade of the day master's own element is 凶 for a strong one |
| Dayun.AnalyzeDayun | bazi_agent/analyzer.py:678-719 | every decade rated in order; the current decade is the first |
| Liunian.RelationReading | bazi_agent/liunian.py:79-121 | the whole reading for each case: 流年生用神/大吉/5 exactly when the year's element generates the reference, 流年克用神/大凶/1 when it controls it, 流年助用神/吉/4 when they are equal, 流年泄用神/小凶/2 when the reference generates it, 无特殊关系/平/3 when the reference controls it |
| Liunian.Invert | bazi_agent/liunian.py:200-218 | 大吉 becomes 流年生忌神/凶/2, 大凶 becomes 流年克忌神/吉/4, and any other reading passes through unchanged |
| Liunian.InvertedDegree | bazi_agent/liunian.py:187-218 | the unfavourable reading's degree is 2, 3 or 4, and 3 for an empty list |
| Liunian.ChongIsHalfTurn | bazi_agent/liunian.py:47-55 | each branch clashes with the one six places on; the table is an involution without fixed points |
| Liunian.ClashPartner | bazi_agent/liunian.py:130-132 | a pillar clashes exactly when its branch is the year branch's partner |
| Liunian.ClashHits | bazi_agent/liunian.py:123-147 | only clashing positions, each with its own branch and importance 最高 at the day pillar, 高 at the month pillar and 中 elsewhere, in increasing position order |
| Liunian.ClashHitsComplete | bazi_agent/liunian.py:123-147 | every clashing position is reported, with its branch and importance |
| Liunian.ClashHitsEmpty | bazi_agent/liunian.py:123-147 | the list is empty exactly when no position clashes |
| Liunian.CheckChong | bazi_agent/liunian.py:123-147 | the loop computes ClashHits, and every clashing position is in the result |
| Liunian.ChongEntries | bazi_agent/liunian.py:229-237 | the clash list is never empty: one no-clash marker stands in for an empty one |
| Liunian.VerdictTable | bazi_agent/liunian.py:240-248 | a year is 吉 only for (5, ≥3) or (4, 4), and 凶 exactly for y ≤ 2 or (3, 2) |
| Liunian.AnalyzeLiunian | bazi_agent/liunian.py:159-257 | the year's stem element read against the first favourable and the inverted first unfavourable element; the clash list holds exactly the clashing pillars, or the single no-clash marker exactly when none clashes; the weighted score and verdict |
| Liunian.BalancedYearsAreFair | bazi_agent/liunian.py:174-248 | with no favourable or unfavourable element every year scores 3.0 and is 平 |
| Liunian.StrongOwnElementYear | bazi_agent/liunian.py:174-248 | for a strong day master a year of its own element reads 流年克用神/大凶/1 against the favourable element and, uninverted, 流年助用神/吉/4 against the unfavourable one, and is 凶 |
| Liunian.AnalyzeDecade | bazi_agent/analyzer.py:962-988 | ten years from the birth year, each with its pillar, both readings, its clash list, score and verdict as above; the current year is the first reading and the next year the second |

## Left out

- Date validation and lunar conversion by the calendar library. A birth
  moment is valid when Python's `datetime` accepts it (years 1..9999).
- The calendar library's outputs are model inputs:
  - the year and month pillars and the solar-term table in `calculate_dayun`;
  - each year's pillar in `get_liunian_info`.
- The rule files and their parsing are not part of this model. The tables
  they yield are parameters:
  - tianyi_guiren, wenchang_guiren, hongluan_tianxi and taohua;
  - geju_career;
  - the ten-god personality traits and the personality scoring rules.
- `_get_coordinates_by_location`, a substring match over a hard-coded city
  table: its result is an input.
- Float rounding outside the element tally is not modelled:
  - the percentages rounded to two decimals in `analyze_wuxing`;
  - `round(score, 1)` in the personality and annual scores.
  Those scores are exact scaled integers instead. For the annual verdict
  this is exact for integer degrees.
- Wuxing.IsMissing: compares the count with 5% of the total exactly,
  where the source rounds the `sum` of the doubles and the division
  `count / total_count`. Wuxing.MissingMargin shows every share is below
  4% or above 5.1%, so those roundings cannot change the list.
- Shishen.SpecialGeju: compares 70% of the total exactly, where the
  source divides doubles. The branch is unreachable (Shishen.NoSpecialGeju),
  so this has no effect.
- Personality.TraitsOf: keeps every strength and weakness as a set. The
  source keeps the first five of an unordered set, which is an arbitrary
  five.
- `list(set(...))` results are modelled as sets: the auspicious marker
  names, 仇神 and the personality traits.
- Moments in the decade cycle are whole seconds on one timeline. The start
  date is that moment; its `%Y-%m-%d` text is not modelled.
- Dayun.CalculateDayun: does not model the overflow error that
  `datetime + timedelta` raises past year 9999. It also does not model the
  error handling that returns an empty decade list.
- Liunian.AnalyzeDecade: does not model the error path that returns an
  empty list when the calendar library fails.
- Liunian.AnalyzeDecade: takes each year's pillar as the input
  `pillarOf(year)`. `get_liunian_info` reads the lunar year of 1 January
  of that year (bazi_agent/liunian.py:56-60). That date falls before the
  lunar new year, so the library reports the previous year's pillar. The
  model does not fix which year's pillar the input is.
- Descriptions, tags, advice texts and log messages.
- `analyze_interpersonal`, the language-model client and the orchestration
  layer.
