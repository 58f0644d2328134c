/**
 * Decade cycles (大运): the direction rule, the search for the nearest
 * sectional solar term (节) before or after birth, the conversion of the
 * day distance into a starting age, the ten decade pillars walked from the
 * month pillar, and the favourable/unfavourable reading of each decade.
 *
 * Moments are whole seconds on one common timeline. The solar-term table
 * and the year and month pillars come from the calendar library and are
 * inputs here.
 */
module Dayun {
  import opened Wrappers
  import opened Ganzhi
  import opened Wuxing

  // ---------------------------------------------------------------------------
  // Direction (顺排 / 逆排)
  // ---------------------------------------------------------------------------

  /** 甲丙戊庚壬, the yang stems of the source's `yang_gan` list. */
  predicate IsYangStem(s: Stem) {
    s in {0, 2, 4, 6, 8}
  }

  /** The gender string is compared with 男; anything else counts as female. */
  predicate IsMale(gender: string) {
    gender == "男"
  }

  /** 阳男阴女顺排, 阴男阳女逆排. */
  predicate IsShun(yearStem: Stem, gender: string) {
    (IsYangStem(yearStem) && IsMale(gender)) || (!IsYangStem(yearStem) && !IsMale(gender))
  }

  /** The direction is forward exactly when the year stem's polarity matches the gender. */
  lemma DirectionRule(yearStem: Stem, gender: string)
    ensures IsShun(yearStem, gender) <==> ((StemPolarity(yearStem) == Yang) == IsMale(gender))
  {
  }

  // ---------------------------------------------------------------------------
  // _find_next_jie / _find_prev_jie
  // ---------------------------------------------------------------------------

  /** The twelve sectional terms, in the order the search visits them. */
  const JieqiNames: seq<string> :=
    ["立春", "惊蛰", "清明", "立夏", "芒种", "小暑",
     "立秋", "白露", "寒露", "立冬", "大雪", "小寒"]

  /** A term the search found: its place in JieqiNames, its name and its moment. */
  datatype Jie = Jie(index: nat, name: string, time: int)

  /** Term i is listed in the table and lies strictly on the searched side of birth. */
  predicate Candidate(table: map<string, int>, birth: int, forward: bool, i: int) {
    0 <= i < |JieqiNames| && JieqiNames[i] in table
    && (if forward then table[JieqiNames[i]] > birth else table[JieqiNames[i]] < birth)
  }

  /** The distance in seconds from birth to a moment on the searched side. */
  function Distance(birth: int, forward: bool, t: int): int {
    if forward then t - birth else birth - t
  }

  /**
   * The search after visiting the first n terms: a candidate replaces the
   * current result only when it is strictly nearer.
   */
  function ScanJie(table: map<string, int>, birth: int, forward: bool, n: nat): Option<Jie>
    requires n <= |JieqiNames|
  {
    if n == 0 then None
    else
      var prev := ScanJie(table, birth, forward, n - 1);
      var name := JieqiNames[n - 1];
      if Candidate(table, birth, forward, n - 1)
         && (prev.None? || Distance(birth, forward, table[name]) < Distance(birth, forward, prev.value.time))
      then Some(Jie(n - 1, name, table[name]))
      else prev
  }

  /** j is a candidate among the first n terms, recorded with its own name and moment. */
  predicate FoundAmong(table: map<string, int>, birth: int, forward: bool, n: nat, j: Jie) {
    j.index < n && Candidate(table, birth, forward, j.index)
    && j.name == JieqiNames[j.index] && j.time == table[j.name]
  }

  /**
   * The search finds nothing exactly when no visited term is a candidate;
   * otherwise it finds a candidate at minimal distance, and no earlier term
   * is as near (ties go to the term listed first).
   */
  lemma {:induction false} ScanJieSpec(table: map<string, int>, birth: int, forward: bool, n: nat)
    requires n <= |JieqiNames|
    ensures ScanJie(table, birth, forward, n).None? <==>
      forall i :: 0 <= i < n ==> !Candidate(table, birth, forward, i)
    ensures ScanJie(table, birth, forward, n).Some? ==>
      var j := ScanJie(table, birth, forward, n).value;
      && FoundAmong(table, birth, forward, n, j)
      && (forall i :: 0 <= i < n && Candidate(table, birth, forward, i) ==>
            Distance(birth, forward, table[JieqiNames[i]]) >= Distance(birth, forward, j.time))
      && (forall i :: 0 <= i < j.index && Candidate(table, birth, forward, i) ==>
            Distance(birth, forward, table[JieqiNames[i]]) > Distance(birth, forward, j.time))
  {
    ScanJieFinds(table, birth, forward, n);
    ScanJieNearest(table, birth, forward, n);
  }

  lemma {:induction false} ScanJieFinds(table: map<string, int>, birth: int, forward: bool, n: nat)
    requires n <= |JieqiNames|
    ensures ScanJie(table, birth, forward, n).None? <==>
      forall i :: 0 <= i < n ==> !Candidate(table, birth, forward, i)
    ensures ScanJie(table, birth, forward, n).Some? ==>
      FoundAmong(table, birth, forward, n, ScanJie(table, birth, forward, n).value)
  {
    if n > 0 {
      ScanJieFinds(table, birth, forward, n - 1);
    }
  }

  lemma ScanJieNearest(table: map<string, int>, birth: int, forward: bool, n: nat)
    requires n <= |JieqiNames|
    ensures ScanJie(table, birth, forward, n).Some? ==>
      var j := ScanJie(table, birth, forward, n).value;
      && (forall i :: 0 <= i < n && Candidate(table, birth, forward, i) ==>
            Distance(birth, forward, table[JieqiNames[i]]) >= Distance(birth, forward, j.time))
      && (forall i :: 0 <= i < j.index && Candidate(table, birth, forward, i) ==>
            Distance(birth, forward, table[JieqiNames[i]]) > Distance(birth, forward, j.time))
  {
    ScanJieMinimal(table, birth, forward, n);
    ScanJieEarliest(table, birth, forward, n);
  }

  /** No visited candidate is nearer than the one found. */
  lemma {:induction false} ScanJieMinimal(table: map<string, int>, birth: int, forward: bool, n: nat)
    requires n <= |JieqiNames|
    ensures ScanJie(table, birth, forward, n).Some? ==>
      forall i :: 0 <= i < n && Candidate(table, birth, forward, i) ==>
        Distance(birth, forward, table[JieqiNames[i]]) >= Distance(birth, forward, ScanJie(table, birth, forward, n).value.time)
  {
    if n > 0 {
      ScanJieMinimal(table, birth, forward, n - 1);
      ScanJieFinds(table, birth, forward, n - 1);
      var prev := ScanJie(table, birth, forward, n - 1);
      if Candidate(table, birth, forward, n - 1)
         && (prev.None? || Distance(birth, forward, table[JieqiNames[n - 1]]) < Distance(birth, forward, prev.value.time)) {
        forall i | 0 <= i < n - 1 && Candidate(table, birth, forward, i)
          ensures Distance(birth, forward, table[JieqiNames[i]]) > Distance(birth, forward, table[JieqiNames[n - 1]])
        {
          assert prev.Some?;
        }
      } else {
        assert ScanJie(table, birth, forward, n) == prev;
      }
    }
  }

  /** Every earlier candidate is strictly farther: ties keep the term listed first. */
  lemma {:induction false} ScanJieEarliest(table: map<string, int>, birth: int, forward: bool, n: nat)
    requires n <= |JieqiNames|
    ensures ScanJie(table, birth, forward, n).Some? ==>
      var j := ScanJie(table, birth, forward, n).value;
      forall i :: 0 <= i < j.index && Candidate(table, birth, forward, i) ==>
        Distance(birth, forward, table[JieqiNames[i]]) > Distance(birth, forward, j.time)
  {
    if n > 0 {
      ScanJieEarliest(table, birth, forward, n - 1);
      ScanJieMinimal(table, birth, forward, n - 1);
      ScanJieFinds(table, birth, forward, n - 1);
      var prev := ScanJie(table, birth, forward, n - 1);
      if Candidate(table, birth, forward, n - 1)
         && (prev.None? || Distance(birth, forward, table[JieqiNames[n - 1]]) < Distance(birth, forward, prev.value.time)) {
        forall i | 0 <= i < n - 1 && Candidate(table, birth, forward, i)
          ensures Distance(birth, forward, table[JieqiNames[i]]) > Distance(birth, forward, table[JieqiNames[n - 1]])
        {
          assert prev.Some?;
        }
      } else {
        assert ScanJie(table, birth, forward, n) == prev;
      }
    }
  }

  /**
   * `_find_next_jie` (forward) and `_find_prev_jie` (backward): visit the
   * twelve terms in order, keeping the strictly nearest candidate.
   */
  method FindNearestJie(birth: int, table: map<string, int>, forward: bool) returns (r: Option<Jie>)
    ensures r == ScanJie(table, birth, forward, |JieqiNames|)
  {
    r := None;
    var minDiff: Option<int> := None;
    var i := 0;
    while i < |JieqiNames|
      invariant 0 <= i <= |JieqiNames|
      invariant r == ScanJie(table, birth, forward, i)
      invariant minDiff == (if r.None? then None else Some(Distance(birth, forward, r.value.time)))
    {
      var name := JieqiNames[i];
      if name in table {
        var t := table[name];
        if (forward && t > birth) || (!forward && t < birth) {
          var diff := if forward then t - birth else birth - t;
          if minDiff.None? || diff < minDiff.value {
            minDiff := Some(diff);
            r := Some(Jie(i, name, t));
          }
        }
      }
      i := i + 1;
    }
  }

  // ---------------------------------------------------------------------------
  // Day distance to starting age
  // ---------------------------------------------------------------------------

  const SecondsPerDay := 86400

  /**
   * Whole days, with a remainder of twelve hours or more counting as one
   * more day.
   */
  function RoundDays(seconds: nat): (days: nat)
    ensures days * SecondsPerDay - SecondsPerDay / 2 <= seconds < days * SecondsPerDay + SecondsPerDay / 2
  {
    var d := seconds / SecondsPerDay;
    if seconds % SecondsPerDay >= SecondsPerDay / 2 then d + 1 else d
  }

  /** Three days make one year of age and one day four months. */
  function QiyunOf(days: nat): (age: (nat, nat))
    ensures 3 * age.0 + age.1 / 4 == days
    ensures age.1 in {0, 4, 8}
  {
    (days / 3, (days % 3) * 4)
  }

  // ---------------------------------------------------------------------------
  // _arrange_dayun
  // ---------------------------------------------------------------------------

  /** One decade: its number, its pillar, and the ages and years it covers. */
  datatype Step = Step(step: nat, pillar: Pillar, startAge: int, endAge: int, startYear: int, endYear: int)

  /** +1 forward, -1 backward. */
  function Sign(shun: bool): int {
    if shun then 1 else -1
  }

  /** Decade i (from 0) of a chart with the given month pillar. */
  function StepAt(month: Pillar, shun: bool, qiyunAge: int, birthYear: int, i: nat): Step {
    var d := Sign(shun) * (i + 1);
    var start := qiyunAge + 10 * i;
    Step(i + 1, Pillar((month.stem + d) % 10, (month.branch + d) % 12),
         start, start + 9, birthYear + start, birthYear + start + 9)
  }

  /** Ten decades, each read off the month pillar. */
  method ArrangeDayun(month: Pillar, shun: bool, qiyunAge: int, birthYear: int) returns (steps: seq<Step>)
    ensures |steps| == 10
    ensures forall i :: 0 <= i < 10 ==> steps[i] == StepAt(month, shun, qiyunAge, birthYear, i)
  {
    steps := [];
    for i := 0 to 10
      invariant |steps| == i
      invariant forall k :: 0 <= k < i ==> steps[k] == StepAt(month, shun, qiyunAge, birthYear, k)
    {
      var g, z;
      if shun {
        g := (month.stem + i + 1) % 10;
        z := (month.branch + i + 1) % 12;
      } else {
        g := (month.stem - i - 1) % 10;
        z := (month.branch - i - 1) % 12;
      }
      var start := qiyunAge + i * 10;
      steps := steps + [Step(i + 1, Pillar(g, z), start, start + 9, birthYear + start, birthYear + start + 9)];
    }
  }

  /** Moving a sexagenary pillar by d in both stem and branch moves it by d in the 60-cycle. */
  lemma ShiftIsCycleStep(p: Pillar, d: int)
    requires IsSexagenary(p)
    ensures Pillar((p.stem + d) % 10, (p.branch + d) % 12) == CyclePillar(CycleIndex(p) + d)
  {
    CycleShift(CycleIndex(p), d);
  }

  /**
   * The decades walk the 60-cycle from the month pillar one term at a time
   * in the chosen direction, and consecutive decades cover consecutive
   * ages and years.
   */
  lemma StepsWalkTheCycle(month: Pillar, shun: bool, qiyunAge: int, birthYear: int, i: nat)
    requires IsSexagenary(month)
    ensures StepAt(month, shun, qiyunAge, birthYear, i).pillar == CyclePillar(CycleIndex(month) + Sign(shun) * (i + 1))
    ensures IsSexagenary(StepAt(month, shun, qiyunAge, birthYear, i).pillar)
    ensures StepAt(month, shun, qiyunAge, birthYear, i + 1).pillar
         == CyclePillar(CycleIndex(StepAt(month, shun, qiyunAge, birthYear, i).pillar) + Sign(shun))
    ensures StepAt(month, shun, qiyunAge, birthYear, i + 1).startAge == StepAt(month, shun, qiyunAge, birthYear, i).endAge + 1
    ensures StepAt(month, shun, qiyunAge, birthYear, i + 1).startYear == StepAt(month, shun, qiyunAge, birthYear, i).endYear + 1
  {
    StepOnCycle(month, shun, qiyunAge, birthYear, i);
    NextStepOnCycle(month, shun, qiyunAge, birthYear, i);
  }

  /** Decade i sits i + 1 terms from the month pillar on the 60-cycle. */
  lemma StepOnCycle(month: Pillar, shun: bool, qiyunAge: int, birthYear: int, i: nat)
    requires IsSexagenary(month)
    ensures StepAt(month, shun, qiyunAge, birthYear, i).pillar == CyclePillar(CycleIndex(month) + Sign(shun) * (i + 1))
    ensures IsSexagenary(StepAt(month, shun, qiyunAge, birthYear, i).pillar)
  {
    ShiftIsCycleStep(month, Sign(shun) * (i + 1));
  }

  /** Decade i + 1 is one term after decade i in the chosen direction. */
  lemma NextStepOnCycle(month: Pillar, shun: bool, qiyunAge: int, birthYear: int, i: nat)
    requires IsSexagenary(month)
    ensures IsSexagenary(StepAt(month, shun, qiyunAge, birthYear, i).pillar)
    ensures StepAt(month, shun, qiyunAge, birthYear, i + 1).pillar
         == CyclePillar(CycleIndex(StepAt(month, shun, qiyunAge, birthYear, i).pillar) + Sign(shun))
  {
    var s := Sign(shun);
    var k := CycleIndex(month);
    StepOnCycle(month, shun, qiyunAge, birthYear, i);
    StepOnCycle(month, shun, qiyunAge, birthYear, i + 1);
    var p := StepAt(month, shun, qiyunAge, birthYear, i).pillar;
    CycleShift(CycleIndex(p), s);
    CycleShift(k + s * (i + 1), s);
    assert k + s * (i + 1) + s == k + s * (i + 1 + 1);
  }

  // ---------------------------------------------------------------------------
  // calculate_dayun
  // ---------------------------------------------------------------------------

  /** What calculate_dayun returns; qiyunDate is a moment on the same timeline. */
  datatype DayunResult = DayunResult(
    yearPillar: Pillar, monthPillar: Pillar,
    qiyunAge: int, qiyunMonths: int, qiyunDate: int,
    shun: bool, steps: seq<Step>)

  /** The starting age, months and moment, from the term the search found (if any). */
  function QiyunFrom(birth: int, forward: bool, jie: Option<Jie>): (q: (int, int, int))
  {
    match jie
    case None => (1, 0, birth + 365 * SecondsPerDay)
    case Some(j) =>
      var diff := if j.time >= birth then j.time - birth else birth - j.time;
      var days := RoundDays(diff);
      (QiyunOf(days).0, QiyunOf(days).1, birth + days * SecondsPerDay)
  }

  /**
   * The starting age: with no term on the searched side, age 1 and no months;
   * otherwise three days of distance per year, rounded to whole days.
   */
  lemma QiyunSpec(birth: int, forward: bool, table: map<string, int>)
    ensures var jie := ScanJie(table, birth, forward, |JieqiNames|);
      var q := QiyunFrom(birth, forward, jie);
      && (jie.None? ==> q.0 == 1 && q.1 == 0)
      && (jie.Some? ==>
            && Distance(birth, forward, jie.value.time) > 0
            && var days := RoundDays(Distance(birth, forward, jie.value.time));
            && 3 * q.0 + q.1 / 4 == days
            && q.1 in {0, 4, 8}
            && q.2 == birth + days * SecondsPerDay)
  {
    ScanJieSpec(table, birth, forward, |JieqiNames|);
  }

  /** calculate_dayun, from the pillars and the term table the calendar library yields. */
  method CalculateDayun(birthYear: int, birth: int, gender: string, yearPillar: Pillar, monthPillar: Pillar,
                        table: map<string, int>)
    returns (res: DayunResult)
    ensures res.yearPillar == yearPillar && res.monthPillar == monthPillar
    ensures res.shun == IsShun(yearPillar.stem, gender)
    ensures (res.qiyunAge, res.qiyunMonths, res.qiyunDate)
         == QiyunFrom(birth, res.shun, ScanJie(table, birth, res.shun, |JieqiNames|))
    ensures |res.steps| == 10
    ensures forall i :: 0 <= i < 10 ==> res.steps[i] == StepAt(monthPillar, res.shun, res.qiyunAge, birthYear, i)
  {
    var shun := IsShun(yearPillar.stem, gender);
    var jie := FindNearestJie(birth, table, shun);
    var age, months, date;
    if jie.Some? {
      var diffSeconds := if jie.value.time >= birth then jie.value.time - birth else birth - jie.value.time;
      var days := diffSeconds / SecondsPerDay;
      if diffSeconds % SecondsPerDay >= SecondsPerDay / 2 {
        days := days + 1;
      }
      age := days / 3;
      months := (days % 3) * 4;
      date := birth + days * SecondsPerDay;
    } else {
      age, months, date := 1, 0, birth + 365 * SecondsPerDay;
    }
    var steps := ArrangeDayun(monthPillar, shun, age, birthYear);
    res := DayunResult(yearPillar, monthPillar, age, months, date, shun, steps);
  }

  // ---------------------------------------------------------------------------
  // analyze_dayun / _evaluate_dayun
  // ---------------------------------------------------------------------------

  /** 吉, 凶, 平. */
  datatype Verdict = Ji | Xiong | Ping

  /**
   * A decade is 吉 when its stem or branch element is favourable; otherwise
   * 凶 when either is unfavourable; otherwise 平.
   */
  function EvaluateDayun(p: Pillar, yongshen: seq<Element>, jishen: seq<Element>): (v: Verdict)
    ensures v == Ji <==> StemElement(p.stem) in yongshen || BranchElement(p.branch) in yongshen
    ensures v == Xiong <==> v != Ji && (StemElement(p.stem) in jishen || BranchElement(p.branch) in jishen)
  {
    var gan := StemElement(p.stem);
    var zhi := BranchElement(p.branch);
    if gan in yongshen || zhi in yongshen then Ji
    else if gan in jishen || zhi in jishen then Xiong
    else Ping
  }

  /**
   * With a balanced day master every decade is 平; with a strong one a decade
   * whose stem and branch both carry the day master's element is 凶.
   */
  lemma DayunVerdicts(p: Pillar, r: Element)
    ensures var f := JudgeYongshen(Balanced, r); EvaluateDayun(p, f.yongshen, f.jishen) == Ping
    ensures StemElement(p.stem) == r && BranchElement(p.branch) == r ==>
      var f := JudgeYongshen(Strong, r); EvaluateDayun(p, f.yongshen, f.jishen) == Xiong
  {
  }

  /** One decade with its reading. */
  datatype RatedStep = RatedStep(step: Step, evaluation: Verdict)

  /** What analyze_dayun returns. */
  datatype DayunAnalysis = DayunAnalysis(
    qiyunAge: int, qiyunMonths: int, qiyunDate: int, shun: bool,
    steps: seq<RatedStep>, current: Option<RatedStep>)

  /** analyze_dayun: rate every decade against the favourable and unfavourable elements. */
  method AnalyzeDayun(birthYear: int, birth: int, gender: string, yearPillar: Pillar, monthPillar: Pillar,
                      table: map<string, int>, favour: Favour)
    returns (a: DayunAnalysis)
    ensures |a.steps| == 10
    ensures forall i :: 0 <= i < 10 ==>
      a.steps[i].step == StepAt(monthPillar, a.shun, a.qiyunAge, birthYear, i)
      && a.steps[i].evaluation == EvaluateDayun(a.steps[i].step.pillar, favour.yongshen, favour.jishen)
    ensures a.shun == IsShun(yearPillar.stem, gender)
    ensures (a.qiyunAge, a.qiyunMonths, a.qiyunDate)
         == QiyunFrom(birth, a.shun, ScanJie(table, birth, a.shun, |JieqiNames|))
    ensures a.current == Some(a.steps[0])
  {
    var res := CalculateDayun(birthYear, birth, gender, yearPillar, monthPillar, table);
    var rated: seq<RatedStep> := [];
    for i := 0 to |res.steps|
      invariant |rated| == i
      invariant forall k :: 0 <= k < i ==>
        rated[k] == RatedStep(res.steps[k], EvaluateDayun(res.steps[k].pillar, favour.yongshen, favour.jishen))
    {
      rated := rated + [RatedStep(res.steps[i], EvaluateDayun(res.steps[i].pillar, favour.yongshen, favour.jishen))];
    }
    a := DayunAnalysis(res.qiyunAge, res.qiyunMonths, res.qiyunDate, res.shun, rated,
                       if |rated| > 0 then Some(rated[0]) else None);
  }
}
