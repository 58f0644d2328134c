/**
 * The calendar engine (CalendarCalc): a birth moment becomes four pillars.
 * The year pillar counts from the 1900 = 庚子 anchor, the day pillar counts
 * days from 1900-01-01 = 甲子, the month and hour branches come from fixed
 * tables and their stems from the five-tiger and five-rat rules. The
 * true-solar-time fix is the only step that changes the calculator's state.
 */
module Calendar {
  import opened Wrappers
  import opened Ganzhi

  // ---------------------------------------------------------------------
  // Proleptic Gregorian day numbers (what Python's datetime subtraction uses)
  // ---------------------------------------------------------------------

  predicate IsLeapYear(y: int) {
    y % 4 == 0 && (y % 100 != 0 || y % 400 == 0)
  }

  function DaysInMonth(y: int, m: int): (n: int)
    requires 1 <= m <= 12
    ensures 28 <= n <= 31
  {
    if m == 2 then (if IsLeapYear(y) then 29 else 28)
    else if m == 4 || m == 6 || m == 9 || m == 11 then 30
    else 31
  }

  /** Days of year y that lie before the first of month m. */
  function DaysBeforeMonth(y: int, m: int): int
    requires 1 <= m <= 12
  {
    var common: seq<int> := [0, 31, 59, 90, 120, 151, 181, 212, 243, 273, 304, 334];
    common[m - 1] + (if m > 2 && IsLeapYear(y) then 1 else 0)
  }

  /** Days from 0001-01-01 to y-m-d (Python's date.toordinal() minus one). */
  function DaysFromCivil(y: int, m: int, d: int): int
    requires 1 <= m <= 12
  {
    var p := y - 1;
    365 * p + p / 4 - p / 100 + p / 400 + DaysBeforeMonth(y, m) + d - 1
  }

  /** Days from 1900-01-01, the day-pillar epoch, to y-m-d. */
  function DayNumber(y: int, m: int, d: int): int
    requires 1 <= m <= 12
  {
    DaysFromCivil(y, m, d) - DaysFromCivil(1900, 1, 1)
  }

  /** The dates Python's datetime accepts. */
  predicate ValidDate(y: int, m: int, d: int) {
    1 <= y <= 9999 && 1 <= m <= 12 && 1 <= d <= DaysInMonth(y, m)
  }

  /** A birth moment the date check accepts. */
  predicate ValidMoment(y: int, m: int, d: int, h: int, mi: int) {
    ValidDate(y, m, d) && 0 <= h <= 23 && 0 <= mi <= 59
  }

  /** The calendar day after y-m-d. */
  function NextDate(y: int, m: int, d: int): (r: (int, int, int))
    requires 1 <= m <= 12
    ensures 1 <= r.1 <= 12
  {
    if d < DaysInMonth(y, m) then (y, m, d + 1)
    else if m < 12 then (y, m + 1, 1)
    else (y + 1, 1, 1)
  }

  lemma DivStep(y: int)
    ensures y / 4 - (y - 1) / 4 == (if y % 4 == 0 then 1 else 0)
    ensures y / 100 - (y - 1) / 100 == (if y % 100 == 0 then 1 else 0)
    ensures y / 400 - (y - 1) / 400 == (if y % 400 == 0 then 1 else 0)
  {
  }

  /** Consecutive calendar days have consecutive day numbers, across month and year ends. */
  lemma NextDateIsNextDay(y: int, m: int, d: int)
    requires 1 <= m <= 12 && 1 <= d <= DaysInMonth(y, m)
    ensures DayNumber(NextDate(y, m, d).0, NextDate(y, m, d).1, NextDate(y, m, d).2) == DayNumber(y, m, d) + 1
  {
    if d < DaysInMonth(y, m) {
    } else if m < 12 {
      MonthEndsWhereNextBegins(y, m);
    } else {
      YearEndsWhereNextBegins(y);
    }
  }

  lemma YearEndsWhereNextBegins(y: int)
    ensures DaysFromCivil(y + 1, 1, 1) == DaysFromCivil(y, 12, 31) + 1
  {
    DivStep(y);
    LeapDivisors(y);
  }

  lemma LeapDivisors(y: int)
    ensures y % 400 == 0 ==> y % 100 == 0
    ensures y % 100 == 0 ==> y % 4 == 0
  {
    if y % 400 == 0 {
      var q := y / 400;
      assert y == 100 * (4 * q);
      Mod100Multiple(4 * q);
    }
    if y % 100 == 0 {
      var q := y / 100;
      assert y == 4 * (25 * q);
      Mod4Multiple(25 * q);
    }
  }

  lemma Mod100Multiple(k: int)
    ensures (100 * k) % 100 == 0
  {
  }

  lemma Mod4Multiple(k: int)
    ensures (4 * k) % 4 == 0
  {
  }

  lemma MonthEndsWhereNextBegins(y: int, m: int)
    requires 1 <= m < 12
    ensures DaysBeforeMonth(y, m + 1) == DaysBeforeMonth(y, m) + DaysInMonth(y, m)
  {
  }

  // ---------------------------------------------------------------------
  // The four pillars
  // ---------------------------------------------------------------------

  /** Year pillar (bazi_agent/calendar.py:216-242): 1900 is 庚子, so 1864 is 甲子. */
  function YearPillar(year: int): (p: Pillar)
    ensures p == CyclePillar(year - 1864)
  {
    var diff := year - 1900;
    assert (36 + diff) % 10 == (6 + diff) % 10 by { ModAdd10(6 + diff, 3); }
    assert (36 + diff) % 12 == diff % 12 by { ModAdd12(diff, 3); }
    Pillar((6 + diff) % 10, diff % 12)
  }

  /** Month-order branch table: 1 → 寅 … 11 → 子, 12 → 丑; anything else falls back to 寅. */
  function MonthBranch(month: int): (b: Branch)
    ensures 1 <= month <= 12 ==> b == (month + 1) % 12
    ensures !(1 <= month <= 12) ==> b == 2
  {
    var table: map<int, Branch> := map[1 := 2, 2 := 3, 3 := 4, 4 := 5, 5 := 6, 6 := 7,
                                       7 := 8, 8 := 9, 9 := 10, 10 := 11, 11 := 0, 12 := 1];
    if month in table then table[month] else 2
  }

  /**
   * The five-tiger (五虎遁) table indexed by year stem mod 5: 甲/己 → 丙,
   * 乙/庚 → 戊, 丙/辛 → 庚, 丁/壬 → 壬, 戊/癸 → 甲. The rule names these as
   * the stems of the 寅 month, but MonthStem adds the month branch's own
   * index (寅 = 2) to them, so they land on 子 (index 0) instead.
   */
  function TigerBase(yearStem: Stem): (s: Stem)
    ensures s == (2 * (yearStem % 5) + 2) % 10
  {
    var table: map<int, Stem> := map[0 := 2, 1 := 4, 2 := 6, 3 := 8, 4 := 0,
                                     5 := 2, 6 := 4, 7 := 6, 8 := 8, 9 := 0];
    table[yearStem % 5]
  }

  /** Month stem: the table stem advanced by the month branch's index (子 = 0). */
  function MonthStem(yearStem: Stem, monthBranch: Branch): (s: Stem)
    ensures s % 2 == monthBranch % 2
    ensures s == (2 * (yearStem % 5) + 2 + monthBranch) % 10
  {
    var s := (TigerBase(yearStem) + monthBranch) % 10;
    assert TigerBase(yearStem) + monthBranch == monthBranch + 2 * (TigerBase(yearStem) / 2);
    assert s % 2 == monthBranch % 2 by { Mod10Parity(TigerBase(yearStem) + monthBranch); }
    assert s == (2 * (yearStem % 5) + 2 + monthBranch) % 10 by {
      var t := 2 * (yearStem % 5) + 2;
      assert t % 10 == TigerBase(yearStem);
      assert t == t % 10 + 10 * (t / 10);
      ModAdd10(t % 10 + monthBranch, t / 10);
    }
    s
  }

  lemma Mod10Parity(x: int)
    ensures (x % 10) % 2 == x % 2
  {
    var q := x / 10;
    var r := x % 10;
    assert x == r + 2 * (5 * q);
    ModAdd2(r, 5 * q);
  }

  lemma ModAdd2(a: int, q: int)
    ensures (a + 2 * q) % 2 == a % 2
  {
  }

  /** Month pillar (bazi_agent/calendar.py:244-282). */
  function MonthPillar(year: int, month: int): (p: Pillar)
    ensures IsSexagenary(p)
    ensures p.branch == MonthBranch(month)
  {
    var b := MonthBranch(month);
    Pillar(MonthStem(YearPillar(year).stem, b), b)
  }

  /**
   * The 寅 month comes out two stems after the five-tiger rule's stem: in a
   * 甲 year such as 1984 the first month is 戊寅 where the rule gives 丙寅.
   * The 子 and 丑 months, ten and eleven months after 寅, keep the rule's
   * stems: the table stem and the one after it.
   */
  lemma TigerMonthTwoStemsLate(yearStem: Stem)
    ensures MonthStem(yearStem, 2) == (TigerBase(yearStem) + 2) % 10
    ensures MonthStem(yearStem, 2) != TigerBase(yearStem)
    ensures MonthStem(yearStem, 0) == TigerBase(yearStem)
    ensures MonthStem(yearStem, 1) == (TigerBase(yearStem) + 1) % 10
    ensures MonthPillar(1984, 1) == Pillar(4, 2)
  {
    assert YearPillar(1984).stem == 0;
  }

  /** Year stems five apart give the same month stems. */
  lemma FiveTigerPeriod(s1: Stem, s2: Stem, b: Branch)
    requires s1 % 5 == s2 % 5
    ensures MonthStem(s1, b) == MonthStem(s2, b)
  {
  }

  /** Hence the month pillars of a year repeat five years later. */
  lemma MonthPillarRepeatsEveryFiveYears(year: int, month: int)
    ensures MonthPillar(year + 5, month) == MonthPillar(year, month)
  {
    var x := year - 1864;
    assert YearPillar(year).stem == x % 10;
    assert YearPillar(year + 5).stem == (x + 5) % 10;
    FiveApartMod5(x);
    FiveTigerPeriod(YearPillar(year + 5).stem, YearPillar(year).stem, MonthBranch(month));
  }

  lemma Mod10Mod5(x: int)
    ensures (x % 10) % 5 == x % 5
  {
    var q := x / 10;
    assert x == x % 10 + 5 * (2 * q);
  }

  lemma FiveApartMod5(x: int)
    ensures ((x + 5) % 10) % 5 == (x % 10) % 5
  {
    var q := x / 10;
    var r := x % 10;
    assert x + 5 == (r + 5) + 10 * q;
    ModAdd10(r + 5, q);
    assert r == 0 || r == 1 || r == 2 || r == 3 || r == 4 || r == 5 || r == 6 || r == 7 || r == 8 || r == 9;
  }

  /** Day pillar (bazi_agent/calendar.py:284-308): the day number's place in the 60-cycle. */
  function DayPillar(y: int, m: int, d: int): (p: Pillar)
    requires 1 <= m <= 12
    ensures p == CyclePillar(DayNumber(y, m, d))
  {
    var n := DayNumber(y, m, d);
    Pillar(n % 10, n % 12)
  }

  /** The epoch itself is 甲子. */
  lemma DayPillarAnchor()
    ensures DayPillar(1900, 1, 1) == Pillar(0, 0)
  {
  }

  /** The next calendar day is the next term of the 60-cycle: stem and branch both advance by one. */
  lemma DayPillarAdvances(y: int, m: int, d: int)
    requires 1 <= m <= 12 && 1 <= d <= DaysInMonth(y, m)
    ensures var (y', m', d') := NextDate(y, m, d);
      DayPillar(y', m', d') == Pillar((DayPillar(y, m, d).stem + 1) % 10, (DayPillar(y, m, d).branch + 1) % 12)
  {
    NextDateIsNextDay(y, m, d);
    var n := DayNumber(y, m, d);
    assert (n % 10 + 1) % 10 == (n + 1) % 10 by { ModAdd10(n % 10 + 1, n / 10); }
    assert (n % 12 + 1) % 12 == (n + 1) % 12 by { ModAdd12(n % 12 + 1, n / 12); }
  }

  /** Hour branch table: 23 and 0 → 子, hour h in 0..22 → branch h mod 12, anything else → 子. */
  function HourBranch(hour: int): (b: Branch)
    ensures 0 <= hour <= 22 ==> b == hour % 12
    ensures !(0 <= hour <= 22) ==> b == 0
  {
    var table: map<int, Branch> := map[23 := 0, 0 := 0, 1 := 1, 2 := 2, 3 := 3, 4 := 4, 5 := 5,
                                       6 := 6, 7 := 7, 8 := 8, 9 := 9, 10 := 10, 11 := 11,
                                       12 := 0, 13 := 1, 14 := 2, 15 := 3, 16 := 4, 17 := 5,
                                       18 := 6, 19 := 7, 20 := 8, 21 := 9, 22 := 10];
    if hour in table then table[hour] else 0
  }

  /** 五鼠遁: the stem of the 子 hour, indexed by day stem mod 5. */
  function RatBase(dayStem: Stem): (s: Stem)
    ensures s == 2 * (dayStem % 5)
  {
    var table: map<int, Stem> := map[0 := 0, 1 := 2, 2 := 4, 3 := 6, 4 := 8,
                                     5 := 0, 6 := 2, 7 := 4, 8 := 6, 9 := 8];
    table[dayStem % 5]
  }

  /** Hour stem from the day stem and the hour branch's index. */
  function HourStem(dayStem: Stem, hourBranch: Branch): (s: Stem)
    ensures s % 2 == hourBranch % 2
    ensures s == (2 * (dayStem % 5) + hourBranch) % 10
  {
    var s := (RatBase(dayStem) + hourBranch) % 10;
    Mod10Parity(RatBase(dayStem) + hourBranch);
    s
  }

  /** Hour pillar (bazi_agent/calendar.py:310-344). */
  function HourPillar(dayStem: Stem, hour: int): (p: Pillar)
    ensures IsSexagenary(p)
    ensures p.branch == HourBranch(hour)
  {
    var b := HourBranch(hour);
    Pillar(HourStem(dayStem, b), b)
  }

  /** Day stems five apart give the same hour stems. */
  lemma FiveRatPeriod(s1: Stem, s2: Stem, b: Branch)
    requires s1 % 5 == s2 % 5
    ensures HourStem(s1, b) == HourStem(s2, b)
  {
  }

  /** The chart `get_bazi` assembles (bazi_agent/calendar.py:184-214). */
  function ChartOf(year: int, month: int, day: int, hour: int): (c: Chart)
    requires 1 <= month <= 12
    ensures c.year == CyclePillar(year - 1864)
    ensures c.day == CyclePillar(DayNumber(year, month, day))
    ensures IsSexagenary(c.month) && IsSexagenary(c.hour)
    ensures c.month.branch == MonthBranch(month) && c.hour.branch == HourBranch(hour)
  {
    var dp := DayPillar(year, month, day);
    Chart(YearPillar(year), MonthPillar(year, month), dp, HourPillar(dp.stem, hour))
  }

  // ---------------------------------------------------------------------
  // True solar time (bazi_agent/calendar.py:168-182)
  // ---------------------------------------------------------------------

  /** Minutes into the day after shifting by 4 minutes per degree east of 120°E, wrapped once. */
  function CorrectedMinutes(hour: int, minute: real, longitude: real): real {
    var total := hour as real * 60.0 + minute + (longitude - 120.0) * 4.0;
    if total < 0.0 then total + 1440.0
    else if total >= 1440.0 then total - 1440.0
    else total
  }

  /** `total // 60` on a float. */
  function ClockHour(t: real): int {
    (t / 60.0).Floor
  }

  /** `total % 60` on a float (Python's floored remainder). */
  function ClockMinute(t: real): real {
    t - 60.0 * ClockHour(t) as real
  }

  /**
   * For a valid clock time and a longitude within ±180°, the shift moves the
   * clock by whole days at most once and the corrected hour is a real hour.
   */
  lemma CorrectedClockInDay(hour: int, minute: real, longitude: real)
    requires 0 <= hour <= 23 && 0.0 <= minute < 60.0
    requires -180.0 <= longitude <= 180.0
    ensures var t := CorrectedMinutes(hour, minute, longitude);
      var shifted := hour as real * 60.0 + minute + (longitude - 120.0) * 4.0;
      && 0.0 <= t < 1440.0
      && (t == shifted || t == shifted + 1440.0 || t == shifted - 1440.0)
      && 0 <= ClockHour(t) <= 23
      && 0.0 <= ClockMinute(t) < 60.0
      && ClockHour(t) as real * 60.0 + ClockMinute(t) == t
  {
    var t := CorrectedMinutes(hour, minute, longitude);
    var h := ClockHour(t);
    assert h as real <= t / 60.0 < h as real + 1.0;
  }

  // ---------------------------------------------------------------------
  // The calculator object
  // ---------------------------------------------------------------------

  datatype CalendarError = InvalidDate

  /** Python truthiness of an optional string. */
  predicate Given(s: Option<string>) {
    s.Some? && s.value != ""
  }

  /**
   * The coordinates the constructor settles on (bazi_agent/calendar.py:109-119).
   * `located` is what the city-table lookup returns for the province and city.
   * A zero coordinate is falsy in Python and so also falls back to the default.
   */
  function ResolveCoordinates(longitude: Option<real>, latitude: Option<real>,
                              province: Option<string>, city: Option<string>,
                              located: Option<(real, real)>): (r: (real, real))
    // both coordinates given and non-zero: kept as they are
    ensures longitude.Some? && latitude.Some? && longitude.value != 0.0 && latitude.value != 0.0
            ==> r == (longitude.value, latitude.value)
    // one missing, a province or city named, and the table knows it: the table's pair
    // replaces both, even a longitude or latitude that was given
    ensures (longitude.None? || latitude.None?) && (Given(province) || Given(city)) && located.Some?
            && located.value.0 != 0.0 && located.value.1 != 0.0
            ==> r == located.value
    // no lookup: each coordinate on its own falls back when missing or zero
    ensures !((longitude.None? || latitude.None?) && (Given(province) || Given(city)) && located.Some?)
            ==> && (longitude.None? || longitude.value == 0.0 ==> r.0 == 120.0)
                && (longitude.Some? && longitude.value != 0.0 ==> r.0 == longitude.value)
                && (latitude.None? || latitude.value == 0.0 ==> r.1 == 39.9)
                && (latitude.Some? && latitude.value != 0.0 ==> r.1 == latitude.value)
    // a zero from the table falls back the same way
    ensures (longitude.None? || latitude.None?) && (Given(province) || Given(city)) && located.Some?
            ==> && r.0 == (if located.value.0 == 0.0 then 120.0 else located.value.0)
                && r.1 == (if located.value.1 == 0.0 then 39.9 else located.value.1)
    ensures r.0 != 0.0 && r.1 != 0.0
  {
    var lookUp := (longitude.None? || latitude.None?) && (Given(province) || Given(city)) && located.Some?;
    var lon := if lookUp then Some(located.value.0) else longitude;
    var lat := if lookUp then Some(located.value.1) else latitude;
    (if lon.None? || lon.value == 0.0 then 120.0 else lon.value,
     if lat.None? || lat.value == 0.0 then 39.9 else lat.value)
  }

  /** CalendarCalc (bazi_agent/calendar.py:14-436). Only the clock fields change after construction. */
  class CalendarCalc {
    const year: int
    const month: int
    const day: int
    var hour: int
    var minute: real
    const longitude: real
    const latitude: real
    const useTrueSolarTime: bool

    /** Every calculator handed out has passed the date check. */
    ghost predicate Valid()
      reads this
    {
      ValidDate(year, month, day)
    }

    /** Field set-up and the optional clock correction (bazi_agent/calendar.py:101-124). */
    constructor (year: int, month: int, day: int, hour: int, minute: int,
                 longitude: real, latitude: real, useTrueSolarTime: bool)
      ensures this.year == year && this.month == month && this.day == day
      ensures this.longitude == longitude && this.latitude == latitude
      ensures this.useTrueSolarTime == useTrueSolarTime
      ensures useTrueSolarTime ==>
        var t := CorrectedMinutes(hour, minute as real, longitude);
        this.hour == ClockHour(t) && this.minute == ClockMinute(t)
      ensures !useTrueSolarTime ==> this.hour == hour && this.minute == minute as real
    {
      this.year := year;
      this.month := month;
      this.day := day;
      this.hour := hour;
      this.minute := minute as real;
      this.longitude := longitude;
      this.latitude := latitude;
      this.useTrueSolarTime := useTrueSolarTime;
      new;
      if useTrueSolarTime {
        CorrectSolarTime();
      }
    }

    /** `_correct_solar_time`: rewrites the clock fields and nothing else. */
    method CorrectSolarTime()
      modifies this
      ensures var t := CorrectedMinutes(old(hour), old(minute), longitude);
        hour == ClockHour(t) && minute == ClockMinute(t)
    {
      var total := CorrectedMinutes(hour, minute, longitude);
      hour := ClockHour(total);
      minute := ClockMinute(total);
    }

    /**
     * The constructor as a whole: resolve coordinates, correct the clock,
     * then reject a date the calendar library refuses. The date check sees
     * the uncorrected hour and minute, as in the source.
     */
    static method Create(year: int, month: int, day: int, hour: int, minute: int,
                         longitude: Option<real>, latitude: Option<real>,
                         province: Option<string>, city: Option<string>,
                         located: Option<(real, real)>, useTrueSolarTime: bool)
      returns (r: Result<CalendarCalc, CalendarError>)
      ensures r.Ok? <==> ValidMoment(year, month, day, hour, minute)
      ensures r.Ok? ==> fresh(r.value) && r.value.Valid()
      ensures r.Ok? ==> r.value.year == year && r.value.month == month && r.value.day == day
      ensures r.Ok? ==> (r.value.longitude, r.value.latitude)
                          == ResolveCoordinates(longitude, latitude, province, city, located)
      ensures r.Ok? ==> r.value.useTrueSolarTime == useTrueSolarTime
      ensures r.Ok? && !useTrueSolarTime ==> r.value.hour == hour && r.value.minute == minute as real
      ensures r.Ok? && useTrueSolarTime ==>
        var t := hour as real * 60.0 + minute as real + (r.value.longitude - 120.0) * 4.0;
        var wrapped := if t < 0.0 then t + 1440.0 else if t >= 1440.0 then t - 1440.0 else t;
        r.value.hour == ClockHour(wrapped) && r.value.minute == ClockMinute(wrapped)
    {
      var coords := ResolveCoordinates(longitude, latitude, province, city, located);
      var c := new CalendarCalc(year, month, day, hour, minute, coords.0, coords.1, useTrueSolarTime);
      if ValidMoment(year, month, day, hour, minute) {
        r := Ok(c);
      } else {
        r := Err(InvalidDate);
      }
    }

    /** `get_bazi`: the chart of the stored date and the (possibly corrected) hour. */
    function GetBazi(): (c: Chart)
      reads this
      requires Valid()
      ensures c == ChartOf(year, month, day, hour)
      ensures c.year == CyclePillar(year - 1864)
      ensures var b := (month + 1) % 12;
        c.month == Pillar((2 * ((year - 1864) % 5) + 2 + b) % 10, b)
      ensures c.day == CyclePillar(DayNumber(year, month, day))
      ensures var b := if 0 <= hour <= 22 then hour % 12 else 0;
        c.hour == Pillar((2 * (DayNumber(year, month, day) % 5) + b) % 10, b)
    {
      Mod10Mod5(year - 1864);
      Mod10Mod5(DayNumber(year, month, day));
      ChartOf(year, month, day, hour)
    }

    /** `get_season_info` on the stored month. */
    function GetSeasonInfo(): (info: SeasonInfo)
      reads this
      ensures info == SeasonInfoOf(month)
      ensures 1 <= month <= 12 ==> info.season == [Winter, Spring, Summer, Autumn][(month / 3) % 4]
      ensures !(1 <= month <= 12) ==> info.season == Winter
      ensures 1 <= month <= 12 && month != 4 ==> info.jieqi == JieQi[2 * ((month + 10) % 12)] + "后"
      ensures month == 4 ==> info.jieqi == JieQi[3] + "后"
      ensures !(1 <= month <= 12) ==> info.jieqi == JieQi[0] + "后"
      ensures var b := if 1 <= month <= 12 then (month + 1) % 12 else 2;
        info.monthOrder == (b, BranchElement(b))
    {
      SeasonInfoOf(month)
    }

    /** `_get_constellation` on the stored month and day. */
    function GetConstellation(): (k: nat)
      reads this
      ensures k == Constellation(month, day)
      ensures k < 12
      ensures 1 <= month <= 12 && 1 <= day <= 31 ==> k == StartsPassed(100 * month + day, 12) % 12
      ensures !(1 <= month <= 12) ==> k == 11
    {
      if 1 <= month <= 12 && 1 <= day <= 31 then
        ConstellationByStartDays(month, day);
        Constellation(month, day)
      else
        Constellation(month, day)
    }
  }

  // ---------------------------------------------------------------------
  // Constellation, season and solar-term lookups
  // ---------------------------------------------------------------------

  /** 摩羯 水瓶 双鱼 白羊 金牛 双子 巨蟹 狮子 处女 天秤 天蝎 射手, indexed 0..11. */
  const SignNames: seq<string> :=
    ["摩羯座", "水瓶座", "双鱼座", "白羊座", "金牛座", "双子座",
     "巨蟹座", "狮子座", "处女座", "天秤座", "天蝎座", "射手座"]

  /** `_get_constellation` (bazi_agent/calendar.py:375-407), as an index into SignNames. */
  function Constellation(month: int, day: int): (k: nat)
    ensures k < 12
    ensures !(1 <= month <= 12) ==> k == 11
  {
    if (month == 12 && day >= 22) || (month == 1 && day <= 19) then 0
    else if (month == 1 && day >= 20) || (month == 2 && day <= 18) then 1
    else if (month == 2 && day >= 19) || (month == 3 && day <= 20) then 2
    else if (month == 3 && day >= 21) || (month == 4 && day <= 19) then 3
    else if (month == 4 && day >= 20) || (month == 5 && day <= 20) then 4
    else if (month == 5 && day >= 21) || (month == 6 && day <= 21) then 5
    else if (month == 6 && day >= 22) || (month == 7 && day <= 22) then 6
    else if (month == 7 && day >= 23) || (month == 8 && day <= 22) then 7
    else if (month == 8 && day >= 23) || (month == 9 && day <= 22) then 8
    else if (month == 9 && day >= 23) || (month == 10 && day <= 23) then 9
    else if (month == 10 && day >= 24) || (month == 11 && day <= 22) then 10
    else 11
  }

  /** First days (as 100 × month + day) of 水瓶, 双鱼, …, 射手, 摩羯. */
  const SignStarts: seq<int> := [120, 219, 321, 420, 521, 622, 723, 823, 923, 1024, 1123, 1222]

  /** How many of the first n sign start days fall on or before date key `key`. */
  function StartsPassed(key: int, n: nat): (c: nat)
    requires n <= |SignStarts|
    ensures c <= n
  {
    if n == 0 then 0
    else StartsPassed(key, n - 1) + (if SignStarts[n - 1] <= key then 1 else 0)
  }

  /**
   * The sign of a day is the number of sign start days already passed in
   * the year, modulo 12: the twelve signs tile the calendar year, each
   * starting exactly on its listed day.
   */
  lemma {:induction false} ConstellationByStartDays(month: int, day: int)
    requires 1 <= month <= 12 && 1 <= day <= 31
    ensures Constellation(month, day) == StartsPassed(100 * month + day, 12) % 12
  {
    var key := 100 * month + day;
    assert StartsPassed(key, 1) == (if 120 <= key then 1 else 0);
    assert StartsPassed(key, 2) == StartsPassed(key, 1) + (if 219 <= key then 1 else 0);
    assert StartsPassed(key, 3) == StartsPassed(key, 2) + (if 321 <= key then 1 else 0);
    assert StartsPassed(key, 4) == StartsPassed(key, 3) + (if 420 <= key then 1 else 0);
    assert StartsPassed(key, 5) == StartsPassed(key, 4) + (if 521 <= key then 1 else 0);
    assert StartsPassed(key, 6) == StartsPassed(key, 5) + (if 622 <= key then 1 else 0);
    assert StartsPassed(key, 7) == StartsPassed(key, 6) + (if 723 <= key then 1 else 0);
    assert StartsPassed(key, 8) == StartsPassed(key, 7) + (if 823 <= key then 1 else 0);
    assert StartsPassed(key, 9) == StartsPassed(key, 8) + (if 923 <= key then 1 else 0);
    assert StartsPassed(key, 10) == StartsPassed(key, 9) + (if 1024 <= key then 1 else 0);
    assert StartsPassed(key, 11) == StartsPassed(key, 10) + (if 1123 <= key then 1 else 0);
    assert StartsPassed(key, 12) == StartsPassed(key, 11) + (if 1222 <= key then 1 else 0);
  }

  datatype Season = Spring | Summer | Autumn | Winter

  /** 春季 for months 3-5, 夏季 6-8, 秋季 9-11, 冬季 for every other value. */
  function SeasonOf(month: int): (s: Season)
    ensures 1 <= month <= 12 ==> s == [Winter, Spring, Summer, Autumn][(month / 3) % 4]
    ensures !(1 <= month <= 12) ==> s == Winter
  {
    if month in [3, 4, 5] then Spring
    else if month in [6, 7, 8] then Summer
    else if month in [9, 10, 11] then Autumn
    else Winter
  }

  /** The 24 solar terms, 立春 first (bazi_agent/calendar.py:75-80). */
  const JieQi: seq<string> :=
    ["立春", "雨水", "惊蛰", "春分", "清明", "谷雨",
     "立夏", "小满", "芒种", "夏至", "小暑", "大暑",
     "立秋", "处暑", "白露", "秋分", "寒露", "霜降",
     "立冬", "小雪", "大雪", "冬至", "小寒", "大寒"]

  /** `_get_jieqi`: the solar term a calendar month is taken to follow, with 立春后 as fallback. */
  function JieqiOf(month: int): string {
    var table: map<int, string> :=
      map[1 := "小寒后", 2 := "立春后", 3 := "惊蛰后", 4 := "春分后",
          5 := "立夏后", 6 := "芒种后", 7 := "小暑后", 8 := "立秋后",
          9 := "白露后", 10 := "寒露后", 11 := "立冬后", 12 := "大雪后"];
    if month in table then table[month] else "立春后"
  }

  /**
   * Every month but April follows the sectional term (节, an even position
   * of JieQi) that opens it; April follows 春分, a mid-month term (中气).
   */
  lemma JieqiFollowsSectionalTerms(month: int)
    requires 1 <= month <= 12
    ensures month != 4 ==> JieqiOf(month) == JieQi[2 * ((month + 10) % 12)] + "后"
    ensures month == 4 ==> JieqiOf(month) == JieQi[3] + "后"
  {
  }

  datatype SeasonInfo = SeasonInfo(season: Season, jieqi: string, monthOrder: (Branch, Element))

  /** `get_season_info` (bazi_agent/calendar.py:409-425). */
  function SeasonInfoOf(month: int): (info: SeasonInfo)
    ensures 1 <= month <= 12 ==> info.season == [Winter, Spring, Summer, Autumn][(month / 3) % 4]
    ensures !(1 <= month <= 12) ==> info.season == Winter
    ensures 1 <= month <= 12 && month != 4 ==> info.jieqi == JieQi[2 * ((month + 10) % 12)] + "后"
    ensures month == 4 ==> info.jieqi == JieQi[3] + "后"
    ensures !(1 <= month <= 12) ==> info.jieqi == JieQi[0] + "后"
    ensures var b := if 1 <= month <= 12 then (month + 1) % 12 else 2;
      info.monthOrder == (b, BranchElement(b))
  {
    var info := SeasonInfo(SeasonOf(month), JieqiOf(month), (MonthBranch(month), BranchElement(MonthBranch(month))));
    if 1 <= month <= 12 then JieqiFollowsSectionalTerms(month); info else info
  }
}
