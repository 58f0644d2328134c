/**
 * Spirit markers (神煞): branch lookups keyed by the day stem or the year
 * branch, each scanned over the chart's branches in year, month, day, hour
 * order. The five inauspicious markers use fixed tables; the auspicious ones
 * use rule tables that come from the rule files and are parameters here.
 */
module Shensha {
  import opened Wrappers
  import opened Ganzhi

  datatype Marker =
    | YangRen | JieSha | ZaiSha | GuChen | GuaSu          // 羊刃 劫煞 灾煞 孤辰 寡宿
    | TianYi | WenChang | HongLuan | TianXi | TaoHua       // 天乙贵人 文昌贵人 红鸾 天喜 桃花

  /** One recorded marker: its name, the pillar (0 year .. 3 hour) and the branch found there. */
  datatype Detail = Detail(name: Marker, position: nat, branch: Branch)

  /** The rule-file tables the auspicious markers read. */
  datatype ShenshaRules = ShenshaRules(
    tianyi: map<Stem, seq<Branch>>,
    wenchang: map<Stem, Branch>,
    hongluanTianxi: map<Branch, (Option<Branch>, Option<Branch>)>,
    taohua: map<Branch, seq<Branch>>)

  datatype ShenshaResult = ShenshaResult(
    jishen: set<Marker>,
    xiongsha: seq<Marker>,
    jishenDetails: seq<Detail>,
    xiongshaDetails: seq<Detail>)

  // ---------------------------------------------------------------------------
  // Fixed tables
  // ---------------------------------------------------------------------------

  /** 羊刃 by day stem: 甲卯 乙寅 丙午 丁巳 戊午 己巳 庚酉 辛申 壬子 癸亥. */
  function YangrenBranch(s: Stem): Branch {
    [3, 2, 6, 5, 6, 5, 9, 8, 0, 11][s]
  }

  /** 劫煞 by year branch: 寅午戌 亥, 巳酉丑 寅, 申子辰 巳, 亥卯未 申. */
  function JieshaBranch(y: Branch): (b: Branch)
    ensures b == [5, 2, 11, 8][y % 4]
  {
    [5, 2, 11, 8, 5, 2, 11, 8, 5, 2, 11, 8][y]
  }

  /** 灾煞 by year branch: 寅午戌 子, 巳酉丑 卯, 申子辰 午, 亥卯未 酉. */
  function ZaishaBranch(y: Branch): (b: Branch)
    ensures b == [6, 3, 0, 9][y % 4]
  {
    [6, 3, 0, 9, 6, 3, 0, 9, 6, 3, 0, 9][y]
  }

  /** 孤辰 by year branch: 寅卯辰 巳, 巳午未 申, 申酉戌 亥, 亥子丑 寅. */
  function GuchenBranch(y: Branch): Branch {
    [2, 2, 5, 5, 5, 8, 8, 8, 11, 11, 11, 2][y]
  }

  /** 寡宿 by year branch: 寅卯辰 丑, 巳午未 辰, 申酉戌 未, 亥子丑 戌. */
  function GuasuBranch(y: Branch): Branch {
    [10, 10, 1, 1, 1, 4, 4, 4, 7, 7, 7, 10][y]
  }

  /** The first branch of y's season: 寅, 巳, 申 or 亥. */
  function SeasonStart(y: Branch): (b: Branch)
    ensures b % 3 == 2
    ensures (y - b) % 12 < 3
  {
    (3 * (((y + 10) % 12) / 3) + 2) % 12
  }

  /**
   * 灾煞 is the branch right after 劫煞 in every trine; 孤辰 is the first
   * branch of the next season and 寡宿 the last branch of the previous one.
   */
  lemma SeasonalMarkers(y: Branch)
    ensures ZaishaBranch(y) == (JieshaBranch(y) + 1) % 12
    ensures GuchenBranch(y) == (SeasonStart(y) + 3) % 12
    ensures GuasuBranch(y) == (SeasonStart(y) + 11) % 12
  {
    ZaishaFollowsJiesha(y);
    GuchenOpensNextSeason(y);
    GuasuClosesPreviousSeason(y);
  }

  lemma ZaishaFollowsJiesha(y: Branch)
    ensures ZaishaBranch(y) == (JieshaBranch(y) + 1) % 12
  {
    var g := y % 4;
    assert g == 0 || g == 1 || g == 2 || g == 3;
  }

  lemma GuchenOpensNextSeason(y: Branch)
    ensures GuchenBranch(y) == (SeasonStart(y) + 3) % 12
  {
    assert y == 0 || y == 1 || y == 2 || y == 3 || y == 4 || y == 5
        || y == 6 || y == 7 || y == 8 || y == 9 || y == 10 || y == 11;
  }

  lemma GuasuClosesPreviousSeason(y: Branch)
    ensures GuasuBranch(y) == (SeasonStart(y) + 11) % 12
  {
    assert y == 0 || y == 1 || y == 2 || y == 3 || y == 4 || y == 5
        || y == 6 || y == 7 || y == 8 || y == 9 || y == 10 || y == 11;
  }

  // ---------------------------------------------------------------------------
  // The first-match scan
  // ---------------------------------------------------------------------------

  /** The first position whose branch is among `hits`. */
  function FirstHit(bs: seq<Branch>, hits: seq<Branch>): (r: Option<nat>)
    ensures r.Some? ==> r.value < |bs| && bs[r.value] in hits
                        && forall j :: 0 <= j < r.value ==> bs[j] !in hits
    ensures r.None? ==> forall j :: 0 <= j < |bs| ==> bs[j] !in hits
  {
    if |bs| == 0 then None
    else if bs[0] in hits then Some(0)
    else match FirstHit(bs[1..], hits)
      case None => None
      case Some(i) => Some(i + 1)
  }

  /** Some pillar's branch is among hits. */
  predicate AnyHit(bs: seq<Branch>, hits: seq<Branch>) {
    exists k :: 0 <= k < |bs| && bs[k] in hits
  }

  /** d sits at the first pillar of bs whose branch is among hits. */
  predicate FirstMatchIn(bs: seq<Branch>, hits: seq<Branch>, d: Detail) {
    && d.position < |bs| && d.branch == bs[d.position] && d.branch in hits
    && forall k :: 0 <= k < d.position ==> bs[k] !in hits
  }

  /** One detail for the first matching pillar, or none. */
  function FirstDetail(m: Marker, bs: seq<Branch>, hits: seq<Branch>): (ds: seq<Detail>)
    ensures |ds| <= 1
    ensures forall d :: d in ds ==>
              && d.name == m && d.position < |bs| && d.branch == bs[d.position]
              && d.branch in hits && (forall k :: 0 <= k < d.position ==> bs[k] !in hits)
    ensures |ds| == 0 <==> forall k :: 0 <= k < |bs| ==> bs[k] !in hits
    ensures |ds| == 1 <==> AnyHit(bs, hits)
    ensures |ds| == 1 ==> FirstMatchIn(bs, hits, ds[0])
  {
    match FirstHit(bs, hits)
    case None => []
    case Some(i) => [Detail(m, i, bs[i])]
  }

  /** `for zhu in pillars: if hit: record; break`. */
  method ScanFirst(bs: seq<Branch>, hits: seq<Branch>) returns (found: Option<nat>)
    ensures found == FirstHit(bs, hits)
  {
    var i := 0;
    while i < |bs| && bs[i] !in hits
      invariant 0 <= i <= |bs|
      invariant forall j :: 0 <= j < i ==> bs[j] !in hits
    {
      i := i + 1;
    }
    found := if i < |bs| then Some(i) else None;
    FirstHitUnique(bs, hits, found);
  }

  /** The first hit is determined by its two defining properties. */
  lemma {:induction false} FirstHitUnique(bs: seq<Branch>, hits: seq<Branch>, r: Option<nat>)
    requires r.Some? ==> r.value < |bs| && bs[r.value] in hits
                         && forall j :: 0 <= j < r.value ==> bs[j] !in hits
    requires r.None? ==> forall j :: 0 <= j < |bs| ==> bs[j] !in hits
    ensures r == FirstHit(bs, hits)
  {
    if |bs| > 0 && bs[0] !in hits {
      var r' := match r case None => None case Some(k) => Some(k - 1);
      forall j | 0 <= j < |bs[1..]| ensures bs[1..][j] == bs[j + 1] {}
      FirstHitUnique(bs[1..], hits, r');
    }
  }

  // ---------------------------------------------------------------------------
  // analyze_shensha as a function of the chart and the rule tables
  // ---------------------------------------------------------------------------

  function XiongshaDetailsOf(c: Chart): seq<Detail> {
    var bs := c.Branches();
    var y := c.year.branch;
    FirstDetail(YangRen, bs, [YangrenBranch(c.DayMaster())])
    + FirstDetail(JieSha, bs, [JieshaBranch(y)])
    + FirstDetail(ZaiSha, bs, [ZaishaBranch(y)])
    + FirstDetail(GuChen, bs, [GuchenBranch(y)])
    + FirstDetail(GuaSu, bs, [GuasuBranch(y)])
  }

  /** 红鸾 then 天喜 at one pillar, when the rule gives them. */
  function LoveAt(hl: Option<Branch>, tx: Option<Branch>, i: nat, b: Branch): (ds: seq<Detail>)
    ensures forall d :: d in ds ==> (d.name == HongLuan || d.name == TianXi) && d.position == i && d.branch == b
  {
    (if hl.Some? && b == hl.value then [Detail(HongLuan, i, b)] else [])
    + (if tx.Some? && b == tx.value then [Detail(TianXi, i, b)] else [])
  }

  /** 红鸾 and 天喜 over the month, day and hour pillars only, every match recorded. */
  function LoveDetails(c: Chart, rules: ShenshaRules): (ds: seq<Detail>)
    ensures forall d :: d in ds ==> d.name == HongLuan || d.name == TianXi
  {
    var y := c.year.branch;
    if y in rules.hongluanTianxi then
      var entry := rules.hongluanTianxi[y];
      var hl := entry.0;
      var tx := entry.1;
      LoveAt(hl, tx, 1, c.month.branch) + LoveAt(hl, tx, 2, c.day.branch) + LoveAt(hl, tx, 3, c.hour.branch)
    else []
  }

  /** 红鸾 and 天喜 at one pillar: each is recorded exactly when the rule names that pillar's branch. */
  lemma LoveAtPresence(hl: Option<Branch>, tx: Option<Branch>, i: nat, b: Branch)
    ensures var ds := LoveAt(hl, tx, i, b);
      && ((exists d :: d in ds && d.name == HongLuan) <==> hl == Some(b))
      && ((exists d :: d in ds && d.name == TianXi) <==> tx == Some(b))
      && (forall d :: d in ds && d.name == HongLuan ==> hl == Some(d.branch))
      && (forall d :: d in ds && d.name == TianXi ==> tx == Some(d.branch))
  {
    var ds := LoveAt(hl, tx, i, b);
    if hl == Some(b) {
      assert Detail(HongLuan, i, b) in ds;
    }
    if tx == Some(b) {
      assert Detail(TianXi, i, b) in ds;
    }
  }

  /**
   * 红鸾 (天喜) is recorded exactly when the year branch's rule entry names
   * one of the month, day and hour branches as its 红鸾 (天喜) branch, and
   * each record carries that branch.
   */
  lemma LovePresence(c: Chart, rules: ShenshaRules)
    ensures var ds := LoveDetails(c, rules);
      var y := c.year.branch;
      var later := [c.month.branch, c.day.branch, c.hour.branch];
      && ((exists d :: d in ds && d.name == HongLuan) <==>
            y in rules.hongluanTianxi && rules.hongluanTianxi[y].0.Some? && rules.hongluanTianxi[y].0.value in later)
      && ((exists d :: d in ds && d.name == TianXi) <==>
            y in rules.hongluanTianxi && rules.hongluanTianxi[y].1.Some? && rules.hongluanTianxi[y].1.value in later)
      && (forall d :: d in ds && d.name == HongLuan ==> y in rules.hongluanTianxi && rules.hongluanTianxi[y].0 == Some(d.branch))
      && (forall d :: d in ds && d.name == TianXi ==> y in rules.hongluanTianxi && rules.hongluanTianxi[y].1 == Some(d.branch))
  {
    var y := c.year.branch;
    if y in rules.hongluanTianxi {
      var hl := rules.hongluanTianxi[y].0;
      var tx := rules.hongluanTianxi[y].1;
      LoveAtPresence(hl, tx, 1, c.month.branch);
      LoveAtPresence(hl, tx, 2, c.day.branch);
      LoveAtPresence(hl, tx, 3, c.hour.branch);
    }
  }

  /**
   * 桃花 by year branch, then by day branch only when the year found none:
   * a detail exactly when either table entry matches some pillar, taken from
   * the year's entry whenever that one matches.
   */
  function TaohuaDetails(c: Chart, rules: ShenshaRules): (ds: seq<Detail>)
    ensures |ds| <= 1 && forall d :: d in ds ==> d.name == TaoHua
    ensures var bs := c.Branches();
      var y := c.year.branch;
      var dd := c.day.branch;
      var byYear := y in rules.taohua && AnyHit(bs, rules.taohua[y]);
      var byDay := dd in rules.taohua && AnyHit(bs, rules.taohua[dd]);
      && (|ds| == 1 <==> byYear || byDay)
      && (byYear ==> FirstMatchIn(bs, rules.taohua[y], ds[0]))
      && (!byYear && byDay ==> FirstMatchIn(bs, rules.taohua[dd], ds[0]))
  {
    var bs := c.Branches();
    var byYear := TaohuaBy(rules, c.year.branch, bs);
    var byDay := if |byYear| == 0 then TaohuaBy(rules, c.day.branch, bs) else [];
    byYear + byDay
  }

  /** The first 桃花 match among bs for the table entry of key b, if there is an entry. */
  function TaohuaBy(rules: ShenshaRules, b: Branch, bs: seq<Branch>): (ds: seq<Detail>)
    ensures |ds| <= 1 && forall d :: d in ds ==> d.name == TaoHua
    ensures |ds| == 1 <==> b in rules.taohua && AnyHit(bs, rules.taohua[b])
    ensures |ds| == 1 ==> b in rules.taohua && FirstMatchIn(bs, rules.taohua[b], ds[0])
  {
    if b in rules.taohua then FirstDetail(TaoHua, bs, rules.taohua[b]) else []
  }

  function TianyiDetails(c: Chart, rules: ShenshaRules): (ds: seq<Detail>)
    ensures |ds| <= 1 && forall d :: d in ds ==> d.name == TianYi
    ensures var dm := c.DayMaster();
      && (|ds| == 1 <==> dm in rules.tianyi && AnyHit(c.Branches(), rules.tianyi[dm]))
      && (|ds| == 1 ==> dm in rules.tianyi && FirstMatchIn(c.Branches(), rules.tianyi[dm], ds[0]))
  {
    if c.DayMaster() in rules.tianyi then FirstDetail(TianYi, c.Branches(), rules.tianyi[c.DayMaster()]) else []
  }

  function WenchangDetails(c: Chart, rules: ShenshaRules): (ds: seq<Detail>)
    ensures |ds| <= 1 && forall d :: d in ds ==> d.name == WenChang
    ensures var dm := c.DayMaster();
      && (|ds| == 1 <==> dm in rules.wenchang && rules.wenchang[dm] in c.Branches())
      && (|ds| == 1 ==> dm in rules.wenchang && ds[0].branch == rules.wenchang[dm]
                        && FirstMatchIn(c.Branches(), [rules.wenchang[dm]], ds[0]))
  {
    if c.DayMaster() in rules.wenchang then FirstDetail(WenChang, c.Branches(), [rules.wenchang[c.DayMaster()]]) else []
  }

  /** 天乙贵人, 文昌贵人, then 红鸾 and 天喜. */
  function GuirenDetails(c: Chart, rules: ShenshaRules): (ds: seq<Detail>)
    ensures forall d :: d in ds ==> d.name == TianYi || d.name == WenChang || d.name == HongLuan || d.name == TianXi
  {
    TianyiDetails(c, rules) + WenchangDetails(c, rules) + LoveDetails(c, rules)
  }

  function JishenDetailsOf(c: Chart, rules: ShenshaRules): seq<Detail> {
    GuirenDetails(c, rules) + TaohuaDetails(c, rules)
  }

  function Names(ds: seq<Detail>): (ns: seq<Marker>)
    ensures |ns| == |ds| && forall i :: 0 <= i < |ds| ==> ns[i] == ds[i].name
  {
    if |ds| == 0 then [] else [ds[0].name] + Names(ds[1..])
  }

  function ShenshaOf(c: Chart, rules: ShenshaRules): ShenshaResult {
    var jd := JishenDetailsOf(c, rules);
    var xd := XiongshaDetailsOf(c);
    ShenshaResult(set d | d in jd :: d.name, Names(xd), jd, xd)
  }

  // ---------------------------------------------------------------------------
  // The scan as the source writes it
  // ---------------------------------------------------------------------------

  lemma NamesAppend(a: seq<Detail>, b: seq<Detail>)
    ensures Names(a + b) == Names(a) + Names(b)
  {
    assert |Names(a + b)| == |Names(a) + Names(b)|;
    forall i | 0 <= i < |a + b| ensures Names(a + b)[i] == (Names(a) + Names(b))[i] {
      if i >= |a| { assert (a + b)[i] == b[i - |a|]; }
    }
  }

  /** A first-match marker: scan, append its detail, and its name once. */
  method MarkFirst(m: Marker, bs: seq<Branch>, hits: seq<Branch>, names: seq<Marker>, details: seq<Detail>)
    returns (names': seq<Marker>, details': seq<Detail>)
    requires names == Names(details)
    requires m !in names
    ensures details' == details + FirstDetail(m, bs, hits)
    ensures names' == Names(details')
    ensures forall x :: x in names' ==> x in names || x == m
  {
    names', details' := names, details;
    var found := ScanFirst(bs, hits);
    if found.Some? {
      var i := found.value;
      if m !in names' {
        names' := names' + [m];
      }
      details' := details' + [Detail(m, i, bs[i])];
      NamesAppend(details, [Detail(m, i, bs[i])]);
    } else {
      assert details + [] == details;
    }
  }

  /** Appends one jishen detail together with its name. */
  method Mark(m: Marker, i: nat, b: Branch, names: seq<Marker>, details: seq<Detail>)
    returns (names': seq<Marker>, details': seq<Detail>)
    requires names == Names(details)
    ensures details' == details + [Detail(m, i, b)]
    ensures names' == Names(details')
  {
    names' := names + [m];
    details' := details + [Detail(m, i, b)];
    NamesAppend(details, [Detail(m, i, b)]);
  }

  /** The set of names of some details. */
  lemma NameSet(ds: seq<Detail>)
    ensures (set x | x in Names(ds)) == (set d | d in ds :: d.name)
  {
    forall x | x in Names(ds) ensures x in (set d | d in ds :: d.name) {
      var i :| 0 <= i < |ds| && Names(ds)[i] == x;
      assert ds[i] in ds;
    }
    forall x | x in (set d | d in ds :: d.name) ensures x in Names(ds) {
      var d :| d in ds && d.name == x;
      var i :| 0 <= i < |ds| && ds[i] == d;
      assert Names(ds)[i] == x;
    }
  }

  /** The five inauspicious markers, each with its first matching pillar. */
  method ScanXiongsha(c: Chart) returns (names: seq<Marker>, details: seq<Detail>)
    ensures details == XiongshaDetailsOf(c)
    ensures names == Names(details)
  {
    var bs := c.Branches();
    var y := c.year.branch;
    ghost var d1 := FirstDetail(YangRen, bs, [YangrenBranch(c.DayMaster())]);
    ghost var d2 := FirstDetail(JieSha, bs, [JieshaBranch(y)]);
    ghost var d3 := FirstDetail(ZaiSha, bs, [ZaishaBranch(y)]);
    ghost var d4 := FirstDetail(GuChen, bs, [GuchenBranch(y)]);
    ghost var d5 := FirstDetail(GuaSu, bs, [GuasuBranch(y)]);
    names, details := [], [];
    names, details := MarkFirst(YangRen, bs, [YangrenBranch(c.DayMaster())], names, details);
    assert details == d1;
    assert JieSha !in names && ZaiSha !in names && GuChen !in names && GuaSu !in names;
    names, details := MarkFirst(JieSha, bs, [JieshaBranch(y)], names, details);
    assert details == d1 + d2;
    assert ZaiSha !in names && GuChen !in names && GuaSu !in names;
    names, details := MarkFirst(ZaiSha, bs, [ZaishaBranch(y)], names, details);
    assert details == d1 + d2 + d3;
    assert GuChen !in names && GuaSu !in names;
    names, details := MarkFirst(GuChen, bs, [GuchenBranch(y)], names, details);
    assert details == d1 + d2 + d3 + d4;
    assert GuaSu !in names;
    names, details := MarkFirst(GuaSu, bs, [GuasuBranch(y)], names, details);
    assert details == d1 + d2 + d3 + d4 + d5;
  }

  /** Appends the first-match detail of an auspicious marker, if its table has an entry. */
  method MarkFirstIf(present: bool, m: Marker, bs: seq<Branch>, hits: seq<Branch>, names: seq<Marker>, details: seq<Detail>)
    returns (names': seq<Marker>, details': seq<Detail>)
    requires names == Names(details)
    ensures details' == details + (if present then FirstDetail(m, bs, hits) else [])
    ensures names' == Names(details')
  {
    names', details' := names, details;
    if present {
      var found := ScanFirst(bs, hits);
      if found.Some? {
        names', details' := Mark(m, found.value, bs[found.value], names', details');
      } else {
        assert details + [] == details;
      }
    } else {
      assert details + [] == details;
    }
  }

  /** 红鸾 then 天喜 at one pillar. */
  method MarkLove(hl: Option<Branch>, tx: Option<Branch>, i: nat, b: Branch, names: seq<Marker>, details: seq<Detail>)
    returns (names': seq<Marker>, details': seq<Detail>)
    requires names == Names(details)
    ensures details' == details + LoveAt(hl, tx, i, b)
    ensures names' == Names(details')
  {
    names', details' := names, details;
    if hl.Some? && b == hl.value {
      names', details' := Mark(HongLuan, i, b, names', details');
    }
    if tx.Some? && b == tx.value {
      names', details' := Mark(TianXi, i, b, names', details');
    }
  }

  /** 红鸾 and 天喜, checked together at each of the month, day and hour pillars. */
  method ScanLove(c: Chart, rules: ShenshaRules, names: seq<Marker>, details: seq<Detail>)
    returns (names': seq<Marker>, details': seq<Detail>)
    requires names == Names(details)
    ensures details' == details + LoveDetails(c, rules)
    ensures names' == Names(details')
  {
    names', details' := names, details;
    var bs := c.Branches();
    var y := c.year.branch;
    if y in rules.hongluanTianxi {
      var entry := rules.hongluanTianxi[y];
      var hl := entry.0;
      var tx := entry.1;
      names', details' := MarkLoveRange(hl, tx, bs, names, details);
      LoveRangeAll(hl, tx, c);
    } else {
      assert details + [] == details;
    }
  }

  /** Checks 红鸾 and 天喜 against the month, day and hour branches in order. */
  method MarkLoveRange(hl: Option<Branch>, tx: Option<Branch>, bs: seq<Branch>, names: seq<Marker>, details: seq<Detail>)
    returns (names': seq<Marker>, details': seq<Detail>)
    requires |bs| == 4
    requires names == Names(details)
    ensures details' == details + LoveRange(hl, tx, bs, 4)
    ensures names' == Names(details')
  {
    names', details' := names, details;
    assert details' == details + LoveRange(hl, tx, bs, 1);
    for i := 1 to 4
      invariant details' == details + LoveRange(hl, tx, bs, i)
      invariant names' == Names(details')
    {
      ghost var before := details';
      names', details' := MarkLove(hl, tx, i, bs[i], names', details');
      LoveRangeStep(details, before, details', hl, tx, bs, i);
    }
  }

  /** 桃花 by the year branch, then by the day branch unless 桃花 is already recorded. */
  method ScanTaohua(c: Chart, rules: ShenshaRules, names: seq<Marker>, details: seq<Detail>)
    returns (names': seq<Marker>, details': seq<Detail>)
    requires names == Names(details)
    requires TaoHua !in names
    ensures details' == details + TaohuaDetails(c, rules)
    ensures names' == Names(details')
  {
    var bs := c.Branches();
    names', details' := MarkTaohuaBy(rules, c.year.branch, bs, names, details);
    ghost var mid := details';
    if TaoHua !in names' {
      names', details' := MarkTaohuaBy(rules, c.day.branch, bs, names', details');
    }
    TaohuaSteps(c, rules, details, mid, details');
  }

  /** The year lookup, then the day lookup only while no 桃花 is recorded, append exactly TaohuaDetails. */
  lemma TaohuaSteps(c: Chart, rules: ShenshaRules, details: seq<Detail>, mid: seq<Detail>, final: seq<Detail>)
    requires TaoHua !in Names(details)
    requires mid == details + TaohuaBy(rules, c.year.branch, c.Branches())
    requires TaoHua in Names(mid) ==> final == mid
    requires TaoHua !in Names(mid) ==> final == mid + TaohuaBy(rules, c.day.branch, c.Branches())
    ensures final == details + TaohuaDetails(c, rules)
  {
    var byYear := TaohuaBy(rules, c.year.branch, c.Branches());
    TaohuaRecorded(details, byYear);
    if |byYear| == 0 {
      assert mid == details;
    } else {
      assert final == details + byYear + [];
    }
  }

  /** Looks up the 桃花 table entry of b and records its first match among bs. */
  method MarkTaohuaBy(rules: ShenshaRules, b: Branch, bs: seq<Branch>, names: seq<Marker>, details: seq<Detail>)
    returns (names': seq<Marker>, details': seq<Detail>)
    requires names == Names(details)
    ensures details' == details + TaohuaBy(rules, b, bs)
    ensures names' == Names(details')
  {
    names', details' := MarkFirstIf(b in rules.taohua, TaoHua, bs, if b in rules.taohua then rules.taohua[b] else [], names, details);
  }

  /** Once no 桃花 is recorded, appending 桃花 details records it exactly when there is one. */
  lemma TaohuaRecorded(details: seq<Detail>, extra: seq<Detail>)
    requires TaoHua !in Names(details)
    requires forall d :: d in extra ==> d.name == TaoHua
    ensures TaoHua in Names(details + extra) <==> |extra| > 0
  {
    NamesAppend(details, extra);
    if |extra| > 0 {
      assert extra[0] in extra;
      assert Names(extra)[0] == TaoHua;
    }
  }

  /** 天乙贵人 and 文昌贵人 by the day stem, then 红鸾 and 天喜 by the year branch. */
  method ScanGuiren(c: Chart, rules: ShenshaRules) returns (names: seq<Marker>, details: seq<Detail>)
    ensures details == GuirenDetails(c, rules)
    ensures names == Names(details)
  {
    var bs := c.Branches();
    var dm := c.DayMaster();
    names, details := MarkFirstIf(dm in rules.tianyi, TianYi, bs, if dm in rules.tianyi then rules.tianyi[dm] else [], [], []);
    assert details == TianyiDetails(c, rules);
    names, details := MarkFirstIf(dm in rules.wenchang, WenChang, bs, if dm in rules.wenchang then [rules.wenchang[dm]] else [], names, details);
    assert details == TianyiDetails(c, rules) + WenchangDetails(c, rules);
    names, details := ScanLove(c, rules, names, details);
  }

  lemma NoTaohuaBeforeItsCheck(c: Chart, rules: ShenshaRules)
    ensures TaoHua !in Names(GuirenDetails(c, rules))
  {
    var ds := GuirenDetails(c, rules);
    forall i | 0 <= i < |ds| ensures Names(ds)[i] != TaoHua {
      assert ds[i] in ds;
    }
  }

  method AnalyzeShensha(c: Chart, rules: ShenshaRules) returns (res: ShenshaResult)
    ensures res == ShenshaOf(c, rules)
  {
    var xiongsha, xd := ScanXiongsha(c);
    var jishen, jd := ScanGuiren(c, rules);
    NoTaohuaBeforeItsCheck(c, rules);
    jishen, jd := ScanTaohua(c, rules, jishen, jd);
    NameSet(jd);
    res := ShenshaResult((set x | x in jishen), xiongsha, jd, xd);
  }

  /** LoveAt over the pillars 1 .. n-1 of bs: the year pillar is never looked at. */
  function LoveRange(hl: Option<Branch>, tx: Option<Branch>, bs: seq<Branch>, n: nat): seq<Detail>
    requires n <= |bs|
  {
    if n <= 1 then [] else LoveRange(hl, tx, bs, n - 1) + LoveAt(hl, tx, n - 1, bs[n - 1])
  }

  /** One more pillar checked extends the accumulated 红鸾/天喜 details by that pillar's matches. */
  lemma LoveRangeStep(details: seq<Detail>, before: seq<Detail>, after: seq<Detail>,
                      hl: Option<Branch>, tx: Option<Branch>, bs: seq<Branch>, i: nat)
    requires 1 <= i < |bs|
    requires before == details + LoveRange(hl, tx, bs, i)
    requires after == before + LoveAt(hl, tx, i, bs[i])
    ensures after == details + LoveRange(hl, tx, bs, i + 1)
  {
    assert LoveRange(hl, tx, bs, i + 1) == LoveRange(hl, tx, bs, i) + LoveAt(hl, tx, i, bs[i]);
  }

  lemma LoveRangeAll(hl: Option<Branch>, tx: Option<Branch>, c: Chart)
    ensures LoveRange(hl, tx, c.Branches(), 4)
         == LoveAt(hl, tx, 1, c.month.branch) + LoveAt(hl, tx, 2, c.day.branch) + LoveAt(hl, tx, 3, c.hour.branch)
  {
    var bs := c.Branches();
    assert LoveRange(hl, tx, bs, 2) == [] + LoveAt(hl, tx, 1, bs[1]);
    assert LoveRange(hl, tx, bs, 3) == LoveRange(hl, tx, bs, 2) + LoveAt(hl, tx, 2, bs[2]);
    assert [] + LoveAt(hl, tx, 1, bs[1]) == LoveAt(hl, tx, 1, bs[1]);
  }


  // ---------------------------------------------------------------------------
  // What the scan guarantees
  // ---------------------------------------------------------------------------

  /** No marker name occurs twice among ds. */
  predicate NamesDistinct(ds: seq<Detail>) {
    forall i, j :: 0 <= i < j < |ds| ==> ds[i].name != ds[j].name
  }

  /** d sits at the first pillar of c whose branch is d's own. */
  predicate AtFirstPillar(c: Chart, d: Detail) {
    d.position < 4 && d.branch == c.Branches()[d.position]
    && forall k :: 0 <= k < d.position ==> c.Branches()[k] != d.branch
  }

  lemma DistinctAppend(a: seq<Detail>, b: seq<Detail>)
    requires NamesDistinct(a) && NamesDistinct(b)
    requires forall x, y :: x in a && y in b ==> x.name != y.name
    ensures NamesDistinct(a + b)
  {
    forall i, j | 0 <= i < j < |a + b| ensures (a + b)[i].name != (a + b)[j].name {
      if j < |a| {
      } else if i >= |a| {
        assert (a + b)[i] == b[i - |a|] && (a + b)[j] == b[j - |a|];
      } else {
        assert (a + b)[i] in a && (a + b)[j] in b;
      }
    }
  }

  /**
   * 羊刃, 劫煞, 灾煞, 孤辰 and 寡宿 each yield at most one detail, at the first
   * pillar in year, month, day, hour order whose branch is the marker's, and
   * the xiongsha list names exactly the recorded details.
   */
  lemma XiongshaAtFirstMatch(c: Chart, rules: ShenshaRules)
    ensures var r := ShenshaOf(c, rules);
      && NamesDistinct(r.xiongshaDetails)
      && |r.xiongshaDetails| <= 5
      && (forall d :: d in r.xiongshaDetails ==> AtFirstPillar(c, d))
      && r.xiongsha == Names(r.xiongshaDetails)
  {
    var bs := c.Branches();
    var y := c.year.branch;
    var d1 := FirstDetail(YangRen, bs, [YangrenBranch(c.DayMaster())]);
    var d2 := FirstDetail(JieSha, bs, [JieshaBranch(y)]);
    var d3 := FirstDetail(ZaiSha, bs, [ZaishaBranch(y)]);
    var d4 := FirstDetail(GuChen, bs, [GuchenBranch(y)]);
    var d5 := FirstDetail(GuaSu, bs, [GuasuBranch(y)]);
    AppendFirst(c, [], [], YangRen, YangrenBranch(c.DayMaster()));
    assert [] + d1 == d1;
    AppendFirst(c, d1, [YangRen], JieSha, JieshaBranch(y));
    AppendFirst(c, d1 + d2, [YangRen, JieSha], ZaiSha, ZaishaBranch(y));
    AppendFirst(c, d1 + d2 + d3, [YangRen, JieSha, ZaiSha], GuChen, GuchenBranch(y));
    AppendFirst(c, d1 + d2 + d3 + d4, [YangRen, JieSha, ZaiSha, GuChen], GuaSu, GuasuBranch(y));
  }

  /** Each inauspicious marker is listed exactly when its table branch occurs among the chart's four branches. */
  lemma XiongshaPresence(c: Chart, rules: ShenshaRules)
    ensures var r := ShenshaOf(c, rules);
      var bs := c.Branches();
      var y := c.year.branch;
      && (YangRen in r.xiongsha <==> YangrenBranch(c.DayMaster()) in bs)
      && (JieSha in r.xiongsha <==> JieshaBranch(y) in bs)
      && (ZaiSha in r.xiongsha <==> ZaishaBranch(y) in bs)
      && (GuChen in r.xiongsha <==> GuchenBranch(y) in bs)
      && (GuaSu in r.xiongsha <==> GuasuBranch(y) in bs)
  {
    XiongshaSlots(c);
  }

  /** Each inauspicious detail carries its marker's table branch. */
  lemma XiongshaBranches(c: Chart, rules: ShenshaRules)
    ensures var r := ShenshaOf(c, rules);
      var y := c.year.branch;
      forall d :: d in r.xiongshaDetails ==>
        && (d.name == YangRen ==> d.branch == YangrenBranch(c.DayMaster()))
        && (d.name == JieSha ==> d.branch == JieshaBranch(y))
        && (d.name == ZaiSha ==> d.branch == ZaishaBranch(y))
        && (d.name == GuChen ==> d.branch == GuchenBranch(y))
        && (d.name == GuaSu ==> d.branch == GuasuBranch(y))
  {
    XiongshaSlotBranches(c);
  }

  /** The xiongsha names: each marker's name, in order, when its branch occurs. */
  lemma XiongshaSlots(c: Chart)
    ensures var all := XiongshaDetailsOf(c);
      var bs := c.Branches();
      var y := c.year.branch;
      && (YangRen in Names(all) <==> YangrenBranch(c.DayMaster()) in bs)
      && (JieSha in Names(all) <==> JieshaBranch(y) in bs)
      && (ZaiSha in Names(all) <==> ZaishaBranch(y) in bs)
      && (GuChen in Names(all) <==> GuchenBranch(y) in bs)
      && (GuaSu in Names(all) <==> GuasuBranch(y) in bs)
  {
    var bs := c.Branches();
    var y := c.year.branch;
    var d1 := FirstDetail(YangRen, bs, [YangrenBranch(c.DayMaster())]);
    var d2 := FirstDetail(JieSha, bs, [JieshaBranch(y)]);
    var d3 := FirstDetail(ZaiSha, bs, [ZaishaBranch(y)]);
    var d4 := FirstDetail(GuChen, bs, [GuchenBranch(y)]);
    var d5 := FirstDetail(GuaSu, bs, [GuasuBranch(y)]);
    var all := d1 + d2 + d3 + d4 + d5;
    assert all == XiongshaDetailsOf(c);
    FirstDetailPresence(YangRen, bs, YangrenBranch(c.DayMaster()));
    FirstDetailPresence(JieSha, bs, JieshaBranch(y));
    FirstDetailPresence(ZaiSha, bs, ZaishaBranch(y));
    FirstDetailPresence(GuChen, bs, GuchenBranch(y));
    FirstDetailPresence(GuaSu, bs, GuasuBranch(y));
    NamesOfFive(d1, d2, d3, d4, d5);
    FiveNames(Names(d1), Names(d2), Names(d3), Names(d4), Names(d5),
              YangrenBranch(c.DayMaster()) in bs, JieshaBranch(y) in bs, ZaishaBranch(y) in bs,
              GuchenBranch(y) in bs, GuasuBranch(y) in bs);
  }

  /** Each detail of the five scans carries its own marker's branch. */
  lemma XiongshaSlotBranches(c: Chart)
    ensures var y := c.year.branch;
      forall d :: d in XiongshaDetailsOf(c) ==>
        && (d.name == YangRen ==> d.branch == YangrenBranch(c.DayMaster()))
        && (d.name == JieSha ==> d.branch == JieshaBranch(y))
        && (d.name == ZaiSha ==> d.branch == ZaishaBranch(y))
        && (d.name == GuChen ==> d.branch == GuchenBranch(y))
        && (d.name == GuaSu ==> d.branch == GuasuBranch(y))
  {
    var bs := c.Branches();
    var y := c.year.branch;
    FirstDetailPresence(YangRen, bs, YangrenBranch(c.DayMaster()));
    FirstDetailPresence(JieSha, bs, JieshaBranch(y));
    FirstDetailPresence(ZaiSha, bs, ZaishaBranch(y));
    FirstDetailPresence(GuChen, bs, GuchenBranch(y));
    FirstDetailPresence(GuaSu, bs, GuasuBranch(y));
    FiveBranches(FirstDetail(YangRen, bs, [YangrenBranch(c.DayMaster())]), FirstDetail(JieSha, bs, [JieshaBranch(y)]),
                 FirstDetail(ZaiSha, bs, [ZaishaBranch(y)]), FirstDetail(GuChen, bs, [GuchenBranch(y)]),
                 FirstDetail(GuaSu, bs, [GuasuBranch(y)]),
                 YangrenBranch(c.DayMaster()), JieshaBranch(y), ZaishaBranch(y), GuchenBranch(y), GuasuBranch(y));
  }

  /** Five detail lists, each of one marker at one branch: in their concatenation each marker keeps its branch. */
  lemma FiveBranches(d1: seq<Detail>, d2: seq<Detail>, d3: seq<Detail>, d4: seq<Detail>, d5: seq<Detail>,
                     b1: Branch, b2: Branch, b3: Branch, b4: Branch, b5: Branch)
    requires forall d :: d in d1 ==> d.name == YangRen && d.branch == b1
    requires forall d :: d in d2 ==> d.name == JieSha && d.branch == b2
    requires forall d :: d in d3 ==> d.name == ZaiSha && d.branch == b3
    requires forall d :: d in d4 ==> d.name == GuChen && d.branch == b4
    requires forall d :: d in d5 ==> d.name == GuaSu && d.branch == b5
    ensures forall d :: d in d1 + d2 + d3 + d4 + d5 ==>
      && (d.name == YangRen ==> d.branch == b1)
      && (d.name == JieSha ==> d.branch == b2)
      && (d.name == ZaiSha ==> d.branch == b3)
      && (d.name == GuChen ==> d.branch == b4)
      && (d.name == GuaSu ==> d.branch == b5)
  {
    forall d | d in d1 + d2 + d3 + d4 + d5
      ensures d in d1 || d in d2 || d in d3 || d in d4 || d in d5
    {
    }
  }

  /** Five optional names in a row: each marker occurs exactly when its own part is present. */
  lemma FiveNames(n1: seq<Marker>, n2: seq<Marker>, n3: seq<Marker>, n4: seq<Marker>, n5: seq<Marker>,
                  p1: bool, p2: bool, p3: bool, p4: bool, p5: bool)
    requires n1 == (if p1 then [YangRen] else []) && n2 == (if p2 then [JieSha] else [])
    requires n3 == (if p3 then [ZaiSha] else []) && n4 == (if p4 then [GuChen] else [])
    requires n5 == (if p5 then [GuaSu] else [])
    ensures var ns := n1 + n2 + n3 + n4 + n5;
      && (YangRen in ns <==> p1) && (JieSha in ns <==> p2) && (ZaiSha in ns <==> p3)
      && (GuChen in ns <==> p4) && (GuaSu in ns <==> p5)
  {
    var ns := n1 + n2 + n3 + n4 + n5;
    forall x: Marker
      ensures x in ns <==> (p1 && x == YangRen) || (p2 && x == JieSha) || (p3 && x == ZaiSha)
                           || (p4 && x == GuChen) || (p5 && x == GuaSu)
    {
      assert x in ns <==> x in n1 || x in n2 || x in n3 || x in n4 || x in n5;
    }
  }

  /** The names of five concatenated lists are the concatenation of their names. */
  lemma NamesOfFive(d1: seq<Detail>, d2: seq<Detail>, d3: seq<Detail>, d4: seq<Detail>, d5: seq<Detail>)
    ensures Names(d1 + d2 + d3 + d4 + d5) == Names(d1) + Names(d2) + Names(d3) + Names(d4) + Names(d5)
  {
    NamesAppend(d1, d2);
    NamesAppend(d1 + d2, d3);
    NamesAppend(d1 + d2 + d3, d4);
    NamesAppend(d1 + d2 + d3 + d4, d5);
  }

  /** A one-branch scan records a detail exactly when the branch occurs, and the detail carries it. */
  lemma FirstDetailPresence(m: Marker, bs: seq<Branch>, b: Branch)
    ensures var ds := FirstDetail(m, bs, [b]);
      && (|ds| > 0 <==> b in bs)
      && Names(ds) == (if b in bs then [m] else [])
      && forall d :: d in ds ==> d.name == m && d.branch == b
  {
    if b in bs {
      var k :| 0 <= k < |bs| && bs[k] == b;
      assert bs[k] in [b];
    }
  }

  /** Appending a first-match detail of a new marker keeps the names distinct and every detail at its first pillar. */
  lemma AppendFirst(c: Chart, a: seq<Detail>, ms: seq<Marker>, m: Marker, b: Branch)
    requires NamesDistinct(a) && |a| <= |ms| && m !in ms
    requires forall d :: d in a ==> d.name in ms && AtFirstPillar(c, d)
    ensures var a' := a + FirstDetail(m, c.Branches(), [b]);
      && NamesDistinct(a') && |a'| <= |ms| + 1
      && forall d :: d in a' ==> d.name in ms + [m] && AtFirstPillar(c, d)
  {
    var f := FirstDetail(m, c.Branches(), [b]);
    DistinctAppend(a, f);
    forall d | d in a + f ensures d.name in ms + [m] && AtFirstPillar(c, d) {
      if d in a {
      } else {
        assert d in f;
      }
    }
  }

  /** Details named m can only come from the middle part, which holds at most one. */
  lemma OnlyFromMiddle(a: seq<Detail>, mid: seq<Detail>, b: seq<Detail>, m: Marker)
    requires |mid| <= 1
    requires forall d :: d in a ==> d.name != m
    requires forall d :: d in b ==> d.name != m
    ensures forall i, j :: 0 <= i < j < |a + mid + b| ==> !((a + mid + b)[i].name == m && (a + mid + b)[j].name == m)
  {
    var ds := a + mid + b;
    assert forall k :: 0 <= k < |a| ==> ds[k] == a[k] && a[k] in a;
    assert forall k :: |a| + |mid| <= k < |ds| ==> ds[k] == b[k - |a| - |mid|] && b[k - |a| - |mid|] in b;
  }

  /** 红鸾 and 天喜 only ever sit at the month, day or hour pillar. */
  lemma LoveShape(c: Chart, rules: ShenshaRules)
    ensures forall d :: d in LoveDetails(c, rules) ==>
              d.name in {HongLuan, TianXi} && 1 <= d.position < 4 && d.branch == c.Branches()[d.position]
  {
  }

  /**
   * 天乙贵人, 文昌贵人 and 桃花 are each recorded at most once: the first two
   * at their first matching pillar, and 桃花 because the day-branch check runs
   * only when the year-branch check found none. 红鸾 and 天喜 may repeat but
   * are never recorded at the year pillar.
   */
  lemma UniqueNames(t: seq<Detail>, w: seq<Detail>, love: seq<Detail>, peach: seq<Detail>)
    requires |t| <= 1 && forall d :: d in t ==> d.name == TianYi
    requires |w| <= 1 && forall d :: d in w ==> d.name == WenChang
    requires forall d :: d in love ==> d.name in {HongLuan, TianXi}
    requires |peach| <= 1 && forall d :: d in peach ==> d.name == TaoHua
    ensures var ds := t + w + love + peach;
      && (forall i, j :: 0 <= i < j < |ds| ==> !(ds[i].name == TianYi && ds[j].name == TianYi))
      && (forall i, j :: 0 <= i < j < |ds| ==> !(ds[i].name == WenChang && ds[j].name == WenChang))
      && (forall i, j :: 0 <= i < j < |ds| ==> !(ds[i].name == TaoHua && ds[j].name == TaoHua))
  {
    var ds := t + w + love + peach;
    OnlyFromMiddle([], t, w + love + peach, TianYi);
    assert [] + t + (w + love + peach) == ds;
    OnlyFromMiddle(t, w, love + peach, WenChang);
    assert t + w + (love + peach) == ds;
    OnlyFromMiddle(t + w + love, peach, [], TaoHua);
    assert t + w + love + peach + [] == ds;
  }

  lemma JishenShape(c: Chart, rules: ShenshaRules)
    ensures var ds := JishenDetailsOf(c, rules);
      && (forall i, j :: 0 <= i < j < |ds| ==> !(ds[i].name == TianYi && ds[j].name == TianYi))
      && (forall i, j :: 0 <= i < j < |ds| ==> !(ds[i].name == WenChang && ds[j].name == WenChang))
      && (forall i, j :: 0 <= i < j < |ds| ==> !(ds[i].name == TaoHua && ds[j].name == TaoHua))
  {
    LoveShape(c, rules);
    UniqueNames(TianyiDetails(c, rules), WenchangDetails(c, rules), LoveDetails(c, rules), TaohuaDetails(c, rules));
  }

  /**
   * Each auspicious marker is in the jishen set exactly when its rule entry
   * exists and matches: 天乙贵人 some pillar among the day stem's branches,
   * 文昌贵人 the day stem's branch, 红鸾 and 天喜 the year branch's branch at the
   * month, day or hour pillar, 桃花 some pillar by the year's entry or else
   * by the day's.
   */
  lemma JishenPresence(c: Chart, rules: ShenshaRules)
    ensures var r := ShenshaOf(c, rules);
      var dm := c.DayMaster();
      var bs := c.Branches();
      var y := c.year.branch;
      var dd := c.day.branch;
      var later := [c.month.branch, c.day.branch, c.hour.branch];
      && (TianYi in r.jishen <==> dm in rules.tianyi && AnyHit(bs, rules.tianyi[dm]))
      && (WenChang in r.jishen <==> dm in rules.wenchang && rules.wenchang[dm] in bs)
      && (HongLuan in r.jishen <==>
            y in rules.hongluanTianxi && rules.hongluanTianxi[y].0.Some? && rules.hongluanTianxi[y].0.value in later)
      && (TianXi in r.jishen <==>
            y in rules.hongluanTianxi && rules.hongluanTianxi[y].1.Some? && rules.hongluanTianxi[y].1.value in later)
      && (TaoHua in r.jishen <==>
            (y in rules.taohua && AnyHit(bs, rules.taohua[y])) || (dd in rules.taohua && AnyHit(bs, rules.taohua[dd])))
  {
    var t := TianyiDetails(c, rules);
    var w := WenchangDetails(c, rules);
    var l := LoveDetails(c, rules);
    var p := TaohuaDetails(c, rules);
    assert JishenDetailsOf(c, rules) == t + w + l + p;
    FourPartNames(t, w, l, p);
    LovePresence(c, rules);
  }

  /** Which names the four jishen parts contribute to the set of names. */
  lemma FourPartNames(t: seq<Detail>, w: seq<Detail>, l: seq<Detail>, p: seq<Detail>)
    requires forall d :: d in t ==> d.name == TianYi
    requires forall d :: d in w ==> d.name == WenChang
    requires forall d :: d in l ==> d.name == HongLuan || d.name == TianXi
    requires forall d :: d in p ==> d.name == TaoHua
    ensures var names := set d | d in t + w + l + p :: d.name;
      && (TianYi in names <==> |t| > 0)
      && (WenChang in names <==> |w| > 0)
      && (TaoHua in names <==> |p| > 0)
      && (HongLuan in names <==> exists d :: d in l && d.name == HongLuan)
      && (TianXi in names <==> exists d :: d in l && d.name == TianXi)
  {
    var jd := t + w + l + p;
    assert forall d :: d in jd <==> d in t || d in w || d in l || d in p;
    if |t| > 0 { assert t[0] in jd; }
    if |w| > 0 { assert w[0] in jd; }
    if |p| > 0 { assert p[0] in jd; }
  }

  /** 红鸾 and 天喜 are never recorded at the year pillar. */
  lemma LoveNeverAtYear(c: Chart, rules: ShenshaRules)
    ensures forall d :: d in JishenDetailsOf(c, rules) && d.name in {HongLuan, TianXi} ==>
              1 <= d.position < 4 && d.branch == c.Branches()[d.position]
  {
    LoveShape(c, rules);
  }
}
