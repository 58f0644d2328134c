/**
 * The sexagenary vocabulary every component shares: the ten heavenly stems,
 * the twelve earthly branches, the five phases with their generation (生)
 * and control (克) cycles, and the fixed per-stem and per-branch tables.
 */
module Ganzhi {

  /** 甲 乙 丙 丁 戊 己 庚 辛 壬 癸 as 0..9. */
  type Stem = i: int | 0 <= i < 10

  /** 子 丑 寅 卯 辰 巳 午 未 申 酉 戌 亥 as 0..11. */
  type Branch = i: int | 0 <= i < 12

  /** 金 木 水 火 土, declared in the order the analyzer lists them. */
  datatype Element = Metal | Wood | Water | Fire | Earth

  /** 阳 / 阴 */
  datatype Polarity = Yang | Yin

  const Elements: seq<Element> := [Metal, Wood, Water, Fire, Earth]

  /** 甲乙 木, 丙丁 火, 戊己 土, 庚辛 金, 壬癸 水. */
  function StemElement(s: Stem): Element {
    if s < 2 then Wood else if s < 4 then Fire else if s < 6 then Earth
    else if s < 8 then Metal else Water
  }

  /** The odd-numbered stems 乙丁己辛癸 are yin. */
  function StemPolarity(s: Stem): Polarity {
    if s % 2 == 0 then Yang else Yin
  }

  function BranchElement(b: Branch): Element {
    [Water, Earth, Wood, Wood, Earth, Fire, Fire, Earth, Metal, Metal, Earth, Water][b]
  }

  /** A branch's polarity is taken from its index parity. */
  function BranchPolarity(b: Branch): Polarity {
    if b % 2 == 0 then Yang else Yin
  }

  /**
   * The hidden stems (藏干) of a branch. The first one, the branch's main
   * qi (本气), always has the branch's own element.
   */
  function HiddenStems(b: Branch): (hs: seq<Stem>)
    ensures 1 <= |hs| <= 3
    ensures StemElement(hs[0]) == BranchElement(b)
  {
    var table: seq<seq<Stem>> :=
      [[9], [5, 9, 7], [0, 2, 4], [1], [4, 1, 9], [2, 4, 6],
       [3, 5], [5, 3, 1], [6, 8, 4], [7], [4, 7, 3], [8, 0]];
    table[b]
  }

  /** 生: 木→火→土→金→水→木. */
  function Sheng(e: Element): Element {
    match e
    case Wood => Fire
    case Fire => Earth
    case Earth => Metal
    case Metal => Water
    case Water => Wood
  }

  /** 克, the element that e controls: 木→土, 土→水, 水→火, 火→金, 金→木. */
  function Ke(e: Element): (k: Element)
    ensures k == Sheng(Sheng(e))
  {
    match e
    case Wood => Earth
    case Earth => Water
    case Water => Fire
    case Fire => Metal
    case Metal => Wood
  }

  /** The element that generates e (生我者). */
  function Gen(e: Element): (g: Element)
    ensures Sheng(g) == e
    ensures forall x :: Sheng(x) == e ==> x == g
  {
    match e
    case Fire => Wood
    case Earth => Fire
    case Metal => Earth
    case Water => Metal
    case Wood => Water
  }

  /** Sheng applied n times. */
  function ShengN(n: nat, e: Element): Element {
    if n == 0 then e else Sheng(ShengN(n - 1, e))
  }

  /** 生 is a single 5-cycle: five steps return, fewer never do. */
  lemma ShengIsFiveCycle(e: Element)
    ensures ShengN(5, e) == e
    ensures forall n :: 1 <= n <= 4 ==> ShengN(n, e) != e
  {
    assert ShengN(1, e) == Sheng(e);
    assert ShengN(2, e) == Sheng(Sheng(e));
    assert ShengN(3, e) == Sheng(Sheng(Sheng(e)));
    assert ShengN(4, e) == Sheng(Sheng(Sheng(Sheng(e))));
  }

  /** The source's own names for the five relations of an element x to a reference r. */
  function RelationCount(r: Element, x: Element): nat {
    (if x == r then 1 else 0) + (if Sheng(r) == x then 1 else 0) + (if Ke(r) == x then 1 else 0)
    + (if Ke(x) == r then 1 else 0) + (if Sheng(x) == r then 1 else 0)
  }

  /**
   * Every element stands in exactly one of the five relations to another:
   * the same, generated by it, controlled by it, controlling it, generating it.
   */
  lemma ExactlyOneRelation(r: Element, x: Element)
    ensures RelationCount(r, x) == 1
  {
    match r
    case Metal =>
    case Wood =>
    case Water =>
    case Fire =>
    case Earth =>
  }

  /** One pillar: a stem paired with a branch. */
  datatype Pillar = Pillar(stem: Stem, branch: Branch)

  /** Only pairs of equal parity occur in the 60-term cycle. */
  predicate IsSexagenary(p: Pillar) {
    p.stem % 2 == p.branch % 2
  }

  /** The k-th term of the 60-term cycle, 甲子 at k = 0. */
  function CyclePillar(k: int): (p: Pillar)
    ensures IsSexagenary(p)
  {
    SameParity(k);
    Pillar(k % 10, k % 12)
  }

  lemma SameParity(k: int)
    ensures (k % 10) % 2 == (k % 12) % 2
  {
    var a, b := k / 10, k / 12;
    assert k == 10 * a + k % 10;
    assert k == 12 * b + k % 12;
    var c := 6 * b - 5 * a;
    assert k % 10 == k % 12 + 2 * c;
  }

  /** The position of a pillar in the 60-term cycle. */
  function CycleIndex(p: Pillar): (k: int)
    requires IsSexagenary(p)
    ensures 0 <= k < 60
    ensures CyclePillar(k) == p
  {
    var t := ((p.stem - p.branch) / 2) % 6;
    CycleIndexInverts(p.stem, p.branch);
    assert CyclePillar(p.stem + 10 * t) == p;
    FirstIndexFrom(p, 0)
  }

  /** The first cycle position from k on that holds p. */
  function FirstIndexFrom(p: Pillar, k: nat): (r: nat)
    requires k <= 60
    requires exists j :: k <= j < 60 && CyclePillar(j) == p
    ensures k <= r < 60 && CyclePillar(r) == p
    decreases 60 - k
  {
    if CyclePillar(k) == p then k else FirstIndexFrom(p, k + 1)
  }

  lemma CycleIndexInverts(s: int, b: int)
    requires 0 <= s < 10 && 0 <= b < 12 && s % 2 == b % 2
    ensures 0 <= s + 10 * (((s - b) / 2) % 6) < 60
    ensures (s + 10 * (((s - b) / 2) % 6)) % 10 == s
    ensures (s + 10 * (((s - b) / 2) % 6)) % 12 == b
  {
    var d := (s - b) / 2;
    var t := d % 6;
    var m := d / 6;
    EvenDifference(s, b);
    assert d == 6 * m + t;
    ModAdd10(s, t);
    assert s + 10 * t == b + 12 * (d - 5 * m);
    ModAdd12(b, d - 5 * m);
  }

  lemma EvenDifference(s: int, b: int)
    requires s % 2 == b % 2
    ensures s - b == 2 * ((s - b) / 2)
  {
  }

  /** Moving k along the cycle by d moves its stem and its branch by d. */
  lemma CycleShift(k: int, d: int)
    ensures CyclePillar(k + d) == Pillar((CyclePillar(k).stem + d) % 10, (CyclePillar(k).branch + d) % 12)
  {
    assert k + d == (k % 10 + d) + 10 * (k / 10);
    ModAdd10(k % 10 + d, k / 10);
    assert k + d == (k % 12 + d) + 12 * (k / 12);
    ModAdd12(k % 12 + d, k / 12);
  }

  lemma ModOfMod(x: int)
    ensures (x % 60) % 10 == x % 10 && (x % 60) % 12 == x % 12
  {
    var q := x / 60;
    assert x == x % 60 + 10 * (6 * q);
    ModAdd10(x % 60, 6 * q);
    assert x == x % 60 + 12 * (5 * q);
    ModAdd12(x % 60, 5 * q);
  }

  lemma ModAdd10(a: int, q: int)
    ensures (a + 10 * q) % 10 == a % 10
  {
  }

  lemma ModAdd12(a: int, q: int)
    ensures (a + 12 * q) % 12 == a % 12
  {
  }

  /** The cycle has period 60. */
  lemma CyclePeriodic(k: int, n: int)
    ensures CyclePillar(k + 60 * n) == CyclePillar(k)
  {
    assert k + 60 * n == k + 10 * (6 * n);
    ModAdd10(k, 6 * n);
    assert k + 60 * n == k + 12 * (5 * n);
    ModAdd12(k, 5 * n);
  }

  /** The four pillars of a chart, in the source's year, month, day, hour order. */
  datatype Chart = Chart(year: Pillar, month: Pillar, day: Pillar, hour: Pillar) {
    function Pillars(): (ps: seq<Pillar>)
      ensures |ps| == 4
    {
      [year, month, day, hour]
    }

    function Branches(): (bs: seq<Branch>)
      ensures |bs| == 4
      ensures forall i :: 0 <= i < 4 ==> bs[i] == Pillars()[i].branch
    {
      [year.branch, month.branch, day.branch, hour.branch]
    }

    /** The day master (日主) is the day pillar's stem. */
    function DayMaster(): Stem {
      day.stem
    }
  }
}
