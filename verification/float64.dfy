/**
 * The binary64 arithmetic behind the analyzer's element tally: counts of 1
 * and 0.3 added with Python's `+=` on floats. A value v is held as the
 * integer v·2^54, so every double in [0.25, 2^10) is a whole number of units
 * and every sum of two such values rounds at the spacing of its binade.
 */
module Float64 {
  /** 1.0 in units of 2^-54. */
  const One: int := 0x40_0000_0000_0000

  /** The double nearest 0.3 (0x1.3333333333333p-2), slightly below 0.3·One. */
  const PointThree: int := 5404319552844595

  /** 2^53 units = 0.5: below it every whole number of units is a double. */
  const Half: int := 0x20_0000_0000_0000

  function Pow2(k: nat): (p: int)
    ensures p >= 1
  {
    if k == 0 then 1 else 2 * Pow2(k - 1)
  }

  /**
   * The spacing of doubles at x: one unit below 0.5, doubling with each binade
   * [2^(52+j), 2^(53+j)) units above it.
   */
  function Ulp(x: int): (u: int)
    ensures u >= 1
    decreases x
  {
    if x < Half then 1 else 2 * Ulp(x / 2)
  }

  /** Round to nearest, ties to the even multiple of the spacing (IEEE 754 default). */
  function Round(x: int): (r: int)
    ensures r - x <= Ulp(x) / 2 && x - r <= Ulp(x) / 2
  {
    var u := Ulp(x);
    var q := x / u;
    var m := x % u;
    assert x == q * u + m;
    if 2 * m < u then q * u
    else if 2 * m > u then (q + 1) * u
    else if q % 2 == 0 then q * u
    else (q + 1) * u
  }

  /** `a + b` on doubles. */
  function Add(a: int, b: int): int {
    Round(a + b)
  }

  /** Below 2^(53+k) units the spacing is at most 2^k. */
  lemma {:induction false} UlpAtMost(x: int, k: nat)
    requires x < Half * Pow2(k)
    ensures Ulp(x) <= Pow2(k)
  {
    if x >= Half {
      assert k > 0;
      assert Pow2(k) == 2 * Pow2(k - 1);
      UlpAtMost(x / 2, k - 1);
    }
  }

  /** Below 16.0 a double sum is off from the exact sum by at most 16 units (2^-50). */
  lemma AddNear(a: int, b: int)
    requires a + b < 16 * One
    ensures Add(a, b) - (a + b) <= 16 && (a + b) - Add(a, b) <= 16
  {
    assert Pow2(5) == 32;
    UlpAtMost(a + b, 5);
  }

  /** In the binade [2^(53+k), 2^(54+k)) units the spacing is exactly 2^(k+1). */
  lemma {:induction false} UlpInBinade(x: int, k: nat)
    requires Half * Pow2(k) <= x < 2 * Half * Pow2(k)
    ensures Ulp(x) == 2 * Pow2(k)
  {
    if k > 0 {
      assert Pow2(k) == 2 * Pow2(k - 1);
      UlpInBinade(x / 2, k - 1);
    }
  }

  /** The rounding of a sum written out as q whole steps of the spacing u plus a remainder m. */
  lemma AddBySteps(a: int, b: int, u: int, q: int, m: int)
    requires Ulp(a + b) == u && a + b == q * u + m && 0 <= m < u
    ensures Add(a, b) == if 2 * m < u then q * u else if 2 * m > u then (q + 1) * u else if q % 2 == 0 then q * u else (q + 1) * u
  {
    var x := a + b;
    DivModUnique(x, u, q, m);
  }

  lemma DivModUnique(x: int, u: int, q: int, m: int)
    requires u > 0 && x == q * u + m && 0 <= m < u
    ensures x / u == q && x % u == m
  {
    var d := x / u - q;
    assert d * u == m - x % u;
  }

  /** Sums below 0.5 are exact. */
  lemma AddExactBelowHalf(a: int, b: int)
    requires a + b < Half
    ensures Add(a, b) == a + b
  {
  }

  /** Adding the weights ws to 0.0 one at a time, each sum rounded. */
  function FSum(ws: seq<int>): int {
    if |ws| == 0 then 0 else Add(FSum(ws[..|ws| - 1]), ws[|ws| - 1])
  }

  /** FSum of a short list, one rounded addition per element. */
  lemma FSumTwo(a: int, b: int)
    ensures FSum([a, b]) == Add(Add(0, a), b)
  {
    assert [a, b][..1] == [a] && [a][..0] == [];
    assert FSum([a]) == Add(FSum([]), a);
  }

  lemma FSumFour(a: int, b: int, c: int, d: int)
    ensures FSum([a, b, c, d]) == Add(Add(Add(Add(0, a), b), c), d)
  {
    assert [a, b, c, d][..3] == [a, b, c] && [a, b, c][..2] == [a, b];
    FSumTwo(a, b);
  }

  lemma FSumSix(a: int, b: int, c: int, d: int, e: int, f: int)
    ensures FSum([a, b, c, d, e, f]) == Add(Add(Add(Add(Add(Add(0, a), b), c), d), e), f)
  {
    assert [a, b, c, d, e, f][..5] == [a, b, c, d, e] && [a, b, c, d, e][..4] == [a, b, c, d];
    FSumFour(a, b, c, d);
  }

  lemma FSumSnoc(ws: seq<int>, w: int)
    ensures FSum(ws + [w]) == Add(FSum(ws), w)
  {
    assert (ws + [w])[..|ws|] == ws;
  }

  /** 金 in the tie chart: 1 + 1 + 0.3 + 1 + 0.3 + 0.3 ends at 3.8999999999999995. */
  lemma MetalTieSum()
    ensures FSum([One, One, PointThree, One, PointThree, PointThree]) == 70256154186979728
  {
    assert Pow2(1) == 2 && Pow2(2) == 4;
    assert Add(0, One) == 18014398509481984 by {
      UlpInBinade(One, 1);
      AddBySteps(0, One, 4, 4503599627370496, 0);
    }
    assert Add(18014398509481984, One) == 36028797018963968 by {
      UlpInBinade(18014398509481984 + One, 2);
      AddBySteps(18014398509481984, One, 8, 4503599627370496, 0);
    }
    assert Add(36028797018963968, PointThree) == 41433116571808560 by {
      UlpInBinade(36028797018963968 + PointThree, 2);
      AddBySteps(36028797018963968, PointThree, 8, 5179139571476070, 3);
    }
    assert Add(41433116571808560, One) == 59447515081290544 by {
      UlpInBinade(41433116571808560 + One, 2);
      AddBySteps(41433116571808560, One, 8, 7430939385161318, 0);
    }
    assert Add(59447515081290544, PointThree) == 64851834634135136 by {
      UlpInBinade(59447515081290544 + PointThree, 2);
      AddBySteps(59447515081290544, PointThree, 8, 8106479329266892, 3);
    }
    assert Add(64851834634135136, PointThree) == 70256154186979728 by {
      UlpInBinade(64851834634135136 + PointThree, 2);
      AddBySteps(64851834634135136, PointThree, 8, 8782019273372466, 3);
    }
    FSumSix(One, One, PointThree, One, PointThree, PointThree);
  }

  /** 火 in the tie chart: 0.3 + 1 + 0.3 + 1 + 1 + 0.3 ends at 3.9. */
  lemma FireTieSum()
    ensures FSum([PointThree, One, PointThree, One, One, PointThree]) == 70256154186979736
  {
    assert Pow2(1) == 2 && Pow2(2) == 4;
    assert Add(0, PointThree) == 5404319552844595 by {
      AddExactBelowHalf(0, PointThree);
    }
    assert Add(5404319552844595, One) == 23418718062326580 by {
      UlpInBinade(5404319552844595 + One, 1);
      AddBySteps(5404319552844595, One, 4, 5854679515581644, 3);
    }
    assert Add(23418718062326580, PointThree) == 28823037615171176 by {
      UlpInBinade(23418718062326580 + PointThree, 1);
      AddBySteps(23418718062326580, PointThree, 4, 7205759403792793, 3);
    }
    assert Add(28823037615171176, One) == 46837436124653160 by {
      UlpInBinade(28823037615171176 + One, 2);
      AddBySteps(28823037615171176, One, 8, 5854679515581645, 0);
    }
    assert Add(46837436124653160, One) == 64851834634135144 by {
      UlpInBinade(46837436124653160 + One, 2);
      AddBySteps(46837436124653160, One, 8, 8106479329266893, 0);
    }
    assert Add(64851834634135144, PointThree) == 70256154186979736 by {
      UlpInBinade(64851834634135144 + PointThree, 2);
      AddBySteps(64851834634135144, PointThree, 8, 8782019273372467, 3);
    }
    FSumSix(PointThree, One, PointThree, One, One, PointThree);
  }

  /** 水 in the tie chart: 0.3 + 1. */
  lemma WaterTieSum()
    ensures FSum([PointThree, One]) == 23418718062326580
  {
    assert Pow2(1) == 2 && Pow2(2) == 4;
    assert Add(0, PointThree) == 5404319552844595 by {
      AddExactBelowHalf(0, PointThree);
    }
    assert Add(5404319552844595, One) == 23418718062326580 by {
      UlpInBinade(5404319552844595 + One, 1);
      AddBySteps(5404319552844595, One, 4, 5854679515581644, 3);
    }
    FSumTwo(PointThree, One);
  }

  /** 土 in the tie chart: four hidden 0.3s. */
  lemma EarthTieSum()
    ensures FSum([PointThree, PointThree, PointThree, PointThree]) == 21617278211378380
  {
    assert Pow2(1) == 2 && Pow2(2) == 4;
    assert Add(0, PointThree) == 5404319552844595 by {
      AddExactBelowHalf(0, PointThree);
    }
    assert Add(5404319552844595, PointThree) == 10808639105689190 by {
      UlpInBinade(5404319552844595 + PointThree, 0);
      AddBySteps(5404319552844595, PointThree, 2, 5404319552844595, 0);
    }
    assert Add(10808639105689190, PointThree) == 16212958658533784 by {
      UlpInBinade(10808639105689190 + PointThree, 0);
      AddBySteps(10808639105689190, PointThree, 2, 8106479329266892, 1);
    }
    assert Add(16212958658533784, PointThree) == 21617278211378380 by {
      UlpInBinade(16212958658533784 + PointThree, 1);
      AddBySteps(16212958658533784, PointThree, 4, 5404319552844594, 3);
    }
    FSumFour(PointThree, PointThree, PointThree, PointThree);
  }

  /** 木 in the tie chart: 1 + 0.3. */
  lemma WoodTieSum()
    ensures FSum([One, PointThree]) == 23418718062326580
  {
    assert Pow2(1) == 2 && Pow2(2) == 4;
    assert Add(0, One) == 18014398509481984 by {
      UlpInBinade(One, 1);
      AddBySteps(0, One, 4, 4503599627370496, 0);
    }
    assert Add(18014398509481984, PointThree) == 23418718062326580 by {
      UlpInBinade(18014398509481984 + PointThree, 1);
      AddBySteps(18014398509481984, PointThree, 4, 5854679515581644, 3);
    }
    FSumTwo(One, PointThree);
  }
}
