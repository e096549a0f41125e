/** What the fixed-point exponential has in common with exp, for all inputs and to within a unit of its result. */
module ExpLaws {
  import opened Integers
  import opened Options
  import opened FixedPointExp

  // ---- Slopes of the polynomial chains ----

  lemma ShiftDifference(u: int, v: int, d: nat, low: int, high: int)
    requires (low + d) * TWO_TO_96 <= v - u <= (high - d) * TWO_TO_96
    ensures low <= Shr96(v) - Shr96(u) <= high
  {
  }

  lemma Scaled(x: int, y: int, d: nat)
    requires x <= y
    ensures x * d <= y * d
  {
  }

  /** Horner's step on two inputs: how far the results are apart, per unit of input. */
  lemma SlopeStep(a: int, b: int, x: int, y: int, low: int, high: int, slope: int, outLow: int, outHigh: int)
    requires Reduced(x) && x <= y && slope >= 0
    requires low <= b <= high && -(slope * (y - x)) <= b - a <= slope * (y - x)
    requires (outLow + 1) * TWO_TO_96 <= low - slope * HALF_LN2
    requires high + slope * HALF_LN2 <= (outHigh - 1) * TWO_TO_96
    ensures outLow * (y - x) <= Shr96(b * y) - Shr96(a * x) <= outHigh * (y - x)
  {
    var d := y - x;
    assert b * y - a * x == b * d + (b - a) * x;
    ProductBound(b - a, x, slope * d, HALF_LN2);
    Scaled(low, b, d);
    Scaled(b, high, d);
    Scaled((outLow + 1) * TWO_TO_96, low - slope * HALF_LN2, d);
    Scaled(high + slope * HALF_LN2, (outHigh - 1) * TWO_TO_96, d);
    Regroup(outLow, outHigh, low, high, slope, d);
    ShiftDifference(a * x, b * y, d, outLow * d, outHigh * d);
  }

  lemma Regroup(outLow: int, outHigh: int, low: int, high: int, slope: int, d: int)
    ensures (outLow + 1) * TWO_TO_96 * d == (outLow * d + d) * TWO_TO_96
    ensures (outHigh - 1) * TWO_TO_96 * d == (outHigh * d - d) * TWO_TO_96
    ensures (low - slope * HALF_LN2) * d == low * d - slope * d * HALF_LN2
    ensures (high + slope * HALF_LN2) * d == high * d + slope * d * HALF_LN2
  {
  }

  lemma Q1Slope(x: int, y: int)
    requires Reduced(x) && Reduced(y) && x <= y
    ensures -38 * (y - x) <= Q(1, y) - Q(1, x) <= -34 * (y - x)
  {
    SlopeStep(Q(0, x), Q(0, y), x, y, -2_884_000_000_000_000_000_000_000_000_000,
              -2_828_000_000_000_000_000_000_000_000_000, 1, -38, -34);
  }

  lemma Q2Slope(x: int, y: int)
    requires Reduced(x) && Reduced(y) && x <= y
    ensures 600 * (y - x) <= Q(2, y) - Q(2, x) <= 661 * (y - x)
  {
    Q1Bounds(y);
    Q1Slope(x, y);
    SlopeStep(Q(1, x), Q(1, y), x, y, 49_000_000_000_000_000_000_000_000_000_000,
              51_100_000_000_000_000_000_000_000_000_000, 38, 600, 661);
  }

  lemma Q3Slope(x: int, y: int)
    requires Reduced(x) && Reduced(y) && x <= y
    ensures -7_200 * (y - x) <= Q(3, y) - Q(3, x) <= -6_200 * (y - x)
  {
    Q2Bounds(y);
    Q2Slope(x, y);
    SlopeStep(Q(2, x), Q(2, y), x, y, -552_000_000_000_000_000_000_000_000_000_000,
              -516_000_000_000_000_000_000_000_000_000_000, 661, -7_200, -6_200);
  }

  lemma Q4Slope(x: int, y: int)
    requires Reduced(x) && Reduced(y) && x <= y
    ensures 40_000 * (y - x) <= Q(4, y) - Q(4, x) <= 51_000 * (y - x)
  {
    Q3Bounds(y);
    Q3Slope(x, y);
    SlopeStep(Q(3, x), Q(3, y), x, y, 3_412_000_000_000_000_000_000_000_000_000_000,
              3_797_000_000_000_000_000_000_000_000_000_000, 7_200, 40_000, 51_000);
  }

  /** The denominator falls. */
  lemma DenominatorSlope(x: int, y: int)
    requires Reduced(x) && Reduced(y) && x <= y
    ensures Denominator(y) - Denominator(x) <= -140_000 * (y - x)
  {
    Q4Bounds(y);
    Q4Slope(x, y);
    SlopeStep(Q(4, x), Q(4, y), x, y, -15_744_000_000_000_000_000_000_000_000_000_000,
              -13_103_000_000_000_000_000_000_000_000_000_000, 51_000, -220_000, -140_000);
  }

  lemma YSlope(x: int, y: int)
    requires Reduced(x) && Reduced(y) && x <= y
    ensures 15 * (y - x) <= Y(y) - Y(x) <= 19 * (y - x) && P(0, y) - P(0, x) == Y(y) - Y(x) + (y - x)
  {
    assert Horner(Y_COEFFICIENTS, 0, x) == x + 1_346_386_616_545_796_478_920_950_773_328;
    assert Horner(Y_COEFFICIENTS, 0, y) == y + 1_346_386_616_545_796_478_920_950_773_328;
    SlopeStep(x + 1_346_386_616_545_796_478_920_950_773_328, y + 1_346_386_616_545_796_478_920_950_773_328, x, y,
              1_346_386_616_545_796_478_920_950_773_328 - HALF_LN2,
              1_346_386_616_545_796_478_920_950_773_328 + HALF_LN2, 1, 15, 19);
  }

  /** Both factors of P1's product change by about the same amount, and the positive one is the larger. */
  lemma ProductSlope(p: int, q: int, y: int, z: int, d: nat)
    requires q - p == z - y + d && 15 * d <= z - y <= 19 * d
    requires 19_000_000_000_000_000_000_000_000_000_000 <= q + y <= 22_000_000_000_000_000_000_000_000_000_000
    requires 56_000_000_000_000_000_000_000_000_000_000 <= y <= 58_000_000_000_000_000_000_000_000_000_000
    ensures 0 <= Shr96(q * z) - Shr96(p * y) <= 6_100 * d
  {
    assert q * z - p * y == (q + y) * (z - y) + y * d;
    MulMonotone(q + y, 22_000_000_000_000_000_000_000_000_000_000, z - y, 19 * d);
    MulMonotone(19_000_000_000_000_000_000_000_000_000_000, q + y, 15 * d, z - y);
    Scaled(56_000_000_000_000_000_000_000_000_000_000, y, d);
    Scaled(y, 58_000_000_000_000_000_000_000_000_000_000, d);
    ShiftDifference(p * y, q * z, d, 0, 6_100 * d);
  }

  lemma P1Slope(x: int, y: int)
    requires Reduced(x) && Reduced(y) && x <= y
    ensures 0 <= P(1, y) - P(1, x) <= 6_100 * (y - x)
  {
    YBounds(x);
    YBounds(y);
    YSlope(x, y);
    ProductSlope(P(0, x), P(0, y), Y(x), Y(y), y - x);
  }

  /** The numerator rises. */
  lemma NumeratorSlope(x: int, y: int)
    requires Reduced(x) && Reduced(y) && x <= y
    ensures Numerator(y) - Numerator(x) >= 1_200_000_000_000_000_000_000_000_000_000_000 * (y - x)
  {
    P1Bounds(y);
    P1Slope(x, y);
    LastProduct(P(1, x), P(1, y), x, y);
  }

  lemma LastProduct(p: int, q: int, x: int, y: int)
    requires Reduced(x) && x <= y
    requires q >= 1_400_000_000_000_000_000_000_000_000_000_000 && 0 <= q - p <= 6_100 * (y - x)
    ensures q * y - p * x >= 1_200_000_000_000_000_000_000_000_000_000_000 * (y - x)
  {
    assert q * y - p * x == q * (y - x) + (q - p) * x;
    ProductBound(q - p, x, 6_100 * (y - x), HALF_LN2);
    Scaled(1_400_000_000_000_000_000_000_000_000_000_000, q, y - x);
  }

  // ---- The exponential never falls ----

  lemma QuotientsCompare(m: nat, n: nat, d: nat, e: nat)
    requires d > 0 && e > 0 && m * e <= n * d
    ensures Quotient(m, d) <= Quotient(n, e)
  {
    FloorDiv(m, d);
    FloorDiv(n, e);
    AcrossFloors(m, n, d, e, Quotient(m, d), Quotient(n, e));
  }

  lemma AcrossFloors(m: nat, n: nat, d: nat, e: nat, p: nat, q: nat)
    requires d > 0 && e > 0 && m * e <= n * d && p * d <= m && n < q * e + e
    ensures p <= q
  {
    MulMonotone(p * d, m, e, e);
    MulMonotone(n + 1, q * e + e, d, d);
    assert p * d * e == p * (d * e) && (q * e + e) * d == (q + 1) * (d * e);
    assert p * (d * e) < (q + 1) * (d * e);
    Cancel(p, q + 1, d * e);
  }

  lemma RatioMonotone(x: int, y: int)
    requires Reduced(x) && Reduced(y) && x <= y
    ensures Ratio(x) <= Ratio(y)
  {
    DenominatorSlope(x, y);
    NumeratorSlope(x, y);
    DenominatorBounds(y);
    NumeratorBounds(x);
    RatiosOf(x, y);
  }

  lemma RatiosOf(x: int, y: int)
    requires Reduced(x) && Reduced(y) && Numerator(x) <= Numerator(y) && Denominator(y) <= Denominator(x)
    ensures Ratio(x) <= Ratio(y)
  {
    NumeratorBounds(x);
    DenominatorBounds(y);
    MulMonotone(Numerator(x), Numerator(y), Denominator(y), Denominator(x));
    QuotientsCompare(Numerator(x), Numerator(y), Denominator(x), Denominator(y));
  }

  // 2^96 * 10^-18 is about 79 * 10^9; a step of the input is more than twice this
  const STEP := 30_000_000_000

  // The ratio at both ends of the reduced range and just inside them.

  lemma RatioAtTop()
    ensures Ratio(HALF_LN2) == 18_577_138_436_346_515_111_885_896_441
  {
    var r := 27_458_388_733_853_736_675_570_735_564;
    assert Horner(Y_COEFFICIENTS, 0, r) == 1_373_845_005_279_650_215_596_521_508_892;
    assert Y(r) == 57_631_559_623_520_327_444_674_186_528_036;
    assert P(1, r) == 2_137_525_900_673_401_482_103_779_614_324_402;
    assert Q(0, r) == -2_828_531_006_173_369_527_260_913_324_336;
    assert Q(1, r) == 49_040_309_506_508_054_845_778_423_134_536;
    assert Q(2, r) == -516_848_957_449_315_132_711_545_867_948_123;
    assert Q(3, r) == 3_425_731_058_115_025_463_788_019_731_779_748;
    assert Q(4, r) == -13_236_340_655_205_929_154_302_724_001_481_089;
    assert Denominator(r) == 21_861_822_395_312_103_851_776_858_244_578_431;
  }

  lemma RatioNearTop()
    ensures Ratio(HALF_LN2 - STEP) == 18_577_138_436_346_515_104_851_602_884
  {
    var r := 27_458_388_733_853_736_645_570_735_564;
    assert Horner(Y_COEFFICIENTS, 0, r) == 1_373_845_005_279_650_215_566_521_508_892;
    assert Y(r) == 57_631_559_623_520_327_444_143_578_465_369;
    assert P(1, r) == 2_137_525_900_673_401_481_940_719_473_795_372;
    assert Q(0, r) == -2_828_531_006_173_369_527_290_913_324_336;
    assert Q(1, r) == 49_040_309_506_508_054_846_839_058_341_216;
    assert Q(2, r) == -516_848_957_449_315_132_729_747_551_612_385;
    assert Q(3, r) == 3_425_731_058_115_025_463_977_418_038_412_366;
    assert Q(4, r) == -13_236_340_655_205_929_155_534_247_696_061_685;
    assert Denominator(r) == 21_861_822_395_312_103_856_362_027_858_350_903;
  }

  lemma RatioAtBottom()
    ensures Ratio(-HALF_LN2) == 9_288_569_218_173_257_555_917_587_192
  {
    var r := -27_458_388_733_853_736_675_570_735_564;
    assert Horner(Y_COEFFICIENTS, 0, r) == 1_318_928_227_811_942_742_245_380_037_764;
    assert Y(r) == 56_698_315_536_317_964_403_859_243_790_220;
    assert P(1, r) == 1_860_806_680_478_546_817_483_625_948_204_647;
    assert Q(0, r) == -2_883_447_783_641_077_000_612_054_795_464;
    assert Q(1, r) == 51_019_930_503_297_100_878_230_051_430_726;
    assert Q(2, r) == -551_527_194_073_789_071_757_650_962_750_909;
    assert Q(3, r) == 3_796_002_016_717_887_763_244_301_448_124_635;
    assert Q(4, r) == -15_739_202_614_994_398_322_111_787_964_681_893;
    assert Denominator(r) == 31_903_980_456_778_131_135_435_836_109_642_167;
  }

  lemma RatioNearBottom()
    ensures Ratio(-HALF_LN2 + STEP) == 9_288_569_218_173_257_559_434_733_970
  {
    var r := -27_458_388_733_853_736_645_570_735_564;
    assert Horner(Y_COEFFICIENTS, 0, r) == 1_318_928_227_811_942_742_275_380_037_764;
    assert Y(r) == 56_698_315_536_317_964_404_348_263_022_054;
    assert P(1, r) == 1_860_806_680_478_546_817_623_403_088_422_202;
    assert Q(0, r) == -2_883_447_783_641_077_000_582_054_795_464;
    assert Q(1, r) == 51_019_930_503_297_100_877_127_827_393_213;
    assert Q(2, r) == -551_527_194_073_789_071_737_950_099_299_586;
    assert Q(3, r) == 3_796_002_016_717_887_763_028_636_093_192_589;
    assert Q(4, r) == -15_739_202_614_994_398_320_599_675_606_502_236;
    assert Denominator(r) == 31_903_980_456_778_131_128_952_077_922_046_857;
  }

  /** Where the exponent steps up by one, the ratio at most halves. */
  lemma RatioAcrossTheStep(r: int, s: int)
    requires Reduced(r) && Reduced(s) && s + LN2 >= r + 2 * STEP
    ensures Ratio(r) <= 2 * Ratio(s)
  {
    if r <= HALF_LN2 - STEP {
      RatioMonotone(r, HALF_LN2 - STEP);
      RatioNearTop();
      RatioMonotone(-HALF_LN2, s);
      RatioAtBottom();
    } else {
      RatioMonotone(r, HALF_LN2);
      RatioAtTop();
      RatioMonotone(-HALF_LN2 + STEP, s);
      RatioNearBottom();
    }
  }

  lemma ScaleInGrows(x: int, y: int)
    requires x < y
    ensures ScaleIn(y) >= ScaleIn(x) + 2 * STEP
  {
    FloorDiv(x * TWO_TO_78, FIVE_TO_18);
    FloorDiv(y * TWO_TO_78, FIVE_TO_18);
  }

  lemma ExponentGrows(x: int, y: int)
    requires x <= y
    ensures Exponent(x) <= Exponent(y)
  {
    FloorDiv(x * TWO_TO_96, LN2);
    FloorDiv(y * TWO_TO_96, LN2);
  }

  lemma {:induction false} Pow2Grows(a: nat, b: nat)
    requires a <= b
    ensures Pow2(a) <= Pow2(b)
  {
    if a < b {
      Pow2Grows(a, b - 1);
    }
  }

  /** One more doubling for the larger input, or several, makes up for a smaller ratio. */
  lemma MoreDoublings(m: nat, n: nat, a: nat, b: nat)
    requires b <= a
    requires m <= n || (b < a && m <= 2 * n) || (b + 2 <= a && m <= 4 * n)
    ensures m * Pow2(b) <= n * Pow2(a)
  {
    Pow2Grows(b, a);
    if m <= n {
      MulMonotone(m, n, Pow2(b), Pow2(a));
    } else if m <= 2 * n && b < a {
      Pow2Grows(b, a - 1);
      Doublings(m, n, 2, Pow2(b), Pow2(a - 1), Pow2(a));
    } else {
      Pow2Grows(b, a - 2);
      assert Pow2(a) == 2 * Pow2(a - 1) == 4 * Pow2(a - 2);
      Doublings(m, n, 4, Pow2(b), Pow2(a - 2), Pow2(a));
    }
  }

  lemma Doublings(m: nat, n: nat, times: nat, d: nat, e: nat, more: nat)
    requires m <= times * n && d <= e && more == times * e
    ensures m * d <= n * more
  {
    MulMonotone(m, times * n, d, e);
    assert times * n * e == n * more;
  }

  /** A larger input never has a smaller exponential, floors, cut-offs and changes of exponent included. */
  lemma ExpNeverFalls(x: int, y: int)
    requires x <= y < HIGH_CUTOFF
    ensures Exp(x).value <= Exp(y).value
  {
    if LOW_CUTOFF < x < y {
      var z, w := ScaleIn(x), ScaleIn(y);
      ReducedRemainder(z);
      ReducedRemainder(w);
      ExponentBounds(x);
      ExponentBounds(y);
      ScaleInGrows(x, y);
      ExponentGrows(z, w);
      RatiosCompare(z, w);
      var m, n := Mantissa(Remainder(z)), Mantissa(Remainder(w));
      MoreDoublings(m, n, 195 - Exponent(z), 195 - Exponent(w));
      QuotientsCompare(m, n, Pow2(195 - Exponent(z)), Pow2(195 - Exponent(w)));
    }
  }

  lemma RatiosCompare(z: int, w: int)
    requires z + 2 * STEP <= w && Exponent(z) <= Exponent(w)
    requires Reduced(Remainder(z)) && Reduced(Remainder(w))
    ensures Exponent(z) == Exponent(w) ==> Ratio(Remainder(z)) <= Ratio(Remainder(w))
    ensures Exponent(w) == Exponent(z) + 1 ==> Ratio(Remainder(z)) <= 2 * Ratio(Remainder(w))
    ensures Ratio(Remainder(z)) <= 4 * Ratio(Remainder(w))
  {
    RatioBounds(Remainder(z));
    RatioBounds(Remainder(w));
    if Exponent(z) == Exponent(w) {
      RatioMonotone(Remainder(z), Remainder(w));
    } else if Exponent(w) == Exponent(z) + 1 {
      RatioAcrossTheStep(Remainder(z), Remainder(w));
    }
  }

  // ---- The ratio between a tangent and a hyperbola ----

  const TWO_TO_195 := 0x8_0000_0000_0000_0000_0000_0000_0000_0000_0000_0000_0000_0000

  lemma SameSign(x: int, y: int)
    requires (x >= 0 && y >= 0) || (x <= 0 && y <= 0)
    ensures x * y >= 0
  {
  }

  /** Near zero a quadratic dips below zero by no more than this. */
  lemma SmallDip(x: int, t: int, v: int, slope: nat, dip: nat, width: nat)
    requires (x >= 0 ==> v >= t + slope * x) && (x <= 0 ==> v <= t + slope * x)
    requires -(slope * width) <= t <= slope * width && slope * width * width <= dip
    ensures x * v + dip >= 0
  {
    if x > width {
      MulMonotone(slope, slope, width, x);
      SameSign(x, v);
    } else if x + width < 0 {
      MulMonotone(slope, slope, width, -x);
      SameSign(x, v);
    } else {
      SameSign(x, v - t - slope * x);
      ProductBound(x, t, width, slope * width);
      ThreeTerms(x, t, v - t - slope * x, slope);
    }
  }

  lemma ThreeTerms(x: int, t: int, w: int, slope: nat)
    ensures x * (w + t + slope * x) >= x * w + x * t
  {
    SameSign(x, x);
    SameSign(slope, x * x);
    assert x * (w + t + slope * x) == x * w + x * t + slope * (x * x);
  }

  /** A quotient's distance from the tangent `u * (1 + x / w)`, in the terms of Horner's last stages. */
  lemma TangentIdentity(x: int, p: int, q: int, d: int, n: int, f: int, w: int, u: int, c: int, e: int)
    requires n == p * x + c * w && d * w == q * x + e * w - f
    ensures n * w - u * (w + x) * d == (c * w - u * e) * w + u * f + x * (p * w - u * (q + d))
  {
    assert n * w == p * x * w + c * w * w;
    assert u * (w + x) * d == u * (d * w) + u * x * d;
    assert u * (d * w) == u * (q * x) + u * (e * w) - u * f;
  }

  /** The same for the hyperbola `u / (1 - x / w)`. */
  lemma HyperbolaIdentity(x: int, p: int, q: int, d: int, n: int, f: int, w: int, u: int, c: int, e: int)
    requires n == p * x + c * w && d * w == q * x + e * w - f
    ensures u * w * d - (w - x) * n == (u * e - c * w) * w - u * f + x * (u * q - w * p + c * w + p * x)
  {
    assert (w - x) * n == w * (p * x) + w * (c * w) - x * (p * x) - x * (c * w);
    assert u * w * d == u * (d * w);
    assert u * (d * w) == u * (q * x) + u * (e * w) - u * f;
  }

  lemma QuotientAbove(n: int, d: nat, r: int, t: int, w: int, slack: int)
    requires n < r * d + d && w > 0 && n * w >= t * d - slack && slack <= w * d && d > 0
    ensures r * w >= t - 2 * w
  {
    MulMonotone(0, w, 0, d);
    assert (r * d + d) * w == r * w * d + w * d;
    Scaled(n + 1, r * d + d, w);
    assert (r * w + 2 * w) * d == r * w * d + 2 * (w * d);
    Cancel(t, r * w + 2 * w, d);
  }

  lemma QuotientBelow(n: int, d: nat, r: nat, t: nat, u: int, w: int, slack: int)
    requires r * d <= n && d > 0 && t * n <= u * w * d + slack && slack < w * d
    ensures r * t <= (u + 1) * w
  {
    Scaled(r * d, n, t);
    assert r * d * t == r * t * d;
    assert (u + 1) * w * d == u * w * d + w * d;
    Cancel(r * t, (u + 1) * w, d);
  }

  /** The ratio is no lower than its tangent at zero, but for the last floors. */
  lemma RatioAboveTangent(x: int)
    requires Reduced(x)
    ensures Ratio(x) * TWO_TO_96 >= UNIT * (TWO_TO_96 + x) - 2 * TWO_TO_96
  {
    var p, q, d, n := P(1, x), Q(4, x), Denominator(x), Numerator(x);
    var low, high := Min(0, x), Max(0, x);
    Q4Slope(low, high);
    DenominatorSlope(low, high);
    P1Slope(low, high);
    RatioAtZero();
    var dip := 1_000_000_000_000_000_000_000_000_000_000_000_000_000_000_000_000_000_000;
    SmallDip(x, P(1, 0) * TWO_TO_96 - UNIT * (Q(4, 0) + Denominator(0)), p * TWO_TO_96 - UNIT * (q + d),
             1_000_000_000_000_000_000_000_000_000_000_000, dip, 30_000_000_000);
    TangentIdentity(x, p, q, d, n, q * x % TWO_TO_96, TWO_TO_96, UNIT, NUMERATOR_CONSTANT, DENOMINATOR_CONSTANT);
    DenominatorBounds(x);
    NumeratorBounds(x);
    FloorDiv(n, d);
    QuotientAbove(n, d, Ratio(x), UNIT * (TWO_TO_96 + x), TWO_TO_96, dip);
  }

  /** The ratio is no higher than its hyperbola at zero, but for the last floors. */
  lemma RatioBelowHyperbola(x: int)
    requires Reduced(x)
    ensures Ratio(x) * (TWO_TO_96 - x) <= (UNIT + 1) * TWO_TO_96
  {
    var p, q, d, n := P(1, x), Q(4, x), Denominator(x), Numerator(x);
    var low, high := Min(0, x), Max(0, x);
    Q4Slope(low, high);
    P1Slope(low, high);
    NumeratorSlope(low, high);
    RatioAtZero();
    var dip := 1_000_000_000_000_000_000_000_000_000_000_000_000_000_000_000_000_000_000;
    SmallDip(x, UNIT * Q(4, 0) - TWO_TO_96 * P(1, 0) + NUMERATOR_CONSTANT * TWO_TO_96,
             UNIT * q - TWO_TO_96 * p + NUMERATOR_CONSTANT * TWO_TO_96 + p * x,
             1_000_000_000_000_000_000_000_000_000_000_000, dip, 30_000_000_000);
    HyperbolaIdentity(x, p, q, d, n, q * x % TWO_TO_96, TWO_TO_96, UNIT, NUMERATOR_CONSTANT, DENOMINATOR_CONSTANT);
    DenominatorBounds(x);
    NumeratorBounds(x);
    FloorDiv(n, d);
    QuotientBelow(n, d, Ratio(x), TWO_TO_96 - x, UNIT, TWO_TO_96,
                  1_000_000_000_000_000_000_000_000_000_000_000_000_000_000_000_000_000_000_000_000_000);
  }

  // ---- The result between a tangent and a hyperbola ----

  lemma MantissaAboveTangent(r: int)
    requires Reduced(r)
    ensures Mantissa(r) * TWO_TO_96 >= SCALE * TWO_TO_195 * (TWO_TO_96 + r + 1)
  {
    RatioAboveTangent(r);
  }

  lemma TimesFinalFactor(q: nat, t: nat)
    requires q * t <= (UNIT + 1) * TWO_TO_96
    ensures q * FINAL_FACTOR * t <= (SCALE + 1) * TWO_TO_195 * TWO_TO_96
  {
    assert q * FINAL_FACTOR * t == FINAL_FACTOR * (q * t);
  }

  lemma MantissaBounds(r: int)
    requires Reduced(r)
    ensures 707_100_000_000_000_000 * TWO_TO_195 <= Mantissa(r) <= 1_414_300_000_000_000_000 * TWO_TO_195
  {
    RatioMonotone(-HALF_LN2, r);
    RatioMonotone(r, HALF_LN2);
    RatioAtBottom();
    RatioAtTop();
  }

  /** The last shift, for exponents of either sign. */
  lemma LastShift(x: int)
    requires InRange(x)
    ensures var k, m, e := Exponent(ScaleIn(x)), Mantissa(Remainder(ScaleIn(x))), Exp(x).value;
            && (k >= 0 ==> e * TWO_TO_195 <= m * Pow2(k) < (e + 1) * TWO_TO_195)
            && (k < 0 ==> e * (TWO_TO_195 * Pow2(-k)) <= m < (e + 1) * (TWO_TO_195 * Pow2(-k)))
  {
    ReducedRemainder(ScaleIn(x));
    ExponentBounds(x);
    ShiftSplit(Mantissa(Remainder(ScaleIn(x))), Exponent(ScaleIn(x)));
  }

  lemma ShiftSplit(m: nat, k: int)
    requires k <= 195
    ensures var e := ShiftDown(m, 195 - k);
            && (k >= 0 ==> e * TWO_TO_195 <= m * Pow2(k) < (e + 1) * TWO_TO_195)
            && (k < 0 ==> e * (TWO_TO_195 * Pow2(-k)) <= m < (e + 1) * (TWO_TO_195 * Pow2(-k)))
  {
    Pow2Of195();
    var e, d := ShiftDown(m, 195 - k), Pow2(195 - k);
    FloorDiv(m, d);
    if k >= 0 {
      Pow2Add(k, 195 - k);
      Regrouped(m, e, d, Pow2(k));
    } else {
      Pow2Add(195, -k);
    }
  }

  lemma Regrouped(m: nat, e: nat, d: nat, u: nat)
    requires e * d <= m < e * d + d && u > 0
    ensures e * (u * d) <= m * u < (e + 1) * (u * d)
  {
    MulMonotone(e * d, m, u, u);
    MulMonotone(m + 1, (e + 1) * d, u, u);
    assert e * (u * d) == e * d * u && (e + 1) * (u * d) == (e + 1) * d * u;
  }

  /** With `k` times ln 2 taken out of the input and `r` left, the result is above 2^k * (1 + r), less a unit... */
  lemma MagnitudeAbove(x: int)
    requires InRange(x)
    ensures var k, r, e := Exponent(ScaleIn(x)), Remainder(ScaleIn(x)), Exp(x).value;
            && (k >= 0 ==> SCALE * Pow2(k) * (TWO_TO_96 + r) < (e + 1) * TWO_TO_96)
            && (k < 0 ==> SCALE * (TWO_TO_96 + r) < (e + 1) * Pow2(-k) * TWO_TO_96)
  {
    var k, r, e := Exponent(ScaleIn(x)), Remainder(ScaleIn(x)), Exp(x).value;
    ReducedRemainder(ScaleIn(x));
    MantissaAboveTangent(r);
    LastShift(x);
    if k >= 0 {
      AboveTangent(Mantissa(r), e + 1, TWO_TO_96 + r, Pow2(k));
    } else {
      Regrouping(e, Pow2(-k));
      AboveTangent(Mantissa(r), (e + 1) * Pow2(-k), TWO_TO_96 + r, 1);
    }
  }

  /** ...and at most 2^k / (1 - r), with a unit more. */
  lemma MagnitudeBelow(x: int)
    requires InRange(x)
    ensures var k, r, e := Exponent(ScaleIn(x)), Remainder(ScaleIn(x)), Exp(x).value;
            && (k >= 0 ==> e * (TWO_TO_96 - r) <= (SCALE + 1) * Pow2(k) * TWO_TO_96)
            && (k < 0 ==> e * Pow2(-k) * (TWO_TO_96 - r) <= (SCALE + 1) * TWO_TO_96)
  {
    var k, r, e := Exponent(ScaleIn(x)), Remainder(ScaleIn(x)), Exp(x).value;
    ReducedRemainder(ScaleIn(x));
    RatioBelowHyperbola(r);
    TimesFinalFactor(Ratio(r), TWO_TO_96 - r);
    LastShift(x);
    if k >= 0 {
      BelowHyperbola(Mantissa(r), e, TWO_TO_96 - r, Pow2(k));
    } else {
      Regrouping(e, Pow2(-k));
      BelowHyperbola(Mantissa(r), e * Pow2(-k), TWO_TO_96 - r, 1);
    }
  }

  lemma Regrouping(e: nat, v: nat)
    ensures e * (TWO_TO_195 * v) == e * v * TWO_TO_195 && (e + 1) * (TWO_TO_195 * v) == (e + 1) * v * TWO_TO_195
  {
  }

  lemma AboveTangent(m: nat, a: nat, t: nat, u: nat)
    requires u > 0 && m * u < a * TWO_TO_195 && m * TWO_TO_96 >= SCALE * TWO_TO_195 * t
    ensures SCALE * u * t < a * TWO_TO_96
  {
    Scaled(SCALE * TWO_TO_195 * t, m * TWO_TO_96, u);
    assert SCALE * TWO_TO_195 * t * u == SCALE * u * t * TWO_TO_195;
    assert m * TWO_TO_96 * u == m * u * TWO_TO_96;
  }

  lemma BelowHyperbola(m: nat, e: nat, t: nat, u: nat)
    requires e * TWO_TO_195 <= m * u && m * t <= (SCALE + 1) * TWO_TO_195 * TWO_TO_96
    ensures e * t <= (SCALE + 1) * u * TWO_TO_96
  {
    Scaled(e * TWO_TO_195, m * u, t);
    Scaled(m * t, (SCALE + 1) * TWO_TO_195 * TWO_TO_96, u);
    assert m * u * t == m * t * u;
  }

  // ---- The laws of exp in the input alone ----

  lemma InputScaled(x: int)
    ensures SCALE * ScaleIn(x) <= x * TWO_TO_96 < SCALE * (ScaleIn(x) + 1)
  {
    FloorDiv(x * TWO_TO_78, FIVE_TO_18);
  }

  lemma {:induction false} Pow2AtLeast(k: nat)
    requires k >= 2
    ensures Pow2(k) >= k + 2
  {
    if k == 2 {
      assert Pow2(2) == 2 * Pow2(1);
    } else {
      Pow2AtLeast(k - 1);
    }
  }

  /** 1 + x <= exp(x): never below the line, not by a unit, whatever the floors take away. */
  lemma ExpAboveLine(x: int)
    requires x < HIGH_CUTOFF
    ensures SCALE + x <= Exp(x).value
  {
    if x > LOW_CUTOFF {
      var k, r := Exponent(ScaleIn(x)), Remainder(ScaleIn(x));
      InputScaled(x);
      ReducedRemainder(ScaleIn(x));
      MantissaAboveTangent(r);
      MantissaBounds(r);
      LastShift(x);
      AboveLine(x, k, r, Mantissa(r), Exp(x).value);
    }
  }

  lemma AboveLine(x: int, k: int, r: int, m: nat, e: nat)
    requires Reduced(r) && x * TWO_TO_96 < SCALE * (r + k * LN2 + 1)
    requires k >= 0 ==> m * Pow2(k) < (e + 1) * TWO_TO_195
    requires k < 0 ==> m < (e + 1) * (TWO_TO_195 * Pow2(-k))
    requires m * TWO_TO_96 >= SCALE * TWO_TO_195 * (TWO_TO_96 + r + 1)
    requires m >= 707_100_000_000_000_000 * TWO_TO_195
    ensures SCALE + x <= e
  {
    if k >= 2 {
      Pow2AtLeast(k);
      MulMonotone(707_100_000_000_000_000 * TWO_TO_195, m, k + 2, Pow2(k));
    } else if k >= -1 {
      assert Pow2(0) == 1 && Pow2(1) == 2;
    } else {
      assert k * LN2 <= -2 * LN2;
    }
  }

  // A result `e` below `m / d` of an input that falls short of 1 by `s`, the scaled remainder of that being
  // at most `w`: one lemma for each range of exponents. `l` stands for ln 2 and `bound` for (scale + 1) * d * one.

  lemma ProductsScaled(e: nat, s: nat, m: nat, d: nat, w: int, scale: nat, one: nat)
    requires d > 0 && one > 0 && e * d <= m && s * one <= scale * w && m * w <= (scale + 1) * d * one
    ensures e * s <= scale * (scale + 1)
  {
    Exchanged(e, d, m, s, one);
    Scaled(s * one, scale * w, m);
    Scaled(m * w, (scale + 1) * d * one, scale);
    FourFactors(m, w, scale, d, one);
    Cancelled(e * s, scale * (scale + 1), d, one);
  }

  lemma Exchanged(e: nat, d: nat, m: nat, s: nat, one: nat)
    requires e * d <= m
    ensures e * s * (d * one) <= s * one * m
  {
    Scaled(e * d, m, s * one);
    assert e * d * (s * one) == e * s * (d * one);
  }

  lemma FourFactors(m: int, w: int, scale: int, d: int, one: int)
    ensures scale * w * m == m * w * scale
    ensures (scale + 1) * d * one * scale == scale * (scale + 1) * (d * one)
  {
  }

  lemma Cancelled(x: nat, y: nat, d: nat, one: nat)
    requires d > 0 && one > 0 && x * (d * one) <= y * (d * one)
    ensures x <= y
  {
    MulMonotone(1, d, 1, one);
    Cancel(x, y + 1, d * one);
  }

  lemma Doubled(m: nat, a: nat, l: nat, bound: int)
    requires m * a <= bound && 2 * (a - l) <= a
    ensures 2 * m * (a - l) <= bound
  {
    Scaled(2 * (a - l), a, m);
    assert 2 * (a - l) * m == 2 * m * (a - l);
  }

  lemma Halved(m: nat, a: nat, l: nat, bound: int, high: nat)
    requires m * a <= bound && m <= high && high * l <= bound
    ensures m * (a + l) <= 2 * bound
  {
    Scaled(m, high, l);
    assert m * (a + l) == m * a + m * l;
  }

  lemma Quartered(m: nat, a: nat, l: nat, bound: nat, high: nat, n: nat, v: nat)
    requires m <= high && high * l <= bound && high * a <= 2 * bound && n + 2 <= v
    ensures m * (a + n * l) <= bound * v
  {
    Scaled(m, high, a + n * l);
    assert high * (a + n * l) == high * a + n * (high * l);
    Scaled(high * l, bound, n);
    Scaled(n + 2, v, bound);
  }

  /** exp(x) * (1 - x) <= 1, to within a unit. */
  lemma ExpBelowHyperbola(x: int)
    requires x < HIGH_CUTOFF
    ensures Exp(x).value * (SCALE - x) <= SCALE * (SCALE + 1)
  {
    if x <= LOW_CUTOFF {
      NothingLeft(x);
    } else if x >= SCALE {
      SameSign(Exp(x).value, x - SCALE);
    } else {
      var k, r := Exponent(ScaleIn(x)), Remainder(ScaleIn(x));
      InputScaled(x);
      ReducedRemainder(ScaleIn(x));
      RatioBelowHyperbola(r);
      TimesFinalFactor(Ratio(r), TWO_TO_96 - r);
      MantissaBounds(r);
      LastShift(x);
      BelowHyperbolaFor(x, k, TWO_TO_96 - r, Mantissa(r), Exp(x).value);
    }
  }

  lemma BelowHyperbolaFor(x: int, k: int, a: nat, m: nat, e: nat)
    requires Reduced(TWO_TO_96 - a) && x < SCALE && (SCALE - x) * TWO_TO_96 <= SCALE * (a - k * LN2)
    requires k >= 0 ==> e * TWO_TO_195 <= m * Pow2(k)
    requires k < 0 ==> e * (TWO_TO_195 * Pow2(-k)) <= m
    requires m * a <= (SCALE + 1) * TWO_TO_195 * TWO_TO_96
    requires m <= 1_414_300_000_000_000_000 * TWO_TO_195
    ensures e * (SCALE - x) <= SCALE * (SCALE + 1)
  {
    var s, bound, high := SCALE - x, (SCALE + 1) * TWO_TO_195 * TWO_TO_96, 1_414_300_000_000_000_000 * TWO_TO_195;
    if k == 0 {
      assert Pow2(0) == 1;
      ProductsScaled(e, s, m, TWO_TO_195, a, SCALE, TWO_TO_96);
    } else if k == 1 {
      assert Pow2(1) == 2;
      Doubled(m, a, LN2, bound);
      ProductsScaled(e, s, 2 * m, TWO_TO_195, a - LN2, SCALE, TWO_TO_96);
    } else if k == -1 {
      assert Pow2(1) == 2;
      Halved(m, a, LN2, bound, high);
      ProductsScaled(e, s, m, TWO_TO_195 * 2, a + LN2, SCALE, TWO_TO_96);
    } else if k < 0 {
      Pow2AtLeast(-k);
      Quartered(m, a, LN2, bound, high, -k, Pow2(-k));
      ProductsScaled(e, s, m, TWO_TO_195 * Pow2(-k), a - k * LN2, SCALE, TWO_TO_96);
    } else {
      assert false;
    }
  }

  lemma NothingLeft(x: int)
    requires x <= LOW_CUTOFF
    ensures Exp(x) == Some(0)
  {
  }

  // ---- The cut-offs, and the ETH quantity of an amount of gas ----

  lemma LowestExponent(x: int)
    requires LOW_CUTOFF < x <= -42 * SCALE
    ensures Exponent(ScaleIn(x)) == -61
  {
    InputScaled(x);
    RemainderIsHalfLn2(ScaleIn(x));
  }

  lemma Pow2Of61()
    ensures Pow2(61) == 0x2000_0000_0000_0000
  {
    Pow2Of12();
    Pow2Add(12, 12);
    Pow2Add(24, 24);
    Pow2Add(48, 12);
    Pow2Add(60, 1);
  }

  lemma Pow2Of12()
    ensures Pow2(1) == 2 && Pow2(12) == 0x1000
  {
  }

  lemma Vanishes(m: nat, e: nat, k: int)
    requires k == -61 && e * (TWO_TO_195 * Pow2(-k)) <= m <= 1_414_300_000_000_000_000 * TWO_TO_195
    ensures e == 0
  {
    Pow2Of61();
  }

  /** The formula itself comes to 0 well above the lower cut-off, so that nothing jumps there. */
  lemma ZeroAtTheLowCutoff(x: int)
    requires x <= -42 * SCALE
    ensures Exp(x) == Some(0)
  {
    if x <= LOW_CUTOFF {
      NothingLeft(x);
    } else {
      LowestExponent(x);
      ReducedRemainder(ScaleIn(x));
      MantissaBounds(Remainder(ScaleIn(x)));
      LastShift(x);
      Vanishes(Mantissa(Remainder(ScaleIn(x))), Exp(x).value, Exponent(ScaleIn(x)));
    }
  }

  lemma RatioAtMax()
    ensures Ratio(11_274_100_950_663_547_361_347_922_003) == 15_144_800_592_480_715_166_430_365_739
  {
    var r := 11_274_100_950_663_547_361_347_922_003;
    assert Horner(Y_COEFFICIENTS, 0, r) == 1_357_660_717_496_460_026_282_298_695_331;
    assert Y(r) == 57_348_615_206_815_086_219_485_671_943_010;
    assert P(1, r) == 2_051_507_096_444_725_423_223_683_153_614_099;
    assert Q(0, r) == -2_844_715_293_956_559_716_575_136_137_897;
    assert Q(1, r) == 49_615_803_056_608_942_357_361_658_626_521;
    assert Q(2, r) == -526_784_746_500_437_243_600_658_985_898_254;
    assert Q(3, r) == 3_529_896_230_158_853_205_694_353_534_034_543;
    assert Q(4, r) == -13_921_307_299_956_907_208_226_559_728_877_639;
    assert Denominator(r) == 24_468_198_167_592_003_681_598_561_106_041_826;
  }

  /** Below the upper cut-off the result fits a signed 256-bit word. */
  lemma FitsBelowHighCutoff(x: int)
    requires x < HIGH_CUTOFF
    ensures FitsInt256(Exp(x).value)
  {
    ExpNeverFalls(x, MAX_EXP_INPUT);
    assert ScaleIn(MAX_EXP_INPUT) == 10_720_045_707_153_620_850_833_934_791_963;
    assert Exponent(10_720_045_707_153_620_850_833_934_791_963) == 195;
    assert Remainder(10_720_045_707_153_620_850_833_934_791_963) == 11_274_100_950_663_547_361_347_922_003;
    RatioAtMax();
  }

  /** `quotient` is what the floating-point floor division of the scaled gas amount by the adjustment
      factor gives; None is the OverflowError of an amount too large for a float. */
  function EthQty(quotient: Option<nat>): Option<nat> {
    if quotient.None? then None
    else Exp(if quotient.value > MAX_EXP_INPUT then MAX_EXP_INPUT else quotient.value)
  }

  /** The quantity is exp of the quotient where that is defined, and the largest value of exp where it is
      not; it is at least 1. */
  lemma EthQtyDefined(quotient: Option<nat>)
    ensures EthQty(quotient).Some? <==> quotient.Some?
    ensures quotient.Some? ==> EthQty(quotient).value >= SCALE
    ensures quotient.Some? && Exp(quotient.value).Some? ==> EthQty(quotient) == Exp(quotient.value)
    ensures quotient.Some? && Exp(quotient.value).None? ==>
            forall x :: Exp(x).Some? ==> Exp(x).value <= EthQty(quotient).value
  {
    if quotient.Some? {
      ExpAboveLine(Min(quotient.value, MAX_EXP_INPUT));
      forall x | Exp(x).Some? ensures Exp(x).value <= Exp(MAX_EXP_INPUT).value {
        ExpNeverFalls(x, MAX_EXP_INPUT);
      }
    }
  }
}
