/** The fixed-point exponential: range reduction, two polynomial chains, and one final shift. */
module FixedPointExp {
  import opened Options

  const SCALE := 1_000_000_000_000_000_000
  const MAX_EXP_INPUT := 135_305_999_368_893_231_588
  const LOW_CUTOFF := -42_139_678_854_452_767_551
  const HIGH_CUTOFF := 135_305_999_368_893_231_589
  const FIVE_TO_18 := 3_814_697_265_625
  const TWO_TO_78 := 0x4000_0000_0000_0000_0000
  const TWO_TO_95 := 0x8000_0000_0000_0000_0000_0000
  const TWO_TO_96 := 0x1_0000_0000_0000_0000_0000_0000
  const TWO_TO_255 := 0x8000_0000_0000_0000_0000_0000_0000_0000_0000_0000_0000_0000_0000_0000_0000_0000
  const TWO_TO_256 := 0x1_0000_0000_0000_0000_0000_0000_0000_0000_0000_0000_0000_0000_0000_0000_0000_0000
  // ln 2, scaled by 2^96
  const LN2 := 54_916_777_467_707_473_351_141_471_128
  const HALF_LN2 := 27_458_388_733_853_736_675_570_735_564
  // the ratio of the polynomials at 0
  const UNIT := 13_136_020_563_381_876_887_077_985_852
  const Y_COEFFICIENTS := [1_346_386_616_545_796_478_920_950_773_328, 57_155_421_227_552_351_082_224_309_758_442]
  const Q_COEFFICIENTS := [
    -2_855_989_394_907_223_263_936_484_059_900, 50_020_603_652_535_783_019_961_831_881_945,
    -533_845_033_583_426_703_283_633_433_725_380, 3_604_857_256_930_695_427_073_651_918_091_429,
    -14_423_608_567_350_463_180_887_372_962_807_573, DENOMINATOR_CONSTANT]
  const NUMERATOR_CONSTANT := 4_385_272_521_454_847_904_659_076_985_693_276
  const DENOMINATOR_CONSTANT := 26_449_188_498_355_588_339_934_803_723_976_023
  const FINAL_FACTOR := 3_822_833_074_963_236_453_042_738_258_902_158_003_155_416_615_667

  function Pow2(n: nat): (p: nat)
    ensures p > 0
  {
    if n == 0 then 1 else 2 * Pow2(n - 1)
  }

  /** v >> 96: Python's shift floors, and so does division by a positive number here. */
  function Shr96(v: int): int {
    v / TWO_TO_96
  }

  /** The input, scaled from 10^18 to 2^96. */
  function ScaleIn(x: int): int {
    x * TWO_TO_78 / FIVE_TO_18
  }

  /** How many times ln 2 goes into `z`, rounded to the nearest. */
  function Exponent(z: int): int {
    Shr96(z * TWO_TO_96 / LN2 + TWO_TO_95)
  }

  function Remainder(z: int): int {
    z - Exponent(z) * LN2
  }

  /** Horner's rule up to coefficient `n`, each product shifted back. */
  function Horner(coefficients: seq<int>, n: nat, x: int): int
    requires n < |coefficients|
  {
    if n == 0 then x + coefficients[0] else Shr96(Horner(coefficients, n - 1, x) * x) + coefficients[n]
  }

  function Y(x: int): int {
    Horner(Y_COEFFICIENTS, 1, x)
  }

  /** The numerator's stages, the last of which is the numerator. */
  function P(n: nat, x: int): int
    requires n <= 2
  {
    if n == 0 then Y(x) + x - 94_201_549_194_550_492_254_356_042_504_812
    else if n == 1 then Shr96(P(n - 1, x) * Y(x)) + 28_719_021_644_029_726_153_956_944_680_412_240
    else P(n - 1, x) * x + NUMERATOR_CONSTANT * TWO_TO_96
  }

  function Numerator(x: int): int {
    P(2, x)
  }

  /** The denominator's stages, the last of which is the denominator. */
  function Q(n: nat, x: int): int
    requires n <= 5
  {
    Horner(Q_COEFFICIENTS, n, x)
  }

  function Denominator(x: int): int {
    Q(5, x)
  }

  // ---- Range reduction ----

  predicate InRange(x: int) {
    LOW_CUTOFF < x < HIGH_CUTOFF
  }

  predicate Reduced(x: int) {
    -HALF_LN2 <= x <= HALF_LN2
  }

  lemma FloorDiv(a: int, b: int)
    requires b > 0
    ensures a / b * b <= a < a / b * b + b
  {
  }

  /** Whatever the scaled input, the remainder is within half of ln 2 of zero. */
  lemma RemainderIsHalfLn2(z: int)
    ensures -LN2 <= 2 * Remainder(z) < LN2
  {
    var t := z * TWO_TO_96 / LN2;
    var k := Exponent(z);
    FloorDiv(z * TWO_TO_96, LN2);
    FloorDiv(t + TWO_TO_95, TWO_TO_96);
    assert k * TWO_TO_96 - TWO_TO_95 <= t <= k * TWO_TO_96 + TWO_TO_95 - 1;
    assert t * LN2 <= z * TWO_TO_96 < t * LN2 + LN2;
    calc {
      2 * TWO_TO_96 * Remainder(z);
      2 * (z * TWO_TO_96) - 2 * (k * LN2 * TWO_TO_96);
    }
  }

  /** Strictly between the cut-offs the exponent is in [-61, 195], so the last shift is to the right. */
  lemma ExponentBounds(x: int)
    requires InRange(x)
    ensures -61 <= Exponent(ScaleIn(x)) <= 195
  {
    var z := ScaleIn(x);
    FloorDiv(x * TWO_TO_78, FIVE_TO_18);
    RemainderIsHalfLn2(z);
    var k := Exponent(z);
    assert 2 * z - LN2 < 2 * k * LN2 <= 2 * z + LN2;
  }

  lemma ReducedRemainder(z: int)
    ensures Reduced(Remainder(z))
  {
    RemainderIsHalfLn2(z);
  }

  // ---- The polynomial chains, as intervals ----

  /** A step of Horner's rule: multiplying by a reduced `x` and shifting back keeps a bound. */
  lemma Step(a: int, x: int, boundIn: int, boundOut: int)
    requires boundIn >= 0 && boundOut >= 0
    requires -boundIn <= a <= boundIn && Reduced(x)
    requires boundIn * HALF_LN2 <= boundOut * TWO_TO_96
    ensures -(boundOut * TWO_TO_96) <= a * x <= boundOut * TWO_TO_96
    ensures -boundOut <= Shr96(a * x) <= boundOut
  {
    ProductBound(a, x, boundIn, HALF_LN2);
    ShiftBound(a * x, boundOut);
  }

  lemma ProductBound(a: int, x: int, m: int, n: int)
    requires m >= 0 && n >= 0
    requires -m <= a <= m && -n <= x <= n
    ensures -(m * n) <= a * x <= m * n
  {
    MulMonotone(if a < 0 then -a else a, m, if x < 0 then -x else x, n);
  }

  lemma MulMonotone(a: nat, m: nat, x: nat, n: nat)
    requires a <= m && x <= n
    ensures a * x <= m * n
  {
    assert a * x <= m * x;
    assert m * x <= m * n;
  }

  lemma ShiftBound(v: int, bound: int)
    requires bound >= 0
    requires -(bound * TWO_TO_96) <= v <= bound * TWO_TO_96
    ensures -bound <= Shr96(v) <= bound
  {
  }

  lemma Q1Bounds(x: int)
    requires Reduced(x)
    ensures 49_000_000_000_000_000_000_000_000_000_000 <= Q(1, x) <= 51_100_000_000_000_000_000_000_000_000_000
  {
    Step(Q(0, x), x, 2_884_000_000_000_000_000_000_000_000_000, 1_000_000_000_000_000_000_000_000_000_000);
  }

  lemma Q2Bounds(x: int)
    requires Reduced(x)
    ensures -552_000_000_000_000_000_000_000_000_000_000 <= Q(2, x) <= -516_000_000_000_000_000_000_000_000_000_000
  {
    Q1Bounds(x);
    Step(Q(1, x), x, 51_100_000_000_000_000_000_000_000_000_000, 17_800_000_000_000_000_000_000_000_000_000);
  }

  lemma Q3Bounds(x: int)
    requires Reduced(x)
    ensures 3_412_000_000_000_000_000_000_000_000_000_000 <= Q(3, x) <= 3_797_000_000_000_000_000_000_000_000_000_000
  {
    Q2Bounds(x);
    Step(Q(2, x), x, 552_000_000_000_000_000_000_000_000_000_000, 192_000_000_000_000_000_000_000_000_000_000);
  }

  lemma Q4Bounds(x: int)
    requires Reduced(x)
    ensures -15_744_000_000_000_000_000_000_000_000_000_000 <= Q(4, x)
         <= -13_103_000_000_000_000_000_000_000_000_000_000
  {
    Q3Bounds(x);
    Step(Q(3, x), x, 3_800_000_000_000_000_000_000_000_000_000_000, 1_320_000_000_000_000_000_000_000_000_000_000);
  }

  lemma DenominatorBounds(x: int)
    requires Reduced(x)
    ensures 20_000_000_000_000_000_000_000_000_000_000_000 <= Denominator(x)
         <= 32_000_000_000_000_000_000_000_000_000_000_000
  {
    Q4Bounds(x);
    Step(Q(4, x), x, 15_800_000_000_000_000_000_000_000_000_000_000, 5_500_000_000_000_000_000_000_000_000_000_000);
  }

  lemma YBounds(x: int)
    requires Reduced(x)
    ensures 56_679_000_000_000_000_000_000_000_000_000 <= Y(x) <= 57_632_000_000_000_000_000_000_000_000_000
    ensures -37_550_000_000_000_000_000_000_000_000_000 <= P(0, x) <= -36_542_000_000_000_000_000_000_000_000_000
  {
    assert Horner(Y_COEFFICIENTS, 0, x) == x + 1_346_386_616_545_796_478_920_950_773_328;
    Step(x + 1_346_386_616_545_796_478_920_950_773_328, x,
         1_374_000_000_000_000_000_000_000_000_000, 476_300_000_000_000_000_000_000_000_000);
  }

  lemma P1Bounds(x: int)
    requires Reduced(x)
    ensures 1_400_000_000_000_000_000_000_000_000_000_000 <= P(1, x) <= 2_580_000_000_000_000_000_000_000_000_000_000
  {
    YBounds(x);
    MulMonotone(-P(0, x), 37_550_000_000_000_000_000_000_000_000_000, Y(x), 57_632_000_000_000_000_000_000_000_000_000);
    MulMonotone(36_542_000_000_000_000_000_000_000_000_000, -P(0, x), 56_679_000_000_000_000_000_000_000_000_000, Y(x));
  }

  lemma NumeratorBounds(x: int)
    requires Reduced(x)
    ensures 3_400_000_000_000_000_000_000_000_000_000_000 * TWO_TO_96 <= Numerator(x)
         <= 5_290_000_000_000_000_000_000_000_000_000_000 * TWO_TO_96
  {
    P1Bounds(x);
    Step(P(1, x), x, 2_580_000_000_000_000_000_000_000_000_000_000, 900_000_000_000_000_000_000_000_000_000_000);
  }

  // ---- The function ----

  /** The rational approximation of exp on the remainder, before the final scaling. */
  function Ratio(x: int): nat
    requires Reduced(x)
  {
    DenominatorBounds(x);
    NumeratorBounds(x);
    Quotient(Numerator(x), Denominator(x))
  }

  /** The ratio, scaled for the last shift. */
  function Mantissa(r: int): nat
    requires Reduced(r)
  {
    Ratio(r) * FINAL_FACTOR
  }

  /** None is the OverflowError that the source raises. */
  function Exp(x: int): (r: Option<nat>)
    ensures r.None? <==> x >= HIGH_CUTOFF
  {
    if x <= LOW_CUTOFF then Some(0)
    else if x >= HIGH_CUTOFF then None
    else
      var z := ScaleIn(x);
      ReducedRemainder(z);
      ExponentBounds(x);
      Some(ShiftDown(Mantissa(Remainder(z)), 195 - Exponent(z)))
  }

  function ShiftDown(m: nat, n: nat): nat {
    Quotient(m, Pow2(n))
  }

  function Quotient(m: nat, d: nat): nat
    requires d > 0
  {
    m / d
  }

  lemma RatioBounds(x: int)
    requires Reduced(x)
    ensures 8_400_000_000_000_000_000_000_000_000 <= Ratio(x) <= 21_000_000_000_000_000_000_000_000_000
  {
    DenominatorBounds(x);
    NumeratorBounds(x);
    QuotientBounds(Numerator(x), Denominator(x),
                   3_400_000_000_000_000_000_000_000_000_000_000 * TWO_TO_96,
                   5_290_000_000_000_000_000_000_000_000_000_000 * TWO_TO_96,
                   20_000_000_000_000_000_000_000_000_000_000_000,
                   32_000_000_000_000_000_000_000_000_000_000_000,
                   8_400_000_000_000_000_000_000_000_000,
                   21_000_000_000_000_000_000_000_000_000);
  }

  lemma QuotientBounds(p: int, q: int, pLow: int, pHigh: int, qLow: int, qHigh: int, low: int, high: int)
    requires 0 < pLow <= p <= pHigh && 0 < qLow <= q <= qHigh && low > 0 && high > 0
    requires low * qHigh <= pLow && pHigh <= high * qLow
    ensures low <= p / q <= high
  {
    FloorDiv(p, q);
    MulMonotone(low, low, q, qHigh);
    MulMonotone(high, high, qLow, q);
    Enclosed(p, q, p / q, low, high);
  }

  lemma Enclosed(p: int, q: int, d: int, low: int, high: int)
    requires q > 0 && d * q <= p < d * q + q && low * q <= p <= high * q
    ensures low <= d <= high
  {
    assert (d + 1) * q == d * q + q && (high + 1) * q == high * q + q;
    Cancel(low, d + 1, q);
    Cancel(d, high + 1, q);
  }

  lemma Cancel(x: int, y: int, d: int)
    requires d > 0 && x * d < y * d
    ensures x < y
  {
  }

  lemma {:induction false} Pow2Add(a: nat, b: nat)
    ensures Pow2(a + b) == Pow2(a) * Pow2(b)
  {
    if a > 0 {
      Pow2Add(a - 1, b);
      assert Pow2(a) * Pow2(b) == 2 * (Pow2(a - 1) * Pow2(b));
    }
  }

  lemma Pow2Of195()
    ensures Pow2(195) == 0x8_0000_0000_0000_0000_0000_0000_0000_0000_0000_0000_0000_0000
    ensures Pow2(194) == 0x4_0000_0000_0000_0000_0000_0000_0000_0000_0000_0000_0000_0000
    ensures Pow2(196) == 0x10_0000_0000_0000_0000_0000_0000_0000_0000_0000_0000_0000_0000
  {
    assert Pow2(12) == 0x1000;
    Pow2Add(12, 12);
    assert Pow2(24) == 0x100_0000;
    Pow2Add(24, 24);
    assert Pow2(48) == 0x1_0000_0000_0000;
    Pow2Add(48, 48);
    assert Pow2(96) == TWO_TO_96;
    Pow2Add(96, 96);
    assert Pow2(192) == 0x1_0000_0000_0000_0000_0000_0000_0000_0000_0000_0000_0000_0000;
  }

  /** Strictly between the cut-offs nothing goes wrong: the input reduces to within half of ln 2, the
      last shift is to the right, and both polynomials are positive. */
  lemma ExpIsSafe(x: int)
    requires InRange(x)
    ensures Reduced(Remainder(ScaleIn(x)))
    ensures -61 <= Exponent(ScaleIn(x)) <= 195
    ensures Numerator(Remainder(ScaleIn(x))) > 0 && Denominator(Remainder(ScaleIn(x))) > 0
  {
    ReducedRemainder(ScaleIn(x));
    ExponentBounds(x);
    NumeratorBounds(Remainder(ScaleIn(x)));
    DenominatorBounds(Remainder(ScaleIn(x)));
  }

  // ---- 256-bit words ----

  predicate FitsInt256(v: int) {
    -TWO_TO_255 <= v < TWO_TO_255
  }

  /** Every intermediate value fits a signed 256-bit word, and the last product an unsigned one: the
      unbounded integers compute what the contract's words do. */
  lemma FitsWords(x: int)
    requires InRange(x)
    ensures var z := ScaleIn(x);
            var r := Remainder(z);
            && FitsInt256(x * TWO_TO_78) && FitsInt256(z * TWO_TO_96) && FitsInt256(Exponent(z) * LN2)
            && FitsInt256((r + 1_346_386_616_545_796_478_920_950_773_328) * r)
            && FitsInt256(P(0, r) * Y(r)) && FitsInt256(P(1, r) * r) && FitsInt256(Numerator(r))
            && FitsInt256(Q(0, r) * r) && FitsInt256(Q(1, r) * r) && FitsInt256(Q(2, r) * r)
            && FitsInt256(Q(3, r) * r) && FitsInt256(Q(4, r) * r)
            && Reduced(r) && Mantissa(r) < TWO_TO_256
  {
    ExpIsSafe(x);
    var z := ScaleIn(x);
    var r := Remainder(z);
    FloorDiv(x * TWO_TO_78, FIVE_TO_18);
    RatioBounds(r);
    NumeratorBounds(r);
    YBounds(r);
    P1Bounds(r);
    Q1Bounds(r);
    Q2Bounds(r);
    Q3Bounds(r);
    Q4Bounds(r);
    MulMonotone(-P(0, r), 37_550_000_000_000_000_000_000_000_000_000, Y(r), 57_632_000_000_000_000_000_000_000_000_000);
    Step(r + 1_346_386_616_545_796_478_920_950_773_328, r,
         1_374_000_000_000_000_000_000_000_000_000, 476_300_000_000_000_000_000_000_000_000);
    Step(P(1, r), r, 2_580_000_000_000_000_000_000_000_000_000_000, 900_000_000_000_000_000_000_000_000_000_000);
    Step(Q(0, r), r, 2_884_000_000_000_000_000_000_000_000_000, 1_000_000_000_000_000_000_000_000_000_000);
    Step(Q(1, r), r, 51_100_000_000_000_000_000_000_000_000_000, 17_800_000_000_000_000_000_000_000_000_000);
    Step(Q(2, r), r, 552_000_000_000_000_000_000_000_000_000_000, 192_000_000_000_000_000_000_000_000_000_000);
    Step(Q(3, r), r, 3_800_000_000_000_000_000_000_000_000_000_000, 1_320_000_000_000_000_000_000_000_000_000_000);
    Step(Q(4, r), r, 15_800_000_000_000_000_000_000_000_000_000_000, 5_500_000_000_000_000_000_000_000_000_000_000);
  }

  // ---- Known values ----

  /** exp of 1, to the last of its 18 decimals. */
  lemma ExpOfOne()
    ensures Exp(SCALE) == Some(2_718_281_828_459_045_235)
  {
    assert ScaleIn(SCALE) == 79_228_162_514_264_337_593_543_950_336;
    assert Exponent(79_228_162_514_264_337_593_543_950_336) == 1;
    assert Remainder(79_228_162_514_264_337_593_543_950_336) == 24_311_385_046_556_864_242_402_479_208;
    RatioAtOne();
    Pow2Of195();
  }

  lemma RatioAtOne()
    ensures Ratio(24_311_385_046_556_864_242_402_479_208) == 17_853_702_997_852_652_908_959_083_702
  {
    var r := 24_311_385_046_556_864_242_402_479_208;
    assert Horner(Y_COEFFICIENTS, 0, r) == 1_370_698_001_592_353_343_163_353_252_536;
    assert Y(r) == 57_576_023_773_941_813_279_391_200_404_781;
    assert P(1, r) == 2_120_495_279_275_941_034_578_607_567_369_350;
    assert Q(0, r) == -2_831_678_009_860_666_399_694_081_580_692;
    assert Q(1, r) == 49_151_695_271_463_634_547_537_858_729_062;
    assert Q(2, r) == -518_762_697_309_119_682_712_433_227_537_959;
    assert Q(3, r) == 3_445_673_460_641_064_379_774_709_483_145_648;
    assert Q(4, r) == -13_366_293_951_082_982_260_221_358_173_280_169;
    assert Denominator(r) == 22_347_703_514_001_226_781_576_744_711_857_464;
  }

  /** exp of 0 is exactly 1. */
  lemma ExpOfZero()
    ensures Exp(0) == Some(1_000_000_000_000_000_000)
  {
    assert ScaleIn(0) == 0;
    assert Exponent(0) == 0 && Remainder(0) == 0;
    RatioAtZero();
    Pow2Of195();
  }

  lemma RatioAtZero()
    ensures P(1, 0) == 1_993_839_819_670_624_470_859_228_494_792_892
    ensures Q(4, 0) == -14_423_608_567_350_463_180_887_372_962_807_573
    ensures Denominator(0) == DENOMINATOR_CONSTANT
    ensures Ratio(0) == UNIT
  {
    assert Y(0) == 57_155_421_227_552_351_082_224_309_758_442;
  }
}
