/** The tracker's estimate of what a block earns its proposer, against what EIP-1559 says it earns. */
module BlockRevenue {
  import opened Integers
  import opened Options

  const SIMPLE_TRANSFER_GAS: nat := 21000
  const CONTRACT_CALL_GAS: nat := 50000

  datatype Tx =
    | Legacy(price: nat)
    | AccessList(price: nat)
    | DynamicFee(tipCap: nat, feeCap: nat)
    | Blob(tipCap: nat, feeCap: nat)
    | SetCode(tipCap: nat, feeCap: nat)
  {
    function GasTipCap(): nat { if Legacy? || AccessList? then price else tipCap }
    function GasFeeCap(): nat { if Legacy? || AccessList? then price else feeCap }
    function GasPrice(): nat { GasFeeCap() }
  }

  datatype Block = Block(number: nat, time: nat, coinbase: nat, baseFee: Option<nat>, gasUsed: nat, txs: seq<Tx>)

  // ---- What the tracker computes ----

  function TipPerGas(tx: Tx, baseFee: nat): int {
    if tx.DynamicFee? then
      if tx.feeCap - baseFee < tx.tipCap then tx.feeCap - baseFee else tx.tipCap
    else if tx.GasPrice() > baseFee then tx.GasPrice() - baseFee
    else 0
  }

  function SumTips(txs: seq<Tx>, baseFee: nat): int {
    if txs == [] then 0 else SumTips(txs[..|txs| - 1], baseFee) + TipPerGas(txs[|txs| - 1], baseFee)
  }

  function AverageTip(b: Block): int
    requires b.baseFee.Some?
  {
    if b.txs == [] then 0 else SumTips(b.txs, b.baseFee.value) / |b.txs|
  }

  /** The gas recorded for a block; an estimate from the number of transactions when it reports none. */
  function GasUsed(b: Block): nat {
    if b.baseFee.None? then 0
    else if b.gasUsed != 0 then b.gasUsed
    else |b.txs| * CONTRACT_CALL_GAS
  }

  function Revenue(b: Block): int {
    if b.baseFee.None? then 0
    else (b.baseFee.value * 75 / 100 + AverageTip(b)) * Int64(GasUsed(b))
  }

  method CalculateBlockRevenueEfficient(b: Block) returns (revenue: int, gasUsed: nat)
    ensures revenue == Revenue(b) && gasUsed == GasUsed(b)
    ensures b.baseFee.None? ==> revenue == 0 && gasUsed == 0
    ensures b.baseFee.Some? ==> gasUsed == if b.gasUsed > 0 then b.gasUsed else 50_000 * |b.txs|
  {
    if b.baseFee.None? {
      return 0, 0;
    }
    var baseFee := b.baseFee.value;
    gasUsed := b.gasUsed;
    if gasUsed == 0 {
      var avgGasPerTx := SIMPLE_TRANSFER_GAS;
      if |b.txs| > 0 {
        avgGasPerTx := CONTRACT_CALL_GAS;
      }
      gasUsed := |b.txs| * avgGasPerTx;
    }
    var avgTipPerGas := 0;
    var validTxCount := 0;
    for i := 0 to |b.txs|
      invariant validTxCount == i
      invariant avgTipPerGas == SumTips(b.txs[..i], baseFee)
    {
      var tx := b.txs[i];
      var tipPerGas := 0;
      if tx.DynamicFee? {
        var maxFeeMinusBase := tx.feeCap - baseFee;
        tipPerGas := tx.tipCap;
        if maxFeeMinusBase < tipPerGas {
          tipPerGas := maxFeeMinusBase;
        }
      } else if tx.GasPrice() > baseFee {
        tipPerGas := tx.GasPrice() - baseFee;
      }
      assert b.txs[..i + 1][..i] == b.txs[..i];
      avgTipPerGas := avgTipPerGas + tipPerGas;
      validTxCount := validTxCount + 1;
    }
    assert b.txs[..|b.txs|] == b.txs;
    if validTxCount > 0 {
      avgTipPerGas := avgTipPerGas / validTxCount;
    }
    var proposerBaseFee := baseFee * 75;
    proposerBaseFee := proposerBaseFee / 100;
    var proposerFeePerGas := proposerBaseFee + avgTipPerGas;
    revenue := proposerFeePerGas * Int64(gasUsed);
  }

  // ---- What EIP-1559 says ----

  /** A transaction that a block with this base fee may include ("Specification" of EIP-1559). */
  predicate Includable(tx: Tx, baseFee: nat) {
    tx.GasFeeCap() >= baseFee && tx.GasFeeCap() >= tx.GasTipCap()
  }

  /** The priority fee per gas: the tip cap, as far as the fee cap leaves room above the base fee. */
  function PriorityFee(tx: Tx, baseFee: nat): nat
    requires Includable(tx, baseFee)
  {
    if tx.GasTipCap() <= tx.GasFeeCap() - baseFee then tx.GasTipCap() else tx.GasFeeCap() - baseFee
  }

  ghost predicate AllIncludable(txs: seq<Tx>, baseFee: nat) {
    forall tx :: tx in txs ==> Includable(tx, baseFee)
  }

  function SumPriorityFees(txs: seq<Tx>, baseFee: nat): nat
    requires AllIncludable(txs, baseFee)
  {
    if txs == [] then 0
    else
      assert txs[|txs| - 1] in txs;
      SumPriorityFees(txs[..|txs| - 1], baseFee) + PriorityFee(txs[|txs| - 1], baseFee)
  }

  /** A blob or set-code transaction whose tip cap binds is priced as if it tipped its whole fee cap. */
  predicate Overpriced(tx: Tx, baseFee: nat) {
    (tx.Blob? || tx.SetCode?) && tx.tipCap < tx.feeCap - baseFee
  }

  /** The tracker never takes a tip for less than the priority fee, and takes it for more exactly when
      the transaction is overpriced. */
  lemma TipAgainstPriorityFee(tx: Tx, baseFee: nat)
    requires Includable(tx, baseFee)
    ensures TipPerGas(tx, baseFee) >= PriorityFee(tx, baseFee)
    ensures TipPerGas(tx, baseFee) == PriorityFee(tx, baseFee) <==> !Overpriced(tx, baseFee)
  {
  }

  lemma {:induction false} TipsAgainstPriorityFees(txs: seq<Tx>, baseFee: nat)
    requires AllIncludable(txs, baseFee)
    ensures SumTips(txs, baseFee) >= SumPriorityFees(txs, baseFee)
    ensures SumTips(txs, baseFee) == SumPriorityFees(txs, baseFee)
       <==> forall tx :: tx in txs ==> !Overpriced(tx, baseFee)
  {
    if txs != [] {
      var init, tx := txs[..|txs| - 1], txs[|txs| - 1];
      assert txs == init + [tx];
      TipsAgainstPriorityFees(init, baseFee);
      assert tx in txs;
      TipAgainstPriorityFee(tx, baseFee);
    }
  }

  /** What the proposer earns when `n` transactions share the gas equally: three quarters of the base fee
      on all of it, and each transaction's tip on its share. */
  function ExactRevenue(baseFee: nat, tips: nat, n: nat, gas: nat): real {
    0.75 * (baseFee * gas) as real + (if n == 0 then 0.0 else (gas * tips) as real / n as real)
  }

  function Estimate(baseFee: nat, tips: int, n: nat, gas: nat): int {
    (baseFee * 75 / 100 + (if n == 0 then 0 else tips / n)) * gas
  }

  lemma RevenueIsEstimate(b: Block)
    requires b.baseFee.Some? && 0 < b.gasUsed < TWO_TO_63
    ensures Revenue(b) == Estimate(b.baseFee.value, SumTips(b.txs, b.baseFee.value), |b.txs|, b.gasUsed)
  {
  }

  lemma FlooredShares(baseFee: nat, tips: nat, n: nat, gas: nat)
    requires gas > 0
    ensures Estimate(baseFee, tips, n, gas) as real <= ExactRevenue(baseFee, tips, n, gas)
    ensures ExactRevenue(baseFee, tips, n, gas) < (Estimate(baseFee, tips, n, gas) + 2 * gas) as real
  {
    ScaledFloor(baseFee * 75, 100, gas);
    ScaledFloor(if n == 0 then 0 else tips, if n == 0 then 1 else n, gas);
    Regroup(baseFee, gas);
    Distribute(baseFee * 75 / 100, if n == 0 then 0 else tips / n, gas);
    assert n != 0 ==> tips * gas == gas * tips;
  }

  lemma Regroup(baseFee: nat, gas: nat)
    ensures (baseFee * 75 * gas) as real / 100.0 == 0.75 * (baseFee * gas) as real
  {
    assert baseFee * 75 * gas == 75 * (baseFee * gas);
  }

  lemma Distribute(x: int, y: int, gas: int)
    ensures (x + y) * gas == x * gas + y * gas
  {
  }

  /** Rounding a quotient down before multiplying by `gas` loses less than `gas`. */
  lemma ScaledFloor(x: nat, n: nat, gas: nat)
    requires n > 0 && gas > 0
    ensures (x / n * gas) as real <= (x * gas) as real / n as real < (x / n * gas + gas) as real
  {
    Quotient(x, n);
    Scaled(x / n, n, x, gas);
    Divided(x / n * gas, x * gas, x / n * gas + gas, n);
  }

  lemma Quotient(x: nat, n: nat)
    requires n > 0
    ensures x / n * n <= x < x / n * n + n
  {
  }

  lemma Scaled(q: nat, n: nat, x: nat, gas: nat)
    requires q * n <= x < q * n + n && gas > 0
    ensures q * gas * n <= x * gas < (q * gas + gas) * n
  {
    var r := x - q * n;
    assert x * gas == q * n * gas + r * gas;
    assert q * n * gas == q * gas * n;
    assert 0 <= r * gas < n * gas;
    Distribute(q * gas, gas, n);
  }

  lemma Divided(low: nat, x: nat, high: nat, n: nat)
    requires n > 0 && low * n <= x < high * n
    ensures low as real <= x as real / n as real < high as real
  {
    assert low as real * n as real <= x as real < high as real * n as real;
  }

  /** With equal gas per transaction, the estimate is at most the exact revenue exactly when what overpriced
      transactions add to the tips is no more than what the two floors take away. */
  lemma NotOverestimatedIff(b: Block)
    requires b.baseFee.Some? && AllIncludable(b.txs, b.baseFee.value) && b.txs != []
    requires 0 < b.gasUsed < TWO_TO_63
    ensures var baseFee, n := b.baseFee.value, |b.txs|;
            var fees, tips := SumPriorityFees(b.txs, baseFee), SumTips(b.txs, baseFee);
            Revenue(b) as real <= ExactRevenue(baseFee, fees, n, b.gasUsed)
            <==> 100 * (tips - fees) <= 100 * (tips % n) + n * (baseFee * 75 % 100)
  {
    var baseFee, n := b.baseFee.value, |b.txs|;
    var fees, tips := SumPriorityFees(b.txs, baseFee), SumTips(b.txs, baseFee);
    TipsAgainstPriorityFees(b.txs, baseFee);
    RevenueIsEstimate(b);
    EstimateIff(baseFee, tips, fees, n, b.gasUsed);
  }

  lemma EstimateIff(baseFee: nat, tips: nat, fees: nat, n: nat, gas: nat)
    requires n > 0 && gas > 0
    ensures Estimate(baseFee, tips, n, gas) as real <= ExactRevenue(baseFee, fees, n, gas)
       <==> 100 * (tips - fees) <= 100 * (tips % n) + n * (baseFee * 75 % 100)
  {
    CrossMultiplied(baseFee * 75 / 100 + tips / n, baseFee, fees, n, gas);
    FloorsTake(baseFee, tips, n);
  }

  /** A price per gas earns no more than the exact revenue when it is no more than the exact price. */
  lemma CrossMultiplied(price: nat, baseFee: nat, fees: nat, n: nat, gas: nat)
    requires n > 0 && gas > 0
    ensures (price * gas) as real <= ExactRevenue(baseFee, fees, n, gas)
       <==> 100 * n * price <= 75 * n * baseFee + 100 * fees
  {
    Fraction(baseFee, fees, n, gas);
    var left, right := 100 * n * price, 75 * n * baseFee + 100 * fees;
    Scale((price * gas) as real, right * gas, 100 * n);
    assert price * gas * (100 * n) == left * gas;
    CancelGas(left, right, gas);
  }

  lemma Fraction(baseFee: nat, fees: nat, n: nat, gas: nat)
    requires n > 0
    ensures ExactRevenue(baseFee, fees, n, gas) == ((75 * n * baseFee + 100 * fees) * gas) as real / (100 * n) as real
  {
    var p, q, d := baseFee * gas, gas * fees, n as real;
    assert (75 * n * baseFee + 100 * fees) * gas == 75 * n * p + 100 * q;
    assert (75 * n * p + 100 * q) as real == (100 * n) as real * (0.75 * p as real + q as real / d);
  }

  lemma Scale(x: real, y: nat, d: nat)
    requires d > 0
    ensures x <= y as real / d as real <==> x * d as real <= y as real
  {
  }

  lemma CancelGas(x: int, y: int, gas: nat)
    requires gas > 0
    ensures x * gas <= y * gas <==> x <= y
  {
    assert (y - x) * gas == y * gas - x * gas;
    SameSign(y - x, gas);
  }

  lemma SameSign(z: int, gas: nat)
    requires gas > 0
    ensures z * gas >= 0 <==> z >= 0
  {
    if z >= 0 {
      assert z * gas >= 0;
    } else {
      assert (-z) * gas > 0;
      assert z * gas == -((-z) * gas);
    }
  }

  lemma FloorsTake(baseFee: nat, tips: nat, n: nat)
    requires n > 0
    ensures 100 * n * (baseFee * 75 / 100 + tips / n)
         == 75 * n * baseFee + 100 * tips - n * (baseFee * 75 % 100) - 100 * (tips % n)
  {
    var share, rest := baseFee * 75 / 100, baseFee * 75 % 100;
    assert baseFee * 75 == 100 * share + rest;
    assert tips == n * (tips / n) + tips % n;
    assert n * (100 * share + rest) == 100 * n * share + n * rest;
    assert n * (baseFee * 75) == 75 * n * baseFee;
    assert 100 * n * (share + tips / n) == 100 * n * share + 100 * (n * (tips / n));
  }

  /** With equal gas per transaction and none overpriced, the estimate is at most the exact revenue and
      short of it by less than two wei per gas. */
  lemma RevenueRoundingBound(b: Block)
    requires b.baseFee.Some? && AllIncludable(b.txs, b.baseFee.value)
    requires forall tx :: tx in b.txs ==> !Overpriced(tx, b.baseFee.value)
    requires 0 < b.gasUsed < TWO_TO_63
    ensures var exact := ExactRevenue(b.baseFee.value, SumPriorityFees(b.txs, b.baseFee.value), |b.txs|, b.gasUsed);
            Revenue(b) as real <= exact < (Revenue(b) + 2 * b.gasUsed) as real
  {
    TipsAgainstPriorityFees(b.txs, b.baseFee.value);
    NeverFarShort(b);
    if b.txs == [] {
      RevenueIsEstimate(b);
      FlooredShares(b.baseFee.value, 0, 0, b.gasUsed);
    } else {
      NotOverestimatedIff(b);
    }
  }

  /** Overpriced transactions can only raise the estimate: it is never short by two wei per gas. */
  lemma NeverFarShort(b: Block)
    requires b.baseFee.Some? && AllIncludable(b.txs, b.baseFee.value)
    requires 0 < b.gasUsed < TWO_TO_63
    ensures ExactRevenue(b.baseFee.value, SumPriorityFees(b.txs, b.baseFee.value), |b.txs|, b.gasUsed)
          < (Revenue(b) + 2 * b.gasUsed) as real
  {
    var baseFee, tips := b.baseFee.value, SumTips(b.txs, b.baseFee.value);
    TipsAgainstPriorityFees(b.txs, baseFee);
    MoreTipsEarnMore(baseFee, SumPriorityFees(b.txs, baseFee), tips, |b.txs|, b.gasUsed);
    RevenueIsEstimate(b);
    FlooredShares(baseFee, tips, |b.txs|, b.gasUsed);
  }

  lemma MoreTipsEarnMore(baseFee: nat, fees: nat, tips: nat, n: nat, gas: nat)
    requires fees <= tips
    ensures ExactRevenue(baseFee, fees, n, gas) <= ExactRevenue(baseFee, tips, n, gas)
  {
    assert gas * fees <= gas * tips;
    if n > 0 {
      Quotients((gas * fees) as real, (gas * tips) as real, n as real);
    }
  }

  lemma Quotients(x: real, y: real, n: real)
    requires x <= y && n > 0.0
    ensures x / n <= y / n
  {
  }

  /** One blob transaction that tips nothing, in a block without a base fee to speak of, is counted at its
      whole fee cap. */
  lemma BlobIsOverestimated()
    ensures var b := Block(1, 0, 0, Some(0), 100, [Blob(0, 10)]);
            && AllIncludable(b.txs, 0) && Int64(b.gasUsed) == 100
            && ExactRevenue(0, SumPriorityFees(b.txs, 0), 1, 100) == 0.0
            && Revenue(b) == 1000
  {
    var b := Block(1, 0, 0, Some(0), 100, [Blob(0, 10)]);
    assert b.txs[..0] == [] && b.txs[0] == Blob(0, 10);
    assert SumTips(b.txs, 0) == 10;
    assert AllIncludable(b.txs, 0);
    assert SumPriorityFees(b.txs, 0) == 0;
  }
}
