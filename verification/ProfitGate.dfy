/** Sending a message's processing transaction: the profit gate in 64-bit arithmetic, and the books kept. */
module ProfitGate {
  import opened Integers
  import opened Options

  datatype Error =
    AlreadyProcessing | Unprocessable | Unprofitable | Impossible | Reverted | NotReceived | Transient | Other

  /** What a call to the outside yields. */
  datatype Answer<+T> = Ok(value: T) | Err(error: Error)

  datatype EventStatus = New | Retriable | Done | Failed | Recalled

  /** A message's event; its gas limit is a 32-bit field. */
  datatype Event = Event(txHash: nat, fee: Uint64, gasLimit: Uint64, srcOwner: nat)

  datatype Receipt = Receipt(successful: bool, gasUsed: Uint64, effectiveGasPrice: Uint64)

  /** The outside's answers while one transaction is sent, in the order they are asked for. */
  datatype SendAnswers = SendAnswers(
    received: Answer<bool>,
    baseFee: Answer<Uint64>,
    gasTipCap: Answer<Uint64>,
    packed: Answer<()>,
    destinationIsContract: Answer<bool>,
    profitabilityStored: bool,
    auth: Answer<()>,
    gasEstimate: Answer<Uint64>,
    status: Answer<EventStatus>,
    receipt: Answer<Receipt>,
    statusSaved: Answer<()>)

  datatype Config = Config(profitableOnly: bool, relayer: nat)

  /** A transaction handed to the transaction manager. */
  datatype Sent = Sent(
    fee: Uint64, gasLimit: nat, baseFee: Uint64, gasTipCap: Uint64, gasEstimate: Uint64, estimatedMaxCost: Uint64,
    receipt: Answer<Receipt>)

  datatype SendResult = SendResult(sent: Option<Sent>, error: Option<Error>)

  predicate CanProcessMessage(status: EventStatus, owner: nat, relayer: nat, gasLimit: nat) {
    status == New && (gasLimit != 0 || owner == relayer)
  }

  /** The message's gas limit with a tenth added for a contract, a twentieth for another account. */
  function PaddedGasLimit(gasLimit: nat, isContract: bool): nat {
    if isContract then gasLimit * 11 / 10 else gasLimit * 21 / 20
  }

  /** Padding adds a tenth or a twentieth, rounded down: never less than the limit, and nothing to nothing. */
  lemma PaddingIs(gasLimit: nat, isContract: bool)
    ensures var padded := PaddedGasLimit(gasLimit, isContract);
            && gasLimit <= padded && (padded == 0 <==> gasLimit == 0)
            && (isContract ==> 10 * (padded - gasLimit) <= gasLimit < 10 * (padded - gasLimit) + 10)
            && (!isContract ==> 20 * (padded - gasLimit) <= gasLimit < 20 * (padded - gasLimit) + 20)
  {
  }

  // ---- The gate ----

  datatype Verdict = Profitable | NotProfitable | NoFeeOrGas

  /** The price per gas the gate reckons with. */
  function Price(baseFee: nat, gasTipCap: nat): nat {
    2 * baseFee + gasTipCap
  }

  function WrappedPrice(baseFee: Uint64, gasTipCap: Uint64): Uint64 {
    Wrap(Wrap(baseFee * 2) + gasTipCap)
  }

  /** What the gate takes a message to cost. */
  function GateCost(baseFee: Uint64, gasTipCap: Uint64, gasLimit: nat): Uint64 {
    Wrap(WrappedPrice(baseFee, gasTipCap) * gasLimit)
  }

  function IsProfitable(fee: Uint64, gasLimit: nat, baseFee: Uint64, gasTipCap: Uint64): Verdict {
    if fee == 0 || gasLimit == 0 then NoFeeOrGas
    else if fee > GateCost(baseFee, gasTipCap, gasLimit) then Profitable
    else NotProfitable
  }

  lemma WrappedPriceIs(baseFee: Uint64, gasTipCap: Uint64)
    ensures WrappedPrice(baseFee, gasTipCap) == Wrap(Price(baseFee, gasTipCap))
  {
    WrapAfterWrap(baseFee * 2, gasTipCap);
  }

  /** However the 64-bit operations wrap on the way, the gate compares the fee with the true cost modulo
      2^64. */
  lemma CostModulo(baseFee: Uint64, gasTipCap: Uint64, gas: nat)
    ensures GateCost(baseFee, gasTipCap, gas) == Wrap((2 * baseFee + gasTipCap) * gas)
  {
    WrappedPriceIs(baseFee, gasTipCap);
    WrapOfProduct(Price(baseFee, gasTipCap), gas);
  }

  /** A verdict of profitable is right, the fee really exceeds the cost, exactly when the cost fits 64 bits. */
  lemma ProfitableVerdictIsRightIff(fee: Uint64, gasLimit: nat, baseFee: Uint64, gasTipCap: Uint64)
    requires IsProfitable(fee, gasLimit, baseFee, gasTipCap) == Profitable
    ensures fee > (2 * baseFee + gasTipCap) * gasLimit <==> (2 * baseFee + gasTipCap) * gasLimit < TWO_TO_64
  {
    CostModulo(baseFee, gasTipCap, gasLimit);
    Compared(fee, gasLimit, GateCost(baseFee, gasTipCap, gasLimit), Price(baseFee, gasTipCap) * gasLimit);
  }

  lemma Compared(fee: Uint64, gasLimit: nat, wrapped: Uint64, cost: nat)
    requires wrapped == Wrap(cost)
    ensures cost < TWO_TO_64 ==>
            ((fee != 0 && gasLimit != 0 && fee > wrapped) <==> (gasLimit != 0 && fee > cost))
    ensures fee > wrapped ==> (fee > cost <==> cost < TWO_TO_64)
  {
  }

  /** While costs fit 64 bits the gate lets a message through exactly when it has gas and its fee exceeds
      the cost. */
  lemma GateIff(fee: Uint64, gasLimit: nat, baseFee: Uint64, gasTipCap: Uint64)
    requires (2 * baseFee + gasTipCap) * gasLimit < TWO_TO_64
    ensures IsProfitable(fee, gasLimit, baseFee, gasTipCap) == Profitable
       <==> gasLimit != 0 && fee > (2 * baseFee + gasTipCap) * gasLimit
  {
    CostModulo(baseFee, gasTipCap, gasLimit);
    Compared(fee, gasLimit, GateCost(baseFee, gasTipCap, gasLimit), Price(baseFee, gasTipCap) * gasLimit);
  }

  /** A base fee of 2^63 wraps to a price of nothing, and a fee of one wei passes. */
  lemma WrappedPricePasses()
    ensures IsProfitable(1, 21000, 0x8000_0000_0000_0000, 0) == Profitable
    ensures Price(0x8000_0000_0000_0000, 0) * 21000 > 1
  {
  }

  // ---- Sending ----

  function SendOutcome(c: Config, e: Event, a: SendAnswers): SendResult {
    if a.received.Err? then SendResult(None, Some(a.received.error))
    else if !a.received.value then SendResult(None, Some(NotReceived))
    else if a.baseFee.Err? then SendResult(None, Some(a.baseFee.error))
    else if a.gasTipCap.Err? then SendResult(None, Some(a.gasTipCap.error))
    else if a.packed.Err? then SendResult(None, Some(a.packed.error))
    else if a.destinationIsContract.Err? then SendResult(None, Some(a.destinationIsContract.error))
    else
      var gasLimit := PaddedGasLimit(e.gasLimit, a.destinationIsContract.value);
      var gate := GateOutcome(c, e, a, gasLimit);
      if gate.Err? then SendResult(None, Some(gate.error)) else AfterGate(c, e, a, gasLimit, gate.value)
  }

  /** The gate's two checks; on passing, the gas estimate and the cost it comes to. */
  function GateOutcome(c: Config, e: Event, a: SendAnswers, gasLimit: nat): Answer<(Uint64, Uint64)>
    requires a.baseFee.Ok? && a.gasTipCap.Ok?
  {
    if !c.profitableOnly then Ok((0, 0))
    else
      match IsProfitable(e.fee, gasLimit, a.baseFee.value, a.gasTipCap.value)
      case NoFeeOrGas => Err(Impossible)
      case NotProfitable => Err(Unprofitable)
      case Profitable =>
        if a.auth.Err? then Err(a.auth.error)
        else if a.gasEstimate.Err? then Err(a.gasEstimate.error)
        else if a.gasEstimate.value > gasLimit then Err(Unprofitable)
        else Ok((a.gasEstimate.value, Wrap(a.gasEstimate.value * WrappedPrice(a.baseFee.value, a.gasTipCap.value))))
  }

  function AfterGate(c: Config, e: Event, a: SendAnswers, gasLimit: nat, gate: (Uint64, Uint64)): SendResult
    requires a.baseFee.Ok? && a.gasTipCap.Ok?
  {
    if a.status.Err? then SendResult(None, Some(a.status.error))
    else if !CanProcessMessage(a.status.value, e.srcOwner, c.relayer, e.gasLimit) then
      SendResult(None, Some(Unprocessable))
    else
      var sent := Sent(e.fee, gasLimit, a.baseFee.value, a.gasTipCap.value, gate.0, gate.1, a.receipt);
      SendResult(Some(sent),
        if a.receipt.Err? then Some(a.receipt.error)
        else if !a.receipt.value.successful then Some(Reverted)
        else if a.statusSaved.Err? then Some(a.statusSaved.error)
        else None)
  }

  /** What the gate refuses with: without a fee or gas, processing is impossible; with a fee no higher than the
      cost in 64 bits, or an estimate above the gas limit, it is unprofitable. */
  lemma GateRefusesWith(c: Config, e: Event, a: SendAnswers, gasLimit: nat)
    requires c.profitableOnly && a.baseFee.Ok? && a.gasTipCap.Ok?
    ensures var gate, cost := GateOutcome(c, e, a, gasLimit),
                              Wrap((2 * a.baseFee.value + a.gasTipCap.value) * gasLimit);
            && (e.fee == 0 || gasLimit == 0 ==> gate == Err(Impossible))
            && (e.fee != 0 && gasLimit != 0 && e.fee <= cost ==> gate == Err(Unprofitable))
            && (gasLimit != 0 && e.fee > cost && a.auth.Ok? && a.gasEstimate.Ok? ==>
                (gate == Err(Unprofitable) <==> a.gasEstimate.value > gasLimit) && gate != Err(Impossible))
  {
    CostModulo(a.baseFee.value, a.gasTipCap.value, gasLimit);
  }

  /** Gas, base fee and tip keep every product the gate forms within 64 bits. */
  predicate Fits(tx: Sent) {
    Price(tx.baseFee, tx.gasTipCap) * tx.gasLimit < TWO_TO_64
  }

  /** The gate let this transaction through. */
  predicate Gated(tx: Sent) {
    && IsProfitable(tx.fee, tx.gasLimit, tx.baseFee, tx.gasTipCap) == Profitable
    && tx.gasEstimate <= tx.gasLimit
    && tx.estimatedMaxCost == Wrap(tx.gasEstimate * WrappedPrice(tx.baseFee, tx.gasTipCap))
  }

  /** With the gate on, only transactions it lets through are sent. */
  lemma OnlyGatedAreSent(c: Config, e: Event, a: SendAnswers)
    requires c.profitableOnly && SendOutcome(c, e, a).sent.Some?
    ensures Gated(SendOutcome(c, e, a).sent.value) && SendOutcome(c, e, a).sent.value.fee == e.fee
  {
  }

  /** The gate, if on, lets the message through. */
  predicate PassesGate(c: Config, e: Event, a: SendAnswers)
    requires a.baseFee.Ok? && a.gasTipCap.Ok? && a.destinationIsContract.Ok?
  {
    var gasLimit := PaddedGasLimit(e.gasLimit, a.destinationIsContract.value);
    c.profitableOnly ==>
      && IsProfitable(e.fee, gasLimit, a.baseFee.value, a.gasTipCap.value) == Profitable
      && a.auth.Ok? && a.gasEstimate.Ok? && a.gasEstimate.value <= gasLimit
  }

  /** A transaction is sent exactly when the message has been received, every answer before the sending is
      good, the gate lets it through, and the message is new and this relayer may process it. */
  lemma SentIff(c: Config, e: Event, a: SendAnswers)
    ensures SendOutcome(c, e, a).sent.Some? <==>
            && a.received == Ok(true) && a.baseFee.Ok? && a.gasTipCap.Ok? && a.packed.Ok? && a.destinationIsContract.Ok?
            && PassesGate(c, e, a)
            && a.status == Ok(New) && (e.gasLimit != 0 || e.srcOwner == c.relayer)
  {
  }

  /** What a message that is not processed comes to: it has not been received, it may not be processed, its
      transaction is reverted; and success is a transaction mined and recorded. */
  lemma SendErrors(c: Config, e: Event, a: SendAnswers)
    ensures a.received == Ok(false) ==> SendOutcome(c, e, a).error == Some(NotReceived)
    ensures a.received == Ok(true) && a.baseFee.Ok? && a.gasTipCap.Ok? && a.packed.Ok? && a.destinationIsContract.Ok?
            && PassesGate(c, e, a)
            && a.status.Ok? && !CanProcessMessage(a.status.value, e.srcOwner, c.relayer, e.gasLimit)
            ==> SendOutcome(c, e, a) == SendResult(None, Some(Unprocessable))
    ensures SendOutcome(c, e, a).sent.Some? && a.receipt.Ok? && !a.receipt.value.successful ==>
            SendOutcome(c, e, a).error == Some(Reverted)
    ensures SendOutcome(c, e, a).error.None?
       <==> SendOutcome(c, e, a).sent.Some? && Mined(SendOutcome(c, e, a).sent.value) && a.statusSaved.Ok?
  {
  }

  lemma LessGasCostsLess(price: nat, gas: nat, gasLimit: nat)
    requires gas <= gasLimit
    ensures price * gas <= price * gasLimit
  {
  }

  lemma EstimateModulo(tx: Sent)
    requires Gated(tx)
    ensures tx.estimatedMaxCost == Wrap(Price(tx.baseFee, tx.gasTipCap) * tx.gasEstimate)
  {
    CostModulo(tx.baseFee, tx.gasTipCap, tx.gasEstimate);
    Commutes(tx.gasEstimate, WrappedPrice(tx.baseFee, tx.gasTipCap));
  }

  lemma Commutes(x: nat, y: nat)
    ensures x * y == y * x
  {
  }

  lemma PaysTheLimit(tx: Sent)
    requires Gated(tx) && Fits(tx)
    ensures Price(tx.baseFee, tx.gasTipCap) * tx.gasLimit < tx.fee
  {
    ProfitableVerdictIsRightIff(tx.fee, tx.gasLimit, tx.baseFee, tx.gasTipCap);
  }

  /** A transaction let through, whose products fit, has a fee above its estimated cost, which is then the
      true cost of the gas estimated. */
  lemma GatedPaysItsEstimate(tx: Sent)
    requires Gated(tx) && Fits(tx)
    ensures tx.estimatedMaxCost == (2 * tx.baseFee + tx.gasTipCap) * tx.gasEstimate < tx.fee
  {
    PaysTheLimit(tx);
    EstimateModulo(tx);
    EstimateBelowFee(Price(tx.baseFee, tx.gasTipCap), tx.gasEstimate, tx.gasLimit, tx.estimatedMaxCost, tx.fee);
  }

  lemma EstimateBelowFee(price: nat, gas: nat, gasLimit: nat, estimate: int, fee: int)
    requires gas <= gasLimit && estimate == Wrap(price * gas)
    requires price * gasLimit < fee && price * gasLimit < TWO_TO_64
    ensures estimate == price * gas < fee
  {
    LessGasCostsLess(price, gas, gasLimit);
    WrapOfSmall(price * gas);
  }

  // ---- The books ----

  /** What a mined transaction cost. */
  function Cost(r: Receipt): nat {
    r.gasUsed * r.effectiveGasPrice
  }

  predicate Mined(tx: Sent) {
    tx.receipt.Ok? && tx.receipt.value.successful
  }

  /** The transaction is mined and counted as profitable. */
  predicate CountedProfitable(tx: Sent) {
    Mined(tx) && Wrap(Cost(tx.receipt.value)) <= tx.estimatedMaxCost
  }

  /** A transaction counted as profitable cost less than its fee exactly when its cost fits 64 bits. */
  lemma CountedProfitableIff(tx: Sent)
    requires Gated(tx) && Fits(tx) && CountedProfitable(tx)
    ensures var r := tx.receipt.value;
            r.gasUsed * r.effectiveGasPrice < tx.fee <==> r.gasUsed * r.effectiveGasPrice < TWO_TO_64
  {
    GatedPaysItsEstimate(tx);
  }

  datatype Counters = Counters(processed: nat, reverted: nat, profitable: nat, unprofitable: nat)

  /** What the counters should read after these transactions. */
  function Tally(c: Config, txs: seq<Sent>): Counters {
    if txs == [] then Counters(0, 0, 0, 0)
    else
      var t, tx := Tally(c, txs[..|txs| - 1]), txs[|txs| - 1];
      if tx.receipt.Err? then t
      else if !Mined(tx) then t.(reverted := t.reverted + 1)
      else if !c.profitableOnly then t.(processed := t.processed + 1)
      else if CountedProfitable(tx) then t.(processed := t.processed + 1, profitable := t.profitable + 1)
      else t.(processed := t.processed + 1, unprofitable := t.unprofitable + 1)
  }

  /** The transaction is in a block and was reverted there. */
  predicate RevertedOnChain(tx: Sent) {
    tx.receipt.Ok? && !tx.receipt.value.successful
  }

  /** The positions of the transactions of one kind. */
  ghost function Those(txs: seq<Sent>, kind: Sent -> bool): set<nat> {
    set i: nat | i < |txs| && kind(txs[i])
  }

  lemma OneMoreOfThose(txs: seq<Sent>, kind: Sent -> bool)
    requires txs != []
    ensures var n := |txs| - 1; |Those(txs, kind)| == |Those(txs[..n], kind)| + (if kind(txs[n]) then 1 else 0)
  {
    var n := |txs| - 1;
    assert Those(txs, kind) == Those(txs[..n], kind) + (if kind(txs[n]) then {n} else {});
  }

  lemma NoneOfThose(txs: seq<Sent>, kind: Sent -> bool)
    requires txs == []
    ensures Those(txs, kind) == {}
  {
  }

  /** The counters are numbers of transactions: mined, reverted, and, with the gate on, those mined at a cost
      within their estimate and those above it. */
  lemma {:induction false} TallyCounts(c: Config, txs: seq<Sent>)
    ensures var t := Tally(c, txs);
            && t.processed == |Those(txs, Mined)| && t.reverted == |Those(txs, RevertedOnChain)|
            && (c.profitableOnly ==>
                t.profitable == |Those(txs, CountedProfitable)| && t.profitable + t.unprofitable == t.processed)
            && (!c.profitableOnly ==> t.profitable == t.unprofitable == 0)
  {
    if txs == [] {
      NoneOfThose(txs, Mined);
      NoneOfThose(txs, RevertedOnChain);
      NoneOfThose(txs, CountedProfitable);
    } else {
      TallyCounts(c, txs[..|txs| - 1]);
      OneMoreOfThose(txs, Mined);
      OneMoreOfThose(txs, RevertedOnChain);
      OneMoreOfThose(txs, CountedProfitable);
    }
  }

  function FeesOfCounted(txs: seq<Sent>): nat {
    if txs == [] then 0
    else FeesOfCounted(txs[..|txs| - 1]) + (if CountedProfitable(txs[|txs| - 1]) then txs[|txs| - 1].fee else 0)
  }

  function CostOfCounted(txs: seq<Sent>): nat {
    if txs == [] then 0
    else
      var tx := txs[|txs| - 1];
      CostOfCounted(txs[..|txs| - 1]) + (if CountedProfitable(tx) then Cost(tx.receipt.value) else 0)
  }

  /** Over any history of gated transactions whose amounts fit 64 bits, the fees of those counted as
      profitable exceed what they cost by at least a wei each. */
  lemma {:induction false} CountedProfitAddsUp(c: Config, txs: seq<Sent>)
    requires c.profitableOnly
    requires forall tx :: tx in txs ==> Gated(tx) && Fits(tx)
    requires forall tx :: tx in txs && Mined(tx) ==> Cost(tx.receipt.value) < TWO_TO_64
    ensures FeesOfCounted(txs) >= CostOfCounted(txs) + Tally(c, txs).profitable
    ensures Tally(c, txs).processed == Tally(c, txs).profitable + Tally(c, txs).unprofitable
  {
    if txs != [] {
      var tx := txs[|txs| - 1];
      CountedProfitAddsUp(c, txs[..|txs| - 1]);
      assert tx in txs;
      if CountedProfitable(tx) {
        CountedProfitableIff(tx);
      }
    }
  }

  class Sender {
    const config: Config
    var counters: Counters
    var unprofitableDetected: nat
    var notReceived: nat
    var profitability: map<int, Verdict>

    ghost var sent: seq<Sent>

    /** The counters agree with the transactions sent, and with the gate on each of those was let through. */
    ghost predicate Valid()
      reads this
    {
      && counters == Tally(config, sent)
      && (config.profitableOnly ==> forall tx :: tx in sent ==> Gated(tx))
    }

    constructor (config: Config)
      ensures Valid() && sent == [] && this.config == config
    {
      this.config := config;
      counters := Counters(0, 0, 0, 0);
      unprofitableDetected, notReceived, profitability := 0, 0, map[];
      sent := [];
    }

    /** The verdict is stored with the event, if storing works; it stands either way. */
    method CheckProfitable(id: int, fee: Uint64, gasLimit: nat, baseFee: Uint64, gasTipCap: Uint64, stored: bool)
      returns (verdict: Verdict)
      modifies this`unprofitableDetected, this`profitability
      ensures verdict == IsProfitable(fee, gasLimit, baseFee, gasTipCap)
      ensures profitability == if stored && verdict != NoFeeOrGas then old(profitability)[id := verdict]
                               else old(profitability)
      ensures unprofitableDetected == old(unprofitableDetected) + (if verdict == NotProfitable then 1 else 0)
    {
      if fee == 0 || gasLimit == 0 {
        return NoFeeOrGas;
      }
      var estimatedOnchainFee := Wrap(Wrap(Wrap(baseFee * 2) + gasTipCap) * gasLimit);
      verdict := if fee > estimatedOnchainFee then Profitable else NotProfitable;
      if stored {
        profitability := profitability[id := verdict];
      }
      if verdict == NotProfitable {
        unprofitableDetected := unprofitableDetected + 1;
      }
    }

    method PassGate(id: int, e: Event, a: SendAnswers, gasLimit: nat) returns (gate: Answer<(Uint64, Uint64)>)
      requires a.baseFee.Ok? && a.gasTipCap.Ok?
      modifies this`unprofitableDetected, this`profitability
      ensures gate == GateOutcome(config, e, a, gasLimit)
    {
      if !config.profitableOnly {
        return Ok((0, 0));
      }
      var verdict := CheckProfitable(id, e.fee, gasLimit, a.baseFee.value, a.gasTipCap.value, a.profitabilityStored);
      if verdict != Profitable {
        return Err(if verdict == NoFeeOrGas then Impossible else Unprofitable);
      }
      if a.auth.Err? {
        return Err(a.auth.error);
      }
      if a.gasEstimate.Err? {
        return Err(a.gasEstimate.error);
      }
      var gasUsed := a.gasEstimate.value;
      if gasUsed > gasLimit {
        return Err(Unprofitable);
      }
      return Ok((gasUsed, Wrap(gasUsed * Wrap(Wrap(a.baseFee.value * 2) + a.gasTipCap.value))));
    }

    /** Hands the transaction over and keeps the counters. */
    method Send(tx: Sent, statusSaved: Answer<()>) returns (error: Option<Error>)
      requires Valid() && (config.profitableOnly ==> Gated(tx))
      modifies this`counters, this`sent
      ensures Valid() && sent == old(sent) + [tx]
      ensures error == if tx.receipt.Err? then Some(tx.receipt.error)
                       else if !tx.receipt.value.successful then Some(Reverted)
                       else if statusSaved.Err? then Some(statusSaved.error)
                       else None
    {
      assert (sent + [tx])[..|sent|] == sent;
      sent := sent + [tx];
      if tx.receipt.Err? {
        return Some(tx.receipt.error);
      }
      var receipt := tx.receipt.value;
      if !receipt.successful {
        counters := counters.(reverted := counters.reverted + 1);
        return Some(Reverted);
      }
      counters := counters.(processed := counters.processed + 1);
      if config.profitableOnly {
        var cost := Wrap(receipt.gasUsed * receipt.effectiveGasPrice);
        if cost > tx.estimatedMaxCost {
          counters := counters.(unprofitable := counters.unprofitable + 1);
        } else {
          counters := counters.(profitable := counters.profitable + 1);
        }
      }
      return if statusSaved.Err? then Some(statusSaved.error) else None;
    }

    /** At most one transaction is sent, the one the outcome names; the books stay right throughout. */
    method SendProcessMessageCall(id: int, e: Event, a: SendAnswers) returns (error: Option<Error>)
      requires Valid()
      modifies this
      ensures Valid()
      ensures var r := SendOutcome(config, e, a);
              && error == r.error
              && sent == old(sent) + (if r.sent.Some? then [r.sent.value] else [])
    {
      if a.received.Err? {
        return Some(a.received.error);
      }
      if !a.received.value {
        notReceived := notReceived + 1;
        return Some(NotReceived);
      }
      if a.baseFee.Err? {
        return Some(a.baseFee.error);
      }
      if a.gasTipCap.Err? {
        return Some(a.gasTipCap.error);
      }
      if a.packed.Err? {
        return Some(a.packed.error);
      }
      if a.destinationIsContract.Err? {
        return Some(a.destinationIsContract.error);
      }
      var gasLimit := PaddedGasLimit(e.gasLimit, a.destinationIsContract.value);
      var gate := PassGate(id, e, a, gasLimit);
      if gate.Err? {
        return Some(gate.error);
      }
      if a.status.Err? {
        return Some(a.status.error);
      }
      if !CanProcessMessage(a.status.value, e.srcOwner, config.relayer, e.gasLimit) {
        return Some(Unprocessable);
      }
      var tx := Sent(e.fee, gasLimit, a.baseFee.value, a.gasTipCap.value, gate.value.0, gate.value.1, a.receipt);
      error := Send(tx, a.statusSaved);
    }
  }
}
