/** What the relayer's processor does with one message: the gates it goes through and what becomes of it. */
module MessageProcessing {
  import opened Integers
  import opened Options
  import opened ProfitGate
  import BridgeMessage

  datatype Settings = Settings(maxRetries: nat, minFeeToProcess: nat, hasQuotaManager: bool, send: Config)

  /** What comes from the queue; `internal` is false for a message targeted by configuration. */
  datatype Delivery =
    | Malformed
    | WithoutEvent
    | Message(id: int, event: Event, timesRetried: nat, internal: bool)

  /** The outside's answers while one message is processed, in the order they are asked for. */
  datatype Answers = Answers(
    status: Answer<EventStatus>,
    confirmations: Answer<()>,
    paused: Answer<bool>,
    decoded: Answer<BridgeMessage.EventType>,
    hasQuota: Answer<bool>,
    quotaWait: Answer<()>,
    proof: Answer<()>,
    send: SendAnswers,
    lastStatus: Answer<EventStatus>,
    statusUpdate: Answer<()>)

  datatype Result = Result(requeue: bool, error: Option<Error>)

  const DONE := Result(false, None)

  function Fail(e: Error): Result {
    Result(false, Some(e))
  }

  // ---- One message at a time ----

  predicate BelowMinFee(s: Settings, e: Event) {
    s.minFeeToProcess != 0 && e.fee < s.minFeeToProcess
  }

  /** What processing comes to for a message whose hash nobody else holds. */
  function GatesResult(s: Settings, m: Delivery, a: Answers): Result
    requires m.Message?
  {
    if m.timesRetried >= s.maxRetries || BelowMinFee(s, m.event) then DONE
    else if a.status.Err? then Fail(a.status.error)
    else if !CanProcessMessage(a.status.value, m.event.srcOwner, s.send.relayer, m.event.gasLimit) then DONE
    else if a.confirmations.Err? then Fail(a.confirmations.error)
    else if a.paused.Err? then Fail(a.paused.error)
    else if a.paused.value then Result(true, None)
    else
      var quota := QuotaFailure(s, a);
      if quota.Some? then Fail(quota.value)
      else if a.proof.Err? then Fail(a.proof.error)
      else
        var sending := SendFailure(s, m, a);
        if sending.Some? then Fail(sending.value)
        else if a.lastStatus.Err? then Fail(a.lastStatus.error)
        else if m.internal && a.statusUpdate.Err? then Fail(a.statusUpdate.error)
        else DONE
  }

  function SendFailure(s: Settings, m: Delivery, a: Answers): Option<Error>
    requires m.Message?
  {
    SendOutcome(s.send, m.event, a.send).error
  }

  /** Quota is checked for ether and ERC-20 tokens only, and waited for where it is lacking. */
  function QuotaFailure(s: Settings, a: Answers): Option<Error> {
    if !s.hasQuotaManager then None
    else if a.decoded.Err? then Some(a.decoded.error)
    else if !a.decoded.value.SendETH? && !a.decoded.value.SendERC20? then None
    else if a.hasQuota.Err? then Some(a.hasQuota.error)
    else if !a.hasQuota.value && a.quotaWait.Err? then Some(a.quotaWait.error)
    else None
  }

  /** A message is put back exactly when the destination bridge is found paused, and an error never puts it
      back. */
  lemma RequeuedIffPaused(s: Settings, m: Delivery, a: Answers)
    requires m.Message?
    ensures GatesResult(s, m, a).requeue
       <==> && m.timesRetried < s.maxRetries
            && !BelowMinFee(s, m.event)
            && a.status.Ok?
            && CanProcessMessage(a.status.value, m.event.srcOwner, s.send.relayer, m.event.gasLimit)
            && a.confirmations.Ok?
            && a.paused == Ok(true)
    ensures GatesResult(s, m, a).error.Some? ==> !GatesResult(s, m, a).requeue
  {
  }

  /** Every gate before the quota lets the message through. */
  predicate ReachesQuota(s: Settings, m: Delivery, a: Answers)
    requires m.Message?
  {
    && m.timesRetried < s.maxRetries && !BelowMinFee(s, m.event)
    && a.status.Ok?
    && CanProcessMessage(a.status.value, m.event.srcOwner, s.send.relayer, m.event.gasLimit)
    && a.confirmations.Ok?
    && a.paused == Ok(false)
  }

  /** Every gate before the sending lets the message through. */
  predicate ReachesSending(s: Settings, m: Delivery, a: Answers)
    requires m.Message?
  {
    ReachesQuota(s, m, a) && QuotaFailure(s, a).None? && a.proof.Ok?
  }

  /** Processing ends well, with the message acknowledged, exactly when the message is not to be processed any
      more or a transaction for it is mined and recorded and its status read, and, for one that came from the
      queue, stored. */
  lemma DoneIff(s: Settings, m: Delivery, a: Answers)
    requires m.Message?
    ensures GatesResult(s, m, a) == DONE
       <==> || m.timesRetried >= s.maxRetries || BelowMinFee(s, m.event)
            || (a.status.Ok? && !CanProcessMessage(a.status.value, m.event.srcOwner, s.send.relayer, m.event.gasLimit))
            || (ReachesSending(s, m, a) && SendOutcome(s.send, m.event, a.send).error.None?
                && a.lastStatus.Ok? && (m.internal ==> a.statusUpdate.Ok?))
  {
  }

  /** A fee below a minimum that is set ends the processing without an error; any other fee is treated as if
      there were no minimum. */
  lemma MinFeeStopsOnlyLowerFees(s: Settings, m: Delivery, a: Answers)
    requires m.Message?
    ensures m.event.fee < s.minFeeToProcess ==> GatesResult(s, m, a) == DONE
    ensures m.event.fee >= s.minFeeToProcess ==> GatesResult(s, m, a) == GatesResult(s.(minFeeToProcess := 0), m, a)
  {
  }

  /** Quota never stops an NFT, and what it stops for lack of quota is ether or an ERC-20 token whose wait fails;
      with quota such a message goes on as if none were needed. */
  lemma QuotaStopsOnlyFungibles(s: Settings, m: Delivery, a: Answers)
    requires m.Message? && s.hasQuotaManager && a.decoded.Ok?
    ensures a.decoded.value.SendERC721? || a.decoded.value.SendERC1155? ==>
            GatesResult(s, m, a) == GatesResult(s.(hasQuotaManager := false), m, a)
    ensures a.decoded.value.SendETH? || a.decoded.value.SendERC20? ==>
            && (a.hasQuota == Ok(true) || (a.hasQuota == Ok(false) && a.quotaWait.Ok?) ==>
                GatesResult(s, m, a) == GatesResult(s.(hasQuotaManager := false), m, a))
            && (ReachesQuota(s, m, a) && a.hasQuota == Ok(false) && a.quotaWait.Err? ==>
                GatesResult(s, m, a) == Fail(a.quotaWait.error))
            && (ReachesQuota(s, m, a) && a.hasQuota.Err? ==> GatesResult(s, m, a) == Fail(a.hasQuota.error))
  {
  }

  /** The gates in order. A transaction is handed over only for a message that passes all of them and the
      profit gate, and then exactly one. */
  method PassGates(s: Settings, sender: Sender, m: Delivery, a: Answers) returns (r: Result)
    requires m.Message? && sender.Valid() && sender.config == s.send
    modifies sender
    ensures sender.Valid()
    ensures r == GatesResult(s, m, a)
    ensures var tx := SendOutcome(s.send, m.event, a.send).sent;
            sender.sent == old(sender.sent) + (if ReachesSending(s, m, a) && tx.Some? then [tx.value] else [])
  {
    if m.timesRetried >= s.maxRetries {
      return DONE;
    }
    if s.minFeeToProcess != 0 && m.event.fee < s.minFeeToProcess {
      return DONE;
    }
    if a.status.Err? {
      return Fail(a.status.error);
    }
    if !CanProcessMessage(a.status.value, m.event.srcOwner, s.send.relayer, m.event.gasLimit) {
      return DONE;
    }
    if a.confirmations.Err? {
      return Fail(a.confirmations.error);
    }
    if a.paused.Err? {
      return Fail(a.paused.error);
    }
    if a.paused.value {
      return Result(true, None);
    }
    if s.hasQuotaManager {
      if a.decoded.Err? {
        return Fail(a.decoded.error);
      }
      if a.decoded.value.SendERC20? || a.decoded.value.SendETH? {
        if a.hasQuota.Err? {
          return Fail(a.hasQuota.error);
        }
        if !a.hasQuota.value && a.quotaWait.Err? {
          return Fail(a.quotaWait.error);
        }
      }
    }
    if a.proof.Err? {
      return Fail(a.proof.error);
    }
    var error := sender.SendProcessMessageCall(m.id, m.event, a.send);
    if error.Some? {
      return Fail(error.value);
    }
    if a.lastStatus.Err? {
      return Fail(a.lastStatus.error);
    }
    if m.internal && a.statusUpdate.Err? {
      return Fail(a.statusUpdate.error);
    }
    return DONE;
  }

  // ---- The queue ----

  datatype QueueCall = Ack | Nack(requeue: bool) | PublishUnprofitable | Publish

  function Dispose(r: Result): seq<QueueCall> {
    match r.error
    case Some(Unprocessable) => [Ack]
    case Some(Unprofitable) => [PublishUnprofitable, Ack]
    case Some(Transient) => []
    case Some(_) => [Nack(r.requeue)]
    case None => if r.requeue then [Nack(true), Publish] else [Ack]
  }

  /** How often a message is acknowledged or refused by these calls. */
  function TimesAnswered(calls: seq<QueueCall>): nat {
    multiset(calls)[Ack] + multiset(calls)[Nack(true)] + multiset(calls)[Nack(false)]
  }

  /** The error leaves the message unprocessed, and is none of those with a queue treatment of their own. */
  predicate Dropped(e: Error) {
    e != Unprocessable && e != Unprofitable && e != Transient
  }

  /** Whatever the result, the message is answered to the queue once, unless it met a transient error; it is
      refused without being put back exactly when its error drops it. */
  lemma AnsweredOnce(r: Result)
    requires r.error.Some? ==> !r.requeue
    ensures TimesAnswered(Dispose(r)) == if r.error == Some(Transient) then 0 else 1
    ensures Nack(false) in Dispose(r) <==> r.error.Some? && Dropped(r.error.value)
    ensures Nack(true) in Dispose(r) <==> r.requeue
    ensures PublishUnprofitable in Dispose(r) <==> r.error == Some(Unprofitable)
    ensures Publish in Dispose(r) <==> r.requeue
  {
  }

  /** Every answer up to the profit gate is good. */
  predicate ReachesGate(s: Settings, m: Delivery, a: Answers)
    requires m.Message?
  {
    && ReachesSending(s, m, a) && s.send.profitableOnly
    && a.send.received == Ok(true) && a.send.baseFee.Ok? && a.send.gasTipCap.Ok? && a.send.packed.Ok?
    && a.send.destinationIsContract.Ok?
  }

  /** At the profit gate a message without a fee or gas is dropped for good, and one whose fee does not exceed
      its cost in 64 bits is parked in the unprofitable queue. */
  lemma DroppedOrParked(s: Settings, m: Delivery, a: Answers)
    requires m.Message? && ReachesGate(s, m, a)
    ensures var gasLimit := PaddedGasLimit(m.event.gasLimit, a.send.destinationIsContract.value);
            var cost := Wrap((2 * a.send.baseFee.value + a.send.gasTipCap.value) * gasLimit);
            && (m.event.fee == 0 || m.event.gasLimit == 0 ==> Dispose(GatesResult(s, m, a)) == [Nack(false)])
            && (m.event.fee != 0 && m.event.gasLimit != 0 && m.event.fee <= cost ==>
                Dispose(GatesResult(s, m, a)) == [PublishUnprofitable, Ack])
  {
    var gasLimit := PaddedGasLimit(m.event.gasLimit, a.send.destinationIsContract.value);
    PaddingIs(m.event.gasLimit, a.send.destinationIsContract.value);
    GateRefusesWith(s.send, m.event, a.send, gasLimit);
  }

  // ---- Phase by phase ----

  /** Where a worker stands; it holds its hash from Guarded to Leaving. A refused one found its hash held. */
  datatype Phase =
    | Received
    | Guarded
    | Unretried
    | FeeMet
    | Eligible
    | Confirmed
    | Unpaused
    | Decoded
    | QuotaKnown
    | QuotaMet
    | Proven
    | Accepted
    | StatusRead
    | Leaving(result: Result)
    | Returned(result: Result)
    | Refused

  predicate Finished(p: Phase) {
    p.Returned? || p.Refused?
  }

  predicate Active(p: Phase) {
    !p.Received? && !Finished(p)
  }

  /** What a finished worker returned. */
  function ResultOf(p: Phase): Result
    requires Finished(p)
  {
    if p.Refused? then Fail(AlreadyProcessing) else p.result
  }

  function Rank(p: Phase): nat {
    match p
    case Received => 14
    case Guarded => 13
    case Unretried => 12
    case FeeMet => 11
    case Eligible => 10
    case Confirmed => 9
    case Unpaused => 8
    case Decoded => 7
    case QuotaKnown => 6
    case QuotaMet => 5
    case Proven => 4
    case Accepted => 3
    case StatusRead => 2
    case Leaving(_) => 1
    case Returned(_) => 0
    case Refused => 0
  }

  /** Where one gate takes a worker that holds its hash. */
  function Advance(s: Settings, m: Delivery, a: Answers, p: Phase): (q: Phase)
    requires m.Message? && Active(p) && !p.Leaving?
    ensures Active(q) && Rank(q) < Rank(p)
  {
    match p
    case Guarded => if m.timesRetried >= s.maxRetries then Leaving(DONE) else Unretried
    case Unretried => if BelowMinFee(s, m.event) then Leaving(DONE) else FeeMet
    case FeeMet =>
      if a.status.Err? then Leaving(Fail(a.status.error))
      else if CanProcessMessage(a.status.value, m.event.srcOwner, s.send.relayer, m.event.gasLimit) then Eligible
      else Leaving(DONE)
    case Eligible => if a.confirmations.Err? then Leaving(Fail(a.confirmations.error)) else Confirmed
    case Confirmed =>
      if a.paused.Err? then Leaving(Fail(a.paused.error))
      else if a.paused.value then Leaving(Result(true, None))
      else Unpaused
    case Unpaused =>
      if !s.hasQuotaManager then QuotaMet
      else if a.decoded.Err? then Leaving(Fail(a.decoded.error))
      else if a.decoded.value.SendETH? || a.decoded.value.SendERC20? then Decoded
      else QuotaMet
    case Decoded =>
      if a.hasQuota.Err? then Leaving(Fail(a.hasQuota.error))
      else if a.hasQuota.value then QuotaMet
      else QuotaKnown
    case QuotaKnown => if a.quotaWait.Err? then Leaving(Fail(a.quotaWait.error)) else QuotaMet
    case QuotaMet => if a.proof.Err? then Leaving(Fail(a.proof.error)) else Proven
    case Proven =>
      var sending := SendFailure(s, m, a);
      if sending.Some? then Leaving(Fail(sending.value)) else Accepted
    case Accepted => if a.lastStatus.Err? then Leaving(Fail(a.lastStatus.error)) else StatusRead
    case StatusRead =>
      if m.internal && a.statusUpdate.Err? then Leaving(Fail(a.statusUpdate.error)) else Leaving(DONE)
  }

  /** What a worker will return, gate by gate, once it holds its hash. */
  function Destiny(s: Settings, m: Delivery, a: Answers, p: Phase): Result
    requires m.Message? && Active(p)
    decreases Rank(p)
  {
    if p.Leaving? then p.result else Destiny(s, m, a, Advance(s, m, a, p))
  }

  /** The gates taken one by one come to the same result. */
  lemma GatesComeToResult(s: Settings, m: Delivery, a: Answers)
    requires m.Message?
    ensures Destiny(s, m, a, Guarded) == GatesResult(s, m, a)
  {
  }
}
