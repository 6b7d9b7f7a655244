/**
 * The payment ledger behind the capture, refund and void mutations: a
 * payment's charge status, captured amount and active flag, and its
 * append-only list of transactions. The gateway's answer is a parameter.
 * Each operation first checks that it is legal for the current state (a
 * domain error changes nothing), then records exactly one transaction, and
 * changes the aggregate state only when the gateway succeeded.
 */
module PaymentLedger {
  import opened Common
  import opened PaymentInterface

  datatype ChargeStatus = NotCharged | PartiallyCharged | Charged | PartiallyRefunded | FullyRefunded

  /** One recorded gateway call. */
  datatype Transaction = Transaction(kind: TransactionKind, amount: real, isSuccess: bool, error: Option<string>)

  /** What the gateway answered: success, or a failure with its message. */
  datatype GatewayOutcome = GatewaySucceeded | GatewayFailed(message: string)

  /** The error an operation raises, with its message. */
  datatype PaymentError = PaymentError(message: string)

  const CannotCaptureMessage: string := "This payment cannot be captured."
  const CannotRefundMessage: string := "This payment cannot be refunded."
  const CannotVoidMessage: string := "Only pre-authorized transactions can be void."

  /** The aggregate state of one payment. */
  datatype LedgerState = LedgerState(
    total: real,
    chargeStatus: ChargeStatus,
    capturedAmount: real,
    isActive: bool,
    transactions: seq<Transaction>)

  /** A state and the error the operation raised, if any. */
  datatype StepResult = StepResult(state: LedgerState, error: Option<PaymentError>)

  /** The consistency of the aggregate fields. */
  predicate LedgerValid(s: LedgerState)
  {
    && 0.0 <= s.capturedAmount <= s.total
    && (s.chargeStatus == NotCharged ==> s.capturedAmount == 0.0)
    && (s.chargeStatus == PartiallyCharged ==> 0.0 < s.capturedAmount < s.total)
    && (s.chargeStatus == Charged ==> s.capturedAmount == s.total)
    && (s.chargeStatus == PartiallyRefunded ==> 0.0 < s.capturedAmount < s.total)
    && (s.chargeStatus == FullyRefunded ==> s.capturedAmount == 0.0)
  }

  /** A newly created payment: not charged, active, with no transactions. */
  function NewLedger(total: real): (s: LedgerState)
    requires total >= 0.0
    ensures LedgerValid(s)
    ensures s.chargeStatus == NotCharged && s.isActive && s.transactions == [] && s.total == total
  {
    LedgerState(total, NotCharged, 0.0, true, [])
  }

  /** Records the gateway call; on failure that record is the only change. */
  function Record(s: LedgerState, kind: TransactionKind, amount: real, outcome: GatewayOutcome): LedgerState
  {
    var error := if outcome.GatewayFailed? then Some(outcome.message) else None;
    s.(transactions := s.transactions + [Transaction(kind, amount, outcome.GatewaySucceeded?, error)])
  }

  /** The error a failed gateway call raises. */
  function GatewayError(outcome: GatewayOutcome): Option<PaymentError>
  {
    if outcome.GatewayFailed? then Some(PaymentError(outcome.message)) else None
  }

  /** The amount still to capture. */
  function ChargeAmount(s: LedgerState): real
  {
    s.total - s.capturedAmount
  }

  predicate CanCapture(s: LedgerState, amount: real)
  {
    s.isActive && s.chargeStatus in {NotCharged, PartiallyCharged} && 0.0 < amount <= ChargeAmount(s)
  }

  predicate CanRefund(s: LedgerState, amount: real)
  {
    s.chargeStatus in {PartiallyCharged, Charged, PartiallyRefunded} && 0.0 < amount <= s.capturedAmount
  }

  predicate CanVoid(s: LedgerState)
  {
    s.isActive && s.chargeStatus == NotCharged
  }

  /** Capture `amount` (by default all that is left to capture). */
  function CaptureStep(s: LedgerState, amount: Option<real>, outcome: GatewayOutcome): StepResult
  {
    var a := if amount.Some? then amount.value else ChargeAmount(s);
    if !CanCapture(s, a) then StepResult(s, Some(PaymentError(CannotCaptureMessage)))
    else
      var recorded := Record(s, Capture, a, outcome);
      if outcome.GatewayFailed? then StepResult(recorded, GatewayError(outcome))
      else
        var captured := s.capturedAmount + a;
        StepResult(recorded.(capturedAmount := captured,
                             chargeStatus := if captured == s.total then Charged else PartiallyCharged), None)
  }

  /** Refund `amount` (by default all that was captured). */
  function RefundStep(s: LedgerState, amount: Option<real>, outcome: GatewayOutcome): StepResult
  {
    var a := if amount.Some? then amount.value else s.capturedAmount;
    if !CanRefund(s, a) then StepResult(s, Some(PaymentError(CannotRefundMessage)))
    else
      var recorded := Record(s, Refund, a, outcome);
      if outcome.GatewayFailed? then StepResult(recorded, GatewayError(outcome))
      else
        var captured := s.capturedAmount - a;
        StepResult(recorded.(capturedAmount := captured,
                             chargeStatus := if captured == 0.0 then FullyRefunded else PartiallyRefunded), None)
  }

  /** Void the payment before any capture. */
  function VoidStep(s: LedgerState, outcome: GatewayOutcome): StepResult
  {
    if !CanVoid(s) then StepResult(s, Some(PaymentError(CannotVoidMessage)))
    else
      var recorded := Record(s, Void, s.total, outcome);
      if outcome.GatewayFailed? then StepResult(recorded, GatewayError(outcome))
      else StepResult(recorded.(isActive := false), None)
  }

  /** One requested operation with the gateway's answer to it. */
  datatype Operation =
    | CaptureOp(captureAmount: Option<real>, captureOutcome: GatewayOutcome)
    | RefundOp(refundAmount: Option<real>, refundOutcome: GatewayOutcome)
    | VoidOp(voidOutcome: GatewayOutcome)

  function Step(s: LedgerState, op: Operation): StepResult
  {
    match op
    case CaptureOp(a, o) => CaptureStep(s, a, o)
    case RefundOp(a, o) => RefundStep(s, a, o)
    case VoidOp(o) => VoidStep(s, o)
  }

  function KindOf(op: Operation): TransactionKind
  {
    match op
    case CaptureOp(_, _) => Capture
    case RefundOp(_, _) => Refund
    case VoidOp(_) => Void
  }

  function OutcomeOf(op: Operation): GatewayOutcome
  {
    match op
    case CaptureOp(_, o) => o
    case RefundOp(_, o) => o
    case VoidOp(o) => o
  }

  /** The operations applied in order. */
  function Run(s: LedgerState, ops: seq<Operation>): LedgerState
    decreases |ops|
  {
    if ops == [] then s else Step(Run(s, ops[..|ops| - 1]), ops[|ops| - 1]).state
  }

  /** Whether the domain checks let the operation reach the gateway, with the default amounts filled in. */
  predicate Permitted(s: LedgerState, op: Operation)
  {
    match op
    case CaptureOp(a, _) => CanCapture(s, if a.Some? then a.value else ChargeAmount(s))
    case RefundOp(a, _) => CanRefund(s, if a.Some? then a.value else s.capturedAmount)
    case VoidOp(_) => CanVoid(s)
  }

  /** The domain error an operation the checks refuse raises. */
  function RefusalMessage(op: Operation): string
  {
    match op
    case CaptureOp(_, _) => CannotCaptureMessage
    case RefundOp(_, _) => CannotRefundMessage
    case VoidOp(_) => CannotVoidMessage
  }

  /**
   * An operation the domain checks refuse raises its domain error and
   * changes nothing. A permitted one appends exactly one transaction of its
   * own kind, successful iff the gateway succeeded, whether or not the
   * gateway failed; a failed gateway call changes nothing else and raises
   * the gateway's message.
   */
  lemma StepRecordsOneTransaction(s: LedgerState, op: Operation)
    ensures var r := Step(s, op);
      !Permitted(s, op) ==> r.state == s && r.error == Some(PaymentError(RefusalMessage(op)))
    ensures var r := Step(s, op);
      Permitted(s, op) ==>
        && |r.state.transactions| == |s.transactions| + 1
        && r.state.transactions[..|s.transactions|] == s.transactions
        && r.state.transactions[|s.transactions|].kind == KindOf(op)
        && r.state.transactions[|s.transactions|].isSuccess == OutcomeOf(op).GatewaySucceeded?
        && r.state.total == s.total
        && (OutcomeOf(op).GatewayFailed? ==>
              && r.state.chargeStatus == s.chargeStatus
              && r.state.capturedAmount == s.capturedAmount
              && r.state.isActive == s.isActive
              && r.error == Some(PaymentError(OutcomeOf(op).message)))
        && (OutcomeOf(op).GatewaySucceeded? ==> r.error.None?)
    ensures Step(s, op).state == s <==> !Permitted(s, op)
  {
    var r := Step(s, op);
    if Permitted(s, op) {
      assert r.state.transactions[..|s.transactions|] == s.transactions;
      assert |r.state.transactions| != |s.transactions|;
    }
  }

  /** Every operation keeps the aggregate fields consistent. */
  lemma StepKeepsValid(s: LedgerState, op: Operation)
    requires LedgerValid(s)
    ensures LedgerValid(Step(s, op).state)
  {
  }

  /** Sum of the amounts of successful transactions of one kind. */
  function SucceededAmount(txns: seq<Transaction>, kind: TransactionKind): real
    decreases |txns|
  {
    if txns == [] then 0.0
    else
      var last := txns[|txns| - 1];
      SucceededAmount(txns[..|txns| - 1], kind) + (if last.isSuccess && last.kind == kind then last.amount else 0.0)
  }

  /**
   * The history agrees with the aggregate: the captured amount is what was
   * captured minus what was refunded, no more than the total was ever
   * captured, and nothing was refunded while the payment is still charging.
   */
  predicate HistoryValid(s: LedgerState)
  {
    && LedgerValid(s)
    && s.capturedAmount == SucceededAmount(s.transactions, Capture) - SucceededAmount(s.transactions, Refund)
    && SucceededAmount(s.transactions, Capture) <= s.total
    && (s.chargeStatus in {NotCharged, PartiallyCharged, Charged} ==> SucceededAmount(s.transactions, Refund) == 0.0)
  }

  lemma SucceededAmountAppend(txns: seq<Transaction>, t: Transaction, kind: TransactionKind)
    ensures SucceededAmount(txns + [t], kind) ==
      SucceededAmount(txns, kind) + (if t.isSuccess && t.kind == kind then t.amount else 0.0)
  {
    assert (txns + [t])[..|txns|] == txns;
  }

  /** Recording a transaction appends it to the history. */
  lemma RecordAppends(s: LedgerState, kind: TransactionKind, amount: real, outcome: GatewayOutcome)
    ensures var t := Transaction(kind, amount, outcome.GatewaySucceeded?,
                                 if outcome.GatewayFailed? then Some(outcome.message) else None);
      && SucceededAmount(Record(s, kind, amount, outcome).transactions, Capture) ==
           SucceededAmount(s.transactions, Capture) + (if t.isSuccess && kind == Capture then amount else 0.0)
      && SucceededAmount(Record(s, kind, amount, outcome).transactions, Refund) ==
           SucceededAmount(s.transactions, Refund) + (if t.isSuccess && kind == Refund then amount else 0.0)
  {
    var t := Transaction(kind, amount, outcome.GatewaySucceeded?,
                         if outcome.GatewayFailed? then Some(outcome.message) else None);
    SucceededAmountAppend(s.transactions, t, Capture);
    SucceededAmountAppend(s.transactions, t, Refund);
  }

  lemma CaptureKeepsHistory(s: LedgerState, amount: Option<real>, outcome: GatewayOutcome)
    requires HistoryValid(s)
    ensures HistoryValid(CaptureStep(s, amount, outcome).state)
  {
    var a := if amount.Some? then amount.value else ChargeAmount(s);
    RecordAppends(s, Capture, a, outcome);
  }

  lemma RefundKeepsHistory(s: LedgerState, amount: Option<real>, outcome: GatewayOutcome)
    requires HistoryValid(s)
    ensures HistoryValid(RefundStep(s, amount, outcome).state)
  {
    var a := if amount.Some? then amount.value else s.capturedAmount;
    RecordAppends(s, Refund, a, outcome);
  }

  lemma VoidKeepsHistory(s: LedgerState, outcome: GatewayOutcome)
    requires HistoryValid(s)
    ensures HistoryValid(VoidStep(s, outcome).state)
  {
    RecordAppends(s, Void, s.total, outcome);
  }

  /** Every operation keeps the history in agreement with the aggregate. */
  lemma StepKeepsHistory(s: LedgerState, op: Operation)
    requires HistoryValid(s)
    ensures HistoryValid(Step(s, op).state)
  {
    match op
    case CaptureOp(a, o) => CaptureKeepsHistory(s, a, o);
    case RefundOp(a, o) => RefundKeepsHistory(s, a, o);
    case VoidOp(o) => VoidKeepsHistory(s, o);
  }

  /**
   * From a newly created payment, whatever operations follow and whatever
   * the gateway answers, successful captures never exceed the total and
   * successful refunds never exceed successful captures.
   */
  lemma {:induction false} RunKeepsCapturesAndRefundsBounded(total: real, ops: seq<Operation>)
    requires total >= 0.0
    ensures HistoryValid(Run(NewLedger(total), ops)) && Run(NewLedger(total), ops).total == total
    ensures var s := Run(NewLedger(total), ops);
      SucceededAmount(s.transactions, Refund) <= SucceededAmount(s.transactions, Capture) <= total
    decreases |ops|
  {
    if ops != [] {
      RunKeepsCapturesAndRefundsBounded(total, ops[..|ops| - 1]);
      StepKeepsHistory(Run(NewLedger(total), ops[..|ops| - 1]), ops[|ops| - 1]);
      StepRecordsOneTransaction(Run(NewLedger(total), ops[..|ops| - 1]), ops[|ops| - 1]);
    }
  }

  /** A full capture of a new payment charges it, with exactly one successful capture transaction. */
  lemma FullCaptureCharges(total: real)
    requires total > 0.0
    ensures var r := CaptureStep(NewLedger(total), Some(total), GatewaySucceeded);
      && r.error.None? && r.state.chargeStatus == Charged && r.state.capturedAmount == total
      && |r.state.transactions| == 1
      && r.state.transactions[0].kind == Capture && r.state.transactions[0].isSuccess
  {
  }

  /** A failed capture reports the gateway's error, stays not charged, and records one failed capture. */
  lemma FailedCaptureKeepsStatus(total: real, message: string)
    requires total > 0.0
    ensures var r := CaptureStep(NewLedger(total), Some(total), GatewayFailed(message));
      && r.error == Some(PaymentError(message)) && r.state.chargeStatus == NotCharged
      && |r.state.transactions| == 1
      && r.state.transactions[0].kind == Capture && !r.state.transactions[0].isSuccess
  {
  }

  /** A charged payment: fully captured, with no transaction of its own yet (the state the refund tests start from). */
  function ChargedLedger(total: real): (s: LedgerState)
    requires total > 0.0
    ensures LedgerValid(s) && s.chargeStatus == Charged && s.capturedAmount == total && s.transactions == []
  {
    LedgerState(total, Charged, total, true, [])
  }

  /** A full refund of a charged payment refunds it fully, with exactly one successful refund transaction. */
  lemma FullRefundRefunds(total: real)
    requires total > 0.0
    ensures var r := RefundStep(ChargedLedger(total), Some(total), GatewaySucceeded);
      && r.error.None? && r.state.chargeStatus == FullyRefunded
      && |r.state.transactions| == 1
      && r.state.transactions[0].kind == Refund && r.state.transactions[0].isSuccess
  {
  }

  /** A failed refund reports the gateway's error, stays charged, and records one failed refund. */
  lemma FailedRefundKeepsStatus(total: real, message: string)
    requires total > 0.0
    ensures var r := RefundStep(ChargedLedger(total), Some(total), GatewayFailed(message));
      && r.error == Some(PaymentError(message)) && r.state.chargeStatus == Charged
      && |r.state.transactions| == 1
      && r.state.transactions[0].kind == Refund && !r.state.transactions[0].isSuccess
  {
  }

  /** Voiding a new payment deactivates it, with exactly one void transaction. */
  lemma VoidDeactivates(total: real)
    requires total >= 0.0
    ensures var r := VoidStep(NewLedger(total), GatewaySucceeded);
      && r.error.None? && !r.state.isActive
      && |r.state.transactions| == 1 && r.state.transactions[0].kind == Void
  {
  }

  /** Voiding is legal only before any capture; an inactive payment cannot be voided again. */
  lemma VoidOnlyBeforeCapture(s: LedgerState, outcome: GatewayOutcome)
    ensures (VoidStep(s, outcome).error == Some(PaymentError(CannotVoidMessage)) && VoidStep(s, outcome).state == s)
            <== !(s.isActive && s.chargeStatus == NotCharged)
  {
  }

  /** A payment record: the aggregate fields updated in place and the transaction list appended to. */
  class Payment {
    const gateway: string
    const token: string
    const currency: string
    const email: string
    const total: real
    var chargeStatus: ChargeStatus
    var capturedAmount: real
    var isActive: bool
    var transactions: seq<Transaction>

    function State(): LedgerState
      reads this
    {
      LedgerState(total, chargeStatus, capturedAmount, isActive, transactions)
    }

    /** A new payment: not charged, active, no transactions. */
    constructor (gateway: string, token: string, total: real, currency: string, email: string)
      requires total >= 0.0
      ensures this.gateway == gateway && this.token == token && this.currency == currency && this.email == email
      ensures State() == NewLedger(total)
    {
      this.gateway := gateway;
      this.token := token;
      this.total := total;
      this.currency := currency;
      this.email := email;
      chargeStatus := NotCharged;
      capturedAmount := 0.0;
      isActive := true;
      transactions := [];
    }

    method Apply(r: StepResult)
      requires r.state.total == total
      modifies this
      ensures State() == r.state
    {
      chargeStatus := r.state.chargeStatus;
      capturedAmount := r.state.capturedAmount;
      isActive := r.state.isActive;
      transactions := r.state.transactions;
    }

    /** Capture through the gateway. */
    method GatewayCapture(amount: Option<real>, outcome: GatewayOutcome) returns (error: Option<PaymentError>)
      modifies this
      ensures StepResult(State(), error) == CaptureStep(old(State()), amount, outcome)
    {
      var r := CaptureStep(State(), amount, outcome);
      Apply(r);
      error := r.error;
    }

    /** Refund through the gateway. */
    method GatewayRefund(amount: Option<real>, outcome: GatewayOutcome) returns (error: Option<PaymentError>)
      modifies this
      ensures StepResult(State(), error) == RefundStep(old(State()), amount, outcome)
    {
      var r := RefundStep(State(), amount, outcome);
      Apply(r);
      error := r.error;
    }

    /** Void through the gateway. */
    method GatewayVoid(outcome: GatewayOutcome) returns (error: Option<PaymentError>)
      modifies this
      ensures StepResult(State(), error) == VoidStep(old(State()), outcome)
    {
      var r := VoidStep(State(), outcome);
      Apply(r);
      error := r.error;
    }
  }
}
