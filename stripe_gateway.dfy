/**
 * The Stripe payment gateway, reduced to the decision it makes: from the
 * gateway configuration and what the provider answered, build the canonical
 * `GatewayResponse`. Every call to the provider is replaced by an abstract
 * outcome parameter: either the provider's objects or the `StripeError` it
 * raised. Amounts and currencies in those outcomes are already converted
 * back from Stripe's units.
 */
module StripeGateway {
  import opened Common
  import opened PaymentInterface

  /** The `StripeError` a provider call raised: its user message and JSON body (each may be `None`). */
  datatype StripeError = StripeError(userMessage: Option<string>, jsonBody: Option<map<string, string>>)

  /** A payment intent as the provider returns it. */
  datatype Intent = Intent(id: string, status: string, amount: real, currency: string, paymentMethod: string)

  /** A capture or refund object as the provider returns it. */
  datatype ProviderResult = ProviderResult(id: string, status: string, currency: string)

  /** The intent-creation request `authorize` sends. */
  datatype IntentRequest = IntentRequest(
    paymentMethod: string,
    amount: real,
    currency: string,
    confirmationMethod: string,
    confirm: bool,
    captureMethod: string,
    setupFutureUsage: string,
    customer: Option<string>)

  /**
   * What the provider answered to `authorize`: the intent creation raised,
   * or it returned an intent; the customer creation that may follow answers
   * `customer` (consulted only when a customer is created).
   */
  datatype AuthorizeOutcome =
    | IntentFailed(intentError: StripeError)
    | IntentCreated(intent: Intent, customer: Result<string, StripeError>)

  /** What the provider answered to `capture`: retrieval raised, capture raised, or both returned. */
  datatype CaptureOutcome =
    | RetrieveFailed(retrieveError: StripeError)
    | CaptureFailed(retrieved: Intent, captureError: StripeError)
    | Captured(captured: Intent, capture: ProviderResult)

  /** What the provider answered to `confirm`. */
  datatype ConfirmOutcome =
    | ConfirmFailed(confirmError: StripeError)
    | Confirmed(confirmed: Intent)

  /** What the provider answered to the refund of the intent's first charge (used by `refund` and `void`). */
  datatype RefundOutcome =
    | RefundFailed(refundError: StripeError)
    | Refunded(refundedIntent: Intent, refund: ProviderResult)

  /** A card the provider lists for a customer. */
  datatype Card = Card(id: string, expYear: int, expMonth: int, last4: string)

  /** The name this gateway reports on every stored source. */
  const GatewayName: string := "stripe"

  /** Intent statuses `authorize` reports as a success. */
  const AuthorizeSuccessStatuses: set<string> := {"succeeded", "requires_capture", "requires_action"}

  /** Capture statuses `capture` reports as a success. */
  const CaptureSuccessStatuses: set<string> := {"succeeded", "requires_action"}

  /** The failed response built on every error path: the request is echoed and the user message reported. */
  function ErrorResponse(payment: PaymentData, kind: TransactionKind, err: StripeError,
                         actionRequired: bool, customerId: Option<string>): (r: GatewayResponse)
    ensures EchoesRequest(r, payment, err) && r.kind == kind
    ensures r.actionRequired == actionRequired && r.customerId == customerId
  {
    GatewayResponse(
      isSuccess := false,
      kind := kind,
      amount := payment.amount,
      currency := payment.currency,
      transactionId := payment.token,
      error := err.userMessage,
      rawResponse := Some(JsonBody(match err.jsonBody case Some(b) => b case None => map[])),
      actionRequired := actionRequired,
      customerId := customerId)
  }

  /** A failed response that reports the request's own token, amount and currency, and the provider's message. */
  predicate EchoesRequest(r: GatewayResponse, payment: PaymentData, err: StripeError)
  {
    && !r.isSuccess
    && r.transactionId == payment.token
    && r.amount == payment.amount
    && r.currency == payment.currency
    && r.error == err.userMessage
  }

  /** `get_client_token`: this gateway issues no client token. */
  function GetClientToken(): (token: Option<string>)
    ensures token.None?
  {
    None
  }

  /** The customer reused for this payment: the request's own customer id when it asks to reuse its source. */
  function ReusedCustomerId(payment: PaymentData): (id: Option<string>)
    ensures !payment.reuseSource ==> id.None?
    ensures payment.reuseSource ==> id == payment.customerId
  {
    if payment.reuseSource then payment.customerId else None
  }

  /**
   * The class-level default of the `customer_id` field of the payment record.
   * The record at saleor/payment/interface.py:36-49 declares no such field;
   * the model takes the later record the gateway is written against, which
   * declares `customer_id` with the default `None`.
   */
  const PaymentDataClassCustomerId: Option<string> := None

  /**
   * The customer id `authorize` computes as written: it reads the attribute
   * on the record's class rather than on the request, i.e. the field default.
   */
  function CustomerIdAsWritten(payment: PaymentData): (id: Option<string>)
    ensures id.None?
  {
    if payment.reuseSource then PaymentDataClassCustomerId else None
  }

  /** The request's stored customer is never passed on as written, though the corrected rule passes it. */
  lemma CustomerIdAsWrittenDropsStoredCustomer(payment: PaymentData)
    requires payment.reuseSource && payment.customerId.Some?
    ensures CustomerIdAsWritten(payment) != ReusedCustomerId(payment)
  {
  }

  /** A new customer is created only when customers are stored and no (truthy) customer id is reused. */
  predicate NeedsNewCustomer(config: GatewayConfig, customerId: Option<string>)
  {
    config.storeCustomer && (customerId.None? || customerId.value == "")
  }

  /** The intent-creation request of `authorize`. */
  function IntentCreateRequest(payment: PaymentData, config: GatewayConfig): (req: IntentRequest)
    ensures req.captureMethod == "automatic" <==> config.autoCapture
    ensures req.captureMethod in {"automatic", "manual"}
    ensures req.setupFutureUsage == "off_session" <==> config.storeCustomer
    ensures req.setupFutureUsage in {"off_session", "on_session"}
    ensures req.confirmationMethod == "manual" && req.confirm
    ensures req.paymentMethod == payment.token && req.customer == ReusedCustomerId(payment)
  {
    IntentRequest(
      paymentMethod := payment.token,
      amount := payment.amount,
      currency := payment.currency,
      confirmationMethod := "manual",
      confirm := true,
      captureMethod := if config.autoCapture then "automatic" else "manual",
      setupFutureUsage := if config.storeCustomer then "off_session" else "on_session",
      customer := ReusedCustomerId(payment))
  }

  /** The kind `authorize` reports, on every path. */
  function AuthorizeKind(config: GatewayConfig): (kind: TransactionKind)
    ensures kind == Capture <==> config.autoCapture
    ensures kind == Auth <==> !config.autoCapture
  {
    if config.autoCapture then Capture else Auth
  }

  /** `authorize`: create and confirm an intent, then create a customer when one must be stored. */
  function Authorize(payment: PaymentData, config: GatewayConfig, outcome: AuthorizeOutcome): (r: GatewayResponse)
    ensures r.kind == AuthorizeKind(config)
    ensures r.isSuccess <==>
      && outcome.IntentCreated?
      && outcome.intent.status in AuthorizeSuccessStatuses
      && !(NeedsNewCustomer(config, ReusedCustomerId(payment)) && outcome.customer.Err?)
    ensures r.actionRequired <==>
      && outcome.IntentCreated?
      && outcome.intent.status == "requires_action"
      && !(NeedsNewCustomer(config, ReusedCustomerId(payment)) && outcome.customer.Err?)
    ensures r.actionRequired ==> r.isSuccess
    ensures outcome.IntentFailed? ==> EchoesRequest(r, payment, outcome.intentError)
    ensures outcome.IntentCreated? && NeedsNewCustomer(config, ReusedCustomerId(payment)) && outcome.customer.Err? ==>
      EchoesRequest(r, payment, outcome.customer.error)
    ensures outcome.IntentCreated? && !(NeedsNewCustomer(config, ReusedCustomerId(payment)) && outcome.customer.Err?) ==>
      r.transactionId == outcome.intent.id && r.amount == outcome.intent.amount && r.error.None?
    ensures r.customerId ==
      if outcome.IntentCreated? && NeedsNewCustomer(config, ReusedCustomerId(payment)) && outcome.customer.Ok?
      then Some(outcome.customer.value) else ReusedCustomerId(payment)
  {
    var kind := AuthorizeKind(config);
    var customerId := ReusedCustomerId(payment);
    match outcome
    case IntentFailed(err) => ErrorResponse(payment, kind, err, false, customerId)
    case IntentCreated(intent, customer) =>
      if NeedsNewCustomer(config, customerId) && customer.Err? then
        ErrorResponse(payment, kind, customer.error, false, customerId)
      else
        var finalCustomer := if NeedsNewCustomer(config, customerId) then Some(customer.value) else customerId;
        GatewayResponse(
          isSuccess := intent.status in AuthorizeSuccessStatuses,
          kind := kind,
          amount := intent.amount,
          currency := intent.currency,
          transactionId := intent.id,
          error := None,
          rawResponse := Some(ProviderObject(intent.id)),
          actionRequired := intent.status == "requires_action",
          customerId := finalCustomer)
  }

  /** `process_payment` is `authorize`. */
  function ProcessPayment(payment: PaymentData, config: GatewayConfig, outcome: AuthorizeOutcome): (r: GatewayResponse)
    ensures r == Authorize(payment, config, outcome)
  {
    Authorize(payment, config, outcome)
  }

  /** `capture`: retrieve the intent and capture it. */
  function CaptureIntent(payment: PaymentData, config: GatewayConfig, outcome: CaptureOutcome): (r: GatewayResponse)
    ensures r.kind == Capture
    ensures r.isSuccess <==> outcome.Captured? && outcome.capture.status in CaptureSuccessStatuses
    ensures r.actionRequired <==> outcome.CaptureFailed? && outcome.retrieved.status == "requires_action"
    ensures outcome.RetrieveFailed? ==> EchoesRequest(r, payment, outcome.retrieveError)
    ensures outcome.CaptureFailed? ==> EchoesRequest(r, payment, outcome.captureError)
    ensures outcome.Captured? ==>
      r.transactionId == outcome.captured.id && r.amount == outcome.captured.amount
      && r.currency == outcome.captured.currency && r.error.None?
    ensures r.customerId.None?
  {
    match outcome
    case RetrieveFailed(err) => ErrorResponse(payment, Capture, err, false, None)
    case CaptureFailed(intent, err) => ErrorResponse(payment, Capture, err, intent.status == "requires_action", None)
    case Captured(intent, capture) =>
      GatewayResponse(
        isSuccess := capture.status in CaptureSuccessStatuses,
        kind := Capture,
        amount := intent.amount,
        currency := intent.currency,
        transactionId := intent.id,
        error := None,
        rawResponse := Some(ProviderObject(capture.id)),
        actionRequired := false,
        customerId := None)
  }

  /** The success test `confirm` applies as written: `status in ("succeeded")` tests for a substring. */
  predicate ConfirmSucceededAsWritten(status: string)
  {
    Contains("succeeded", status)
  }

  /** The success test `confirm` evidently intends. */
  predicate ConfirmSucceeded(status: string)
  {
    status == "succeeded"
  }

  /** The two tests agree on every status the provider reports for an intent. */
  lemma {:induction false} ConfirmTestsAgreeOnIntentStatuses(status: string)
    requires status in {"requires_payment_method", "requires_confirmation", "requires_action",
                        "processing", "requires_capture", "canceled", "succeeded"}
    ensures ConfirmSucceededAsWritten(status) <==> ConfirmSucceeded(status)
  {
    var word := "succeeded";
    if status == word {
      assert word[..|status|] == status;
    } else if status == "canceled" {
      assert word[..8][0] != status[0];
      assert word[1..][..8][0] != status[0];
      assert |word[1..][1..]| < |status|;
    }
  }

  /** A status that is a proper piece of "succeeded" passes the as-written test but not the intended one. */
  lemma ConfirmAsWrittenAcceptsPartialStatus()
    ensures ConfirmSucceededAsWritten("succeed") && !ConfirmSucceeded("succeed")
  {
    ContainsAt("succeeded", "succeed");
    assert OccursAt("succeeded", "succeed", 0);
  }

  /** `confirm` as written: substring success test, and the module's `capture` function as raw response. */
  function ConfirmAsWritten(payment: PaymentData, config: GatewayConfig, outcome: ConfirmOutcome): (r: GatewayResponse)
    ensures r.kind == Capture && !r.actionRequired
    ensures r.isSuccess <==> outcome.Confirmed? && ConfirmSucceededAsWritten(outcome.confirmed.status)
    ensures outcome.Confirmed? ==>
      r.transactionId == outcome.confirmed.id && r.amount == outcome.confirmed.amount
      && r.currency == outcome.confirmed.currency
      && r.rawResponse == Some(FunctionObject("capture"))
    ensures outcome.ConfirmFailed? ==> EchoesRequest(r, payment, outcome.confirmError)
  {
    match outcome
    case ConfirmFailed(err) => ErrorResponse(payment, Capture, err, false, None)
    case Confirmed(intent) =>
      GatewayResponse(
        isSuccess := ConfirmSucceededAsWritten(intent.status),
        kind := Capture,
        amount := intent.amount,
        currency := intent.currency,
        transactionId := intent.id,
        error := None,
        rawResponse := Some(FunctionObject("capture")),
        actionRequired := false,
        customerId := None)
  }

  /** The raw response of a successful confirm is a function object, not a provider payload. */
  lemma ConfirmAsWrittenStoresFunction(payment: PaymentData, config: GatewayConfig, intent: Intent)
    ensures ConfirmAsWritten(payment, config, Confirmed(intent)).rawResponse.value.FunctionObject?
    ensures Confirm(payment, config, Confirmed(intent)).rawResponse.value.ProviderObject?
  {
  }

  /** `confirm`, corrected: succeeds iff the confirmed intent's status is "succeeded", and keeps the intent as raw response. */
  function Confirm(payment: PaymentData, config: GatewayConfig, outcome: ConfirmOutcome): (r: GatewayResponse)
    ensures r.kind == Capture && !r.actionRequired
    ensures r.isSuccess <==> outcome.Confirmed? && outcome.confirmed.status == "succeeded"
    ensures outcome.Confirmed? ==>
      r.transactionId == outcome.confirmed.id && r.amount == outcome.confirmed.amount
      && r.currency == outcome.confirmed.currency
      && r.rawResponse == Some(ProviderObject(outcome.confirmed.id))
    ensures outcome.ConfirmFailed? ==> EchoesRequest(r, payment, outcome.confirmError)
  {
    match outcome
    case ConfirmFailed(err) => ErrorResponse(payment, Capture, err, false, None)
    case Confirmed(intent) =>
      GatewayResponse(
        isSuccess := ConfirmSucceeded(intent.status),
        kind := Capture,
        amount := intent.amount,
        currency := intent.currency,
        transactionId := intent.id,
        error := None,
        rawResponse := Some(ProviderObject(intent.id)),
        actionRequired := false,
        customerId := None)
  }

  /** `refund`: refund the requested amount of the intent's first charge. */
  function RefundIntent(payment: PaymentData, config: GatewayConfig, outcome: RefundOutcome): (r: GatewayResponse)
    ensures r.kind == Refund && !r.actionRequired
    ensures r.isSuccess <==> outcome.Refunded? && outcome.refund.status == "succeeded"
    ensures r.amount == payment.amount
    ensures outcome.RefundFailed? ==> EchoesRequest(r, payment, outcome.refundError)
    ensures outcome.Refunded? ==>
      r.transactionId == outcome.refundedIntent.id && r.currency == outcome.refund.currency && r.error.None?
  {
    match outcome
    case RefundFailed(err) => ErrorResponse(payment, Refund, err, false, None)
    case Refunded(intent, refund) =>
      GatewayResponse(
        isSuccess := refund.status == "succeeded",
        kind := Refund,
        amount := payment.amount,
        currency := refund.currency,
        transactionId := intent.id,
        error := None,
        rawResponse := Some(ProviderObject(refund.id)),
        actionRequired := false,
        customerId := None)
  }

  /** `void`: refund the intent's first charge in full, reporting the intent's amount. */
  function VoidIntent(payment: PaymentData, config: GatewayConfig, outcome: RefundOutcome): (r: GatewayResponse)
    ensures r.kind == Void && !r.actionRequired
    ensures r.isSuccess <==> outcome.Refunded? && outcome.refund.status == "succeeded"
    ensures outcome.RefundFailed? ==> EchoesRequest(r, payment, outcome.refundError)
    ensures outcome.Refunded? ==>
      r.transactionId == outcome.refundedIntent.id && r.amount == outcome.refundedIntent.amount
      && r.currency == outcome.refund.currency && r.error.None?
  {
    match outcome
    case RefundFailed(err) => ErrorResponse(payment, Void, err, false, None)
    case Refunded(intent, refund) =>
      GatewayResponse(
        isSuccess := refund.status == "succeeded",
        kind := Void,
        amount := intent.amount,
        currency := refund.currency,
        transactionId := intent.id,
        error := None,
        rawResponse := Some(ProviderObject(refund.id)),
        actionRequired := false,
        customerId := None)
  }

  /** Refund and void agree on success for the same provider answer; they differ in kind and reported amount. */
  lemma RefundAndVoidAgreeOnSuccess(payment: PaymentData, config: GatewayConfig, outcome: RefundOutcome)
    ensures RefundIntent(payment, config, outcome).isSuccess == VoidIntent(payment, config, outcome).isSuccess
    ensures RefundIntent(payment, config, outcome).kind != VoidIntent(payment, config, outcome).kind
  {
  }

  /** `list_client_sources`: one stored source per listed card, in order. */
  function ListClientSources(config: GatewayConfig, customerId: string, cards: seq<Card>): (sources: seq<CustomerSource>)
    ensures |sources| == |cards|
    ensures forall i :: 0 <= i < |cards| ==>
      && sources[i].id == cards[i].id
      && sources[i].gateway == GatewayName
      && sources[i].creditCardInfo == CreditCardInfo(cards[i].expYear, cards[i].expMonth, cards[i].last4, None)
  {
    seq(|cards|, i requires 0 <= i < |cards| =>
      CustomerSource(cards[i].id, GatewayName, CreditCardInfo(cards[i].expYear, cards[i].expMonth, cards[i].last4, None)))
  }
}
