/**
 * The payment mutations of the GraphQL API: the validation of
 * `checkoutPaymentCreate` (billing address, no partial payments, the new
 * payment's fields) and the conversion of a `PaymentError` raised by
 * capture, refund or void into a validation error.
 */
module PaymentMutations {
  import opened Common
  import opened PaymentInterface
  import opened PaymentLedger

  /** The checkout a payment is created for: its billing address, gross total and email. */
  datatype Checkout = Checkout(billingAddress: Option<AddressData>, grossTotal: real, email: string)

  /**
   * The mutation input. `billingAddress` is `Some` when the key is present
   * (with the already validated address); `amount` is optional.
   */
  datatype PaymentInput = PaymentInput(gateway: string, token: string, amount: Option<real>, billingAddress: Option<AddressData>)

  /** A validation error: the offending field (none for a whole-form error) and its message. */
  datatype FieldError = FieldError(field: Option<string>, message: string)

  /** The fields a payment is created with. */
  datatype NewPayment = NewPayment(
    gateway: string,
    token: string,
    total: real,
    currency: string,
    email: string,
    billingAddress: AddressData,
    customerIpAddress: string)

  const NoBillingAddressMessage: string := "No billing address associated with this checkout."
  const PartialPaymentMessage: string := "Partial payments are not allowed, amount should be equal checkout's total."

  /** The billing address used: the input's when it gives one, otherwise the checkout's. */
  function ResolveBillingAddress(checkout: Checkout, input: PaymentInput): (address: Option<AddressData>)
    ensures input.billingAddress.Some? ==> address == input.billingAddress
    ensures input.billingAddress.None? ==> address == checkout.billingAddress
    ensures address.None? <==> input.billingAddress.None? && checkout.billingAddress.None?
  {
    if input.billingAddress.Some? then input.billingAddress else checkout.billingAddress
  }

  /** The amount to pay: the input's, or the checkout's total when none is given. */
  function RequestedAmount(checkout: Checkout, input: PaymentInput): (amount: real)
    ensures input.amount.Some? ==> amount == input.amount.value
    ensures input.amount.None? ==> amount == checkout.grossTotal
  {
    if input.amount.Some? then input.amount.value else checkout.grossTotal
  }

  /**
   * `checkoutPaymentCreate`: fails on `billing_address` when no address
   * resolves, then on `amount` when the amount is below the checkout's
   * total; otherwise yields the payment to create.
   */
  function CheckoutPaymentCreate(checkout: Checkout, input: PaymentInput, defaultCurrency: string, clientIp: string)
    : (r: Result<NewPayment, FieldError>)
    ensures ResolveBillingAddress(checkout, input).None? ==>
      r == Err(FieldError(Some("billing_address"), NoBillingAddressMessage))
    ensures ResolveBillingAddress(checkout, input).Some? && RequestedAmount(checkout, input) < checkout.grossTotal ==>
      r == Err(FieldError(Some("amount"), PartialPaymentMessage))
    ensures r.Ok? <==> ResolveBillingAddress(checkout, input).Some? && RequestedAmount(checkout, input) >= checkout.grossTotal
    ensures r.Ok? ==>
      && r.value.total == RequestedAmount(checkout, input) >= checkout.grossTotal
      && r.value.currency == defaultCurrency
      && r.value.gateway == input.gateway && r.value.token == input.token
      && r.value.email == checkout.email
      && Some(r.value.billingAddress) == ResolveBillingAddress(checkout, input)
  {
    var billing := ResolveBillingAddress(checkout, input);
    if billing.None? then Err(FieldError(Some("billing_address"), NoBillingAddressMessage))
    else
      var amount := RequestedAmount(checkout, input);
      if amount < checkout.grossTotal then Err(FieldError(Some("amount"), PartialPaymentMessage))
      else Ok(NewPayment(input.gateway, input.token, amount, defaultCurrency, checkout.email, billing.value, clientIp))
  }

  /** Amounts equal to or above the total are accepted when an address resolves; the amount is paid in full. */
  lemma NoPartialPayments(checkout: Checkout, input: PaymentInput, defaultCurrency: string, clientIp: string)
    requires ResolveBillingAddress(checkout, input).Some?
    ensures var r := CheckoutPaymentCreate(checkout, input, defaultCurrency, clientIp);
      r.Err? <==> (input.amount.Some? && input.amount.value < checkout.grossTotal)
  {
  }

  /** A raised `PaymentError` becomes a form-wide validation error carrying its message; otherwise the payment is returned. */
  function ConvertPaymentError<P>(payment: P, error: Option<PaymentError>): (r: Result<P, FieldError>)
    ensures error.Some? ==> r == Err(FieldError(None, error.value.message))
    ensures error.None? ==> r == Ok(payment)
  {
    match error
    case Some(e) => Err(FieldError(None, e.message))
    case None => Ok(payment)
  }

  /** Creates the payment record the mutation returns: not charged, active, with no transactions. */
  method CreatePayment(p: NewPayment) returns (payment: Payment)
    requires p.total >= 0.0
    ensures fresh(payment)
    ensures payment.State() == NewLedger(p.total)
    ensures payment.gateway == p.gateway && payment.token == p.token
    ensures payment.currency == p.currency && payment.email == p.email
  {
    payment := new Payment(p.gateway, p.token, p.total, p.currency, p.email);
  }

  /** `paymentCapture`. */
  method PaymentCapture(payment: Payment, amount: Option<real>, outcome: GatewayOutcome) returns (r: Result<Payment, FieldError>)
    modifies payment
    ensures var step := CaptureStep(old(payment.State()), amount, outcome);
      payment.State() == step.state && r == ConvertPaymentError(payment, step.error)
  {
    var error := payment.GatewayCapture(amount, outcome);
    r := ConvertPaymentError(payment, error);
  }

  /** `paymentRefund`. */
  method PaymentRefund(payment: Payment, amount: Option<real>, outcome: GatewayOutcome) returns (r: Result<Payment, FieldError>)
    modifies payment
    ensures var step := RefundStep(old(payment.State()), amount, outcome);
      payment.State() == step.state && r == ConvertPaymentError(payment, step.error)
  {
    var error := payment.GatewayRefund(amount, outcome);
    r := ConvertPaymentError(payment, error);
  }

  /** `paymentVoid`. */
  method PaymentVoid(payment: Payment, outcome: GatewayOutcome) returns (r: Result<Payment, FieldError>)
    modifies payment
    ensures var step := VoidStep(old(payment.State()), outcome);
      payment.State() == step.state && r == ConvertPaymentError(payment, step.error)
  {
    var error := payment.GatewayVoid(outcome);
    r := ConvertPaymentError(payment, error);
  }

  /** The create-then-capture scenario of the API tests, on payment objects. */
  method CreateThenCaptureInFull(p: NewPayment) returns (payment: Payment, r: Result<Payment, FieldError>)
    requires p.total > 0.0
    ensures r == Ok(payment)
    ensures payment.chargeStatus == Charged && |payment.transactions| == 1
    ensures payment.transactions[0].kind == Capture && payment.transactions[0].isSuccess
  {
    payment := CreatePayment(p);
    r := PaymentCapture(payment, Some(p.total), GatewaySucceeded);
  }
}
