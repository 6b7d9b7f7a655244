/**
 * The canonical payment records exchanged between the shop and a payment
 * gateway. Amounts are exact decimals, modelled as `real`.
 */
module PaymentInterface {
  import opened Common

  /** The kind of a gateway transaction. */
  datatype TransactionKind = Auth | Capture | Refund | Void

  /** An opaque provider payload kept alongside a response. */
  datatype RawResponse =
    | ProviderObject(objectId: string)
    | JsonBody(body: map<string, string>)
    /** A Python function object stored where a payload was expected. */
    | FunctionObject(functionName: string)

  /**
   * The normalised reply of any gateway. `error` is optional and
   * `raw_response` defaults to `None`. `action_required` (default false)
   * and `customer_id` (default `None`) are not declared at
   * saleor/payment/interface.py:6-18; they are the fields of the later
   * record the Stripe gateway fills in.
   */
  datatype GatewayResponse = GatewayResponse(
    isSuccess: bool,
    kind: TransactionKind,
    amount: real,
    currency: string,
    transactionId: string,
    error: Option<string>,
    rawResponse: Option<RawResponse>,
    actionRequired: bool,
    customerId: Option<string>)

  /** A response built with the dataclass defaults for the optional fields. */
  function NewGatewayResponse(isSuccess: bool, kind: TransactionKind, amount: real, currency: string,
                              transactionId: string, error: Option<string>): (r: GatewayResponse)
    ensures r.rawResponse.None? && !r.actionRequired && r.customerId.None?
    ensures r.isSuccess == isSuccess && r.kind == kind && r.amount == amount
    ensures r.currency == currency && r.transactionId == transactionId && r.error == error
  {
    GatewayResponse(isSuccess, kind, amount, currency, transactionId, error, None, false, None)
  }

  /** A postal address snapshot: every field a required string. */
  datatype AddressData = AddressData(
    firstName: string,
    lastName: string,
    companyName: string,
    streetAddress1: string,
    streetAddress2: string,
    city: string,
    cityArea: string,
    postalCode: string,
    country: string,
    countryArea: string,
    phone: string)

  /**
   * A payment request. `billing` and `shipping` are optional, the rest
   * required. `customerId` (default `None`) and `reuseSource` (default
   * false) are not declared at saleor/payment/interface.py:36-49; they are
   * the fields of the later record the Stripe gateway reads.
   */
  datatype PaymentData = PaymentData(
    token: string,
    amount: real,
    currency: string,
    billing: Option<AddressData>,
    shipping: Option<AddressData>,
    orderId: int,
    customerIpAddress: string,
    customerEmail: string,
    customerId: Option<string>,
    reuseSource: bool)

  /** A gateway's configuration: connection parameters and the two policy flags. */
  datatype GatewayConfig = GatewayConfig(
    autoCapture: bool,
    storeCustomer: bool,
    connectionParams: map<string, string>)

  /** A stored card as the gateway lists it. */
  datatype CreditCardInfo = CreditCardInfo(expYear: int, expMonth: int, last4: string, nameOnCard: Option<string>)

  /** A payment source stored for a customer at a gateway. */
  datatype CustomerSource = CustomerSource(id: string, gateway: string, creditCardInfo: CreditCardInfo)
}
