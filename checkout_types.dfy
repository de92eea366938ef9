/**
 * The values the Android native-checkout bridge reads and produces: the shop's
 * payment settings, the fields of the cart's current checkout that the bridge
 * reads, the payloads parsed from native messages and the values sent back.
 * JSON text is not modelled: every payload is already in its parsed form.
 */
module CheckoutTypes {
  import opened Wrappers

  /** A C# `decimal` price. The bridge only copies prices, it never computes with them. */
  type Decimal = real

  /** The identity of a delegate the application handed to the bridge. */
  type CallbackId = nat

  /** The wallets a shop may support; only Android Pay matters to this bridge. */
  datatype DigitalWallet = AndroidPay | OtherWallet(name: string)

  type CardBrand = string

  /** The shop's payment settings; `countryCode` is the enum's "G" name. */
  datatype PaymentSettings = PaymentSettings(
    supportedDigitalWallets: seq<DigitalWallet>,
    acceptedCardBrands: seq<CardBrand>,
    countryCode: string)

  datatype ShopMetadata = ShopMetadata(name: string, paymentSettings: PaymentSettings)

  /** One entry of the checkout's available shipping rates. */
  datatype ShippingRate = ShippingRate(title: string, price: Decimal, handle: string)

  /**
   * The fields of the cart's current `Checkout` that the bridge reads.
   * `shippingLinePrice` is None when reading the shipping line's price throws
   * (no line selected, or the field was not queried); `availableShippingRates`
   * is None when the rates were not queried, which makes reading them throw.
   */
  datatype CheckoutData = CheckoutData(
    totalTax: Decimal,
    subtotalPrice: Decimal,
    totalPrice: Decimal,
    currencyCode: string,
    requiresShipping: bool,
    shippingLinePrice: Option<Decimal>,
    availableShippingRates: Option<seq<ShippingRate>>)

  /** A shipping method as exchanged with the native side; `identifier` is the rate's handle. */
  datatype ShippingMethod = ShippingMethod(title: string, price: Decimal, identifier: string)

  /** The pricing summary; an absent shipping price is distinct from a zero one. */
  datatype PricingLineItems = PricingLineItems(
    taxPrice: Decimal,
    subtotal: Decimal,
    totalPrice: Decimal,
    shippingPrice: Option<Decimal>)

  /** The snapshot sent to the native side after a shipping line is set. */
  datatype AndroidPayEventResponse = AndroidPayEventResponse(
    merchantName: Option<string>,
    pricingLineItems: PricingLineItems,
    currencyCode: string,
    countryCode: Option<string>,
    requiresShipping: bool,
    shippingMethods: seq<ShippingMethod>)

  /** A mailing address as the dictionary parsed from a native message. */
  datatype MailingAddress = MailingAddress(fields: map<string, string>)

  /** The payment parsed from a confirm-checkout message. */
  datatype NativePayment = NativePayment(
    billingAddress: MailingAddress,
    email: string,
    paymentData: string,
    transactionIdentifier: string,
    identifier: string)

  /** The input of the cart's tokenized-payment checkout. */
  datatype TokenizedPaymentInput = TokenizedPaymentInput(
    amount: Decimal,
    billingAddress: MailingAddress,
    idempotencyKey: string,
    paymentData: string,
    identifier: string,
    paymentType: string)

  /** A native message: the response to it is paired with it by `id`. */
  datatype Message = Message(id: string, content: string)

  /** The kind of a `ShopifyError`; kinds other than the native one come from the cart. */
  datatype ErrorType = NativePaymentProcessingError | OtherErrorType(name: string)

  datatype ShopifyError = ShopifyError(errorType: ErrorType, description: string)

  /** Exceptions the bridge itself raises. */
  datatype Exception =
    | NullCallback             // a delegate field is null when invoked
    | ShippingRatesNotQueried  // the current checkout has no available shipping rates
}
