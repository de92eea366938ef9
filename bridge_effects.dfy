/**
 * What the bridge does to the outside world, recorded as effects: calls into
 * the native plugin, calls into the cart, responses to native messages,
 * invocations of the application's callbacks and exceptions. For each handler
 * and each cart completion, a function gives the effects it produces.
 */
module BridgeEffects {
  import opened Wrappers
  import opened CheckoutTypes
  import opened CheckoutDerivations
  import opened CheckoutResponses

  /** Names of the native plugin's methods. */
  const CanCheckoutWithAndroidPay := "canCheckoutWithAndroidPay"
  const CheckoutWithAndroidPay := "checkoutWithAndroidPay"

  /** The payment type tag of every tokenized input this bridge builds. */
  const AndroidPayPaymentType := "android_pay"

  /**
   * A positional argument of a native call. `PaymentNetworksArg` stands for the
   * JSON list of payment networks derived from the accepted card brands.
   */
  datatype NativeArg =
    | StringArg(text: string)
    | BoolArg(flag: bool)
    | PricingArg(items: PricingLineItems)
    | PaymentNetworksArg(brands: seq<CardBrand>)

  /** An asynchronous operation of the cart port. */
  datatype PortOp =
    | SetShippingAddress(address: MailingAddress)
    | SetShippingLine(handle: string)
    | SetEmailAddress(email: string)
    | CheckoutWithTokenizedPayment(input: TokenizedPaymentInput)

  /** The body of a response to a native message. */
  datatype Payload =
    | EventPayload(response: AndroidPayEventResponse)
    | StatusPayload(json: map<string, string>)
    | ErrorPayload(error: ShopifyError)

  datatype Effect =
    | NativeCall(name: string, args: seq<NativeArg>)
    | AttachEventBridge
    | PortCall(op: PortOp)
    | Respond(msgId: string, payload: Payload)
    | ResolveCanCheckout(callback: CallbackId, available: bool)
    | FireSuccess(callback: CallbackId)
    | FireCanceled(callback: CallbackId)
    | FireFailure(callback: CallbackId, error: ShopifyError)
    | Raise(exception: Exception)

  /**
   * The completion the bridge hands to a cart operation (the C# lambda and
   * what it captured); the cart later runs it with its outcome.
   */
  datatype Continuation =
    | AfterShippingAddress(message: Message)
    | AfterShippingLine(message: Message)
    | AfterEmail(message: Message, input: TokenizedPaymentInput)
    | AfterTokenizedCheckout(message: Message)

  // ---------------------------------------------------------------------------
  // Observing a trace

  /** The effects of `es` that `keep` selects, in order. */
  function Filter(es: seq<Effect>, keep: Effect -> bool): (kept: seq<Effect>)
    ensures |kept| <= |es|
    ensures forall e :: e in kept ==> e in es && keep(e)
  {
    if es == [] then []
    else (if keep(es[0]) then [es[0]] else []) + Filter(es[1..], keep)
  }

  lemma {:induction false} FilterAppend(a: seq<Effect>, b: seq<Effect>, keep: Effect -> bool)
    ensures Filter(a + b, keep) == Filter(a, keep) + Filter(b, keep)
  {
    if a == [] {
      assert a + b == b;
    } else {
      assert (a + b)[0] == a[0];
      assert (a + b)[1..] == a[1..] + b;
      FilterAppend(a[1..], b, keep);
    }
  }

  predicate IsResponseTo(id: string, e: Effect)
  {
    e.Respond? && e.msgId == id
  }

  predicate IsTerminal(e: Effect)
  {
    e.FireSuccess? || e.FireCanceled? || e.FireFailure?
  }

  predicate IsNativeCall(e: Effect)
  {
    e.NativeCall?
  }

  predicate IsResolution(e: Effect)
  {
    e.ResolveCanCheckout?
  }

  /** The responses to the message with this id. */
  function ResponsesTo(es: seq<Effect>, id: string): seq<Effect>
  {
    Filter(es, e => IsResponseTo(id, e))
  }

  /** The invocations of the session's success, cancel and failure callbacks. */
  function Terminals(es: seq<Effect>): seq<Effect>
  {
    Filter(es, IsTerminal)
  }

  function NativeCalls(es: seq<Effect>): seq<Effect>
  {
    Filter(es, IsNativeCall)
  }

  /** The invocations of capability-query callbacks. */
  function Resolutions(es: seq<Effect>): seq<Effect>
  {
    Filter(es, IsResolution)
  }

  // ---------------------------------------------------------------------------
  // Invoking a stored delegate: a null one raises

  function Succeed(slot: Option<CallbackId>): Effect
  {
    if slot.Some? then FireSuccess(slot.value) else Raise(NullCallback)
  }

  function Cancel(slot: Option<CallbackId>): Effect
  {
    if slot.Some? then FireCanceled(slot.value) else Raise(NullCallback)
  }

  function Fail(slot: Option<CallbackId>, error: ShopifyError): Effect
  {
    if slot.Some? then FireFailure(slot.value, error) else Raise(NullCallback)
  }

  // ---------------------------------------------------------------------------
  // The effects of each step

  function SupportsAndroidPay(settings: PaymentSettings): bool
  {
    AndroidPay in settings.supportedDigitalWallets
  }

  /** A capability query: the native call and the resolution of the one it displaces. */
  function CanCheckoutEffects(settings: PaymentSettings, pending: Option<CallbackId>, callback: CallbackId)
    : seq<Effect>
  {
    if SupportsAndroidPay(settings) then
      [NativeCall(CanCheckoutWithAndroidPay, [PaymentNetworksArg(settings.acceptedCardBrands)])]
      + (if pending.Some? then [ResolveCanCheckout(pending.value, false)] else [])
    else
      [ResolveCanCheckout(callback, false)]
  }

  /** A failed cart operation: an error response, then the failure callback. */
  function FailureEffects(msg: Message, error: ShopifyError, onFailure: Option<CallbackId>): seq<Effect>
  {
    [Respond(msg.id, ErrorPayload(error)), Fail(onFailure, error)]
  }

  /** Selecting the default shipping line: set the first method's line, if any. */
  function DefaultLineEffects(c: CheckoutData): seq<Effect>
  {
    match c.availableShippingRates
    case None => [Raise(ShippingRatesNotQueried)]
    case Some(rates) =>
      match DefaultShippingMethod(ShippingMethodsOf(rates))
      case None => []
      case Some(m) => [PortCall(SetShippingLine(m.identifier))]
  }

  function ShippingAddressSetEffects(msg: Message, error: Option<ShopifyError>,
                                     onFailure: Option<CallbackId>, c: CheckoutData): seq<Effect>
  {
    if error.None? then DefaultLineEffects(c) else FailureEffects(msg, error.value, onFailure)
  }

  function ShippingLineSetEffects(msg: Message, error: Option<ShopifyError>, onFailure: Option<CallbackId>,
                                  snapshot: Result<AndroidPayEventResponse, Exception>): seq<Effect>
  {
    if error.Some? then FailureEffects(msg, error.value, onFailure)
    else if snapshot.Ok? then [Respond(msg.id, EventPayload(snapshot.value))]
    else [Raise(snapshot.error)]
  }

  /** The tokenized payment built on confirmation. */
  function TokenizedInput(amount: Decimal, payment: NativePayment): TokenizedPaymentInput
  {
    TokenizedPaymentInput(amount, payment.billingAddress, payment.transactionIdentifier,
                          payment.paymentData, payment.identifier, AndroidPayPaymentType)
  }

  function EmailSetEffects(msg: Message, input: TokenizedPaymentInput, error: Option<ShopifyError>,
                           onFailure: Option<CallbackId>): seq<Effect>
  {
    if error.None? then [PortCall(CheckoutWithTokenizedPayment(input))]
    else FailureEffects(msg, error.value, onFailure)
  }

  function StatusPayloadOf(status: Status): Payload
  {
    StatusPayload(AndroidPayCheckoutResponse(status).ToJson())
  }

  function TokenizedCheckoutEffects(msg: Message, error: Option<ShopifyError>,
                                    onSuccess: Option<CallbackId>, onFailure: Option<CallbackId>): seq<Effect>
  {
    if error.None? then [Respond(msg.id, StatusPayloadOf(Success)), Succeed(onSuccess)]
    else [Respond(msg.id, StatusPayloadOf(Failure)), Fail(onFailure, error.value)]
  }

  function NativeErrorEffects(msg: Message, onFailure: Option<CallbackId>): seq<Effect>
  {
    [Fail(onFailure, ShopifyError(NativePaymentProcessingError, msg.content))]
  }

  function CancelEffects(onCanceled: Option<CallbackId>): seq<Effect>
  {
    [Cancel(onCanceled)]
  }

  /** What running a cart completion produces, given the bridge's stored state. */
  function CompletionEffects(k: Continuation, error: Option<ShopifyError>, c: CheckoutData,
                             merchantName: Option<string>, countryCode: Option<string>,
                             onSuccess: Option<CallbackId>, onFailure: Option<CallbackId>): seq<Effect>
  {
    match k
    case AfterShippingAddress(msg) => ShippingAddressSetEffects(msg, error, onFailure, c)
    case AfterShippingLine(msg) =>
      ShippingLineSetEffects(msg, error, onFailure, EventResponse(merchantName, countryCode, c))
    case AfterEmail(msg, input) => EmailSetEffects(msg, input, error, onFailure)
    case AfterTokenizedCheckout(msg) => TokenizedCheckoutEffects(msg, error, onSuccess, onFailure)
  }

  /** The cart operation a completion leads to next, if any. */
  function NextContinuation(k: Continuation, error: Option<ShopifyError>, c: CheckoutData): Option<Continuation>
  {
    match k
    case AfterShippingAddress(msg) =>
      if error.None? && c.availableShippingRates.Some? && |c.availableShippingRates.value| > 0
      then Some(AfterShippingLine(msg)) else None
    case AfterEmail(msg, input) =>
      if error.None? then Some(AfterTokenizedCheckout(msg)) else None
    case _ => None
  }
}
