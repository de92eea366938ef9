/**
 * The Android native-checkout controller. It keeps one pending capability
 * query, the current session's terminal callbacks, the merchant name and
 * country code, and reacts to the native plugin's events by calling the cart
 * and answering the plugin. Every outward action is appended to `trace`.
 *
 * The cart's asynchronous operations are modelled by the `Continuation` a
 * handler hands to the cart; the cart later runs it through `Complete` with
 * its outcome (`None` for success) and its checkout as it then stands.
 */
module NativeCheckout {
  import opened Wrappers
  import opened CheckoutTypes
  import opened CheckoutDerivations
  import opened CheckoutResponses
  import opened BridgeEffects

  class AndroidNativeCheckout {
    /** The capability-query callback waiting for the plugin's answer. */
    var pending: Option<CallbackId>
    /** The current session's callbacks; null until the first checkout. */
    var onSuccess: Option<CallbackId>
    var onCanceled: Option<CallbackId>
    var onFailure: Option<CallbackId>
    var merchantName: Option<string>
    var countryCode: Option<string>
    /** Whether the receiver of the plugin's events has been attached. */
    var bridgeAttached: bool
    /** Everything the controller has done to the outside world, in order. */
    var trace: seq<Effect>

    /**
     * The event bridge is attached exactly when a checkout has started, and
     * at most once; a started checkout has stored all its callbacks and
     * shop data.
     */
    ghost predicate Valid()
      reads this
    {
      && multiset(trace)[AttachEventBridge] == (if bridgeAttached then 1 else 0)
      && onSuccess.Some? == bridgeAttached
      && onCanceled.Some? == bridgeAttached
      && onFailure.Some? == bridgeAttached
      && merchantName.Some? == bridgeAttached
      && countryCode.Some? == bridgeAttached
    }

    constructor ()
      ensures Valid()
      ensures pending == None && !bridgeAttached && trace == []
    {
      pending := None;
      onSuccess, onCanceled, onFailure := None, None, None;
      merchantName, countryCode := None, None;
      bridgeAttached := false;
      trace := [];
    }

    /**
     * Asks the plugin whether Android Pay is usable. Without Android Pay
     * support the callback is told `false` at once; otherwise the plugin is
     * asked, a callback already waiting is told `false`, and the new one
     * takes its place.
     */
    method CanCheckout(settings: PaymentSettings, callback: CallbackId)
      requires Valid()
      modifies this`pending, this`trace
      ensures Valid()
      ensures trace == old(trace) + CanCheckoutEffects(settings, old(pending), callback)
      ensures pending == if SupportsAndroidPay(settings) then Some(callback) else old(pending)
    {
      if AndroidPay in settings.supportedDigitalWallets {
        trace := trace + [NativeCall(CanCheckoutWithAndroidPay, [PaymentNetworksArg(settings.acceptedCardBrands)])];
        if pending.Some? {
          trace := trace + [ResolveCanCheckout(pending.value, false)];
        }
        pending := Some(callback);
      } else {
        trace := trace + [ResolveCanCheckout(callback, false)];
      }
    }

    /**
     * Starts a native checkout: stores the session's callbacks, merchant name
     * and country code, asks the plugin to start, and attaches the event
     * bridge if this is the first checkout.
     */
    method Checkout(key: string, shop: ShopMetadata, success: CallbackId, canceled: CallbackId,
                    failure: CallbackId, current: CheckoutData)
      requires Valid()
      modifies this`onSuccess, this`onCanceled, this`onFailure, this`merchantName, this`countryCode,
               this`bridgeAttached, this`trace
      ensures Valid() && bridgeAttached
      ensures onSuccess == Some(success) && onCanceled == Some(canceled) && onFailure == Some(failure)
      ensures merchantName == Some(shop.name) && countryCode == Some(shop.paymentSettings.countryCode)
      ensures trace == old(trace)
                      + [NativeCall(CheckoutWithAndroidPay,
                                    [StringArg(shop.name), StringArg(key),
                                     PricingArg(PricingLineItemsFromCheckout(current)),
                                     StringArg(current.currencyCode), StringArg(shop.paymentSettings.countryCode),
                                     BoolArg(current.requiresShipping)])]
                      + (if old(bridgeAttached) then [] else [AttachEventBridge])
    {
      onSuccess := Some(success);
      onCanceled := Some(canceled);
      onFailure := Some(failure);
      merchantName := Some(shop.name);
      var pricingLineItems := PricingLineItemsFromCheckout(current);
      countryCode := Some(shop.paymentSettings.countryCode);
      var args := [StringArg(shop.name), StringArg(key), PricingArg(pricingLineItems),
                   StringArg(current.currencyCode), StringArg(shop.paymentSettings.countryCode),
                   BoolArg(current.requiresShipping)];
      trace := trace + [NativeCall(CheckoutWithAndroidPay, args)];
      if !bridgeAttached {
        trace := trace + [AttachEventBridge];
        bridgeAttached := true;
      }
    }

    /** The snapshot sent after a shipping line is set. */
    method GetAndroidPayEventResponse(current: CheckoutData)
      returns (r: Result<AndroidPayEventResponse, Exception>)
      ensures r == EventResponse(merchantName, countryCode, current)
      ensures r.Ok? <==> current.availableShippingRates.Some?
      ensures r.Ok? ==> && r.value.merchantName == merchantName && r.value.countryCode == countryCode
                        && r.value.currencyCode == current.currencyCode
                        && r.value.requiresShipping == current.requiresShipping
                        && r.value.pricingLineItems == PricingLineItemsFromCheckout(current)
                        && r.value.shippingMethods == ShippingMethodsOf(current.availableShippingRates.value)
    {
      var pricingLineItems := PricingLineItemsFromCheckout(current);
      var shippingMethods := GetShippingMethods(current);
      if shippingMethods.Err? {
        return Err(shippingMethods.error);
      }
      r := Ok(AndroidPayEventResponse(merchantName, pricingLineItems, current.currencyCode,
                                      countryCode, current.requiresShipping, shippingMethods.value));
    }

    // -------------------------------------------------------------------------
    // Events from the plugin

    /**
     * The plugin's answer to a capability query: the waiting callback gets
     * the answer and the slot is cleared. With no callback waiting the call
     * raises.
     */
    method OnCanCheckoutWithAndroidPayResult(available: bool)
      requires Valid()
      modifies this`pending, this`trace
      ensures Valid()
      ensures pending == None
      ensures trace == old(trace) + [if old(pending).Some? then ResolveCanCheckout(old(pending).value, available)
                                     else Raise(NullCallback)]
    {
      if pending.None? {
        trace := trace + [Raise(NullCallback)];
        return;
      }
      trace := trace + [ResolveCanCheckout(pending.value, available)];
      pending := None;
    }

    /** A new shipping address: hand it to the cart. */
    method OnUpdateShippingAddress(msg: Message, address: MailingAddress) returns (k: Continuation)
      requires Valid()
      modifies this`trace
      ensures Valid()
      ensures trace == old(trace) + [PortCall(SetShippingAddress(address))]
      ensures k == AfterShippingAddress(msg)
    {
      trace := trace + [PortCall(SetShippingAddress(address))];
      k := AfterShippingAddress(msg);
    }

    /** A shipping method chosen on the native side. */
    method OnUpdateShippingLine(msg: Message, shippingMethod: ShippingMethod) returns (k: Continuation)
      requires Valid()
      modifies this`trace
      ensures Valid()
      ensures trace == old(trace) + [PortCall(SetShippingLine(shippingMethod.identifier))]
      ensures k == AfterShippingLine(msg)
    {
      k := UpdateShippingLine(shippingMethod, msg);
    }

    /**
     * The user confirmed: build the tokenized payment from the current total
     * and the native payment, then set the buyer's email.
     */
    method OnConfirmCheckout(msg: Message, payment: NativePayment, current: CheckoutData) returns (k: Continuation)
      requires Valid()
      modifies this`trace
      ensures Valid()
      ensures trace == old(trace) + [PortCall(SetEmailAddress(payment.email))]
      ensures k == AfterEmail(msg, TokenizedInput(current.totalPrice, payment))
      ensures k.input.amount == current.totalPrice
      ensures k.input.idempotencyKey == payment.transactionIdentifier
      ensures k.input.paymentType == AndroidPayPaymentType
      ensures k.input.billingAddress == payment.billingAddress
      ensures k.input.paymentData == payment.paymentData && k.input.identifier == payment.identifier
    {
      var input := TokenizedInput(current.totalPrice, payment);
      trace := trace + [PortCall(SetEmailAddress(payment.email))];
      k := AfterEmail(msg, input);
    }

    /** A failure on the native side, reported to the session's failure callback only. */
    method OnError(msg: Message)
      requires Valid()
      modifies this`trace
      ensures Valid()
      ensures trace == old(trace) + NativeErrorEffects(msg, onFailure)
    {
      trace := trace + [Fail(onFailure, ShopifyError(NativePaymentProcessingError, msg.content))];
    }

    /** The user canceled: the cancel callback runs, whatever the message. */
    method OnCancel(msg: Message)
      requires Valid()
      modifies this`trace
      ensures Valid()
      ensures trace == old(trace) + CancelEffects(onCanceled)
    {
      trace := trace + [Cancel(onCanceled)];
    }

    // -------------------------------------------------------------------------
    // Steps shared by the handlers

    /** Pay with the tokenized input. */
    method PerformCheckout(input: TokenizedPaymentInput, msg: Message) returns (k: Continuation)
      requires Valid()
      modifies this`trace
      ensures Valid()
      ensures trace == old(trace) + [PortCall(CheckoutWithTokenizedPayment(input))]
      ensures k == AfterTokenizedCheckout(msg)
    {
      trace := trace + [PortCall(CheckoutWithTokenizedPayment(input))];
      k := AfterTokenizedCheckout(msg);
    }

    /** Select the first available shipping method; none available, nothing happens. */
    method UpdateShippingLineWithDefault(msg: Message, current: CheckoutData) returns (next: Option<Continuation>)
      requires Valid()
      modifies this`trace
      ensures Valid()
      ensures trace == old(trace) + DefaultLineEffects(current)
      ensures next == NextContinuation(AfterShippingAddress(msg), None, current)
    {
      var shippingMethods := GetShippingMethods(current);
      if shippingMethods.Err? {
        trace := trace + [Raise(shippingMethods.error)];
        return None;
      }
      if |shippingMethods.value| > 0 {
        var k := UpdateShippingLine(shippingMethods.value[0], msg);
        return Some(k);
      }
      return None;
    }

    /** Set the shipping line by the method's identifier. */
    method UpdateShippingLine(shippingMethod: ShippingMethod, msg: Message) returns (k: Continuation)
      requires Valid()
      modifies this`trace
      ensures Valid()
      ensures trace == old(trace) + [PortCall(SetShippingLine(shippingMethod.identifier))]
      ensures k == AfterShippingLine(msg)
    {
      trace := trace + [PortCall(SetShippingLine(shippingMethod.identifier))];
      k := AfterShippingLine(msg);
    }

    method RespondError(msg: Message, error: ShopifyError)
      requires Valid()
      modifies this`trace
      ensures Valid()
      ensures trace == old(trace) + [Respond(msg.id, ErrorPayload(error))]
    {
      trace := trace + [Respond(msg.id, ErrorPayload(error))];
    }

    // -------------------------------------------------------------------------
    // Completions of the cart's operations

    /** Runs a completion the cart was handed; nothing suppresses it, not even a cancel. */
    method Complete(k: Continuation, error: Option<ShopifyError>, current: CheckoutData)
      returns (next: Option<Continuation>)
      requires Valid()
      modifies this`trace
      ensures Valid()
      ensures trace == old(trace) + CompletionEffects(k, error, current, merchantName, countryCode,
                                                      onSuccess, onFailure)
      ensures next == NextContinuation(k, error, current)
    {
      match k
      case AfterShippingAddress(msg) =>
        next := CompleteShippingAddress(msg, error, current);
      case AfterShippingLine(msg) =>
        CompleteShippingLine(msg, error, current);
        next := None;
      case AfterEmail(msg, input) =>
        next := CompleteEmail(msg, input, error);
      case AfterTokenizedCheckout(msg) =>
        CompleteTokenizedCheckout(msg, error);
        next := None;
    }

    /** The shipping address was set (or not). */
    method CompleteShippingAddress(msg: Message, error: Option<ShopifyError>, current: CheckoutData)
      returns (next: Option<Continuation>)
      requires Valid()
      modifies this`trace
      ensures Valid()
      ensures trace == old(trace) + ShippingAddressSetEffects(msg, error, onFailure, current)
      ensures next == NextContinuation(AfterShippingAddress(msg), error, current)
    {
      if error.None? {
        next := UpdateShippingLineWithDefault(msg, current);
      } else {
        RespondError(msg, error.value);
        trace := trace + [Fail(onFailure, error.value)];
        next := None;
      }
    }

    /** The shipping line was set (or not). */
    method CompleteShippingLine(msg: Message, error: Option<ShopifyError>, current: CheckoutData)
      requires Valid()
      modifies this`trace
      ensures Valid()
      ensures trace == old(trace) + ShippingLineSetEffects(msg, error, onFailure,
                                                           EventResponse(merchantName, countryCode, current))
    {
      if error.None? {
        var response := GetAndroidPayEventResponse(current);
        if response.Err? {
          trace := trace + [Raise(response.error)];
        } else {
          trace := trace + [Respond(msg.id, EventPayload(response.value))];
        }
      } else {
        RespondError(msg, error.value);
        trace := trace + [Fail(onFailure, error.value)];
      }
    }

    /** The buyer's email was set (or not). */
    method CompleteEmail(msg: Message, input: TokenizedPaymentInput, error: Option<ShopifyError>)
      returns (next: Option<Continuation>)
      requires Valid()
      modifies this`trace
      ensures Valid()
      ensures trace == old(trace) + EmailSetEffects(msg, input, error, onFailure)
      ensures next == (if error.None? then Some(AfterTokenizedCheckout(msg)) else None)
    {
      if error.None? {
        var k := PerformCheckout(input, msg);
        next := Some(k);
      } else {
        RespondError(msg, error.value);
        trace := trace + [Fail(onFailure, error.value)];
        next := None;
      }
    }

    /** The tokenized checkout finished: answer with its status and run the matching callback. */
    method CompleteTokenizedCheckout(msg: Message, error: Option<ShopifyError>)
      requires Valid()
      modifies this`trace
      ensures Valid()
      ensures trace == old(trace) + TokenizedCheckoutEffects(msg, error, onSuccess, onFailure)
    {
      if error.None? {
        var status := Success;
        trace := trace + [Respond(msg.id, StatusPayload(AndroidPayCheckoutResponse(status).ToJson()))];
        trace := trace + [Succeed(onSuccess)];
      } else {
        var status := Failure;
        trace := trace + [Respond(msg.id, StatusPayload(AndroidPayCheckoutResponse(status).ToJson()))];
        trace := trace + [Fail(onFailure, error.value)];
      }
    }
  }
}
