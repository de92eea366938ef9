/**
 * What the bridge promises about its responses and callbacks, stated over the
 * effects each step produces.
 */
module BridgeProperties {
  import opened Wrappers
  import opened CheckoutTypes
  import opened CheckoutDerivations
  import opened CheckoutResponses
  import opened BridgeEffects

  lemma FilterOne(e: Effect, keep: Effect -> bool)
    ensures Filter([e], keep) == if keep(e) then [e] else []
  {
  }

  lemma FilterTwo(e1: Effect, e2: Effect, keep: Effect -> bool)
    ensures Filter([e1, e2], keep) == (if keep(e1) then [e1] else []) + (if keep(e2) then [e2] else [])
  {
  }

  /** The two status payloads differ, so a response tells success from failure. */
  lemma StatusPayloadsDiffer()
    ensures StatusPayloadOf(Success) != StatusPayloadOf(Failure)
  {
  }

  // ---------------------------------------------------------------------------
  // Capability queries

  /** Without Android Pay: no native call, and the caller's callback is told `false` once. */
  lemma CanCheckoutUnsupported(settings: PaymentSettings, pending: Option<CallbackId>, callback: CallbackId)
    requires !SupportsAndroidPay(settings)
    ensures NativeCalls(CanCheckoutEffects(settings, pending, callback)) == []
    ensures Resolutions(CanCheckoutEffects(settings, pending, callback)) == [ResolveCanCheckout(callback, false)]
  {
  }

  /**
   * With Android Pay: one capability call carrying the accepted brands; the
   * callback already waiting, if any, is told `false` exactly once, after the
   * call; the new callback is not resolved.
   */
  lemma CanCheckoutSupported(settings: PaymentSettings, pending: Option<CallbackId>, callback: CallbackId)
    requires SupportsAndroidPay(settings)
    ensures NativeCalls(CanCheckoutEffects(settings, pending, callback))
         == [NativeCall(CanCheckoutWithAndroidPay, [PaymentNetworksArg(settings.acceptedCardBrands)])]
    ensures Resolutions(CanCheckoutEffects(settings, pending, callback))
         == if pending.Some? then [ResolveCanCheckout(pending.value, false)] else []
    ensures CanCheckoutEffects(settings, pending, callback)[0].NativeCall?
  {
    var call := NativeCall(CanCheckoutWithAndroidPay, [PaymentNetworksArg(settings.acceptedCardBrands)]);
    if pending.Some? {
      FilterTwo(call, ResolveCanCheckout(pending.value, false), IsNativeCall);
      FilterTwo(call, ResolveCanCheckout(pending.value, false), IsResolution);
    } else {
      assert CanCheckoutEffects(settings, pending, callback) == [call];
      FilterOne(call, IsNativeCall);
      FilterOne(call, IsResolution);
    }
  }

  // ---------------------------------------------------------------------------
  // Shipping address and shipping line

  /** A failed address update: one error response to the message and one failure callback. */
  lemma ShippingAddressFailure(msg: Message, error: ShopifyError, f: CallbackId, c: CheckoutData)
    ensures ResponsesTo(ShippingAddressSetEffects(msg, Some(error), Some(f), c), msg.id)
         == [Respond(msg.id, ErrorPayload(error))]
    ensures Terminals(ShippingAddressSetEffects(msg, Some(error), Some(f), c)) == [FireFailure(f, error)]
  {
    FilterTwo(Respond(msg.id, ErrorPayload(error)), FireFailure(f, error), e => IsResponseTo(msg.id, e));
    FilterTwo(Respond(msg.id, ErrorPayload(error)), FireFailure(f, error), IsTerminal);
  }

  /**
   * A successful address update answers nothing and calls back nothing
   * itself; it sets the shipping line of the first rate, and does nothing at
   * all when there are no rates.
   */
  lemma ShippingAddressSuccess(msg: Message, f: Option<CallbackId>, c: CheckoutData, id: string)
    ensures ResponsesTo(ShippingAddressSetEffects(msg, None, f, c), id) == []
    ensures Terminals(ShippingAddressSetEffects(msg, None, f, c)) == []
    ensures c.availableShippingRates.Some? && |c.availableShippingRates.value| > 0 ==>
      ShippingAddressSetEffects(msg, None, f, c)
      == [PortCall(SetShippingLine(c.availableShippingRates.value[0].handle))]
    ensures c.availableShippingRates == Some([]) ==> ShippingAddressSetEffects(msg, None, f, c) == []
  {
  }

  /**
   * Setting a shipping line: exactly one response to the message (on
   * success this needs the rates to have been queried). On success it is the event snapshot and no callback runs; on
   * failure it is the error and the failure callback runs once.
   */
  lemma ShippingLineResponse(msg: Message, error: Option<ShopifyError>, f: CallbackId,
                             merchantName: Option<string>, countryCode: Option<string>, c: CheckoutData)
    requires error.Some? || c.availableShippingRates.Some?
    ensures |ResponsesTo(ShippingLineSetEffects(msg, error, Some(f), EventResponse(merchantName, countryCode, c)),
                         msg.id)| == 1
    ensures error.None? ==>
      && ResponsesTo(ShippingLineSetEffects(msg, error, Some(f), EventResponse(merchantName, countryCode, c)), msg.id)
         == [Respond(msg.id, EventPayload(EventResponse(merchantName, countryCode, c).value))]
      && Terminals(ShippingLineSetEffects(msg, error, Some(f), EventResponse(merchantName, countryCode, c))) == []
    ensures error.Some? ==>
      && ResponsesTo(ShippingLineSetEffects(msg, error, Some(f), EventResponse(merchantName, countryCode, c)), msg.id)
         == [Respond(msg.id, ErrorPayload(error.value))]
      && Terminals(ShippingLineSetEffects(msg, error, Some(f), EventResponse(merchantName, countryCode, c)))
         == [FireFailure(f, error.value)]
  {
    var snapshot := EventResponse(merchantName, countryCode, c);
    if error.None? {
      FilterOne(Respond(msg.id, EventPayload(snapshot.value)), e => IsResponseTo(msg.id, e));
      FilterOne(Respond(msg.id, EventPayload(snapshot.value)), IsTerminal);
    } else {
      FilterTwo(Respond(msg.id, ErrorPayload(error.value)), FireFailure(f, error.value), e => IsResponseTo(msg.id, e));
      FilterTwo(Respond(msg.id, ErrorPayload(error.value)), FireFailure(f, error.value), IsTerminal);
    }
  }

  // ---------------------------------------------------------------------------
  // Confirmation and payment

  /**
   * The tokenized payment is attempted only after the email is set, and it
   * carries the current total, the payment's transaction identifier as its
   * idempotency key and the Android Pay type tag.
   */
  lemma ConfirmTokenizedInput(msg: Message, amount: Decimal, payment: NativePayment, f: Option<CallbackId>)
    ensures EmailSetEffects(msg, TokenizedInput(amount, payment), None, f)
         == [PortCall(CheckoutWithTokenizedPayment(TokenizedInput(amount, payment)))]
    ensures TokenizedInput(amount, payment).amount == amount
    ensures TokenizedInput(amount, payment).idempotencyKey == payment.transactionIdentifier
    ensures TokenizedInput(amount, payment).paymentType == "android_pay"
    ensures TokenizedInput(amount, payment).billingAddress == payment.billingAddress
    ensures TokenizedInput(amount, payment).paymentData == payment.paymentData
    ensures TokenizedInput(amount, payment).identifier == payment.identifier
  {
  }

  /** A failed email update: one error response, one failure callback, no payment attempt. */
  lemma EmailFailure(msg: Message, input: TokenizedPaymentInput, error: ShopifyError, f: CallbackId)
    ensures PortCall(CheckoutWithTokenizedPayment(input)) !in EmailSetEffects(msg, input, Some(error), Some(f))
    ensures ResponsesTo(EmailSetEffects(msg, input, Some(error), Some(f)), msg.id)
         == [Respond(msg.id, ErrorPayload(error))]
    ensures Terminals(EmailSetEffects(msg, input, Some(error), Some(f))) == [FireFailure(f, error)]
  {
    FilterTwo(Respond(msg.id, ErrorPayload(error)), FireFailure(f, error), e => IsResponseTo(msg.id, e));
    FilterTwo(Respond(msg.id, ErrorPayload(error)), FireFailure(f, error), IsTerminal);
  }

  /**
   * The tokenized payment's outcome: exactly one status response and exactly
   * one terminal callback, and they agree: `Success` with the success
   * callback, `Failure` with the failure callback and the cart's error.
   */
  lemma TokenizedCheckoutOutcome(msg: Message, error: Option<ShopifyError>, s: CallbackId, f: CallbackId)
    ensures |ResponsesTo(TokenizedCheckoutEffects(msg, error, Some(s), Some(f)), msg.id)| == 1
    ensures |Terminals(TokenizedCheckoutEffects(msg, error, Some(s), Some(f)))| == 1
    ensures ResponsesTo(TokenizedCheckoutEffects(msg, error, Some(s), Some(f)), msg.id)[0].payload
            == StatusPayloadOf(Success)
        <==> Terminals(TokenizedCheckoutEffects(msg, error, Some(s), Some(f)))[0] == FireSuccess(s)
    ensures error.None? ==>
      && ResponsesTo(TokenizedCheckoutEffects(msg, error, Some(s), Some(f)), msg.id)
         == [Respond(msg.id, StatusPayloadOf(Success))]
      && Terminals(TokenizedCheckoutEffects(msg, error, Some(s), Some(f))) == [FireSuccess(s)]
    ensures error.Some? ==>
      && ResponsesTo(TokenizedCheckoutEffects(msg, error, Some(s), Some(f)), msg.id)
         == [Respond(msg.id, StatusPayloadOf(Failure))]
      && Terminals(TokenizedCheckoutEffects(msg, error, Some(s), Some(f))) == [FireFailure(f, error.value)]
  {
    StatusPayloadsDiffer();
    if error.None? {
      FilterTwo(Respond(msg.id, StatusPayloadOf(Success)), FireSuccess(s), e => IsResponseTo(msg.id, e));
      FilterTwo(Respond(msg.id, StatusPayloadOf(Success)), FireSuccess(s), IsTerminal);
    } else {
      FilterTwo(Respond(msg.id, StatusPayloadOf(Failure)), FireFailure(f, error.value), e => IsResponseTo(msg.id, e));
      FilterTwo(Respond(msg.id, StatusPayloadOf(Failure)), FireFailure(f, error.value), IsTerminal);
    }
  }

  // ---------------------------------------------------------------------------
  // Native error and cancel

  /** A native error answers no message and runs the failure callback with the message text. */
  lemma NativeErrorNeverResponds(msg: Message, f: CallbackId, id: string)
    ensures ResponsesTo(NativeErrorEffects(msg, Some(f)), id) == []
    ensures Terminals(NativeErrorEffects(msg, Some(f)))
         == [FireFailure(f, ShopifyError(NativePaymentProcessingError, msg.content))]
  {
  }

  /** A cancel answers no message and runs the cancel callback. */
  lemma CancelNeverResponds(c: CallbackId, id: string)
    ensures ResponsesTo(CancelEffects(Some(c)), id) == []
    ensures Terminals(CancelEffects(Some(c))) == [FireCanceled(c)]
  {
  }

  /**
   * A cancel does not stop a cart completion still in flight: a tokenized
   * payment finishing after the cancel still answers the message and runs
   * its own terminal callback, so the session sees two terminal callbacks.
   */
  lemma CancelDoesNotSuppressCompletion(c: CallbackId, msg: Message, error: Option<ShopifyError>,
                                        s: CallbackId, f: CallbackId)
    ensures |Terminals(CancelEffects(Some(c)) + TokenizedCheckoutEffects(msg, error, Some(s), Some(f)))| == 2
    ensures Terminals(CancelEffects(Some(c)) + TokenizedCheckoutEffects(msg, error, Some(s), Some(f)))[0]
         == FireCanceled(c)
    ensures |ResponsesTo(CancelEffects(Some(c)) + TokenizedCheckoutEffects(msg, error, Some(s), Some(f)), msg.id)| == 1
  {
    var completion := TokenizedCheckoutEffects(msg, error, Some(s), Some(f));
    FilterAppend(CancelEffects(Some(c)), completion, IsTerminal);
    FilterAppend(CancelEffects(Some(c)), completion, e => IsResponseTo(msg.id, e));
    CancelNeverResponds(c, msg.id);
    TokenizedCheckoutOutcome(msg, error, s, f);
  }

  // ---------------------------------------------------------------------------
  // A whole shipping-address event

  /**
   * A shipping-address event whose address is accepted and whose default
   * line is then set (the checkout having rates): over the whole exchange the
   * message gets exactly one response, and a callback runs only on failure.
   */
  lemma ShippingAddressEventRespondsOnce(msg: Message, address: MailingAddress, lineError: Option<ShopifyError>,
                                         f: CallbackId, afterAddress: CheckoutData, afterLine: CheckoutData,
                                         merchantName: Option<string>, countryCode: Option<string>)
    requires afterAddress.availableShippingRates.Some? && |afterAddress.availableShippingRates.value| > 0
    requires lineError.Some? || afterLine.availableShippingRates.Some?
    ensures var exchange := [PortCall(SetShippingAddress(address))]
                            + ShippingAddressSetEffects(msg, None, Some(f), afterAddress)
                            + ShippingLineSetEffects(msg, lineError, Some(f),
                                                     EventResponse(merchantName, countryCode, afterLine));
            && |ResponsesTo(exchange, msg.id)| == 1
            && |Terminals(exchange)| == (if lineError.None? then 0 else 1)
  {
    var call := [PortCall(SetShippingAddress(address))];
    var addressSet := ShippingAddressSetEffects(msg, None, Some(f), afterAddress);
    var lineSet := ShippingLineSetEffects(msg, lineError, Some(f), EventResponse(merchantName, countryCode, afterLine));
    FilterOne(PortCall(SetShippingAddress(address)), e => IsResponseTo(msg.id, e));
    FilterOne(PortCall(SetShippingAddress(address)), IsTerminal);
    ShippingAddressSuccess(msg, Some(f), afterAddress, msg.id);
    ShippingLineResponse(msg, lineError, f, merchantName, countryCode, afterLine);
    FilterAppend(call, addressSet, e => IsResponseTo(msg.id, e));
    FilterAppend(call + addressSet, lineSet, e => IsResponseTo(msg.id, e));
    FilterAppend(call, addressSet, IsTerminal);
    FilterAppend(call + addressSet, lineSet, IsTerminal);
  }

  /**
   * Two rates, Standard (h1) then Express (h2): the accepted address selects
   * Standard, and the snapshot lists both methods in the cart's order.
   */
  lemma TwoRateScenario(msg: Message, f: Option<CallbackId>, c: CheckoutData,
                        merchantName: Option<string>, countryCode: Option<string>)
    requires c.requiresShipping
    requires c.availableShippingRates
          == Some([ShippingRate("Standard", 5.0, "h1"), ShippingRate("Express", 15.0, "h2")])
    ensures ShippingAddressSetEffects(msg, None, f, c) == [PortCall(SetShippingLine("h1"))]
    ensures EventResponse(merchantName, countryCode, c).Ok?
    ensures EventResponse(merchantName, countryCode, c).value.shippingMethods
         == [ShippingMethod("Standard", 5.0, "h1"), ShippingMethod("Express", 15.0, "h2")]
  {
  }
}
